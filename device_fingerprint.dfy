/**
 * Device identification from request headers: a SHA-256 fingerprint of nine
 * headers, a positional similarity between two fingerprints, and a readable
 * device string. The hash function is a parameter.
 */
module DeviceFingerprint {
  import opened Common
  import opened Requests
  import Jwt

  /** The headers the fingerprint covers, in order. */
  const FINGERPRINT_HEADERS: seq<string> := [
    "user-agent", "accept-language", "accept-encoding", "accept", "connection",
    "upgrade-insecure-requests", "sec-fetch-dest", "sec-fetch-mode", "sec-fetch-site"]

  /** The nine header values ("" when missing) joined by "|". */
  function FingerprintString(req: Request): string {
    var values := seq(|FINGERPRINT_HEADERS|, (i: int) requires 0 <= i < |FINGERPRINT_HEADERS| =>
      OrElse(Header(req, FINGERPRINT_HEADERS[i]), ""));
    Join(values, "|")
  }

  /** `generateDeviceFingerprint`: the hash of the joined header values. */
  function GenerateDeviceFingerprint(req: Request, sha256: string -> string): (r: string)
    ensures r == sha256(FingerprintString(req))
  {
    sha256(FingerprintString(req))
  }

  /** Two requests that agree on the nine headers get the same fingerprint, whatever else differs. */
  lemma SameHeadersSameFingerprint(a: Request, b: Request, sha256: string -> string)
    requires forall h :: h in FINGERPRINT_HEADERS ==> Header(a, h) == Header(b, h)
    ensures GenerateDeviceFingerprint(a, sha256) == GenerateDeviceFingerprint(b, sha256)
  {
    var va := seq(|FINGERPRINT_HEADERS|, (i: int) requires 0 <= i < |FINGERPRINT_HEADERS| =>
      OrElse(Header(a, FINGERPRINT_HEADERS[i]), ""));
    var vb := seq(|FINGERPRINT_HEADERS|, (i: int) requires 0 <= i < |FINGERPRINT_HEADERS| =>
      OrElse(Header(b, FINGERPRINT_HEADERS[i]), ""));
    forall i | 0 <= i < |FINGERPRINT_HEADERS|
      ensures va[i] == vb[i]
    {
      assert FINGERPRINT_HEADERS[i] in FINGERPRINT_HEADERS;
    }
    assert va == vb;
  }

  /** A similarity in [0, 1], or NaN from the division 0 / 0. */
  datatype Similarity = Ratio(value: real) | NaN

  /** Positions below `n` where the two strings hold the same character. */
  function PositionalMatches(a: string, b: string, n: nat): (m: nat)
    requires n <= |a| && n <= |b|
    ensures m <= n
  {
    if n == 0 then 0
    else PositionalMatches(a, b, n - 1) + (if a[n - 1] == b[n - 1] then 1 else 0)
  }

  /** `compareDeviceFingerprints`: 1 for equal strings, else the share of matching positions. */
  method CompareDeviceFingerprints(fingerprint1: string, fingerprint2: string) returns (r: Similarity)
    ensures fingerprint1 == fingerprint2 ==> r == Ratio(1.0)
    ensures fingerprint1 != fingerprint2 && Min(|fingerprint1|, |fingerprint2|) == 0 ==> r == NaN
    ensures fingerprint1 != fingerprint2 && Min(|fingerprint1|, |fingerprint2|) > 0 ==>
      var length := Min(|fingerprint1|, |fingerprint2|);
      r == Ratio(PositionalMatches(fingerprint1, fingerprint2, length) as real / length as real)
    ensures r.Ratio? ==> 0.0 <= r.value <= 1.0
  {
    if fingerprint1 == fingerprint2 {
      return Ratio(1.0);
    }
    var matches := 0;
    var length := Min(|fingerprint1|, |fingerprint2|);
    var i := 0;
    while i < length
      invariant 0 <= i <= length
      invariant matches == PositionalMatches(fingerprint1, fingerprint2, i)
    {
      if fingerprint1[i] == fingerprint2[i] {
        matches := matches + 1;
      }
      i := i + 1;
    }
    if length == 0 {
      r := NaN;
    } else {
      ShareInUnit(matches, length);
      r := Ratio(matches as real / length as real);
    }
  }

  /** A count out of a positive total is a share between 0 and 1. */
  lemma ShareInUnit(m: nat, n: nat)
    requires 0 < n && m <= n
    ensures 0.0 <= m as real / n as real <= 1.0
  {
    var q := m as real / n as real;
    assert q * n as real == m as real;
  }

  /** A string matches itself at every position, so a prefix comparison scores 1. */
  lemma {:induction false} PrefixMatchesFully(a: string, b: string, n: nat)
    requires n <= |a| && n <= |b| && a[..n] == b[..n]
    ensures PositionalMatches(a, b, n) == n
  {
    if n > 0 {
      assert a[n - 1] == a[..n][n - 1] == b[..n][n - 1] == b[n - 1];
      assert a[..n - 1] == a[..n][..n - 1];
      assert b[..n - 1] == b[..n][..n - 1];
      PrefixMatchesFully(a, b, n - 1);
    }
  }

  /** `getDeviceInfoString`: user agent (default "Unknown") and language joined by " | ". */
  function GetDeviceInfoString(req: Request): (r: string)
    ensures var ua := OrElse(Header(req, "user-agent"), "Unknown");
      StartsWith(r, ua) && r[|ua|..] == " | " + OrElse(Header(req, "accept-language"), "")
  {
    var ua := OrElse(Header(req, "user-agent"), "Unknown");
    var r := ua + " | " + OrElse(Header(req, "accept-language"), "");
    assert r[..|ua|] == ua;
    r
  }

  /**
   * The readable device string never equals the token module's device
   * string for the same request: the separators differ and the user agent
   * defaults differ, and the lengths always differ.
   */
  lemma DeviceStringsNeverAgree(req: Request)
    ensures GetDeviceInfoString(req) != Jwt.GetDeviceInfo(req)
  {
    var al := OrElse(Header(req, "accept-language"), "");
    assert |GetDeviceInfoString(req)| == |OrElse(Header(req, "user-agent"), "Unknown")| + 3 + |al|;
    assert |Jwt.GetDeviceInfo(req)| == |OrElse(Header(req, "user-agent"), "")| + 1 + |al|;
  }
}
