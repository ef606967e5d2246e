/**
 * The input sanitiser: `sanitizeString` strips tags, escapes the HTML
 * special characters, drops NUL and cuts to 10,000 characters;
 * `sanitizeObject` applies it to every string inside a JSON value.
 * Strings are sequences of characters (UTF-16 code units in the source).
 */
module InputValidation {
  import opened Common

  const MAX_LENGTH: nat := 10000

  /** The characters the sanitised text never contains. */
  predicate Markup(c: char) {
    c == '<' || c == '>' || c == '"' || c == '\'' || c == '/' || c == '\0'
  }

  /** The characters the sanitiser rewrites. */
  predicate Special(c: char) {
    c == '&' || Markup(c)
  }

  function FirstIndex(s: string, c: char): (i: nat)
    requires c in s
    ensures i < |s| && s[i] == c && c !in s[..i]
  {
    if s[0] == c then 0 else 1 + FirstIndex(s[1..], c)
  }

  /**
   * `replace(/<[^>]*>/g, '')`: from left to right, each `<` that has a `>`
   * somewhere after it is removed together with everything up to the
   * first such `>`; a `<` without a later `>` stays.
   */
  function StripTags(s: string): (r: string)
    ensures |r| <= |s|
    ensures forall c :: c in r ==> c in s
    decreases |s|
  {
    if |s| == 0 then s
    else if s[0] == '<' && '>' in s[1..] then StripTags(s[1 + FirstIndex(s[1..], '>') + 1..])
    else [s[0]] + StripTags(s[1..])
  }

  /** `s.replace(/c/g, rep)` for one character `c`. */
  function ReplaceAll(s: string, c: char, rep: string): (r: string)
    decreases |s|
  {
    if |s| == 0 then []
    else (if s[0] == c then rep else [s[0]]) + ReplaceAll(s[1..], c, rep)
  }

  /** The replacements of the escaping chain, in the order they are applied. */
  const ESCAPES: seq<(char, string)> :=
    [('&', "&amp;"), ('<', "&lt;"), ('>', "&gt;"), ('"', "&quot;"), ('\'', "&#x27;"), ('/', "&#x2F;")]

  /** Apply `replace(/c/g, rep)` for each `(c, rep)` in turn. */
  function ReplaceEach(s: string, steps: seq<(char, string)>): string
    decreases |steps|
  {
    if |steps| == 0 then s else ReplaceEach(ReplaceAll(s, steps[0].0, steps[0].1), steps[1..])
  }

  /** The escaping chain as written: `&` first, then `<`, `>`, `"`, `'`, `/`. */
  function EscapeChain(s: string): string {
    ReplaceEach(s, ESCAPES)
  }

  /** `sanitizeString` on a string. */
  function SanitizeText(s: string): (r: string)
    ensures |r| <= MAX_LENGTH
  {
    Prefix(ReplaceAll(EscapeChain(StripTags(s)), '\0', ""), MAX_LENGTH)
  }

  /** The reference escaping: each character on its own. */
  function EscapeChar(c: char): string {
    if c == '&' then "&amp;"
    else if c == '<' then "&lt;"
    else if c == '>' then "&gt;"
    else if c == '"' then "&quot;"
    else if c == '\'' then "&#x27;"
    else if c == '/' then "&#x2F;"
    else [c]
  }

  function Escape(s: string): string
    decreases |s|
  {
    if |s| == 0 then [] else EscapeChar(s[0]) + Escape(s[1..])
  }

  lemma {:induction false} ReplaceAllAppend(a: string, b: string, c: char, rep: string)
    ensures ReplaceAll(a + b, c, rep) == ReplaceAll(a, c, rep) + ReplaceAll(b, c, rep)
    decreases |a|
  {
    if |a| == 0 {
      assert a + b == b;
    } else {
      assert (a + b)[1..] == a[1..] + b;
      ReplaceAllAppend(a[1..], b, c, rep);
    }
  }

  lemma {:induction false} ReplaceAllAbsent(s: string, c: char, rep: string)
    requires c !in s
    ensures ReplaceAll(s, c, rep) == s
    decreases |s|
  {
    if |s| > 0 {
      ReplaceAllAbsent(s[1..], c, rep);
    }
  }

  lemma {:induction false} ReplaceEachAppend(a: string, b: string, steps: seq<(char, string)>)
    ensures ReplaceEach(a + b, steps) == ReplaceEach(a, steps) + ReplaceEach(b, steps)
    decreases |steps|
  {
    if |steps| > 0 {
      ReplaceAllAppend(a, b, steps[0].0, steps[0].1);
      ReplaceEachAppend(ReplaceAll(a, steps[0].0, steps[0].1), ReplaceAll(b, steps[0].0, steps[0].1), steps[1..]);
    }
  }

  /** A string holding none of the replaced characters passes the chain unchanged. */
  lemma {:induction false} ReplaceEachAbsent(s: string, steps: seq<(char, string)>)
    requires forall j :: 0 <= j < |steps| ==> steps[j].0 !in s
    ensures ReplaceEach(s, steps) == s
    decreases |steps|
  {
    if |steps| > 0 {
      ReplaceAllAbsent(s, steps[0].0, steps[0].1);
      ReplaceEachAbsent(s, steps[1..]);
    }
  }

  lemma ReplaceAllOne(x: char, c: char, rep: string)
    ensures ReplaceAll([x], c, rep) == if x == c then rep else [x]
  {
    assert [x][1..] == [];
  }

  /**
   * A character replaced by step `k` and by no earlier step becomes that
   * step's entity, which no later step touches.
   */
  lemma {:induction false} ReplaceEachOne(x: char, steps: seq<(char, string)>, k: nat)
    requires k < |steps| && steps[k].0 == x
    requires forall j :: 0 <= j < k ==> steps[j].0 != x
    requires forall j :: k < j < |steps| ==> steps[j].0 !in steps[k].1
    ensures ReplaceEach([x], steps) == steps[k].1
    decreases k
  {
    ReplaceAllOne(x, steps[0].0, steps[0].1);
    if k == 0 {
      ReplaceEachAbsent(steps[0].1, steps[1..]);
    } else {
      ReplaceEachOne(x, steps[1..], k - 1);
    }
  }

  /** Each later replacement leaves an entity of an earlier one alone. */
  lemma EscapeChainChar(c: char)
    ensures EscapeChain([c]) == EscapeChar(c)
  {
    var k := if c == '&' then 0 else if c == '<' then 1 else if c == '>' then 2 else if c == '"' then 3
             else if c == '\'' then 4 else if c == '/' then 5 else 6;
    if k < 6 {
      ReplaceEachOne(c, ESCAPES, k);
    } else {
      ReplaceEachAbsent([c], ESCAPES);
    }
  }

  /**
   * Because `&` is escaped first, the chain escapes every character exactly
   * once: the entities it produces are never escaped again within one call.
   */
  lemma {:induction false} EscapeChainIsPerCharacter(s: string)
    ensures EscapeChain(s) == Escape(s)
    decreases |s|
  {
    if |s| > 0 {
      assert s == [s[0]] + s[1..];
      ReplaceEachAppend([s[0]], s[1..], ESCAPES);
      EscapeChainChar(s[0]);
      EscapeChainIsPerCharacter(s[1..]);
    }
  }

  /** Escaped text holds no markup character other than a NUL that was already there. */
  lemma {:induction false} EscapeHasNoMarkup(s: string)
    ensures forall i :: 0 <= i < |Escape(s)| ==> !Markup(Escape(s)[i]) || Escape(s)[i] == '\0'
    decreases |s|
  {
    if |s| > 0 {
      EscapeHasNoMarkup(s[1..]);
      var e, rest := EscapeChar(s[0]), Escape(s[1..]);
      assert forall i :: 0 <= i < |e| ==> !Markup(e[i]) || e[i] == '\0';
      assert forall i :: 0 <= i < |e + rest| ==> (e + rest)[i] == if i < |e| then e[i] else rest[i - |e|];
    }
  }

  lemma {:induction false} RemoveNulKeeps(s: string)
    ensures forall c :: c in ReplaceAll(s, '\0', "") ==> c in s && c != '\0'
    decreases |s|
  {
    if |s| > 0 {
      RemoveNulKeeps(s[1..]);
    }
  }

  /** Sanitised text contains none of `<`, `>`, `"`, `'`, `/` or NUL. */
  lemma SanitizedHasNoMarkup(s: string)
    ensures forall i :: 0 <= i < |SanitizeText(s)| ==> !Markup(SanitizeText(s)[i])
  {
    var t := StripTags(s);
    EscapeChainIsPerCharacter(t);
    EscapeHasNoMarkup(t);
    var u := ReplaceAll(EscapeChain(t), '\0', "");
    RemoveNulKeeps(EscapeChain(t));
    forall c | c in u
      ensures !Markup(c)
    {
      var i :| 0 <= i < |Escape(t)| && Escape(t)[i] == c;
    }
    var r := SanitizeText(s);
    assert r == u[..|r|];
    forall i | 0 <= i < |r|
      ensures !Markup(r[i])
    {
      assert r[i] in u;
    }
  }

  /** Text without tags or special characters, within the length limit, comes back unchanged. */
  lemma CleanTextUnchanged(s: string)
    requires |s| <= MAX_LENGTH
    requires forall i :: 0 <= i < |s| ==> !Special(s[i])
    ensures SanitizeText(s) == s
  {
    StripTagsPlain(s);
    ReplaceEachAbsent(s, ESCAPES);
    ReplaceAllAbsent(s, '\0', "");
  }

  lemma {:induction false} StripTagsPlain(s: string)
    requires '<' !in s
    ensures StripTags(s) == s
    decreases |s|
  {
    if |s| > 0 {
      StripTagsPlain(s[1..]);
    }
  }

  /** A complete tag is removed with its contents up to the first `>`. */
  lemma TagRemoved(inner: string, rest: string)
    requires '>' !in inner
    ensures StripTags("<" + inner + ">" + rest) == StripTags(rest)
  {
    var s := "<" + inner + ">" + rest;
    assert s[1..] == inner + ">" + rest;
    var j := FirstIndex(s[1..], '>');
    assert s[1..][|inner|] == '>';
    assert s[1..][..|inner|] == inner;
    assert j == |inner|;
    assert s[1 + j + 1..] == rest;
  }

  /** The steps of `SanitizeText` on a string without tags or NUL. */
  lemma SanitizeUntagged(s: string)
    requires '<' !in s && '\0' !in Escape(s) && |Escape(s)| <= MAX_LENGTH
    ensures SanitizeText(s) == Escape(s)
  {
    StripTagsPlain(s);
    EscapeChainIsPerCharacter(s);
    ReplaceAllAbsent(Escape(s), '\0', "");
  }

  lemma {:induction false} EscapeAppend(a: string, b: string)
    ensures Escape(a + b) == Escape(a) + Escape(b)
    decreases |a|
  {
    if |a| == 0 {
      assert a + b == b;
    } else {
      assert (a + b)[1..] == a[1..] + b;
      EscapeAppend(a[1..], b);
    }
  }

  /** Text without special characters escapes to itself. */
  lemma {:induction false} PlainEscape(t: string)
    requires forall i :: 0 <= i < |t| ==> !Special(t[i])
    ensures Escape(t) == t
    decreases |t|
  {
    if |t| > 0 {
      PlainEscape(t[1..]);
    }
  }

  /** Sanitising is not idempotent: `&` becomes `&amp;`, which becomes `&amp;amp;`. */
  lemma NotIdempotent(s: string, entity: string)
    requires s == "&" && entity == "&amp;"
    ensures SanitizeText(s) == entity
    ensures SanitizeText(entity) == entity + entity[1..]
  {
    var tail := entity[1..];
    assert forall i :: 0 <= i < |tail| ==> !Special(tail[i]);
    PlainEscape(tail);
    assert Escape(s) == entity by {
      assert s[1..] == [];
    }
    SanitizeUntagged(s);
    assert entity == s + tail;
    EscapeAppend(s, tail);
    SanitizeUntagged(entity);
  }

  /** A request value: what `typeof` distinguishes, with objects as their own keys in order. */
  datatype Json =
    | JNull
    | JUndefined
    | JBool(flag: bool)
    | JNum(num: real)
    | JStr(str: string)
    | JArray(items: seq<Json>)
    | JObject(fields: seq<(string, Json)>)

  /** `sanitizeString(input)`: anything other than a string gives "". */
  function SanitizeString(input: Json): (r: string)
    ensures !input.JStr? ==> r == ""
    ensures input.JStr? ==> r == SanitizeText(input.str)
  {
    if input.JStr? then SanitizeText(input.str) else ""
  }

  /**
   * `sanitizeObject(obj)`: the same shape, keys and non-string values, with
   * every string sanitized.
   */
  function SanitizeObject(v: Json): (r: Json)
    ensures v.JStr? <==> r.JStr?
    ensures v.JStr? ==> r.str == SanitizeText(v.str)
    ensures v.JArray? ==> r.JArray? && |r.items| == |v.items|
    ensures v.JObject? ==>
      r.JObject? && |r.fields| == |v.fields| && forall i :: 0 <= i < |v.fields| ==> r.fields[i].0 == v.fields[i].0
    ensures !v.JStr? && !v.JArray? && !v.JObject? ==> r == v
    decreases v
  {
    match v
    case JStr(s) => JStr(SanitizeText(s))
    case JArray(items) => JArray(seq(|items|, i requires 0 <= i < |items| => SanitizeObject(items[i])))
    case JObject(fields) =>
      JObject(seq(|fields|, i requires 0 <= i < |fields| => (fields[i].0, SanitizeObject(fields[i].1))))
    case _ => v
  }

  /** Every string inside a value satisfies `p`. */
  predicate AllStrings(v: Json, p: string -> bool)
    decreases v
  {
    match v
    case JStr(s) => p(s)
    case JArray(items) => forall i :: 0 <= i < |items| ==> AllStrings(items[i], p)
    case JObject(fields) => forall i :: 0 <= i < |fields| ==> AllStrings(fields[i].1, p)
    case _ => true
  }

  predicate NoMarkup(s: string) {
    forall i :: 0 <= i < |s| ==> !Markup(s[i])
  }

  predicate CleanText(s: string) {
    |s| <= MAX_LENGTH && forall i :: 0 <= i < |s| ==> !Special(s[i])
  }

  /** The same shape: kind, array length, object keys in order. */
  predicate SameShape(a: Json, b: Json)
    decreases a
  {
    match a
    case JStr(_) => b.JStr?
    case JArray(xs) => b.JArray? && |b.items| == |xs| && forall i :: 0 <= i < |xs| ==> SameShape(xs[i], b.items[i])
    case JObject(fs) => b.JObject? && |b.fields| == |fs|
      && forall i :: 0 <= i < |fs| ==> b.fields[i].0 == fs[i].0 && SameShape(fs[i].1, b.fields[i].1)
    case _ => b == a
  }

  /** Scalars, null and undefined are kept; arrays keep length and order; objects keep their keys. */
  lemma {:induction false} SanitizeKeepsShape(v: Json)
    ensures SameShape(v, SanitizeObject(v))
    decreases v
  {
    match v
    case JArray(items) =>
      forall i | 0 <= i < |items|
        ensures SameShape(items[i], SanitizeObject(v).items[i])
      {
        SanitizeKeepsShape(items[i]);
      }
    case JObject(fields) =>
      forall i | 0 <= i < |fields|
        ensures SameShape(fields[i].1, SanitizeObject(v).fields[i].1)
      {
        assert fields[i] in fields;
        SanitizeKeepsShape(fields[i].1);
      }
    case _ =>
  }

  /** No string of a sanitised value holds a markup character. */
  lemma {:induction false} SanitizedValueHasNoMarkup(v: Json)
    ensures AllStrings(SanitizeObject(v), NoMarkup)
    decreases v
  {
    match v
    case JStr(s) => SanitizedHasNoMarkup(s);
    case JArray(items) =>
      forall i | 0 <= i < |items|
        ensures AllStrings(SanitizeObject(v).items[i], NoMarkup)
      {
        SanitizedValueHasNoMarkup(items[i]);
      }
    case JObject(fields) =>
      forall i | 0 <= i < |fields|
        ensures AllStrings(SanitizeObject(v).fields[i].1, NoMarkup)
      {
        assert fields[i] in fields;
        SanitizedValueHasNoMarkup(fields[i].1);
      }
    case _ =>
  }

  /** A value whose strings are all clean is returned as it was. */
  lemma {:induction false} CleanValueUnchanged(v: Json)
    requires AllStrings(v, CleanText)
    ensures SanitizeObject(v) == v
    decreases v
  {
    match v
    case JStr(s) => CleanTextUnchanged(s);
    case JArray(items) =>
      forall i | 0 <= i < |items|
        ensures SanitizeObject(items[i]) == items[i]
      {
        CleanValueUnchanged(items[i]);
      }
      assert SanitizeObject(v).items == items;
    case JObject(fields) =>
      forall i | 0 <= i < |fields|
        ensures SanitizeObject(fields[i].1) == fields[i].1
      {
        assert fields[i] in fields;
        CleanValueUnchanged(fields[i].1);
      }
      assert SanitizeObject(v).fields == fields;
    case _ =>
  }
}
