/**
 * Bill payments: the provider table by city and bill type with its
 * fallbacks, the bill query with its validation, and the bill descriptions.
 * The random bill amount and due date are drawn from `[0, 1)` and passed in.
 */
module Bill {
  import opened Common

  const DEFAULT_CITY: string := "İstanbul"
  const DEFAULT_TYPE: string := "ELECTRICITY"

  /** `Object.keys(billProviders)`, in declaration order. */
  const CITIES: seq<string> := ["İstanbul", "Ankara", "İzmir", "Bursa", "Antalya"]
  const TYPES: seq<string> := ["ELECTRICITY", "WATER", "GAS", "INTERNET", "PHONE", "TV"]

  /** `billProviders[city][type]`, absent when either key is not in the table. */
  function Providers(city: string, billType: string): Option<seq<string>> {
    if city == "İstanbul" then
      if billType == "ELECTRICITY" then Some(["BEDAŞ", "AYEDAŞ", "GEDAŞ"])
      else if billType == "WATER" then Some(["İSKİ", "SASKI"])
      else if billType == "GAS" then Some(["İGDAŞ"])
      else if billType == "INTERNET" then Some(["Türk Telekom", "Turkcell Superonline", "D-Smart", "Vodafone"])
      else if billType == "PHONE" then Some(["Türk Telekom", "Turkcell", "Vodafone"])
      else if billType == "TV" then Some(["D-Smart", "Digiturk", "Türksat"])
      else None
    else if city == "Ankara" then
      if billType == "ELECTRICITY" then Some(["BEDAŞ", "AYEDAŞ"])
      else if billType == "WATER" then Some(["ASKİ"])
      else if billType == "GAS" then Some(["BAŞKENTGAZ"])
      else if billType == "INTERNET" then Some(["Türk Telekom", "Turkcell Superonline", "D-Smart"])
      else if billType == "PHONE" then Some(["Türk Telekom", "Turkcell", "Vodafone"])
      else if billType == "TV" then Some(["D-Smart", "Digiturk"])
      else None
    else if city == "İzmir" then
      if billType == "ELECTRICITY" then Some(["GEDAŞ", "AYEDAŞ"])
      else if billType == "WATER" then Some(["İZSU"])
      else if billType == "GAS" then Some(["İZGAZ"])
      else if billType == "INTERNET" then Some(["Türk Telekom", "Turkcell Superonline", "D-Smart"])
      else if billType == "PHONE" then Some(["Türk Telekom", "Turkcell", "Vodafone"])
      else if billType == "TV" then Some(["D-Smart", "Digiturk"])
      else None
    else if city == "Bursa" then
      if billType == "ELECTRICITY" then Some(["BEDAŞ", "AYEDAŞ"])
      else if billType == "WATER" then Some(["BUSKİ"])
      else if billType == "GAS" then Some(["BURSA GAZ"])
      else if billType == "INTERNET" then Some(["Türk Telekom", "Turkcell Superonline"])
      else if billType == "PHONE" then Some(["Türk Telekom", "Turkcell", "Vodafone"])
      else if billType == "TV" then Some(["D-Smart", "Digiturk"])
      else None
    else if city == "Antalya" then
      if billType == "ELECTRICITY" then Some(["AYEDAŞ"])
      else if billType == "WATER" then Some(["ASAT"])
      else if billType == "GAS" then Some(["ANTALYA GAZ"])
      else if billType == "INTERNET" then Some(["Türk Telekom", "Turkcell Superonline"])
      else if billType == "PHONE" then Some(["Türk Telekom", "Turkcell", "Vodafone"])
      else if billType == "TV" then Some(["D-Smart", "Digiturk"])
      else None
    else None
  }

  /** The table's shape: every listed city has a non-empty list for exactly the listed types. */
  lemma TableShape(city: string, billType: string)
    ensures Providers(city, billType).Some? <==> city in CITIES && billType in TYPES
    ensures Providers(city, billType).Some? ==> |Providers(city, billType).value| > 0
  {
  }

  datatype ProvidersView = ProvidersView(city: string, billType: string, providers: seq<string>,
                                         allCities: seq<string>, allTypes: seq<string>)

  /** `getBillProviders`: the city's list, else the default city's list for the type, else none. */
  function GetBillProviders(city: Option<string>, billType: Option<string>): (r: ProvidersView)
    ensures r.city == OrElse(city, DEFAULT_CITY) && r.billType == OrElse(billType, DEFAULT_TYPE)
    ensures r.allCities == CITIES && r.allTypes == TYPES
    ensures Providers(r.city, r.billType).Some? ==> r.providers == Providers(r.city, r.billType).value
    ensures Providers(r.city, r.billType).None? ==>
      r.providers == if Providers(DEFAULT_CITY, r.billType).Some? then Providers(DEFAULT_CITY, r.billType).value else []
  {
    var selectedCity := OrElse(city, DEFAULT_CITY);
    var selectedType := OrElse(billType, DEFAULT_TYPE);
    var providers :=
      match Providers(selectedCity, selectedType)
      case Some(p) => p
      case None =>
        match Providers(DEFAULT_CITY, selectedType)
        case Some(p) => p
        case None => [];
    ProvidersView(selectedCity, selectedType, providers, CITIES, TYPES)
  }

  /** With nothing asked for, the view is İstanbul's electricity providers. */
  lemma ProvidersDefaults()
    ensures GetBillProviders(None, None).providers == ["BEDAŞ", "AYEDAŞ", "GEDAŞ"]
  {
  }

  /** An unknown city gets İstanbul's list for a known type. */
  lemma UnknownCityFallsBack(city: string, billType: string)
    requires city != "" && city !in CITIES && billType in TYPES
    ensures GetBillProviders(Some(city), Some(billType)).providers == Providers(DEFAULT_CITY, billType).value
    ensures GetBillProviders(Some(city), Some(billType)).city == city
  {
    TableShape(city, billType);
    TableShape(DEFAULT_CITY, billType);
  }

  /** An unknown type has no providers anywhere. */
  lemma UnknownTypeIsEmpty(city: Option<string>, billType: string)
    requires billType != "" && billType !in TYPES
    ensures GetBillProviders(city, Some(billType)).providers == []
  {
    TableShape(OrElse(city, DEFAULT_CITY), billType);
    TableShape(DEFAULT_CITY, billType);
  }

  /** `getBillDescription(type)`, "Fatura" for an unknown type. */
  function BillDescription(billType: string): (d: string)
    ensures billType !in TYPES ==> d == "Fatura"
    ensures billType in TYPES ==> d != "Fatura"
  {
    if billType == "ELECTRICITY" then "Elektrik Faturası"
    else if billType == "WATER" then "Su Faturası"
    else if billType == "GAS" then "Doğalgaz Faturası"
    else if billType == "INTERNET" then "İnternet Faturası"
    else if billType == "PHONE" then "Telefon Faturası"
    else if billType == "TV" then "TV Abonelik Faturası"
    else "Fatura"
  }

  /** `amountRanges[type] || { min: 100, max: 500 }`. */
  function AmountRange(billType: string): (r: (real, real))
    ensures 0.0 < r.0 < r.1
    ensures r.0 == r.0.Floor as real && r.1 == r.1.Floor as real
  {
    if billType == "ELECTRICITY" then (150.0, 800.0)
    else if billType == "WATER" then (50.0, 300.0)
    else if billType == "GAS" then (200.0, 600.0)
    else if billType == "INTERNET" then (100.0, 500.0)
    else if billType == "PHONE" then (50.0, 400.0)
    else if billType == "TV" then (80.0, 350.0)
    else (100.0, 500.0)
  }

  /** `Math.round(x * 100) / 100`: to the cent, halves rounded up. */
  function RoundCents(x: real): (r: real)
    ensures x - 0.005 < r <= x + 0.005
    ensures (r * 100.0).Floor as real == r * 100.0
  {
    ((x * 100.0 + 0.5).Floor as real) / 100.0
  }

  /** The bill amount for a draw `u` of `Math.random()`: a whole number of cents near the scaled draw. */
  function BillAmount(billType: string, u: real): (r: real)
    ensures (r * 100.0).Floor as real == r * 100.0
    ensures var (lo, hi) := AmountRange(billType); u * (hi - lo) + lo - 0.005 < r <= u * (hi - lo) + lo + 0.005
  {
    var (lo, hi) := AmountRange(billType);
    RoundCents(u * (hi - lo) + lo)
  }

  lemma ScaledDrawBelow(u: real, d: real)
    requires 0.0 <= u < 1.0 && 0.0 < d
    ensures 0.0 <= u * d < d
  {
  }

  /** Rounding a point of a whole-number range to the cent stays in the range. */
  lemma RoundedInRange(lo: int, hi: int, u: real)
    requires 0 < lo < hi && 0.0 <= u < 1.0
    ensures lo as real <= RoundCents(u * (hi - lo) as real + lo as real) <= hi as real
  {
    var d := (hi - lo) as real;
    ScaledDrawBelow(u, d);
    var x := u * d + lo as real;
    var y := x * 100.0 + 0.5;
    var n := y.Floor;
    assert n as real <= y < n as real + 1.0;
    assert (lo * 100) as real < y < (hi * 100 + 1) as real;
    assert lo * 100 <= n <= hi * 100;
    var r := n as real / 100.0;
    assert r * 100.0 == n as real;
    assert (lo * 100) as real <= n as real <= (hi * 100) as real;
    assert lo as real * 100.0 <= r * 100.0 <= hi as real * 100.0;
    assert lo as real <= r <= hi as real;
    assert x == u * (hi - lo) as real + lo as real;
    assert RoundCents(u * (hi - lo) as real + lo as real) == r;
  }

  /** The amount lies in the type's range, to the cent. */
  lemma AmountInRange(billType: string, u: real)
    requires 0.0 <= u < 1.0
    ensures AmountRange(billType).0 <= BillAmount(billType, u) <= AmountRange(billType).1
  {
    var (lo, hi) := AmountRange(billType);
    RoundedInRange(lo.Floor, hi.Floor, u);
  }

  /** `Math.floor(Math.random() * 23) + 7`: the due date's distance in days. */
  function DueInDays(u: real): (days: int)
    requires 0.0 <= u < 1.0
    ensures 7 <= days <= 29
  {
    (u * 23.0).Floor + 7
  }

  datatype BillRecord = BillRecord(city: string, billType: string, provider: string, subscriberNumber: string,
                                   amount: real, dueInDays: int, status: string, description: string, createdAt: int)

  datatype BillResponse = BillOf(bill: BillRecord) | MissingFields(status: int, error: string, required: seq<string>)

  /** `queryBill`: all four fields are required; the bill echoes them and is PENDING. */
  function QueryBill(city: Option<string>, billType: Option<string>, provider: Option<string>,
                     subscriberNumber: Option<string>, amountDraw: real, dayDraw: real, now: int): (r: BillResponse)
    requires 0.0 <= dayDraw < 1.0
    ensures r.MissingFields? <==>
      !Truthy(city) || !Truthy(billType) || !Truthy(provider) || !Truthy(subscriberNumber)
    ensures r.MissingFields? ==> r == MissingFields(400, "Missing required fields", ["city", "type", "provider", "subscriberNumber"])
    ensures r.BillOf? ==> (r.bill.city == city.value && r.bill.billType == billType.value
      && r.bill.provider == provider.value && r.bill.subscriberNumber == subscriberNumber.value
      && r.bill.status == "PENDING" && r.bill.description == BillDescription(billType.value)
      && 7 <= r.bill.dueInDays <= 29 && r.bill.createdAt == now)
  {
    if !Truthy(city) || !Truthy(billType) || !Truthy(provider) || !Truthy(subscriberNumber) then
      MissingFields(400, "Missing required fields", ["city", "type", "provider", "subscriberNumber"])
    else
      BillOf(BillRecord(city.value, billType.value, provider.value, subscriberNumber.value,
                        BillAmount(billType.value, amountDraw), DueInDays(dayDraw), "PENDING",
                        BillDescription(billType.value), now))
  }

  /** A queried bill's amount is within its type's range whenever the draw is. */
  lemma QueriedAmountInRange(city: string, billType: string, provider: string, subscriberNumber: string,
                             amountDraw: real, dayDraw: real, now: int)
    requires city != "" && billType != "" && provider != "" && subscriberNumber != ""
    requires 0.0 <= amountDraw < 1.0 && 0.0 <= dayDraw < 1.0
    ensures var r := QueryBill(Some(city), Some(billType), Some(provider), Some(subscriberNumber), amountDraw, dayDraw, now);
      r.BillOf? && AmountRange(billType).0 <= r.bill.amount <= AmountRange(billType).1
  {
    AmountInRange(billType, amountDraw);
  }

  datatype BillsResponse = Bills(bills: seq<BillRecord>) | BillsUnauthorized(status: int, error: string)

  /** `getUserBills`: bills are never stored, so a signed-in caller always gets an empty list. */
  function GetUserBills(userId: Option<string>): (r: BillsResponse)
    ensures r.BillsUnauthorized? <==> !Truthy(userId)
    ensures r.Bills? ==> r.bills == []
  {
    if !Truthy(userId) then BillsUnauthorized(401, "Unauthorized") else Bills([])
  }
}
