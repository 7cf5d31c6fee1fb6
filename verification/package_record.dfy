/**
 The `Package` record: its five fields, how encoding/json fills it from stored
 bytes, the hand-built record string that init_package and update_package
 store, and the positional non-emptiness check both of them run first.
 */
module PackageRecord {
  import opened Wrappers

  /** The Go struct, field for field. */
  datatype Package = Package(
    assetId: string,
    carrier: string,
    temperature: string,
    location: string,
    datetime: string)

  /** `Package{}`: every field is Go's zero string. */
  const ZeroPackage := Package("", "", "", "", "")

  /**
   Go's visibility rule: an identifier is exported when it starts with an
   upper-case letter (all identifiers involved here are ASCII).
   */
  predicate Exported(name: string) {
    |name| > 0 && 'A' <= name[0] <= 'Z'
  }

  /** The declared Go names of the struct's fields, all lower-case. */
  const AssetIdField := "assetId"
  const CarrierField := "carrier"
  const TemperatureField := "temperature"
  const LocationField := "location"
  const DatetimeField := "datetime"

  /**
   `json.Unmarshal(data, &into)`. encoding/json assigns only exported fields;
   `found` stands for whatever the decoder would read for each field out of the
   bytes (the JSON text itself is not parsed here). Because no field of
   Package is exported, the record comes back exactly as it went in, whatever
   the bytes held.
   */
  function Unmarshal(found: Package, into: Package): (r: Package)
    ensures r == into
    ensures into == ZeroPackage ==> r.assetId == ""
  {
    Package(
      if Exported(AssetIdField) then found.assetId else into.assetId,
      if Exported(CarrierField) then found.carrier else into.carrier,
      if Exported(TemperatureField) then found.temperature else into.temperature,
      if Exported(LocationField) then found.location else into.location,
      if Exported(DatetimeField) then found.datetime else into.datetime)
  }

  /** The package named by the five positional arguments (id, carrier, temperature, location, datetime). */
  function PackageOf(args: seq<string>): (p: Package)
    requires |args| == 5
    ensures [p.assetId, p.carrier, p.temperature, p.location, p.datetime] == args
  {
    Package(args[0], args[1], args[2], args[3], args[4])
  }

  /**
   The positional check: the 1-based position of the first empty argument, or
   None when all five are non-empty. Checks run in order and stop at the first
   failure.
   */
  function FirstEmpty(args: seq<string>): (r: Option<nat>)
    requires |args| == 5
    ensures r.Some? ==> 1 <= r.value <= 5 && args[r.value - 1] == ""
    ensures r.Some? ==> forall j :: 0 <= j < r.value - 1 ==> args[j] != ""
    ensures r.None? <==> forall j :: 0 <= j < 5 ==> args[j] != ""
  {
    if |args[0]| <= 0 then Some(1)
    else if |args[1]| <= 0 then Some(2)
    else if |args[2]| <= 0 then Some(3)
    else if |args[3]| <= 0 then Some(4)
    else if |args[4]| <= 0 then Some(5)
    else None
  }

  // The fixed pieces of the hand-built record string, in order.
  const Open := "{\"assetId\": \""
  const AfterAssetId := "\", \"carrier\": \""
  const AfterCarrier := "\", \"temperature\": \""
  const AfterTemperature := "\", \"location\": \""
  const AfterLocation := "\", \"datetime\": \""
  const Close := "\"}"

  /**
   The record string: fixed delimiters around the five fields, in order, with
   the field values pasted in verbatim (no JSON string escaping).
   */
  function RecordString(p: Package): (s: string)
    ensures |s| == |Open| + |p.assetId| + |AfterAssetId| + |p.carrier| + |AfterCarrier|
                   + |p.temperature| + |AfterTemperature| + |p.location| + |AfterLocation|
                   + |p.datetime| + |Close|
    ensures s[..|Open|] == Open
    ensures s[|Open|..|Open| + |p.assetId|] == p.assetId
  {
    Open + (p.assetId + (AfterAssetId + (p.carrier + (AfterCarrier + (p.temperature
      + (AfterTemperature + (p.location + (AfterLocation + (p.datetime + Close)))))))))
  }

  /** A string with no double quote in it. */
  predicate QuoteFree(s: string) {
    forall i :: 0 <= i < |s| ==> s[i] != '"'
  }

  predicate QuoteFreeFields(p: Package) {
    QuoteFree(p.assetId) && QuoteFree(p.carrier) && QuoteFree(p.temperature)
    && QuoteFree(p.location) && QuoteFree(p.datetime)
  }

  /**
   A quote-free prefix is recovered uniquely when what follows it starts with
   a quote: the first quote marks where the prefix ends.
   */
  lemma SplitAtQuote(x: string, r1: string, y: string, r2: string)
    requires QuoteFree(x) && QuoteFree(y)
    requires |r1| > 0 && r1[0] == '"' && |r2| > 0 && r2[0] == '"'
    requires x + r1 == y + r2
    ensures x == y && r1 == r2
  {
    var s := x + r1;
    if |x| < |y| {
      QuoteEndsPrefix(x, r1, y, r2);
    } else if |y| < |x| {
      QuoteEndsPrefix(y, r2, x, r1);
    }
    assert x == s[..|x|] && y == s[..|y|];
    assert r1 == s[|x|..] && r2 == s[|y|..];
  }

  /** A quote right after a short prefix cannot sit inside a longer quote-free prefix. */
  lemma QuoteEndsPrefix(x: string, r1: string, y: string, r2: string)
    requires QuoteFree(y) && |x| < |y|
    requires |r1| > 0 && r1[0] == '"'
    ensures x + r1 != y + r2
  {
    assert (x + r1)[|x|] == '"';
    assert (y + r2)[|x|] == y[|x|];
  }

  /**
   When no field contains a double quote, the record string determines the
   package: different packages are stored as different strings.
   */
  lemma {:induction false} RecordStringInjective(p: Package, q: Package)
    requires QuoteFreeFields(p) && QuoteFreeFields(q)
    requires RecordString(p) == RecordString(q)
    ensures p == q
  {
    // The string after each field's value: from the delimiter that ends it to the end.
    var p5, q5 := Close, Close;
    var p4, q4 := AfterLocation + (p.datetime + p5), AfterLocation + (q.datetime + q5);
    var p3, q3 := AfterTemperature + (p.location + p4), AfterTemperature + (q.location + q4);
    var p2, q2 := AfterCarrier + (p.temperature + p3), AfterCarrier + (q.temperature + q3);
    var p1, q1 := AfterAssetId + (p.carrier + p2), AfterAssetId + (q.carrier + q2);
    SkipPrefix(Open, p.assetId + p1, q.assetId + q1);
    SplitAtQuote(p.assetId, p1, q.assetId, q1);
    SkipPrefix(AfterAssetId, p.carrier + p2, q.carrier + q2);
    SplitAtQuote(p.carrier, p2, q.carrier, q2);
    SkipPrefix(AfterCarrier, p.temperature + p3, q.temperature + q3);
    SplitAtQuote(p.temperature, p3, q.temperature, q3);
    SkipPrefix(AfterTemperature, p.location + p4, q.location + q4);
    SplitAtQuote(p.location, p4, q.location, q4);
    SkipPrefix(AfterLocation, p.datetime + p5, q.datetime + q5);
    SplitAtQuote(p.datetime, p5, q.datetime, q5);
  }

  /** Equal strings with a common prefix have equal remainders. */
  lemma SkipPrefix(pre: string, a: string, b: string)
    requires pre + a == pre + b
    ensures a == b
  {
    assert a == (pre + a)[|pre|..];
    assert b == (pre + b)[|pre|..];
  }

  /**
   Without escaping, a quote inside a field can imitate a delimiter: a carrier
   that ends in the temperature delimiter followed by y, with temperature t, is
   stored as the same string as carrier c with temperature y, delimiter, t.
   */
  lemma RecordStringAmbiguous(a: string, c: string, y: string, t: string, l: string, d: string)
    ensures Package(a, c + AfterCarrier + y, t, l, d) != Package(a, c, y + AfterCarrier + t, l, d)
    ensures RecordString(Package(a, c + AfterCarrier + y, t, l, d))
         == RecordString(Package(a, c, y + AfterCarrier + t, l, d))
  {
    var rest := AfterTemperature + (l + (AfterLocation + (d + Close)));
    assert (c + AfterCarrier + y) + (AfterCarrier + (t + rest))
        == c + (AfterCarrier + ((y + AfterCarrier + t) + rest));
  }
}
