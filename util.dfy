/**
 * The value codecs shared by every resource of the TheHive 5 client:
 * timestamps and durations as they travel on the wire (integer
 * milliseconds), the Severity/TLP/PAP enumerations with their labels,
 * custom-field type inference, the HTTP method names and the status
 * check applied to every response.
 */
module Util {
  import opened Wrappers
  import opened Text

  // ---------------------------------------------------------------------
  // Integers of Go's int64

  const TwoTo63: int := 0x8000_0000_0000_0000
  const TwoTo64: int := 0x1_0000_0000_0000_0000

  type Int64 = x: int | -0x8000_0000_0000_0000 <= x < 0x8000_0000_0000_0000

  /** Two's-complement wrap-around of Go's int64 arithmetic. */
  function Wrap64(x: int): (r: Int64)
    ensures (r - x) % TwoTo64 == 0
    ensures -TwoTo63 <= x < TwoTo63 ==> r == x
  {
    (x + TwoTo63) % TwoTo64 - TwoTo63
  }

  // ---------------------------------------------------------------------
  // Timestamps

  /**
   * A time.Time reduced to its instant, counted in milliseconds since the
   * Unix epoch (UTC). Go's zero value is the instant of January 1 of year 1.
   */
  datatype Time = Time(unixMilli: int)

  const GoZeroUnixMilli: int := -62135596800000
  const ZeroTime: Time := Time(GoZeroUnixMilli)
  const Epoch: Time := Time(0)

  /** time.Time.IsZero */
  predicate IsZero(t: Time) {
    t.unixMilli == GoZeroUnixMilli
  }

  /** The first instants of year 0 and of year 10000 (UTC). */
  const YearZeroUnixMilli: int := -62167219200000
  const YearTenThousandUnixMilli: int := 253402300800000

  /**
   * time.Time.MarshalJSON writes RFC 3339 text only for the years 0 to 9999
   * and fails for every other instant.
   */
  predicate InTextRange(t: Time) {
    YearZeroUnixMilli <= t.unixMilli < YearTenThousandUnixMilli
  }

  /** time.Time.UnixMilli (UTC() does not move the instant). */
  function UnixMilli(t: Time): int {
    t.unixMilli
  }

  /** time.Time.Unix: whole seconds, rounded towards the past. */
  function Unix(t: Time): (r: int)
    ensures r * 1000 <= UnixMilli(t) < r * 1000 + 1000
  {
    t.unixMilli / 1000
  }

  /**
   * The millisecond count an int64 wire field receives: the instant when the
   * time is set and 0 when it is the zero value. With omitempty the 0 is
   * not written at all.
   */
  function EncodeTime(t: Time): (r: int)
    ensures r == 0 <==> IsZero(t) || t == Epoch
    ensures !IsZero(t) ==> r == UnixMilli(t)
  {
    if IsZero(t) then 0 else UnixMilli(t)
  }

  /**
   * The millisecond count a *int64 wire field receives: a pointer to the
   * instant when the time is set, nil (omitted) for the zero value.
   */
  function EncodeTimeRef(t: Time): (r: Option<int>)
    ensures r.None? <==> IsZero(t)
    ensures r.Some? ==> r.value == UnixMilli(t) && r.value == EncodeTime(t)
  {
    if IsZero(t) then None else Some(UnixMilli(t))
  }

  /** convertInt64ToTime: 0 on the wire means "unset", never the epoch. */
  function ConvertInt64ToTime(source: Int64): (t: Time)
    ensures TimeOf(t, source)
    ensures source == 0 ==> IsZero(t) && t != Epoch
    ensures source != 0 ==> UnixMilli(t) == source
    ensures EncodeTime(t) == (if source == GoZeroUnixMilli then 0 else source)
  {
    if source != 0 then Time(source) else ZeroTime
  }

  /** What an int64 wire count means as a time: 0 is "unset", any other count that instant. */
  predicate TimeOf(t: Time, count: int) {
    if count == 0 then IsZero(t) else UnixMilli(t) == count
  }

  /** A count names exactly one time. */
  lemma TimeOfUnique(t1: Time, t2: Time, count: int)
    requires TimeOf(t1, count) && TimeOf(t2, count)
    ensures t1 == t2
  {
  }

  /**
   * Encoding then decoding gives back every time except the epoch itself,
   * which shares the wire value 0 with "unset"; both encodings agree.
   */
  lemma DecodeEncodeTime(t: Time)
    requires -TwoTo63 <= t.unixMilli < TwoTo63
    ensures ConvertInt64ToTime(EncodeTime(t)) == (if t == Epoch then ZeroTime else t)
    ensures EncodeTimeRef(t).Some? ==> ConvertInt64ToTime(EncodeTimeRef(t).value) == (if t == Epoch then ZeroTime else t)
  {
  }

  // ---------------------------------------------------------------------
  // Durations

  /** time.Duration: an int64 count of nanoseconds. */
  type Duration = Int64

  const Millisecond: int := 1_000_000

  /** The largest millisecond count whose nanoseconds still fit an int64. */
  const MaxDurationMillis: int := 9_223_372_036_854

  /**
   * convertInt64ToDuration: Duration(m) * Millisecond, with Go's int64
   * wrap-around when m milliseconds exceed about 292 years.
   */
  function ConvertInt64ToDuration(source: Int64): (d: Duration)
    ensures DurationOf(d, source)
    ensures source == 0 ==> d == 0
    ensures (d - source * Millisecond) % TwoTo64 == 0
    ensures -MaxDurationMillis <= source <= MaxDurationMillis ==>
              d == source * Millisecond && d / Millisecond == source
  {
    if source != 0 then Wrap64(source * Millisecond) else 0
  }

  /**
   * What an int64 wire count of milliseconds means as a duration: the
   * int64 congruent to that many nanoseconds modulo 2^64.
   */
  predicate DurationOf(d: Duration, count: int) {
    (d - count * Millisecond) % TwoTo64 == 0
  }

  /** A count names exactly one duration. */
  lemma DurationOfUnique(d1: Duration, d2: Duration, count: int)
    requires DurationOf(d1, count) && DurationOf(d2, count)
    ensures d1 == d2
  {
    var k1 := (d1 - count * Millisecond) / TwoTo64;
    var k2 := (d2 - count * Millisecond) / TwoTo64;
    assert d1 - d2 == (k1 - k2) * TwoTo64;
  }

  /** 2^58 milliseconds is 2^64 times a multiple of a nanosecond count: it wraps to zero. */
  lemma DurationWrapsToZero()
    ensures ConvertInt64ToDuration(0x400_0000_0000_0000) == 0
  {
    assert 0x400_0000_0000_0000 * Millisecond == 15625 * TwoTo64;
  }

  // ---------------------------------------------------------------------
  // Codec errors

  datatype CodecError =
    | UnknownTlp(given: string)
    | UnknownPap
    | UnknownImpact(impact: string)
    | NoCustomFieldType(rendered: string)
    | TimeOutOfRange
  {
    /** The error text the client reports. */
    function Message(): string {
      match this
      case UnknownTlp(given) =>
        "unknown TLP value: " + given + ". Allowed: clear,green,amber,amber+strict,red"
      case UnknownPap => "unknown PAP value. Allowed: clear,green,amber,red"
      case UnknownImpact(impact) => "unknown impact value: " + impact
      case NoCustomFieldType(rendered) => "can't find valid customfieldtype for " + rendered
      case TimeOutOfRange => "Time.MarshalJSON: year outside of range [0,9999]"
    }
  }

  // ---------------------------------------------------------------------
  // Severity

  const SeverityLabels: seq<string> := ["low", "medium", "high", "critical"]

  /** The names Severity.String gives the codes 1 to 4. */
  const SeverityNames: seq<string> := ["Low", "Medium", "High", "Critical"]

  /** Severity codes 1..4; any other integer is a code without a label. */
  newtype Severity = int {
    function String(): (r: string)
      ensures r == "" <==> !(1 <= this <= 4)
      ensures 1 <= this <= 4 ==> r == SeverityNames[this - 1]
      ensures 1 <= this <= 4 ==> Lower(r) == SeverityLabels[this - 1]
    {
      if this == 1 then "Low"
      else if this == 2 then "Medium"
      else if this == 3 then "High"
      else if this == 4 then "Critical"
      else ""
    }

    /**
     * Severity.FromString on the receiver `this`: the new receiver value and
     * the error returned, which is always nil. Unknown labels give 0.
     */
    function FromString(v: string): (r: (Severity, Option<CodecError>))
      ensures r.1 == None
      ensures Lower(v) in SeverityLabels ==> 1 <= r.0 <= 4 && SeverityLabels[r.0 - 1] == Lower(v)
      ensures Lower(v) !in SeverityLabels ==> r.0 == 0
    {
      var l := Lower(v);
      var value: Severity :=
        if l == "low" then 1
        else if l == "medium" then 2
        else if l == "high" then 3
        else if l == "critical" then 4
        else 0;
      (value, None)
    }
  }

  const SeverityLow: Severity := 1
  const SeverityMedium: Severity := 2
  const SeverityHigh: Severity := 3
  const SeverityCritical: Severity := 4

  /** Every labelled severity survives String then FromString. */
  lemma SeverityRoundTrip(c: Severity, prior: Severity)
    requires 1 <= c <= 4
    ensures prior.FromString(c.String()) == (c, None)
  {
    var r := prior.FromString(c.String());
    assert SeverityLabels[r.0 - 1] == SeverityLabels[c - 1];
  }

  /** Label matching ignores case. */
  lemma SeverityIgnoresCase(prior: Severity, v: string)
    ensures prior.FromString(v) == prior.FromString(Lower(v))
  {
    LowerIsLower(v);
  }

  // ---------------------------------------------------------------------
  // TLP (Traffic Light Protocol 2.0)

  const TlpLabels: seq<string> := ["clear", "green", "amber", "amber+strict", "red"]

  newtype Tlp = int {
    function String(): (r: string)
      ensures r == "" <==> !(0 <= this <= 4)
      ensures 0 <= this <= 4 ==> r == TlpLabels[this]
    {
      if this == 0 then "clear"
      else if this == 1 then "green"
      else if this == 2 then "amber"
      else if this == 3 then "amber+strict"
      else if this == 4 then "red"
      else ""
    }

    /**
     * Tlp.FromString on the receiver `this`: the new receiver value and the
     * error. An unknown label leaves the receiver as it was.
     */
    function FromString(v: string): (r: (Tlp, Option<CodecError>))
      ensures r.1.None? <==> Lower(v) in TlpLabels
      ensures r.1.None? ==> 0 <= r.0 <= 4 && r.0.String() == Lower(v)
      ensures r.1.Some? ==> r.0 == this && r.1.value == UnknownTlp(v)
    {
      var l := Lower(v);
      if l == "clear" then (0, None)
      else if l == "green" then (1, None)
      else if l == "amber" then (2, None)
      else if l == "amber+strict" then (3, None)
      else if l == "red" then (4, None)
      else (this, Some(UnknownTlp(v)))
    }
  }

  const TlpClear: Tlp := 0
  const TlpGreen: Tlp := 1
  const TlpAmber: Tlp := 2
  const TlpAmberStrict: Tlp := 3
  const TlpRed: Tlp := 4

  lemma TlpRoundTrip(c: Tlp, prior: Tlp)
    requires 0 <= c <= 4
    ensures prior.FromString(c.String()) == (c, None)
  {
    var r := prior.FromString(c.String());
    assert TlpLabels[r.0] == TlpLabels[c];
  }

  lemma TlpIgnoresCase(prior: Tlp, v: string)
    ensures prior.FromString(v).0 == prior.FromString(Lower(v)).0
    ensures prior.FromString(v).1.None? <==> prior.FromString(Lower(v)).1.None?
  {
    LowerIsLower(v);
  }

  // ---------------------------------------------------------------------
  // PAP (Permissible Actions Protocol)

  const PapLabels: seq<string> := ["clear", "green", "amber", "red"]

  newtype Pap = int {
    function String(): (r: string)
      ensures r == "" <==> !(0 <= this <= 3)
      ensures 0 <= this <= 3 ==> r == PapLabels[this]
    {
      if this == 0 then "clear"
      else if this == 1 then "green"
      else if this == 2 then "amber"
      else if this == 3 then "red"
      else ""
    }

    /**
     * Pap.FromString on the receiver `this`: the new receiver value and the
     * error. An unknown label leaves the receiver as it was.
     */
    function FromString(v: string): (r: (Pap, Option<CodecError>))
      ensures r.1.None? <==> Lower(v) in PapLabels
      ensures r.1.None? ==> 0 <= r.0 <= 3 && r.0.String() == Lower(v)
      ensures r.1.Some? ==> r.0 == this && r.1.value == UnknownPap
    {
      var l := Lower(v);
      if l == "clear" then (0, None)
      else if l == "green" then (1, None)
      else if l == "amber" then (2, None)
      else if l == "red" then (3, None)
      else (this, Some(UnknownPap))
    }
  }

  const PapClear: Pap := 0
  const PapGreen: Pap := 1
  const PapAmber: Pap := 2
  const PapRed: Pap := 3

  lemma PapRoundTrip(c: Pap, prior: Pap)
    requires 0 <= c <= 3
    ensures prior.FromString(c.String()) == (c, None)
  {
    var r := prior.FromString(c.String());
    assert PapLabels[r.0] == PapLabels[c];
  }

  lemma PapIgnoresCase(prior: Pap, v: string)
    ensures prior.FromString(v).0 == prior.FromString(Lower(v)).0
    ensures prior.FromString(v).1.None? <==> prior.FromString(Lower(v)).1.None?
  {
    LowerIsLower(v);
  }

  // ---------------------------------------------------------------------
  // Custom-field type inference

  /**
   * The dynamic shape of a custom-field value (Go interface{}). FInt is
   * Go's int; every other shape (int64, a map, nil, ...) is FOther, kept
   * with its %v rendering.
   */
  datatype FieldValue =
    | FString(s: string)
    | FInt(i: int)
    | FBool(b: bool)
    | FFloat32
    | FFloat64
    | FTime(t: Time)
    | FOther(rendered: string)

  const FieldTypes: set<string> := {"string", "url", "integer", "boolean", "float", "date"}

  /** The shape a type tag stands for. */
  predicate Conforms(tag: string, v: FieldValue) {
    match v
    case FString(_) => tag == "string" || tag == "url"
    case FInt(_) => tag == "integer"
    case FBool(_) => tag == "boolean"
    case FFloat32 => tag == "float"
    case FFloat64 => tag == "float"
    case FTime(_) => tag == "date"
    case FOther(_) => false
  }

  /**
   * detectCustomFieldType. `isRequestURI` stands for url.ParseRequestURI
   * succeeding on its argument.
   */
  function DetectCustomFieldType(v: FieldValue, isRequestURI: string -> bool): (r: Result<string, CodecError>)
    ensures r.Success? <==> !v.FOther?
    ensures r.Success? ==> r.value in FieldTypes && Conforms(r.value, v)
    ensures r.Success? && v.FString? ==> (r.value == "url" <==> isRequestURI(v.s))
    ensures r.Failure? ==> r.error == NoCustomFieldType(v.rendered)
  {
    match v
    case FString(s) => Success(if isRequestURI(s) then "url" else "string")
    case FInt(_) => Success("integer")
    case FBool(_) => Success("boolean")
    case FFloat32 => Success("float")
    case FFloat64 => Success("float")
    case FTime(_) => Success("date")
    case FOther(rendered) => Failure(NoCustomFieldType(rendered))
  }

  /** The inferred tag is the only tag besides string/url that fits the value. */
  lemma DetectedTagIsUnique(v: FieldValue, isRequestURI: string -> bool, tag: string)
    requires !v.FString?
    requires Conforms(tag, v)
    ensures DetectCustomFieldType(v, isRequestURI) == Success(tag)
  {
  }

  // ---------------------------------------------------------------------
  // HTTP methods and response status

  const HttpMethods: seq<string> := ["POST", "GET", "PATCH", "DELETE"]

  /** method.String: the lower-case name of a known method, "unknown" otherwise. */
  function MethodString(m: string): (r: string)
    ensures m in HttpMethods ==> r == Lower(m)
    ensures m !in HttpMethods ==> r == "unknown"
  {
    if m == "POST" then "post"
    else if m == "GET" then "get"
    else if m == "PATCH" then "patch"
    else if m == "DELETE" then "delete"
    else "unknown"
  }

  datatype ApiErrorResponse = ApiErrorResponse(errorType: string, message: string)

  datatype RequestError =
    | ApiError(response: ApiErrorResponse)
    | UndecodableApiError

  /**
   * The status check after a response arrives: a 2xx status hands the body
   * back; any other status is an error built from the body decoded as an
   * ApiErrorResponse (`decodedError`), or a generic error when that decoding
   * failed.
   */
  function CheckStatus(status: int, body: seq<bv8>, decodedError: Result<ApiErrorResponse, string>): (r: Result<seq<bv8>, RequestError>)
    ensures r.Success? <==> 200 <= status < 300
    ensures r.Success? ==> r.value == body
    ensures r.Failure? ==> (r.error.ApiError? <==> decodedError.Success?)
    ensures r.Failure? && decodedError.Success? ==> r.error.response == decodedError.value
  {
    if status < 200 || status >= 300 then
      (if decodedError.Failure? then Failure(UndecodableApiError) else Failure(ApiError(decodedError.value)))
    else Success(body)
  }
}
