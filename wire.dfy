/**
 * The JSON values the client sends and receives, at the level of
 * encoding/json's data model: a request body is a payload, a map from
 * member name to value. The helpers below are the omission rules of
 * encoding/json's `omitempty` option, one per Go field type, and the
 * wire shape of the timestamps and enumeration codes.
 */
module Wire {
  import opened Wrappers
  import opened Text
  import opened Util

  datatype Json =
    | JNull
    | JBool(b: bool)
    | JInt(i: int)
    | JString(s: string)
    | JArray(items: seq<Json>)
    | JObject(members: map<string, Json>)
      /** A time.Time written by its own MarshalJSON (RFC 3339 text). */
    | JTimeText(t: Time)
      /** A float32 or float64; its digits are not modelled. */
    | JFloat
      /** A value of a Go type this model does not follow, by its %v rendering. */
    | JOther(rendered: string)

  type Payload = map<string, Json>

  // The omission rules of encoding/json's omitempty, one per Go field type:
  // each gives the member written for a field, None when it is dropped.

  /** A string field with omitempty: dropped when "". */
  function OmitEmpty(s: string): Option<Json> {
    if s == "" then None else Some(JString(s))
  }

  /** A bool field with omitempty: dropped when false. */
  function OmitFalse(b: bool): Option<Json> {
    if b then Some(JBool(true)) else None
  }

  /** An integer field with omitempty: dropped when 0. */
  function OmitZero(i: int): Option<Json> {
    if i == 0 then None else Some(JInt(i))
  }

  /** A slice field with omitempty: dropped when it has no element. */
  function OmitNoItems(items: seq<Json>): Option<Json> {
    if |items| == 0 then None else Some(JArray(items))
  }

  /** A *int or *int64 field with omitempty: dropped when nil. */
  function OptInt(o: Option<int>): Option<Json> {
    if o.None? then None else Some(JInt(o.value))
  }

  /** A *string field with omitempty: dropped when nil. */
  function OptString(o: Option<string>): Option<Json> {
    if o.None? then None else Some(JString(o.value))
  }

  /** A *bool field with omitempty: dropped when nil, written even when false. */
  function OptBool(o: Option<bool>): Option<Json> {
    if o.None? then None else Some(JBool(o.value))
  }

  function Strings(xs: seq<string>): (r: seq<Json>)
    ensures |r| == |xs|
    ensures forall i :: 0 <= i < |xs| ==> r[i] == JString(xs[i])
  {
    seq(|xs|, i requires 0 <= i < |xs| => JString(xs[i]))
  }

  function StringMap(m: map<string, string>): (r: Json)
    ensures r.JObject? && r.members.Keys == m.Keys
    ensures forall k :: k in m ==> r.members[k] == JString(m[k])
  {
    JObject(map k | k in m :: JString(m[k]))
  }

  /** How encoding/json writes a custom field's value held in an interface{}. */
  function FieldJson(v: FieldValue): (r: Json)
    ensures v.FString? <==> r.JString?
    ensures v.FInt? <==> r.JInt?
    ensures v.FBool? <==> r.JBool?
    ensures v.FTime? <==> r.JTimeText?
  {
    match v
    case FString(s) => JString(s)
    case FInt(i) => JInt(i)
    case FBool(b) => JBool(b)
    case FFloat32 => JFloat
    case FFloat64 => JFloat
    case FTime(t) => JTimeText(t)
    case FOther(rendered) => JOther(rendered)
  }

  // ---------------------------------------------------------------------
  // How a code or a time appears in a payload

  /** `key` carries v exactly when `present` holds. */
  predicate Emits(p: Payload, key: string, present: bool, v: Json) {
    (key in p <==> present) && (present ==> p[key] == v)
  }

  /**
   * A time sent through an int64 field with omitempty: its UTC millisecond
   * count, absent when the time is unset (and for the epoch, whose count is 0).
   */
  predicate TimeAsInt(p: Payload, key: string, t: Time) {
    Emits(p, key, !IsZero(t) && t != Epoch, JInt(UnixMilli(t)))
  }

  /** A time sent through a *int64 field with omitempty: present exactly when set. */
  predicate TimeAsRef(p: Payload, key: string, t: Time) {
    Emits(p, key, !IsZero(t), JInt(UnixMilli(t)))
  }

  /** The TLP code of a known label, starting from Go's zero value. */
  function TlpCode(tag: string): Tlp {
    TlpClear.FromString(tag).0
  }

  function PapCode(tag: string): Pap {
    PapClear.FromString(tag).0
  }

  const SeverityNone: Severity := 0

  function SeverityCode(tag: string): Severity {
    SeverityNone.FromString(tag).0
  }

  predicate BadTlp(tag: string) {
    tag != "" && Lower(tag) !in TlpLabels
  }

  predicate BadPap(tag: string) {
    tag != "" && Lower(tag) !in PapLabels
  }

  /**
   * The TLP member produced for a label that the codec accepted: its code
   * names the label. Through a pointer the member is present for every
   * non-empty label; through an int with omitempty the code of "clear"
   * (0) is dropped.
   */
  predicate TlpMember(p: Payload, key: string, tag: string, pointer: bool) {
    (key in p <==> tag != "" && (pointer || Lower(tag) != "clear")) &&
    (key in p ==> p[key].JInt? && (p[key].i as Tlp).String() == Lower(tag))
  }

  predicate PapMember(p: Payload, key: string, tag: string, pointer: bool) {
    (key in p <==> tag != "" && (pointer || Lower(tag) != "clear")) &&
    (key in p ==> p[key].JInt? && (p[key].i as Pap).String() == Lower(tag))
  }

  /**
   * The severity member: a known label gives the code that names it, any
   * other label gives 0, which omitempty drops from an int field.
   */
  predicate SeverityMember(p: Payload, key: string, tag: string, pointer: bool) {
    (key in p <==> tag != "" && (pointer || Lower(tag) in SeverityLabels)) &&
    (key in p && Lower(tag) in SeverityLabels ==>
       p[key].JInt? && Lower((p[key].i as Severity).String()) == Lower(tag)) &&
    (key in p && Lower(tag) !in SeverityLabels ==> p[key] == JInt(0))
  }

  /** `key` carries exactly the member `o` describes (None: no member). */
  predicate Carries(p: Payload, key: string, o: Option<Json>) {
    (key in p <==> o.Some?) && (o.Some? ==> p[key] == o.value)
  }

  /** The member of a TLP label: none for "", else its code, dropped when 0 unless through a pointer. */
  function TlpWire(tag: string, pointer: bool): Option<Json> {
    if tag == "" then None
    else if pointer then Some(JInt(TlpCode(tag) as int))
    else OmitZero(TlpCode(tag) as int)
  }

  function PapWire(tag: string, pointer: bool): Option<Json> {
    if tag == "" then None
    else if pointer then Some(JInt(PapCode(tag) as int))
    else OmitZero(PapCode(tag) as int)
  }

  function SeverityWire(tag: string, pointer: bool): Option<Json> {
    if tag == "" then None
    else if pointer then Some(JInt(SeverityCode(tag) as int))
    else OmitZero(SeverityCode(tag) as int)
  }

  lemma TimeCarried(p: Payload, key: string, t: Time)
    requires Carries(p, key, OmitZero(EncodeTime(t)))
    ensures TimeAsInt(p, key, t)
  {
  }

  lemma TimeRefCarried(p: Payload, key: string, t: Time)
    requires Carries(p, key, OptInt(EncodeTimeRef(t)))
    ensures TimeAsRef(p, key, t)
  {
  }

  lemma TlpCarried(p: Payload, key: string, tag: string, pointer: bool)
    requires !BadTlp(tag) && Carries(p, key, TlpWire(tag, pointer))
    ensures TlpMember(p, key, tag, pointer)
  {
    if tag != "" {
      TlpCodeNames(tag);
    }
  }

  lemma PapCarried(p: Payload, key: string, tag: string, pointer: bool)
    requires !BadPap(tag) && Carries(p, key, PapWire(tag, pointer))
    ensures PapMember(p, key, tag, pointer)
  {
    if tag != "" {
      PapCodeNames(tag);
    }
  }

  lemma SeverityCarried(p: Payload, key: string, tag: string, pointer: bool)
    requires Carries(p, key, SeverityWire(tag, pointer))
    ensures SeverityMember(p, key, tag, pointer)
  {
    SeverityCodeNames(tag);
  }

  /** The codec facts the marshallers rely on, from the accepted label to the member. */
  lemma TlpCodeNames(tag: string)
    requires tag != "" && !BadTlp(tag)
    ensures (TlpCode(tag) as Tlp).String() == Lower(tag)
    ensures TlpCode(tag) == 0 <==> Lower(tag) == "clear"
  {
  }

  lemma PapCodeNames(tag: string)
    requires tag != "" && !BadPap(tag)
    ensures (PapCode(tag) as Pap).String() == Lower(tag)
    ensures PapCode(tag) == 0 <==> Lower(tag) == "clear"
  {
  }

  lemma SeverityCodeNames(tag: string)
    ensures Lower(tag) in SeverityLabels ==> Lower(SeverityCode(tag).String()) == Lower(tag)
    ensures Lower(tag) !in SeverityLabels <==> SeverityCode(tag) == 0
  {
    var c := SeverityCode(tag);
    if Lower(tag) in SeverityLabels {
      assert SeverityLabels[c - 1] == Lower(tag);
      LowerIsLower(tag);
    }
  }
}
