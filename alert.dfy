/**
 * Alerts: the request bodies for creating (HiveAlert) and updating
 * (HiveUpdateAlert) an alert, the encoding of a custom field, and the
 * query stages of the alert look-ups.
 */
module Alert {
  import opened Wrappers
  import opened Text
  import opened Util
  import opened Wire
  import opened Query
  import opened Ttp
  import Observable

  // ---------------------------------------------------------------------
  // Creating an alert

  /**
   * A new alert. Its MarshalJSON fills in the type on the receiver and runs
   * the encoders of its custom fields and observables, which update them.
   * Custom fields, observables and procedures are pointers to slices
   * (None: nil).
   */
  class HiveAlert {
    var alertType: string
    var source: string
    var sourceRef: string
    var title: string
    var description: string
    var severity: string
    var date: Time
    var tags: seq<string>
    var externalLink: string
    var flag: bool
    var tlp: string
    var pap: string
    var customFields: Option<seq<FieldState>>
    var summary: string
    var status: string
    var assignee: string
    var caseTemplate: string
    var observables: Option<seq<Observable.ObservableState>>
    var procedures: Option<seq<Procedure>>

    /** The custom fields behind the pointer; none when it is nil. */
    function Fields(): seq<FieldState>
      reads this
    {
      if customFields.Some? then customFields.value else []
    }

    function Observables(): seq<Observable.ObservableState>
      reads this
    {
      if observables.Some? then observables.value else []
    }

    /**
     * The member written under `key`. Date, type and the three codes belong
     * to the outer struct and shadow the alert's own fields; the codes are
     * ints with omitempty, so a code of 0 is dropped.
     */
    function Member(key: string): Option<Json>
      reads this
    {
      if key == "date" then OmitZero(EncodeTime(date))
      else if key == "type" then Some(JString(alertType))
      else if key == "tlp" then TlpWire(tlp, false)
      else if key == "pap" then PapWire(pap, false)
      else if key == "severity" then SeverityWire(severity, false)
      else if key == "source" then Some(JString(source))
      else if key == "sourceRef" then Some(JString(sourceRef))
      else if key == "title" then Some(JString(title))
      else if key == "description" then Some(JString(description))
      else if key == "tags" then OmitNoItems(Strings(tags))
      else if key == "externalLink" then OmitEmpty(externalLink)
      else if key == "flag" then OmitFalse(flag)
      else if key == "customFields" then
        (if customFields.Some? then Some(JArray(FieldsJson(customFields.value))) else None)
      else if key == "summary" then OmitEmpty(summary)
      else if key == "status" then OmitEmpty(status)
      else if key == "assignee" then OmitEmpty(assignee)
      else if key == "caseTemplate" then OmitEmpty(caseTemplate)
      else if key == "observables" then
        (if observables.Some? then Some(JArray(Observable.ObservablesJson(observables.value))) else None)
      else if key == "procedures" then
        (if procedures.Some? then Some(JArray(ProceduresJson(procedures.value))) else None)
      else None
    }

    function Body(): Payload
      reads this
    {
      map k | k in HiveAlertKeys && Member(k).Some? :: Member(k).value
    }

    /**
     * HiveAlert.MarshalJSON: an empty type becomes "alert" on the receiver
     * before anything can fail; then TLP and PAP labels go through their
     * codecs, the first error aborting; then encoding/json writes the
     * struct, running each custom field's encoder and then each
     * observable's, and stops at the first element that fails.
     */
    method MarshalJSON(isRequestURI: string -> bool, render: FieldValue -> string)
      returns (r: Result<Payload, CodecError>)
      modifies this`alertType, this`customFields, this`observables
      ensures alertType == (if old(alertType) == "" then "alert" else old(alertType))
      ensures customFields.Some? == old(customFields).Some? && observables.Some? == old(observables).Some?
      ensures BadTlp(tlp) ==> r == Failure(UnknownTlp(tlp))
      ensures !BadTlp(tlp) && BadPap(pap) ==> r == Failure(UnknownPap)
      ensures AlertPass(Fields(), Observables(), if r.Failure? then Some(r.error) else None)
           == EncodedAlert(tlp, pap, old(Fields()), old(Observables()), isRequestURI, render)
      ensures r.Success? ==> r.value == Body() && AlertBody(this)
    {
      if alertType == "" {
        alertType := "alert";
      }
      var err: Option<CodecError>;
      var t := TlpClear.FromString(tlp);
      var p := PapClear.FromString(pap);
      if tlp != "" && t.1.Some? {
        err := t.1;
      } else if pap != "" && p.1.Some? {
        err := p.1;
      } else {
        err := EncodeSlices(isRequestURI, render);
      }
      if err.Some? {
        return Failure(err.value);
      }
      AlertBodyHolds(this);
      r := Success(Body());
    }

    /**
     * encoding/json's pass over the custom fields and then, if none of
     * them failed, over the observables; the error it stops with, if any.
     */
    method EncodeSlices(isRequestURI: string -> bool, render: FieldValue -> string)
      returns (err: Option<CodecError>)
      modifies this`customFields, this`observables
      ensures customFields.Some? == old(customFields).Some? && observables.Some? == old(observables).Some?
      ensures AlertPass(Fields(), Observables(), err) == EncodedSlices(old(Fields()), old(Observables()), isRequestURI, render)
    {
      var fs := EncodedFields(Fields(), isRequestURI, render);
      if customFields.Some? {
        customFields := Some(fs.0);
      }
      err := fs.1;
      if err.None? {
        var os := Observable.EncodedObservables(Observables());
        if observables.Some? {
          observables := Some(os.0);
        }
        err := os.1;
      }
    }
  }

  /** What encoding an alert leaves in its custom fields and observables, and the error it stops with. */
  datatype AlertPass = AlertPass(
    fields: seq<FieldState>,
    observables: seq<Observable.ObservableState>,
    err: Option<CodecError>)

  /**
   * encoding/json's passes over an alert's slices: the custom fields, then,
   * if none of them failed, the observables.
   */
  function EncodedSlices(fs: seq<FieldState>, os: seq<Observable.ObservableState>,
                         isRequestURI: string -> bool, render: FieldValue -> string): (r: AlertPass)
    ensures r.err.None? <==> FirstStop(fs) == |fs| && Observable.FirstRejected(os) == |os|
  {
    var (fields, err) := EncodedFields(fs, isRequestURI, render);
    if err.Some? then AlertPass(fields, os, err)
    else
      var (observables, err') := Observable.EncodedObservables(os);
      AlertPass(fields, observables, err')
  }

  /**
   * What HiveAlert.MarshalJSON does to an alert's slices, and the error it
   * returns: a refused label leaves them as they were; otherwise the
   * passes over the slices run.
   */
  function EncodedAlert(tlp: string, pap: string, fs: seq<FieldState>, os: seq<Observable.ObservableState>,
                        isRequestURI: string -> bool, render: FieldValue -> string): (r: AlertPass)
    ensures r.err.None? <==>
      !BadTlp(tlp) && !BadPap(pap) && FirstStop(fs) == |fs| && Observable.FirstRejected(os) == |os|
    ensures BadTlp(tlp) || BadPap(pap) ==> r.fields == fs && r.observables == os
  {
    if BadTlp(tlp) then AlertPass(fs, os, Some(UnknownTlp(tlp)))
    else if BadPap(pap) then AlertPass(fs, os, Some(UnknownPap))
    else EncodedSlices(fs, os, isRequestURI, render)
  }

  const HiveAlertKeys: set<string> := {
    "date", "type", "tlp", "pap", "severity", "source", "sourceRef", "title", "description",
    "tags", "externalLink", "flag", "customFields", "summary", "status", "assignee",
    "caseTemplate", "observables", "procedures"}

  /**
   * What the payload of an accepted alert holds: the type always, the date
   * when set, each code naming its label, except that a code of 0 (TLP or
   * PAP "clear", an unknown severity) is left out, and each slice given
   * as the array of its elements' encodings.
   */
  predicate AlertBody(a: HiveAlert)
    reads a
  {
    var b := a.Body();
    Emits(b, "type", true, JString(a.alertType)) && TimeAsInt(b, "date", a.date)
    && TlpMember(b, "tlp", a.tlp, false) && PapMember(b, "pap", a.pap, false)
    && SeverityMember(b, "severity", a.severity, false)
    && Emits(b, "customFields", a.customFields.Some?, JArray(FieldsJson(a.Fields())))
    && Emits(b, "observables", a.observables.Some?, JArray(Observable.ObservablesJson(a.Observables())))
    && (a.procedures.Some? ==> "procedures" in b && b["procedures"] == JArray(ProceduresJson(a.procedures.value)))
    && (a.procedures.None? ==> "procedures" !in b)
  }

  lemma AlertCarries(a: HiveAlert, key: string)
    requires key in HiveAlertKeys
    ensures Carries(a.Body(), key, a.Member(key))
  {
  }

  lemma AlertBodyHolds(a: HiveAlert)
    requires !BadTlp(a.tlp) && !BadPap(a.pap)
    ensures AlertBody(a)
  {
    var b := a.Body();
    AlertCarries(a, "type");
    AlertCarries(a, "date");
    TimeCarried(b, "date", a.date);
    AlertCarries(a, "tlp");
    TlpCarried(b, "tlp", a.tlp, false);
    AlertCarries(a, "pap");
    PapCarried(b, "pap", a.pap, false);
    AlertCarries(a, "severity");
    SeverityCarried(b, "severity", a.severity, false);
    AlertCarries(a, "customFields");
    AlertCarries(a, "observables");
    AlertCarries(a, "procedures");
  }

  // ---------------------------------------------------------------------
  // Updating an alert

  /**
   * An alert update. Its MarshalJSON fills in the type on the receiver and
   * runs the encoders of its custom fields, which update them.
   */
  class HiveUpdateAlert {
    var alertType: string
    var source: string
    var sourceRef: string
    var externalLink: string
    var title: string
    var description: string
    var severity: string
    var date: Time
    var lastSyncDate: Time
    var tags: seq<string>
    var tlp: string
    var pap: string
    var follow: Option<bool>
    var customFields: seq<FieldState>
    var status: string
    var summary: string
    var assignee: string
    var addTags: seq<string>
    var removeTags: seq<string>

    /** The member written under `key`; the outer struct's six fields first. */
    function Member(key: string): Option<Json>
      reads this
    {
      if key == "date" then OmitZero(EncodeTime(date))
      else if key == "lastSyncDate" then OmitZero(EncodeTime(lastSyncDate))
      else if key == "type" then Some(JString(alertType))
      else if key == "tlp" then TlpWire(tlp, false)
      else if key == "pap" then PapWire(pap, false)
      else if key == "severity" then SeverityWire(severity, false)
      else if key == "source" then OmitEmpty(source)
      else if key == "sourceRef" then OmitEmpty(sourceRef)
      else if key == "externalLink" then OmitEmpty(externalLink)
      else if key == "title" then OmitEmpty(title)
      else if key == "description" then OmitEmpty(description)
      else if key == "tags" then OmitNoItems(Strings(tags))
      else if key == "follow" then OptBool(follow)
      else if key == "customFields" then OmitNoItems(FieldsJson(customFields))
      else if key == "status" then OmitEmpty(status)
      else if key == "summary" then OmitEmpty(summary)
      else if key == "assignee" then OmitEmpty(assignee)
      else if key == "addTags" then OmitNoItems(Strings(addTags))
      else if key == "removeTags" then OmitNoItems(Strings(removeTags))
      else None
    }

    function Body(): Payload
      reads this
    {
      map k | k in HiveUpdateAlertKeys && Member(k).Some? :: Member(k).value
    }

    /**
     * HiveUpdateAlert.MarshalJSON: the same type default and label codecs as
     * for a new alert, the last synchronisation date sent like the date, and
     * the custom fields encoded in order up to the first that fails.
     */
    method MarshalJSON(isRequestURI: string -> bool, render: FieldValue -> string)
      returns (r: Result<Payload, CodecError>)
      modifies this`alertType, this`customFields
      ensures alertType == (if old(alertType) == "" then "alert" else old(alertType))
      ensures BadTlp(tlp) ==> r == Failure(UnknownTlp(tlp))
      ensures !BadTlp(tlp) && BadPap(pap) ==> r == Failure(UnknownPap)
      ensures BadTlp(tlp) || BadPap(pap) ==> customFields == old(customFields)
      ensures !BadTlp(tlp) && !BadPap(pap) ==>
        customFields == EncodedFields(old(customFields), isRequestURI, render).0
        && (r.Failure? <==> EncodedFields(old(customFields), isRequestURI, render).1.Some?)
        && (r.Failure? ==> r.error == EncodedFields(old(customFields), isRequestURI, render).1.value)
      ensures r.Success? <==> !BadTlp(tlp) && !BadPap(pap) && FirstStop(old(customFields)) == |customFields|
      ensures r.Success? ==> r.value == Body() && UpdateAlertBody(this)
    {
      if alertType == "" {
        alertType := "alert";
      }
      var t := TlpClear.FromString(tlp);
      if tlp != "" && t.1.Some? {
        return Failure(t.1.value);
      }
      var p := PapClear.FromString(pap);
      if pap != "" && p.1.Some? {
        return Failure(p.1.value);
      }
      var fs := EncodedFields(customFields, isRequestURI, render);
      customFields := fs.0;
      if fs.1.Some? {
        return Failure(fs.1.value);
      }
      UpdateAlertBodyHolds(this);
      r := Success(Body());
    }
  }

  const HiveUpdateAlertKeys: set<string> := {
    "date", "lastSyncDate", "type", "tlp", "pap", "severity", "source", "sourceRef",
    "externalLink", "title", "description", "tags", "follow", "customFields", "status",
    "summary", "assignee", "addTags", "removeTags"}

  /**
   * What the payload of an accepted alert update holds for type, dates and
   * codes, and the custom fields as the array of their encodings, left out
   * when there are none.
   */
  predicate UpdateAlertBody(a: HiveUpdateAlert)
    reads a
  {
    var b := a.Body();
    Emits(b, "type", true, JString(a.alertType))
    && TimeAsInt(b, "date", a.date) && TimeAsInt(b, "lastSyncDate", a.lastSyncDate)
    && TlpMember(b, "tlp", a.tlp, false) && PapMember(b, "pap", a.pap, false)
    && SeverityMember(b, "severity", a.severity, false)
    && Emits(b, "customFields", |a.customFields| > 0, JArray(FieldsJson(a.customFields)))
  }

  lemma UpdateAlertCarries(a: HiveUpdateAlert, key: string)
    requires key in HiveUpdateAlertKeys
    ensures Carries(a.Body(), key, a.Member(key))
  {
  }

  lemma UpdateAlertBodyHolds(a: HiveUpdateAlert)
    requires !BadTlp(a.tlp) && !BadPap(a.pap)
    ensures UpdateAlertBody(a)
  {
    var b := a.Body();
    UpdateAlertCarries(a, "type");
    UpdateAlertCarries(a, "date");
    TimeCarried(b, "date", a.date);
    UpdateAlertCarries(a, "lastSyncDate");
    TimeCarried(b, "lastSyncDate", a.lastSyncDate);
    UpdateAlertCarries(a, "tlp");
    TlpCarried(b, "tlp", a.tlp, false);
    UpdateAlertCarries(a, "pap");
    PapCarried(b, "pap", a.pap, false);
    UpdateAlertCarries(a, "severity");
    SeverityCarried(b, "severity", a.severity, false);
    UpdateAlertCarries(a, "customFields");
  }

  // ---------------------------------------------------------------------
  // Custom fields

  /** What encoding a custom field comes to: a payload, an error, or a run-time panic. */
  datatype FieldOutcome =
    | Encoded(payload: Payload)
    | Failed(err: CodecError)
    | Panicked

  /**
   * A custom field of an alert, case or template. MarshalJSON infers a
   * missing type and converts the value for string fields, on the receiver.
   */
  class CustomField {
    var name: string
    var displayName: string
    var group: string
    var value: FieldValue
    var description: string
    var fieldType: string
    var mandatory: bool
    var options: Option<map<string, string>>

    /** The fields as one value. */
    function State(): FieldState
      reads this
    {
      FieldState(name, displayName, group, value, description, fieldType, mandatory, options)
    }

    /**
     * CustomField.MarshalJSON as written. `isRequestURI` stands for
     * url.ParseRequestURI succeeding and `render` for the %s rendering of a
     * value that is not a string. The value is then asserted to be a string:
     * any other value (an integer field, say) panics, after the receiver has
     * been updated.
     */
    method MarshalJSON(isRequestURI: string -> bool, render: FieldValue -> string) returns (r: FieldOutcome)
      modifies this`fieldType, this`value
      ensures r.Failed? <==> old(fieldType) == "" && old(value).FOther?
      ensures r.Failed? ==>
        r.err == NoCustomFieldType(old(value).rendered) && fieldType == old(fieldType) && value == old(value)
      ensures !r.Failed? ==>
        fieldType == ResolvedType(old(fieldType), old(value), isRequestURI) && value == ConvertedValue(fieldType, old(value), render)
      ensures r.Panicked? <==> !r.Failed? && !value.FString?
      ensures r.Encoded? ==> value.FString? && r.payload == State().Body(JString(value.s))
    {
      if fieldType == "" {
        var detected := DetectCustomFieldType(value, isRequestURI);
        if detected.Failure? {
          return Failed(detected.error);
        }
        fieldType := detected.value;
      }
      value := ConvertedValue(fieldType, value, render);
      if !value.FString? {
        return Panicked;
      }
      r := Encoded(State().Body(JString(value.s)));
    }

    /**
     * The encoding the client evidently intends: the same type inference and
     * string conversion, with the value sent as the JSON of its own shape.
     * A date value outside the years 0 to 9999 makes time.Time's encoder
     * fail, after the type and value have been updated.
     */
    method MarshalJSONCorrected(isRequestURI: string -> bool, render: FieldValue -> string)
      returns (r: Result<Payload, CodecError>)
      modifies this`fieldType, this`value
      ensures State() == old(State()).Typed(isRequestURI, render)
      ensures r.Failure? <==> old(State()).Stops()
      ensures r.Failure? ==> r.error == old(State()).Error()
      ensures r.Success? ==> r.value == State().Encoding()
      ensures r.Success? && old(fieldType) == "" ==> Conforms(fieldType, value) && FieldShaped(r.value, fieldType)
    {
      if fieldType == "" {
        var detected := DetectCustomFieldType(value, isRequestURI);
        if detected.Failure? {
          return Failure(detected.error);
        }
        fieldType := detected.value;
      }
      value := ConvertedValue(fieldType, value, render);
      if value.FTime? && !InTextRange(value.t) {
        return Failure(TimeOutOfRange);
      }
      r := Success(State().Encoding());
      if old(fieldType) == "" {
        InferredFieldShaped(old(State()), isRequestURI, render);
      }
    }
  }

  /**
   * The fields of a custom field as one value: what its encoder reads and
   * updates, and what an alert, case or template holds for each of its
   * custom fields.
   */
  datatype FieldState = FieldState(
    name: string, displayName: string, group: string, value: FieldValue, description: string,
    fieldType: string, mandatory: bool, options: Option<map<string, string>>)
  {
    /** The members other than the value; the name is sent lower-cased. */
    function Member(key: string): Option<Json> {
      if key == "name" then Some(JString(Lower(name)))
      else if key == "displayName" then OmitEmpty(displayName)
      else if key == "group" then Some(JString(group))
      else if key == "description" then Some(JString(description))
      else if key == "type" then Some(JString(fieldType))
      else if key == "mandatory" then OmitFalse(mandatory)
      else if key == "options" then (if options.Some? then Some(StringMap(options.value)) else None)
      else None
    }

    /** The payload once the value has been turned into `v`. */
    function Body(v: Json): Payload {
      (map k | k in CustomFieldKeys && Member(k).Some? :: Member(k).value)["value" := v]
    }

    /** The payload the field is sent as, once encoded. */
    function Encoding(): Payload {
      Body(FieldJson(value))
    }

    /** No type is given and none can be inferred from the value. */
    predicate Untypable() {
      fieldType == "" && value.FOther?
    }

    /**
     * The value, once typed, is a date time.Time cannot write; a field of
     * type "string" renders it as text instead.
     */
    predicate Unwritable() {
      value.FTime? && !InTextRange(value.t) && fieldType != "string"
    }

    /** The corrected encoding of this field fails. */
    predicate Stops() {
      Untypable() || Unwritable()
    }

    /** The error the corrected encoding fails with. */
    function Error(): CodecError {
      if Untypable() then NoCustomFieldType(value.rendered) else TimeOutOfRange
    }

    /**
     * The field an encoding leaves: the type resolved and the value
     * converted, unless no type can be found, when it is left as it was.
     */
    function Typed(isRequestURI: string -> bool, render: FieldValue -> string): FieldState {
      if Untypable() then this
      else
        var t := ResolvedType(fieldType, value, isRequestURI);
        this.(fieldType := t, value := ConvertedValue(t, value, render))
    }
  }

  const CustomFieldKeys: set<string> := {
    "name", "displayName", "group", "description", "type", "mandatory", "options"}

  /** The type a field ends up with: its own, or the one inferred from its value. */
  function ResolvedType(tag: string, v: FieldValue, isRequestURI: string -> bool): (t: string)
    requires tag != "" || !v.FOther?
    ensures t != ""
    ensures tag == "" ==> t in FieldTypes && Conforms(t, v)
  {
    if tag != "" then tag else DetectCustomFieldType(v, isRequestURI).value
  }

  /**
   * The value after the conversion for string fields: a string stays as it
   * is, anything else becomes its %s rendering; fields of other types keep
   * their value.
   */
  function ConvertedValue(tag: string, v: FieldValue, render: FieldValue -> string): (r: FieldValue)
    ensures tag == "string" ==> r.FString?
    ensures tag != "string" || v.FString? ==> r == v
  {
    if tag != "string" then v
    else if v.FString? then v
    else FString(render(v))
  }

  /** The value sent under "value" has the JSON shape its type tag names. */
  predicate FieldShaped(p: Payload, tag: string) {
    "value" in p
    && (tag == "string" || tag == "url" ==> p["value"].JString?)
    && (tag == "integer" ==> p["value"].JInt?)
    && (tag == "boolean" ==> p["value"].JBool?)
    && (tag == "date" ==> p["value"].JTimeText?)
  }

  /**
   * A field whose type was left for inference comes out with a type that
   * fits its value, and sends the value in the JSON shape that type names.
   */
  lemma InferredFieldShaped(s: FieldState, isRequestURI: string -> bool, render: FieldValue -> string)
    requires s.fieldType == "" && !s.Untypable()
    ensures var t := s.Typed(isRequestURI, render);
      Conforms(t.fieldType, t.value) && FieldShaped(t.Encoding(), t.fieldType)
  {
    var t := s.Typed(isRequestURI, render);
    assert t.value == s.value;
    var j := FieldJson(t.value);
    assert t.Encoding()["value"] == j;
  }

  /**
   * Encoding a field that went through leaves one that encodes again to
   * itself: the type is set, and a converted value needs no more converting.
   */
  lemma TypedIsStable(s: FieldState, isRequestURI: string -> bool, render: FieldValue -> string)
    requires !s.Stops()
    ensures var t := s.Typed(isRequestURI, render); !t.Stops() && t.Typed(isRequestURI, render) == t
  {
  }

  // ---------------------------------------------------------------------
  // A slice of custom fields inside an alert, case or template

  /** The position of the first field whose encoding fails; |ss| when there is none. */
  function FirstStop(ss: seq<FieldState>): (k: nat)
    ensures k <= |ss|
    ensures forall j :: 0 <= j < k ==> !ss[j].Stops()
    ensures k < |ss| ==> ss[k].Stops()
  {
    if |ss| == 0 || ss[0].Stops() then 0 else 1 + FirstStop(ss[1..])
  }

  /**
   * encoding/json's pass over a slice of custom fields: it calls each one's
   * (corrected) MarshalJSON in order, so each is typed, until the first
   * that fails, whose error ends the pass; that one is typed too unless no
   * type could be found, and those after it are left as they were.
   */
  function EncodedFields(ss: seq<FieldState>, isRequestURI: string -> bool, render: FieldValue -> string)
    : (r: (seq<FieldState>, Option<CodecError>))
    ensures |r.0| == |ss|
    ensures r.1 == if FirstStop(ss) < |ss| then Some(ss[FirstStop(ss)].Error()) else None
  {
    if |ss| == 0 then ([], None)
    else if ss[0].Stops() then ([ss[0].Typed(isRequestURI, render)] + ss[1..], Some(ss[0].Error()))
    else
      var rest := EncodedFields(ss[1..], isRequestURI, render);
      ([ss[0].Typed(isRequestURI, render)] + rest.0, rest.1)
  }

  /**
   * The fields a pass leaves, position by position: typed up to and
   * including the one it stops at, the rest as they were.
   */
  lemma {:induction false} EncodedFieldsAt(ss: seq<FieldState>, isRequestURI: string -> bool,
                                           render: FieldValue -> string, j: nat)
    requires j < |ss|
    ensures j <= FirstStop(ss) ==> EncodedFields(ss, isRequestURI, render).0[j] == ss[j].Typed(isRequestURI, render)
    ensures j > FirstStop(ss) ==> EncodedFields(ss, isRequestURI, render).0[j] == ss[j]
  {
    if j > 0 && !ss[0].Stops() {
      EncodedFieldsAt(ss[1..], isRequestURI, render, j - 1);
      assert ss[1..][j - 1] == ss[j];
    }
  }

  /**
   * A pass that went through leaves fields a second pass does not change,
   * so encoding the same alert twice sends the same custom fields.
   */
  lemma {:induction false} EncodedFieldsIdempotent(ss: seq<FieldState>, isRequestURI: string -> bool,
                                                   render: FieldValue -> string)
    requires EncodedFields(ss, isRequestURI, render).1.None?
    ensures EncodedFields(EncodedFields(ss, isRequestURI, render).0, isRequestURI, render)
         == EncodedFields(ss, isRequestURI, render)
  {
    if |ss| > 0 {
      EncodedFieldsIdempotent(ss[1..], isRequestURI, render);
      TypedIsStable(ss[0], isRequestURI, render);
      assert EncodedFields(ss, isRequestURI, render).0[1..] == EncodedFields(ss[1..], isRequestURI, render).0;
    }
  }

  /** The array elements a slice of encoded custom fields is written as. */
  function FieldsJson(ss: seq<FieldState>): (r: seq<Json>)
    ensures |r| == |ss|
    ensures forall j :: 0 <= j < |ss| ==> r[j] == JObject(ss[j].Encoding())
  {
    seq(|ss|, j requires 0 <= j < |ss| => JObject(ss[j].Encoding()))
  }

  /**
   * A well-typed integer field whose type is left for inference makes the
   * as-written encoding panic, while the corrected one sends the number.
   */
  method IntegerFieldPanics(isRequestURI: string -> bool, render: FieldValue -> string)
    returns (asWritten: FieldOutcome, corrected: Result<Payload, CodecError>)
    ensures asWritten.Panicked?
    ensures corrected.Success? && "value" in corrected.value && corrected.value["value"] == JInt(3)
  {
    var c := new CustomField;
    c.name, c.value, c.fieldType := "Score", FInt(3), "";
    asWritten := c.MarshalJSON(isRequestURI, render);
    var d := new CustomField;
    d.name, d.value, d.fieldType := "Score", FInt(3), "";
    corrected := d.MarshalJSONCorrected(isRequestURI, render);
    assert corrected.value == d.State().Body(JInt(3));
    assert "value" in corrected.value && corrected.value["value"] == JInt(3);
  }

  // ---------------------------------------------------------------------
  // Query stages of the alert look-ups

  /**
   * The lower bound the timed look-ups send: the time's whole seconds times
   * 1000, as decimal text, so the milliseconds within the second are lost.
   */
  function SecondsBound(since: Time): (r: string)
    ensures ParseDecimal(r).Some?
    ensures ParseDecimal(r).value % 1000 == 0
    ensures UnixMilli(since) - 1000 < ParseDecimal(r).value <= UnixMilli(since)
    ensures Canonical(r)
  {
    ItoaRoundTrip(Unix(since) * 1000);
    ItoaCanonical(Unix(since) * 1000);
    Itoa(Unix(since) * 1000)
  }

  /**
   * FindAlertsByFieldTimed: list alerts, keep those whose (lower-cased)
   * field equals the value, then those updated since the bound.
   */
  function FindAlertsByFieldTimed(field: string, value: string, since: Time): (r: seq<SearchQuery>)
    ensures |r| == 3 && r[0] == SearchQuery("listAlert")
    ensures r[1] == SearchQuery("filter", eq := r[1].eq) && EqualsString(r[1].eq, Lower(field), value)
    ensures r[2] == SearchQuery("filter", gte := r[2].gte) && EqualsString(r[2].gte, "_updatedAt", SecondsBound(since))
  {
    [SearchQuery("listAlert"),
     SearchQuery("filter", eq := Some(Filter(Lower(field), value := Some(JString(value))))),
     SearchQuery("filter", gte := Some(Filter("_updatedAt", value := Some(JString(SecondsBound(since))))))]
  }

  /** GetAlertsTimed: list alerts updated since the bound. */
  function GetAlertsTimed(since: Time): (r: seq<SearchQuery>)
    ensures |r| == 2 && r[0] == SearchQuery("listAlert")
    ensures r[1] == SearchQuery("filter", gte := r[1].gte) && EqualsString(r[1].gte, "_updatedAt", SecondsBound(since))
  {
    [SearchQuery("listAlert"),
     SearchQuery("filter", gte := Some(Filter("_updatedAt", value := Some(JString(SecondsBound(since))))))]
  }

  /** FindAlertsByCustomField: list alerts whose custom field equals the value. */
  function FindAlertsByCustomField(field: string, value: string): (r: seq<SearchQuery>)
    ensures |r| == 2 && r[0] == SearchQuery("listAlert")
    ensures r[1] == SearchQuery("filter", eq := r[1].eq) && EqualsString(r[1].eq, CustomFieldPath(field), value)
  {
    [SearchQuery("listAlert"),
     SearchQuery("filter", eq := Some(Filter(CustomFieldPath(field), value := Some(JString(value)))))]
  }

  /** Both field look-ups match the field name without regard to case. */
  lemma AlertLookupsIgnoreCase(field: string, value: string, since: Time)
    ensures FindAlertsByFieldTimed(Lower(field), value, since) == FindAlertsByFieldTimed(field, value, since)
    ensures FindAlertsByCustomField(Lower(field), value) == FindAlertsByCustomField(field, value)
  {
    LowerIsLower(field);
  }
}
