/**
 * Case templates: the request body of a template. Its marshaller changes
 * only the template's custom fields, so it is a function of the template's
 * value that returns the template as it leaves it.
 */
module Template {
  import opened Wrappers
  import opened Text
  import opened Util
  import opened Wire
  import opened Alert

  /**
   * A case template. Severity is already a code; severity, tags, flag and
   * custom fields are pointers, None when nil.
   */
  datatype CaseTemplate = CaseTemplate(
    name: string,
    displayName: string,
    titlePrefix: string,
    description: string,
    severity: Option<Severity>,
    tags: Option<seq<string>>,
    flag: Option<bool>,
    tlp: string,
    pap: string,
    summary: string,
    customFields: Option<seq<FieldState>>)
  {
    /** The custom fields behind the pointer; none when it is nil. */
    function Fields(): seq<FieldState> {
      if customFields.Some? then customFields.value else []
    }

    /**
     * The member written under `key`. TLP and PAP are ints with omitempty in
     * the outer struct, so code 0 is dropped; the custom fields have no
     * omitempty, so a nil list is sent as null.
     */
    function Member(key: string): Option<Json> {
      if key == "tlp" then TlpWire(tlp, false)
      else if key == "pap" then PapWire(pap, false)
      else if key == "name" then Some(JString(name))
      else if key == "displayName" then OmitEmpty(displayName)
      else if key == "titlePrefix" then OmitEmpty(titlePrefix)
      else if key == "description" then OmitEmpty(description)
      else if key == "severity" then (if severity.Some? then Some(JInt(severity.value as int)) else None)
      else if key == "tags" then (if tags.Some? then Some(JArray(Strings(tags.value))) else None)
      else if key == "flag" then OptBool(flag)
      else if key == "summary" then OmitEmpty(summary)
      else if key == "customFields" then Some(if customFields.Some? then JArray(FieldsJson(customFields.value)) else JNull)
      else None
    }

    function Body(): Payload {
      map k | k in CaseTemplateKeys && Member(k).Some? :: Member(k).value
    }

    /**
     * CaseTemplate.MarshalJSON: TLP, then PAP, labels through their codecs,
     * the first error aborting with the template untouched; the severity
     * code is sent as given, with no label conversion. encoding/json then
     * runs the custom fields' encoders in order and stops at the first that
     * fails. The result is the template as the marshaller leaves it, and
     * the payload or error.
     */
    function MarshalJSON(isRequestURI: string -> bool, render: FieldValue -> string)
      : (r: (CaseTemplate, Result<Payload, CodecError>))
      ensures r.1.Failure? <==> BadTlp(tlp) || BadPap(pap) || FirstStop(Fields()) < |Fields()|
      ensures BadTlp(tlp) ==> r == (this, Failure(UnknownTlp(tlp)))
      ensures !BadTlp(tlp) && BadPap(pap) ==> r == (this, Failure(UnknownPap))
      ensures !BadTlp(tlp) && !BadPap(pap) ==>
        r.0 == this.(customFields := r.0.customFields)
        && r.0.customFields.Some? == customFields.Some?
        && r.0.Fields() == EncodedFields(Fields(), isRequestURI, render).0
        && (r.1.Failure? ==> r.1.error == EncodedFields(Fields(), isRequestURI, render).1.value)
      ensures r.1.Success? ==> r.1.value == r.0.Body() && TemplateBody(r.0)
    {
      var t := TlpClear.FromString(tlp);
      var p := PapClear.FromString(pap);
      if tlp != "" && t.1.Some? then (this, Failure(t.1.value))
      else if pap != "" && p.1.Some? then (this, Failure(p.1.value))
      else
        var (fields, err) := EncodedFields(Fields(), isRequestURI, render);
        var c := if customFields.Some? then this.(customFields := Some(fields)) else this;
        if err.Some? then (c, Failure(err.value))
        else
          TemplateBodyHolds(c);
          (c, Success(c.Body()))
    }
    /**
     * The member json.Marshal writes under `key` for a template value, where
     * the pointer-receiver MarshalJSON does not run: TLP and PAP are the
     * label text, dropped when empty.
     */
    function ValueMember(key: string): Option<Json> {
      if key == "tlp" then OmitEmpty(tlp)
      else if key == "pap" then OmitEmpty(pap)
      else Member(key)
    }

    function ValueBody(): Payload {
      map k | k in CaseTemplateKeys && ValueMember(k).Some? :: ValueMember(k).value
    }

    /**
     * json.Marshal of a template value, as UpdateCaseTemplate calls it. A
     * value is not addressable, so MarshalJSON above never runs: no label is
     * checked and TLP and PAP go out as text. The custom fields sit behind a
     * pointer, so their encoders still run, and they alone can fail.
     */
    function MarshalValue(isRequestURI: string -> bool, render: FieldValue -> string)
      : (r: (CaseTemplate, Result<Payload, CodecError>))
      ensures r.1.Failure? <==> FirstStop(Fields()) < |Fields()|
      ensures r.0 == this.(customFields := r.0.customFields) && r.0.customFields.Some? == customFields.Some?
      ensures r.0.Fields() == EncodedFields(Fields(), isRequestURI, render).0
      ensures r.1.Success? ==>
        Emits(r.1.value, "tlp", tlp != "", JString(tlp)) && Emits(r.1.value, "pap", pap != "", JString(pap))
    {
      var (fields, err) := EncodedFields(Fields(), isRequestURI, render);
      var c := if customFields.Some? then this.(customFields := Some(fields)) else this;
      if err.Some? then (c, Failure(err.value))
      else
        var b := c.ValueBody();
        assert c.ValueMember("tlp") == OmitEmpty(tlp) && c.ValueMember("pap") == OmitEmpty(pap);
        assert "tlp" in CaseTemplateKeys && "pap" in CaseTemplateKeys;
        (c, Success(b))
    }
  }

  const CaseTemplateKeys: set<string> := {
    "tlp", "pap", "name", "displayName", "titlePrefix", "description", "severity", "tags", "flag",
    "summary", "customFields"}

  lemma TemplateCarries(ct: CaseTemplate, key: string)
    requires key in CaseTemplateKeys
    ensures Carries(ct.Body(), key, ct.Member(key))
  {
  }

  /**
   * What the payload of an accepted template holds: each code naming its
   * label, except that code 0 is left out; the severity code exactly when
   * set; and the custom fields always, as null when the pointer is nil.
   */
  predicate TemplateBody(ct: CaseTemplate) {
    var b := ct.Body();
    TlpMember(b, "tlp", ct.tlp, false) && PapMember(b, "pap", ct.pap, false)
    && ("severity" in b <==> ct.severity.Some?)
    && (ct.severity.Some? ==> b["severity"] == JInt(ct.severity.value as int))
    && "customFields" in b
    && b["customFields"] == (if ct.customFields.Some? then JArray(FieldsJson(ct.Fields())) else JNull)
  }

  lemma TemplateBodyHolds(ct: CaseTemplate)
    requires !BadTlp(ct.tlp) && !BadPap(ct.pap)
    ensures TemplateBody(ct)
  {
    var b := ct.Body();
    TemplateCarries(ct, "tlp");
    TlpCarried(b, "tlp", ct.tlp, false);
    TemplateCarries(ct, "pap");
    PapCarried(b, "pap", ct.pap, false);
    TemplateCarries(ct, "severity");
    TemplateCarries(ct, "customFields");
  }

  /** A template whose TLP is "clear" sends no tlp member at all: the code is 0. */
  lemma ClearTlpIsDropped(ct: CaseTemplate, isRequestURI: string -> bool, render: FieldValue -> string)
    requires Lower(ct.tlp) == "clear" && !BadPap(ct.pap) && FirstStop(ct.Fields()) == |ct.Fields()|
    ensures var r := ct.MarshalJSON(isRequestURI, render).1; r.Success? && "tlp" !in r.value
  {
  }

  /**
   * UpdateCaseTemplate marshals the template by value, so a known TLP label
   * is sent as text where the template's MarshalJSON sends its code.
   */
  lemma UpdateCaseTemplateSendsLabel(ct: CaseTemplate, isRequestURI: string -> bool, render: FieldValue -> string)
    requires ct.tlp == "amber" && ct.pap == "" && FirstStop(ct.Fields()) == |ct.Fields()|
    ensures ct.MarshalValue(isRequestURI, render).1.Success?
    ensures Emits(ct.MarshalValue(isRequestURI, render).1.value, "tlp", true, JString("amber"))
    ensures ct.MarshalJSON(isRequestURI, render).1.Success?
    ensures Emits(ct.MarshalJSON(isRequestURI, render).1.value, "tlp", true, JInt(2))
  {
    var p := ct.MarshalJSON(isRequestURI, render).1.value;
    assert Lower("amber") == "amber";
    assert "tlp" in p;
    assert (p["tlp"].i as Tlp).String() == "amber";
  }

  /** By value, an unknown TLP label is sent as it is instead of being refused. */
  lemma UpdateCaseTemplateSendsUnknownLabel(ct: CaseTemplate, isRequestURI: string -> bool, render: FieldValue -> string)
    requires ct.tlp == "purple" && FirstStop(ct.Fields()) == |ct.Fields()|
    ensures ct.MarshalValue(isRequestURI, render).1.Success?
    ensures Emits(ct.MarshalValue(isRequestURI, render).1.value, "tlp", true, JString("purple"))
    ensures ct.MarshalJSON(isRequestURI, render).1 == Failure(UnknownTlp("purple"))
  {
    assert Lower("purple") == "purple";
  }
}
