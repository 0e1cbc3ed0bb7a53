/**
 * Cases: the request bodies for creating (HiveCase) and updating
 * (HiveUpdateCase) a case, the decoding of a case and of a case status
 * option from TheHive's responses, and the query stages the case
 * look-ups send.
 */
module Case {
  import opened Wrappers
  import opened Text
  import opened Util
  import opened Wire
  import opened Query
  import opened Alert
  import opened Task

  // ---------------------------------------------------------------------
  // Creating a case

  /**
   * A new case. Custom fields, pages, tasks and sharing parameters are
   * pointers to slices, None when nil; encoding the case runs its custom
   * fields' encoders, which update them, so the marshaller returns the
   * case as it leaves it along with the payload.
   */
  datatype HiveCase = HiveCase(
    title: string,
    description: string,
    severity: string,
    startDate: Time,
    endDate: Time,
    tags: seq<string>,
    flag: bool,
    tlp: string,
    pap: string,
    status: string,
    summary: string,
    assignee: string,
    customFields: Option<seq<FieldState>>,
    template: string,
    pages: Option<seq<Page>>,
    tasks: Option<seq<CaseTask>>,
    sharingParameters: Option<seq<SharingParameter>>,
    taskRule: string,
    observableRule: string)
  {
    /** The custom fields behind the pointer; none when it is nil. */
    function Fields(): seq<FieldState> {
      if customFields.Some? then customFields.value else []
    }

    /**
     * The member written under `key`. The five fields of the outer struct
     * come first: they shadow the case's own fields of the same name.
     */
    function Member(key: string): Option<Json> {
      if key == "startDate" then OmitZero(EncodeTime(startDate))
      else if key == "endDate" then OmitZero(EncodeTime(endDate))
      else if key == "tlp" then TlpWire(tlp, true)
      else if key == "pap" then PapWire(pap, true)
      else if key == "severity" then SeverityWire(severity, true)
      else if key == "title" then Some(JString(title))
      else if key == "description" then Some(JString(description))
      else if key == "tags" then OmitNoItems(Strings(tags))
      else if key == "flag" then OmitFalse(flag)
      else if key == "status" then OmitEmpty(status)
      else if key == "summary" then OmitEmpty(summary)
      else if key == "assignee" then OmitEmpty(assignee)
      else if key == "customFields" then
        (if customFields.Some? then Some(JArray(FieldsJson(customFields.value))) else None)
      else if key == "caseTemplate" then OmitEmpty(template)
      else if key == "pages" then (if pages.Some? then Some(JArray(PagesJson(pages.value))) else None)
      else if key == "tasks" then (if tasks.Some? then Some(JArray(TasksJson(tasks.value))) else None)
      else if key == "sharingParameters" then
        (if sharingParameters.Some? then Some(JArray(SharingJson(sharingParameters.value))) else None)
      else if key == "taskRule" then OmitEmpty(taskRule)
      else if key == "observableRule" then OmitEmpty(observableRule)
      else None
    }

    function Body(): Payload {
      map k | k in HiveCaseKeys && Member(k).Some? :: Member(k).value
    }

    /**
     * HiveCase.MarshalJSON: severity, then TLP, then PAP labels go through
     * their codecs; a TLP or PAP error aborts with no payload and the case
     * untouched. The codes are pointers, so every non-empty label is
     * written, code 0 included. encoding/json then runs the custom fields'
     * encoders in order and stops at the first that fails; tasks, pages
     * and sharing parameters always encode. The result is the case as the
     * marshaller leaves it, and the payload or error.
     */
    function MarshalJSON(isRequestURI: string -> bool, render: FieldValue -> string)
      : (r: (HiveCase, Result<Payload, CodecError>))
      ensures r.1.Failure? <==> BadTlp(tlp) || BadPap(pap) || FirstStop(Fields()) < |Fields()|
      ensures BadTlp(tlp) ==> r == (this, Failure(UnknownTlp(tlp)))
      ensures !BadTlp(tlp) && BadPap(pap) ==> r == (this, Failure(UnknownPap))
      ensures !BadTlp(tlp) && !BadPap(pap) ==>
        r.0 == this.(customFields := r.0.customFields)
        && r.0.customFields.Some? == customFields.Some?
        && r.0.Fields() == EncodedFields(Fields(), isRequestURI, render).0
        && (r.1.Failure? ==> r.1.error == EncodedFields(Fields(), isRequestURI, render).1.value)
      ensures r.1.Success? ==> r.1.value == r.0.Body() && CaseBody(r.0)
    {
      var t := TlpClear.FromString(tlp);
      var p := PapClear.FromString(pap);
      if tlp != "" && t.1.Some? then (this, Failure(t.1.value))
      else if pap != "" && p.1.Some? then (this, Failure(p.1.value))
      else
        var (fields, err) := EncodedFields(Fields(), isRequestURI, render);
        var c := if customFields.Some? then this.(customFields := Some(fields)) else this;
        if err.Some? then (c, Failure(err.value))
        else
          HiveCaseBody(c);
          (c, Success(c.Body()))
    }
  }

  const HiveCaseKeys: set<string> := {
    "startDate", "endDate", "tlp", "pap", "severity", "title", "description", "tags", "flag",
    "status", "summary", "assignee", "customFields", "caseTemplate", "pages", "tasks",
    "sharingParameters", "taskRule", "observableRule"}

  /**
   * What the payload of an accepted case holds: the dates when set, each
   * non-empty label as its code, the title, and each slice as the array of
   * its elements' encodings, present exactly when the pointer is set.
   */
  predicate CaseBody(hc: HiveCase) {
    var b := hc.Body();
    TimeAsInt(b, "startDate", hc.startDate) && TimeAsInt(b, "endDate", hc.endDate)
    && TlpMember(b, "tlp", hc.tlp, true) && PapMember(b, "pap", hc.pap, true)
    && SeverityMember(b, "severity", hc.severity, true)
    && Emits(b, "title", true, JString(hc.title))
    && Emits(b, "customFields", hc.customFields.Some?, JArray(FieldsJson(hc.Fields())))
    && (hc.tasks.Some? ==> "tasks" in b && b["tasks"] == JArray(TasksJson(hc.tasks.value)))
    && (hc.tasks.None? ==> "tasks" !in b)
  }

  lemma HiveCaseCarries(hc: HiveCase, key: string)
    requires key in HiveCaseKeys
    ensures Carries(hc.Body(), key, hc.Member(key))
  {
  }

  lemma HiveCaseBody(hc: HiveCase)
    requires !BadTlp(hc.tlp) && !BadPap(hc.pap)
    ensures CaseBody(hc)
  {
    var b := hc.Body();
    HiveCaseCarries(hc, "startDate");
    TimeCarried(b, "startDate", hc.startDate);
    HiveCaseCarries(hc, "endDate");
    TimeCarried(b, "endDate", hc.endDate);
    HiveCaseCarries(hc, "tlp");
    TlpCarried(b, "tlp", hc.tlp, true);
    HiveCaseCarries(hc, "pap");
    PapCarried(b, "pap", hc.pap, true);
    HiveCaseCarries(hc, "severity");
    SeverityCarried(b, "severity", hc.severity, true);
    HiveCaseCarries(hc, "title");
    HiveCaseCarries(hc, "customFields");
    HiveCaseCarries(hc, "tasks");
  }

  /** A TLP label "clear" is still sent, as 0, because the code is a pointer. */
  lemma ClearTlpIsSentAsZero(hc: HiveCase, isRequestURI: string -> bool, render: FieldValue -> string)
    requires Lower(hc.tlp) == "clear" && !BadPap(hc.pap) && FirstStop(hc.Fields()) == |hc.Fields()|
    ensures var r := hc.MarshalJSON(isRequestURI, render).1; r.Success? && r.value["tlp"] == JInt(0)
  {
    var p := hc.MarshalJSON(isRequestURI, render).1.value;
    assert "tlp" in p;
    assert (p["tlp"].i as Tlp).String() == "clear";
  }

  /** A page of a case; order and category are pointers, None when nil. */
  datatype Page = Page(title: string, content: string, order: Option<int>, category: Option<string>)
  {
    /** The category has no omitempty, so a nil one is sent as null. */
    function Member(key: string): Option<Json> {
      if key == "title" then Some(JString(title))
      else if key == "content" then Some(JString(content))
      else if key == "order" then OptInt(order)
      else if key == "category" then Some(if category.Some? then JString(category.value) else JNull)
      else None
    }

    function Body(): Payload {
      map k | k in PageKeys && Member(k).Some? :: Member(k).value
    }
  }

  const PageKeys: set<string> := {"title", "content", "order", "category"}

  /** Sharing a case with another organisation; `share` is a pointer, None when nil. */
  datatype SharingParameter = SharingParameter(
    organisation: string,
    share: Option<bool>,
    profile: string,
    taskRule: string,
    observableRule: string)
  {
    function Member(key: string): Option<Json> {
      if key == "organisation" then Some(JString(organisation))
      else if key == "share" then OptBool(share)
      else if key == "profile" then OmitEmpty(profile)
      else if key == "taskRule" then OmitEmpty(taskRule)
      else if key == "observableRule" then OmitEmpty(observableRule)
      else None
    }

    function Body(): Payload {
      map k | k in SharingParameterKeys && Member(k).Some? :: Member(k).value
    }
  }

  const SharingParameterKeys: set<string> := {"organisation", "share", "profile", "taskRule", "observableRule"}

  function PagesJson(ps: seq<Page>): (r: seq<Json>)
    ensures |r| == |ps| && forall j :: 0 <= j < |ps| ==> r[j] == JObject(ps[j].Body())
  {
    seq(|ps|, j requires 0 <= j < |ps| => JObject(ps[j].Body()))
  }

  /** The tasks of a case, each through CaseTask.MarshalJSON. */
  function TasksJson(ts: seq<CaseTask>): (r: seq<Json>)
    ensures |r| == |ts| && forall j :: 0 <= j < |ts| ==> r[j] == JObject(ts[j].MarshalJSON())
  {
    seq(|ts|, j requires 0 <= j < |ts| => JObject(ts[j].MarshalJSON()))
  }

  function SharingJson(ss: seq<SharingParameter>): (r: seq<Json>)
    ensures |r| == |ss| && forall j :: 0 <= j < |ss| ==> r[j] == JObject(ss[j].Body())
  {
    seq(|ss|, j requires 0 <= j < |ss| => JObject(ss[j].Body()))
  }

  /** A page without a category is sent with "category": null, one without an order with no order. */
  lemma PageNullCategory(pg: Page)
    requires pg.category.None? && pg.order.None?
    ensures pg.Body() == map["title" := JString(pg.title), "content" := JString(pg.content), "category" := JNull]
  {
    assert pg.Body().Keys == {"title", "content", "category"};
  }

  // ---------------------------------------------------------------------
  // Updating a case

  const ImpactLabels: seq<string> := ["withimpact", "noimpact"]

  predicate BadImpact(s: string) {
    s != "" && Lower(s) !in ImpactLabels
  }

  /**
   * The spelling the switch on the lower-cased ImpactStatus gives a value it
   * accepts: empty stays empty, the others take their canonical form.
   */
  function CanonicalImpact(s: string): (r: string)
    requires !BadImpact(s)
    ensures r in {"", "WithImpact", "NoImpact"}
    ensures r == "" <==> s == ""
    ensures Lower(r) == Lower(s)
  {
    if s == "" then ""
    else if Lower(s) == "withimpact" then
      assert Lower("WithImpact") == "withimpact";
      "WithImpact"
    else
      assert Lower("NoImpact") == "noimpact";
      "NoImpact"
  }

  /**
   * A case update. Its MarshalJSON rewrites ImpactStatus in place and runs
   * the encoders of its custom fields, which update them.
   */
  class HiveUpdateCase {
    var title: string
    var description: string
    var severity: string
    var startDate: Time
    var endDate: Time
    var tags: seq<string>
    var flag: Option<bool>
    var tlp: string
    var pap: string
    var status: string
    var summary: string
    var assignee: string
    var customFields: Option<seq<FieldState>>
    var template: string
    var tasks: Option<seq<CaseTask>>
    var sharingParameters: Option<seq<SharingParameter>>
    var taskRule: string
    var observableRule: string
    var impactStatus: string
    var addTags: seq<string>
    var removeTags: seq<string>

    /** The custom fields behind the pointer; none when it is nil. */
    function Fields(): seq<FieldState>
      reads this
    {
      if customFields.Some? then customFields.value else []
    }

    /** The member written under `key`; the outer struct's five fields first. */
    function Member(key: string): Option<Json>
      reads this
    {
      if key == "startDate" then OmitZero(EncodeTime(startDate))
      else if key == "endDate" then OmitZero(EncodeTime(endDate))
      else if key == "tlp" then TlpWire(tlp, true)
      else if key == "pap" then PapWire(pap, true)
      else if key == "severity" then SeverityWire(severity, true)
      else if key == "impactStatus" then OmitEmpty(impactStatus)
      else if key == "title" then OmitEmpty(title)
      else if key == "description" then OmitEmpty(description)
      else if key == "tags" then OmitNoItems(Strings(tags))
      else if key == "flag" then OptBool(flag)
      else if key == "status" then OmitEmpty(status)
      else if key == "summary" then OmitEmpty(summary)
      else if key == "assignee" then OmitEmpty(assignee)
      else if key == "customFields" then
        (if customFields.Some? then Some(JArray(FieldsJson(customFields.value))) else None)
      else if key == "caseTemplate" then OmitEmpty(template)
      else if key == "tasks" then (if tasks.Some? then Some(JArray(TasksJson(tasks.value))) else None)
      else if key == "sharingParameters" then
        (if sharingParameters.Some? then Some(JArray(SharingJson(sharingParameters.value))) else None)
      else if key == "taskRule" then OmitEmpty(taskRule)
      else if key == "observableRule" then OmitEmpty(observableRule)
      else if key == "addTags" then OmitNoItems(Strings(addTags))
      else if key == "removeTags" then OmitNoItems(Strings(removeTags))
      else None
    }

    function Body(): Payload
      reads this
    {
      map k | k in HiveUpdateCaseKeys && Member(k).Some? :: Member(k).value
    }

    /**
     * HiveUpdateCase.MarshalJSON: the label codecs as for a new case, then
     * ImpactStatus is rewritten to its canonical spelling; a label or impact
     * error leaves the receiver as it was. encoding/json then runs the
     * custom fields' encoders in order and stops at the first that fails,
     * after the rewrite.
     */
    method MarshalJSON(isRequestURI: string -> bool, render: FieldValue -> string)
      returns (r: Result<Payload, CodecError>)
      modifies this`impactStatus, this`customFields
      ensures r.Failure? <==>
        BadTlp(tlp) || BadPap(pap) || BadImpact(old(impactStatus)) || FirstStop(old(Fields())) < |old(Fields())|
      ensures BadTlp(tlp) ==> r == Failure(UnknownTlp(tlp))
      ensures !BadTlp(tlp) && BadPap(pap) ==> r == Failure(UnknownPap)
      ensures !BadTlp(tlp) && !BadPap(pap) && BadImpact(old(impactStatus)) ==>
                r == Failure(UnknownImpact(old(impactStatus)))
      ensures BadTlp(tlp) || BadPap(pap) || BadImpact(old(impactStatus)) ==>
                impactStatus == old(impactStatus) && customFields == old(customFields)
      ensures !BadTlp(tlp) && !BadPap(pap) && !BadImpact(old(impactStatus)) ==>
                impactStatus == CanonicalImpact(old(impactStatus))
      ensures !BadTlp(tlp) && !BadPap(pap) && !BadImpact(old(impactStatus)) ==>
                impactStatus in {"", "WithImpact", "NoImpact"}
                && (impactStatus == "" <==> old(impactStatus) == "")
                && Lower(impactStatus) == Lower(old(impactStatus))
      ensures !BadTlp(tlp) && !BadPap(pap) && !BadImpact(old(impactStatus)) ==>
                customFields.Some? == old(customFields).Some?
                && Fields() == EncodedFields(old(Fields()), isRequestURI, render).0
                && (r.Failure? ==> r.error == EncodedFields(old(Fields()), isRequestURI, render).1.value)
      ensures r.Success? ==> r.value == Body() && UpdateCaseBody(this)
    {
      var err: Option<CodecError> := None;
      var t := TlpClear.FromString(tlp);
      var p := PapClear.FromString(pap);
      if tlp != "" && t.1.Some? {
        err := t.1;
      } else if pap != "" && p.1.Some? {
        err := p.1;
      } else {
        err := RewriteImpact();
      }
      if err.None? {
        err := EncodeFields(isRequestURI, render);
      }
      if err.Some? {
        return Failure(err.value);
      }
      UpdateCaseBodyHolds(this);
      r := Success(Body());
    }

    /**
     * The switch on the lower-cased ImpactStatus: a known value is rewritten
     * to its canonical spelling, an unknown one is an error and stays.
     */
    method RewriteImpact() returns (err: Option<CodecError>)
      modifies this`impactStatus
      ensures err.Some? <==> BadImpact(old(impactStatus))
      ensures err.Some? ==> err.value == UnknownImpact(old(impactStatus)) && impactStatus == old(impactStatus)
      ensures err.None? ==> impactStatus == CanonicalImpact(old(impactStatus))
      ensures err.None? ==>
                impactStatus in {"", "WithImpact", "NoImpact"}
                && (impactStatus == "" <==> old(impactStatus) == "")
                && Lower(impactStatus) == Lower(old(impactStatus))
    {
      err := None;
      if impactStatus != "" {
        var l := Lower(impactStatus);
        if l == "withimpact" {
          impactStatus := "WithImpact";
          assert Lower(impactStatus) == l;
        } else if l == "noimpact" {
          impactStatus := "NoImpact";
          assert Lower(impactStatus) == l;
        } else {
          err := Some(UnknownImpact(impactStatus));
        }
      }
    }

    /** encoding/json's pass over the custom fields; the error it stops with, if any. */
    method EncodeFields(isRequestURI: string -> bool, render: FieldValue -> string)
      returns (err: Option<CodecError>)
      modifies this`customFields
      ensures customFields.Some? == old(customFields).Some?
      ensures Fields() == EncodedFields(old(Fields()), isRequestURI, render).0
      ensures err == EncodedFields(old(Fields()), isRequestURI, render).1
    {
      var fs := EncodedFields(Fields(), isRequestURI, render);
      if customFields.Some? {
        customFields := Some(fs.0);
      }
      err := fs.1;
    }
  }

  const HiveUpdateCaseKeys: set<string> := {
    "startDate", "endDate", "tlp", "pap", "severity", "impactStatus", "title", "description",
    "tags", "flag", "status", "summary", "assignee", "customFields", "caseTemplate", "tasks",
    "sharingParameters", "taskRule", "observableRule", "addTags", "removeTags"}

  /** What the payload of an accepted update holds for dates, codes, impact and custom fields. */
  predicate UpdateCaseBody(uc: HiveUpdateCase)
    reads uc
  {
    var b := uc.Body();
    TimeAsInt(b, "startDate", uc.startDate) && TimeAsInt(b, "endDate", uc.endDate)
    && TlpMember(b, "tlp", uc.tlp, true) && PapMember(b, "pap", uc.pap, true)
    && SeverityMember(b, "severity", uc.severity, true)
    && Emits(b, "impactStatus", uc.impactStatus != "", JString(uc.impactStatus))
    && Emits(b, "customFields", uc.customFields.Some?, JArray(FieldsJson(uc.Fields())))
  }

  lemma UpdateCaseCarries(uc: HiveUpdateCase, key: string)
    requires key in HiveUpdateCaseKeys
    ensures Carries(uc.Body(), key, uc.Member(key))
  {
  }

  lemma UpdateCaseBodyHolds(uc: HiveUpdateCase)
    requires !BadTlp(uc.tlp) && !BadPap(uc.pap)
    ensures UpdateCaseBody(uc)
  {
    var b := uc.Body();
    UpdateCaseCarries(uc, "startDate");
    TimeCarried(b, "startDate", uc.startDate);
    UpdateCaseCarries(uc, "endDate");
    TimeCarried(b, "endDate", uc.endDate);
    UpdateCaseCarries(uc, "tlp");
    TlpCarried(b, "tlp", uc.tlp, true);
    UpdateCaseCarries(uc, "pap");
    PapCarried(b, "pap", uc.pap, true);
    UpdateCaseCarries(uc, "severity");
    SeverityCarried(b, "severity", uc.severity, true);
    UpdateCaseCarries(uc, "impactStatus");
    UpdateCaseCarries(uc, "customFields");
  }

  /** The canonical spellings are the only values the rewrite keeps as they are. */
  lemma ImpactCanonicalIsFixed(s: string)
    ensures s in {"", "WithImpact", "NoImpact"} ==>
      !BadImpact(s) && (s != "" ==> Lower(s) in ImpactLabels) && CanonicalImpact(s) == s
    ensures !BadImpact(s) && CanonicalImpact(s) == s ==> s in {"", "WithImpact", "NoImpact"}
  {
    if s == "WithImpact" {
      assert Lower(s) == "withimpact";
    } else if s == "NoImpact" {
      assert Lower(s) == "noimpact";
    }
  }

  /** Rewriting an accepted impact status a second time changes nothing. */
  lemma CanonicalImpactIdempotent(s: string)
    requires !BadImpact(s)
    ensures !BadImpact(CanonicalImpact(s))
    ensures CanonicalImpact(CanonicalImpact(s)) == CanonicalImpact(s)
  {
    ImpactCanonicalIsFixed(CanonicalImpact(s));
  }

  // ---------------------------------------------------------------------
  // Query stages of the case look-ups

  /** GetCaseStatusOptions: every status option, by stage, descending. */
  function GetCaseStatusOptions(): (r: seq<SearchQuery>)
    ensures |r| == 2 && r[0] == SearchQuery("listCaseStatus")
    ensures SortsBy(r[1], "stage", "desc")
  {
    [SearchQuery("listCaseStatus"), SearchQuery("sort", sort := Some(map["stage" := "desc"]))]
  }

  /**
   * FindCaseByCustomField: list cases, keep those whose custom field equals
   * the value, most recently updated first.
   */
  function FindCaseByCustomField(field: string, value: string): (r: seq<SearchQuery>)
    ensures |r| == 3 && r[0] == SearchQuery("listCase")
    ensures r[1] == SearchQuery("filter", eq := r[1].eq) && EqualsString(r[1].eq, CustomFieldPath(field), value)
    ensures SortsBy(r[2], "_updatedAt", "desc")
  {
    [SearchQuery("listCase"),
     SearchQuery("filter", eq := Some(Filter(CustomFieldPath(field), value := Some(JString(value))))),
     SearchQuery("sort", sort := Some(map["_updatedAt" := "desc"]))]
  }

  /** The custom-field name is matched without regard to case. */
  lemma FindCaseByCustomFieldIgnoresCase(field: string, value: string)
    ensures FindCaseByCustomField(Lower(field), value) == FindCaseByCustomField(field, value)
  {
    LowerIsLower(field);
  }

  /**
   * GetCasesTimed: list cases updated at or after `since`; the bound is the
   * decimal text of its millisecond count.
   */
  function GetCasesTimed(since: Time): (r: seq<SearchQuery>)
    ensures |r| == 2 && r[0] == SearchQuery("listCase")
    ensures r[1] == SearchQuery("filter", gte := r[1].gte)
    ensures r[1].gte.Some? && r[1].gte.value.value.Some? && r[1].gte.value.value.value.JString?
    ensures r[1].gte.value == Filter("_updatedAt", value := r[1].gte.value.value)
    ensures ParseDecimal(r[1].gte.value.value.value.s) == Some(UnixMilli(since))
    ensures Canonical(r[1].gte.value.value.value.s)
  {
    ItoaRoundTrip(UnixMilli(since));
    ItoaCanonical(UnixMilli(since));
    [SearchQuery("listCase"),
     SearchQuery("filter", gte := Some(Filter("_updatedAt", value := Some(JString(Itoa(UnixMilli(since)))))))]
  }

  /** GetCaseAlerts: the alerts attached to the case with the given number. */
  function GetCaseAlerts(caseId: int): (r: seq<SearchQuery>)
    ensures |r| == 2 && r[0].name == "getCase" && r[1] == SearchQuery("alerts")
    ensures r[0].idOrName.Some? && ParseDecimal(r[0].idOrName.value) == Some(caseId)
    ensures Canonical(r[0].idOrName.value)
    ensures r[0] == SearchQuery("getCase", idOrName := r[0].idOrName)
  {
    ItoaRoundTrip(caseId);
    ItoaCanonical(caseId);
    [SearchQuery("getCase", idOrName := Some(Itoa(caseId))), SearchQuery("alerts")]
  }
}
