/**
 * Decoding alerts and custom-field declarations from TheHive's responses.
 * As for cases, `decoded` is encoding/json's reading of the response into
 * the shadow record, and UnmarshalJSON returns the receiver's new value
 * with the error.
 */
module AlertResponse {
  import opened Wrappers
  import opened Util
  import opened Wire

  /** shadowHiveAlertResponse: the alert as it arrives. */
  datatype ShadowHiveAlertResponse = ShadowHiveAlertResponse(
    id: string, objectType: string, createdBy: string, updatedBy: string, createdAt: Int64,
    updatedAt: Int64, alertType: string, source: string, sourceRef: string, externalLink: string,
    title: string, description: string, severity: int, severityLabel: string, date: Int64,
    tags: seq<string>, tlp: int, tlpLabel: string, pap: int, papLabel: string, follow: bool,
    customFields: seq<Json>, caseTemplate: string, observableCount: int, caseId: string,
    status: string, stage: string, assignee: string, summary: string, newDate: Int64,
    inProgressDate: Int64, closedDate: Int64, importedDate: Int64, timeToDetect: Int64,
    timeToTriage: Int64, timeToQualify: Int64, timeToAcknowledge: Int64)

  /**
   * An alert as the client hands it out. The empty extraData struct carries
   * nothing and is not modelled.
   */
  datatype HiveAlertResponse = HiveAlertResponse(
    id: string, objectType: string, createdBy: string, updatedBy: string, createdAt: Time,
    updatedAt: Time, alertType: string, source: string, sourceRef: string, externalLink: string,
    title: string, description: string, severity: int, severityLabel: string, date: Time,
    tags: seq<string>, tlp: int, tlpLabel: string, pap: int, papLabel: string, follow: bool,
    customFields: seq<Json>, caseTemplate: string, observableCount: int, caseId: string,
    status: string, stage: string, assignee: string, summary: string, newDate: Time,
    inProgressDate: Time, closedDate: Time, importedDate: Time, timeToDetect: Duration,
    timeToTriage: Duration, timeToQualify: Duration, timeToAcknowledge: Duration)
  {
    /**
     * HiveAlertResponse.UnmarshalJSON: every field is assigned; the seven dates
     * and four durations go through their codecs, everything else is copied.
     */
    function UnmarshalJSON(decoded: Result<ShadowHiveAlertResponse, string>): (r: (HiveAlertResponse, Option<string>))
      ensures decoded.Failure? ==> r == (this, Some(decoded.error))
      ensures decoded.Success? ==> r.1.None? && AlertDecodedFrom(r.0, decoded.value)
    {
      if decoded.Failure? then (this, Some(decoded.error))
      else
        var w := decoded.value;
        (HiveAlertResponse(id := w.id, objectType := w.objectType, createdBy := w.createdBy,
           updatedBy := w.updatedBy, createdAt := ConvertInt64ToTime(w.createdAt),
           updatedAt := ConvertInt64ToTime(w.updatedAt), alertType := w.alertType,
           source := w.source, sourceRef := w.sourceRef, externalLink := w.externalLink,
           title := w.title, description := w.description, severity := w.severity,
           severityLabel := w.severityLabel, date := ConvertInt64ToTime(w.date), tags := w.tags,
           tlp := w.tlp, tlpLabel := w.tlpLabel, pap := w.pap, papLabel := w.papLabel,
           follow := w.follow, customFields := w.customFields, caseTemplate := w.caseTemplate,
           observableCount := w.observableCount, caseId := w.caseId, status := w.status,
           stage := w.stage, assignee := w.assignee, summary := w.summary,
           newDate := ConvertInt64ToTime(w.newDate),
           inProgressDate := ConvertInt64ToTime(w.inProgressDate),
           closedDate := ConvertInt64ToTime(w.closedDate),
           importedDate := ConvertInt64ToTime(w.importedDate),
           timeToDetect := ConvertInt64ToDuration(w.timeToDetect),
           timeToTriage := ConvertInt64ToDuration(w.timeToTriage),
           timeToQualify := ConvertInt64ToDuration(w.timeToQualify),
           timeToAcknowledge := ConvertInt64ToDuration(w.timeToAcknowledge)),
         None)
    }
  }

  /**
   * `r` is what the shadow `w` says: each date the time its count means (0:
   * unset), each duration its count of milliseconds, every other field as sent.
   */
  predicate AlertDecodedFrom(r: HiveAlertResponse, w: ShadowHiveAlertResponse) {
    r.id == w.id && r.objectType == w.objectType && r.createdBy == w.createdBy
    && r.updatedBy == w.updatedBy && TimeOf(r.createdAt, w.createdAt)
    && TimeOf(r.updatedAt, w.updatedAt) && r.alertType == w.alertType && r.source == w.source
    && r.sourceRef == w.sourceRef && r.externalLink == w.externalLink && r.title == w.title
    && r.description == w.description && r.severity == w.severity
    && r.severityLabel == w.severityLabel && TimeOf(r.date, w.date) && r.tags == w.tags
    && r.tlp == w.tlp && r.tlpLabel == w.tlpLabel && r.pap == w.pap && r.papLabel == w.papLabel
    && r.follow == w.follow && r.customFields == w.customFields && r.caseTemplate == w.caseTemplate
    && r.observableCount == w.observableCount && r.caseId == w.caseId && r.status == w.status
    && r.stage == w.stage && r.assignee == w.assignee && r.summary == w.summary
    && TimeOf(r.newDate, w.newDate) && TimeOf(r.inProgressDate, w.inProgressDate)
    && TimeOf(r.closedDate, w.closedDate) && TimeOf(r.importedDate, w.importedDate)
    && DurationOf(r.timeToDetect, w.timeToDetect) && DurationOf(r.timeToTriage, w.timeToTriage)
    && DurationOf(r.timeToQualify, w.timeToQualify)
    && DurationOf(r.timeToAcknowledge, w.timeToAcknowledge)
  }

  /** The shadow determines the decoded HiveAlertResponse completely. */
  lemma AlertDecodedFromDetermines(r1: HiveAlertResponse, r2: HiveAlertResponse, w: ShadowHiveAlertResponse)
    requires AlertDecodedFrom(r1, w) && AlertDecodedFrom(r2, w)
    ensures r1 == r2
  {
    TimeOfUnique(r1.createdAt, r2.createdAt, w.createdAt);
    TimeOfUnique(r1.updatedAt, r2.updatedAt, w.updatedAt);
    TimeOfUnique(r1.date, r2.date, w.date);
    TimeOfUnique(r1.newDate, r2.newDate, w.newDate);
    TimeOfUnique(r1.inProgressDate, r2.inProgressDate, w.inProgressDate);
    TimeOfUnique(r1.closedDate, r2.closedDate, w.closedDate);
    TimeOfUnique(r1.importedDate, r2.importedDate, w.importedDate);
    DurationOfUnique(r1.timeToDetect, r2.timeToDetect, w.timeToDetect);
    DurationOfUnique(r1.timeToTriage, r2.timeToTriage, w.timeToTriage);
    DurationOfUnique(r1.timeToQualify, r2.timeToQualify, w.timeToQualify);
    DurationOfUnique(r1.timeToAcknowledge, r2.timeToAcknowledge, w.timeToAcknowledge);
  }

  /** shadowCustomFieldResponse: a custom-field declaration as it arrives. */
  datatype ShadowCustomFieldResponse = ShadowCustomFieldResponse(
    id: string, objectType: string, createdBy: string, updatedBy: string, createdAt: Int64,
    updatedAt: Int64, name: string, displayName: string, group: string, description: string,
    fieldType: string, options: seq<map<string, string>>, mandatory: bool,
    extraData: map<string, string>)

  /**
   * A custom-field declaration of the instance.
   */
  datatype CustomFieldResponse = CustomFieldResponse(
    id: string, objectType: string, createdBy: string, updatedBy: string, createdAt: Time,
    updatedAt: Time, name: string, displayName: string, group: string, description: string,
    fieldType: string, options: seq<map<string, string>>, mandatory: bool,
    extraData: map<string, string>)
  {
    /**
     * CustomFieldResponse.UnmarshalJSON: the two timestamps go through the
     * time codec, the other twelve fields are copied.
     */
    function UnmarshalJSON(decoded: Result<ShadowCustomFieldResponse, string>): (r: (CustomFieldResponse, Option<string>))
      ensures decoded.Failure? ==> r == (this, Some(decoded.error))
      ensures decoded.Success? ==> r.1.None? && FieldDecodedFrom(r.0, decoded.value)
    {
      if decoded.Failure? then (this, Some(decoded.error))
      else
        var w := decoded.value;
        (CustomFieldResponse(id := w.id, objectType := w.objectType, createdBy := w.createdBy,
           updatedBy := w.updatedBy, createdAt := ConvertInt64ToTime(w.createdAt),
           updatedAt := ConvertInt64ToTime(w.updatedAt), name := w.name,
           displayName := w.displayName, group := w.group, description := w.description,
           fieldType := w.fieldType, options := w.options, mandatory := w.mandatory,
           extraData := w.extraData),
         None)
    }
  }

  /**
   * `r` is what the shadow `w` says, timestamps read as times.
   */
  predicate FieldDecodedFrom(r: CustomFieldResponse, w: ShadowCustomFieldResponse) {
    r.id == w.id && r.objectType == w.objectType && r.createdBy == w.createdBy
    && r.updatedBy == w.updatedBy && TimeOf(r.createdAt, w.createdAt)
    && TimeOf(r.updatedAt, w.updatedAt) && r.name == w.name && r.displayName == w.displayName
    && r.group == w.group && r.description == w.description && r.fieldType == w.fieldType
    && r.options == w.options && r.mandatory == w.mandatory && r.extraData == w.extraData
  }

  /** The shadow determines the decoded CustomFieldResponse completely. */
  lemma FieldDecodedFromDetermines(r1: CustomFieldResponse, r2: CustomFieldResponse, w: ShadowCustomFieldResponse)
    requires FieldDecodedFrom(r1, w) && FieldDecodedFrom(r2, w)
    ensures r1 == r2
  {
    TimeOfUnique(r1.createdAt, r2.createdAt, w.createdAt);
    TimeOfUnique(r1.updatedAt, r2.updatedAt, w.updatedAt);
  }
}
