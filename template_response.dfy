/**
 * Decoding case templates from TheHive's responses; `decoded` is
 * encoding/json's reading of the response into the shadow record, and
 * UnmarshalJSON returns the receiver's new value with the error.
 */
module TemplateResponse {
  import opened Wrappers
  import opened Util
  import opened Wire

  /** shadowCaseTemplateResponse: the template as it arrives. */
  datatype ShadowCaseTemplateResponse = ShadowCaseTemplateResponse(
    id: string, objectType: string, createdBy: string, updatedBy: string, createdAt: Int64,
    updatedAt: Int64, name: string, displayName: string, titlePrefix: string, description: string,
    severity: Severity, severityLabel: string, tags: seq<string>, flag: bool, tlp: Tlp,
    tlpLabel: string, pap: Pap, papLabel: string, summary: string, customFields: seq<Json>,
    tasks: seq<Json>)

  /**
   * A case template as the client hands it out; its tasks are carried as JSON
   * and the empty extraData struct is not modelled.
   */
  datatype CaseTemplateResponse = CaseTemplateResponse(
    id: string, objectType: string, createdBy: string, updatedBy: string, createdAt: Time,
    updatedAt: Time, name: string, displayName: string, titlePrefix: string, description: string,
    severity: Severity, severityLabel: string, tags: seq<string>, flag: bool, tlp: Tlp,
    tlpLabel: string, pap: Pap, papLabel: string, summary: string, customFields: seq<Json>,
    tasks: seq<Json>)
  {
    /**
     * CaseTemplateResponse.UnmarshalJSON: copies the codes and assigns seventeen
     * fields; the three labels and the tasks keep whatever the receiver held,
     * although the shadow carries them.
     */
    function UnmarshalJSON(decoded: Result<ShadowCaseTemplateResponse, string>): (r: (CaseTemplateResponse, Option<string>))
      ensures decoded.Failure? ==> r == (this, Some(decoded.error))
      ensures decoded.Success? ==> r.1.None? && TemplateDecodedFrom(r.0, decoded.value, this)
    {
      if decoded.Failure? then (this, Some(decoded.error))
      else
        var w := decoded.value;
        (this.(id := w.id, objectType := w.objectType, createdBy := w.createdBy,
                  updatedBy := w.updatedBy, createdAt := ConvertInt64ToTime(w.createdAt),
                  updatedAt := ConvertInt64ToTime(w.updatedAt), name := w.name,
                  displayName := w.displayName, titlePrefix := w.titlePrefix,
                  description := w.description, severity := w.severity, tags := w.tags,
                  flag := w.flag, tlp := w.tlp, pap := w.pap, summary := w.summary,
                  customFields := w.customFields),
         None)
    }
  }

  /**
   * `r` carries the assigned fields of `w`, the two timestamps read as times,
   * and the three labels and the tasks of `prior`.
   */
  predicate TemplateDecodedFrom(r: CaseTemplateResponse, w: ShadowCaseTemplateResponse, prior: CaseTemplateResponse) {
    r.id == w.id && r.objectType == w.objectType && r.createdBy == w.createdBy
    && r.updatedBy == w.updatedBy && TimeOf(r.createdAt, w.createdAt)
    && TimeOf(r.updatedAt, w.updatedAt) && r.name == w.name && r.displayName == w.displayName
    && r.titlePrefix == w.titlePrefix && r.description == w.description && r.severity == w.severity
    && r.severityLabel == prior.severityLabel && r.tags == w.tags && r.flag == w.flag
    && r.tlp == w.tlp && r.tlpLabel == prior.tlpLabel && r.pap == w.pap
    && r.papLabel == prior.papLabel && r.summary == w.summary && r.customFields == w.customFields
    && r.tasks == prior.tasks
  }

  /** The shadow and the prior receiver determine the decoded CaseTemplateResponse completely. */
  lemma TemplateDecodedFromDetermines(r1: CaseTemplateResponse, r2: CaseTemplateResponse, w: ShadowCaseTemplateResponse, prior: CaseTemplateResponse)
    requires TemplateDecodedFrom(r1, w, prior) && TemplateDecodedFrom(r2, w, prior)
    ensures r1 == r2
  {
    TimeOfUnique(r1.createdAt, r2.createdAt, w.createdAt);
    TimeOfUnique(r1.updatedAt, r2.updatedAt, w.updatedAt);
  }
}
