/**
 * Decoding task logs and case tasks from TheHive's responses; `decoded` is
 * encoding/json's reading of the response into the shadow record, and
 * UnmarshalJSON returns the receiver's new value with the error.
 */
module TaskResponse {
  import opened Wrappers
  import opened Util
  import opened Wire

  /** shadowTaskLogResponse: the task log as it arrives. */
  datatype ShadowTaskLogResponse = ShadowTaskLogResponse(
    id: string, objectType: string, createdBy: string, updatedBy: string, createdAt: Int64,
    updatedAt: Int64, message: string, date: Int64, attachments: seq<Json>, owner: string,
    includeInTimeline: Int64)

  /**
   * A task log as the client hands it out; the empty extraData struct is not
   * modelled.
   */
  datatype TaskLogResponse = TaskLogResponse(
    id: string, objectType: string, createdBy: string, updatedBy: string, createdAt: Time,
    updatedAt: Time, message: string, date: Time, attachments: seq<Json>, owner: string,
    includeInTimeline: Time)
  {
    /**
     * TaskLogResponse.UnmarshalJSON: assigns every field but the creation time,
     * which keeps whatever the receiver held; the update time, the date and the
     * timeline date go through the time codec.
     */
    function UnmarshalJSON(decoded: Result<ShadowTaskLogResponse, string>): (r: (TaskLogResponse, Option<string>))
      ensures decoded.Failure? ==> r == (this, Some(decoded.error))
      ensures decoded.Success? ==> r.1.None? && LogDecodedFrom(r.0, decoded.value, this)
    {
      if decoded.Failure? then (this, Some(decoded.error))
      else
        var w := decoded.value;
        (this.(id := w.id, objectType := w.objectType, createdBy := w.createdBy,
                  updatedBy := w.updatedBy, updatedAt := ConvertInt64ToTime(w.updatedAt),
                  message := w.message, date := ConvertInt64ToTime(w.date),
                  attachments := w.attachments, owner := w.owner,
                  includeInTimeline := ConvertInt64ToTime(w.includeInTimeline)),
         None)
    }
  }

  /**
   * `r` is what the shadow `w` says, dates read as times, except that the
   * creation time is the one of `prior`.
   */
  predicate LogDecodedFrom(r: TaskLogResponse, w: ShadowTaskLogResponse, prior: TaskLogResponse) {
    r.id == w.id && r.objectType == w.objectType && r.createdBy == w.createdBy
    && r.updatedBy == w.updatedBy && r.createdAt == prior.createdAt
    && TimeOf(r.updatedAt, w.updatedAt) && r.message == w.message && TimeOf(r.date, w.date)
    && r.attachments == w.attachments && r.owner == w.owner
    && TimeOf(r.includeInTimeline, w.includeInTimeline)
  }

  /** The shadow and the prior receiver determine the decoded TaskLogResponse completely. */
  lemma LogDecodedFromDetermines(r1: TaskLogResponse, r2: TaskLogResponse, w: ShadowTaskLogResponse, prior: TaskLogResponse)
    requires LogDecodedFrom(r1, w, prior) && LogDecodedFrom(r2, w, prior)
    ensures r1 == r2
  {
    TimeOfUnique(r1.updatedAt, r2.updatedAt, w.updatedAt);
    TimeOfUnique(r1.date, r2.date, w.date);
    TimeOfUnique(r1.includeInTimeline, r2.includeInTimeline, w.includeInTimeline);
  }

  /** shadowCaseTaskResponse: a case task as it arrives. */
  datatype ShadowCaseTaskResponse = ShadowCaseTaskResponse(
    id: string, objectType: string, createdBy: string, updatedBy: string, createdAt: Int64,
    updatedAt: Int64, title: string, group: string, description: string, status: string, flag: bool,
    startDate: Int64, endDate: Int64, assignee: string, order: int, dueDate: Int64, mandatory: bool)

  /**
   * A task of a case as the client hands it out; the empty extraData struct is
   * not modelled.
   */
  datatype CaseTaskResponse = CaseTaskResponse(
    id: string, objectType: string, createdBy: string, updatedBy: string, createdAt: Time,
    updatedAt: Time, title: string, group: string, description: string, status: string, flag: bool,
    startDate: Time, endDate: Time, assignee: string, order: int, dueDate: Time, mandatory: bool)
  {
    /**
     * CaseTaskResponse.UnmarshalJSON: every field is assigned; the five dates go
     * through the time codec, everything else is copied.
     */
    function UnmarshalJSON(decoded: Result<ShadowCaseTaskResponse, string>): (r: (CaseTaskResponse, Option<string>))
      ensures decoded.Failure? ==> r == (this, Some(decoded.error))
      ensures decoded.Success? ==> r.1.None? && TaskDecodedFrom(r.0, decoded.value)
    {
      if decoded.Failure? then (this, Some(decoded.error))
      else
        var w := decoded.value;
        (CaseTaskResponse(id := w.id, objectType := w.objectType, createdBy := w.createdBy,
           updatedBy := w.updatedBy, createdAt := ConvertInt64ToTime(w.createdAt),
           updatedAt := ConvertInt64ToTime(w.updatedAt), title := w.title, group := w.group,
           description := w.description, status := w.status, flag := w.flag,
           startDate := ConvertInt64ToTime(w.startDate), endDate := ConvertInt64ToTime(w.endDate),
           assignee := w.assignee, order := w.order, dueDate := ConvertInt64ToTime(w.dueDate),
           mandatory := w.mandatory),
         None)
    }
  }

  /**
   * `r` is what the shadow `w` says: each date the time its count means (0:
   * unset), every other field as sent.
   */
  predicate TaskDecodedFrom(r: CaseTaskResponse, w: ShadowCaseTaskResponse) {
    r.id == w.id && r.objectType == w.objectType && r.createdBy == w.createdBy
    && r.updatedBy == w.updatedBy && TimeOf(r.createdAt, w.createdAt)
    && TimeOf(r.updatedAt, w.updatedAt) && r.title == w.title && r.group == w.group
    && r.description == w.description && r.status == w.status && r.flag == w.flag
    && TimeOf(r.startDate, w.startDate) && TimeOf(r.endDate, w.endDate) && r.assignee == w.assignee
    && r.order == w.order && TimeOf(r.dueDate, w.dueDate) && r.mandatory == w.mandatory
  }

  /** The shadow determines the decoded CaseTaskResponse completely. */
  lemma TaskDecodedFromDetermines(r1: CaseTaskResponse, r2: CaseTaskResponse, w: ShadowCaseTaskResponse)
    requires TaskDecodedFrom(r1, w) && TaskDecodedFrom(r2, w)
    ensures r1 == r2
  {
    TimeOfUnique(r1.createdAt, r2.createdAt, w.createdAt);
    TimeOfUnique(r1.updatedAt, r2.updatedAt, w.updatedAt);
    TimeOfUnique(r1.startDate, r2.startDate, w.startDate);
    TimeOfUnique(r1.endDate, r2.endDate, w.endDate);
    TimeOfUnique(r1.dueDate, r2.dueDate, w.dueDate);
  }
}
