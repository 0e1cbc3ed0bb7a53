/**
 * Decoding the timeline of a case from TheHive's responses: custom events,
 * the entries of a full timeline and the details they carry. `decoded` is
 * encoding/json's reading of the response into the shadow record, and
 * UnmarshalJSON returns the receiver's new value with the error.
 */
module TimelineResponse {
  import opened Wrappers
  import opened Util
  import opened TaskResponse

  /** shadowTimelineEventResponse: a custom event as the server reports it. */
  datatype ShadowTimelineEventResponse = ShadowTimelineEventResponse(
    id: string, objectType: string, createdBy: string, updatedBy: string, createdAt: Int64,
    updatedAt: Int64, date: Int64, endDate: Int64, title: string, description: string)

  /**
   * A custom event as the client hands it out after creating it.
   */
  datatype TimelineEventResponse = TimelineEventResponse(
    id: string, objectType: string, createdBy: string, updatedBy: string, createdAt: Time,
    updatedAt: Time, date: Time, endDate: Time, title: string, description: string)
  {
    /**
     * TimelineEventResponse.UnmarshalJSON: the four dates go through the time
     * codec, the six strings are copied.
     */
    function UnmarshalJSON(decoded: Result<ShadowTimelineEventResponse, string>): (r: (TimelineEventResponse, Option<string>))
      ensures decoded.Failure? ==> r == (this, Some(decoded.error))
      ensures decoded.Success? ==> r.1.None? && EventDecodedFrom(r.0, decoded.value)
    {
      if decoded.Failure? then (this, Some(decoded.error))
      else
        var w := decoded.value;
        (TimelineEventResponse(id := w.id, objectType := w.objectType, createdBy := w.createdBy,
           updatedBy := w.updatedBy, createdAt := ConvertInt64ToTime(w.createdAt),
           updatedAt := ConvertInt64ToTime(w.updatedAt), date := ConvertInt64ToTime(w.date),
           endDate := ConvertInt64ToTime(w.endDate), title := w.title, description := w.description),
         None)
    }
  }

  /**
   * `r` is what the shadow `w` says: each date the time its count means (0:
   * unset), each string as sent.
   */
  predicate EventDecodedFrom(r: TimelineEventResponse, w: ShadowTimelineEventResponse) {
    r.id == w.id && r.objectType == w.objectType && r.createdBy == w.createdBy
    && r.updatedBy == w.updatedBy && TimeOf(r.createdAt, w.createdAt)
    && TimeOf(r.updatedAt, w.updatedAt) && TimeOf(r.date, w.date) && TimeOf(r.endDate, w.endDate)
    && r.title == w.title && r.description == w.description
  }

  /** The shadow determines the decoded TimelineEventResponse completely. */
  lemma EventDecodedFromDetermines(r1: TimelineEventResponse, r2: TimelineEventResponse, w: ShadowTimelineEventResponse)
    requires EventDecodedFrom(r1, w) && EventDecodedFrom(r2, w)
    ensures r1 == r2
  {
    TimeOfUnique(r1.createdAt, r2.createdAt, w.createdAt);
    TimeOfUnique(r1.updatedAt, r2.updatedAt, w.updatedAt);
    TimeOfUnique(r1.date, r2.date, w.date);
    TimeOfUnique(r1.endDate, r2.endDate, w.endDate);
  }

  /** shadowCustomEvent: a custom event inside a timeline entry. */
  datatype ShadowCustomEvent = ShadowCustomEvent(
    id: string, objectType: string, createdBy: string, updatedAt: Int64, createdAt: Int64,
    title: string, date: Int64, endDate: Int64, description: string, updatedBy: string)

  /**
   * A custom event within the details of a timeline entry.
   */
  datatype CustomEvent = CustomEvent(
    id: string, objectType: string, createdBy: string, updatedAt: Time, createdAt: Time,
    title: string, date: Time, endDate: Time, description: string, updatedBy: string)
  {
    /**
     * CustomEvent.UnmarshalJSON: the four dates go through the time codec, the
     * six strings are copied.
     */
    function UnmarshalJSON(decoded: Result<ShadowCustomEvent, string>): (r: (CustomEvent, Option<string>))
      ensures decoded.Failure? ==> r == (this, Some(decoded.error))
      ensures decoded.Success? ==> r.1.None? && CustomEventDecodedFrom(r.0, decoded.value)
    {
      if decoded.Failure? then (this, Some(decoded.error))
      else
        var w := decoded.value;
        (CustomEvent(id := w.id, objectType := w.objectType, createdBy := w.createdBy,
           updatedAt := ConvertInt64ToTime(w.updatedAt),
           createdAt := ConvertInt64ToTime(w.createdAt), title := w.title,
           date := ConvertInt64ToTime(w.date), endDate := ConvertInt64ToTime(w.endDate),
           description := w.description, updatedBy := w.updatedBy),
         None)
    }
  }

  /**
   * `r` is what the shadow `w` says: each date the time its count means (0:
   * unset), each string as sent.
   */
  predicate CustomEventDecodedFrom(r: CustomEvent, w: ShadowCustomEvent) {
    r.id == w.id && r.objectType == w.objectType && r.createdBy == w.createdBy
    && TimeOf(r.updatedAt, w.updatedAt) && TimeOf(r.createdAt, w.createdAt) && r.title == w.title
    && TimeOf(r.date, w.date) && TimeOf(r.endDate, w.endDate) && r.description == w.description
    && r.updatedBy == w.updatedBy
  }

  /** The shadow determines the decoded CustomEvent completely. */
  lemma CustomEventDecodedFromDetermines(r1: CustomEvent, r2: CustomEvent, w: ShadowCustomEvent)
    requires CustomEventDecodedFrom(r1, w) && CustomEventDecodedFrom(r2, w)
    ensures r1 == r2
  {
    TimeOfUnique(r1.updatedAt, r2.updatedAt, w.updatedAt);
    TimeOfUnique(r1.createdAt, r2.createdAt, w.createdAt);
    TimeOfUnique(r1.date, r2.date, w.date);
    TimeOfUnique(r1.endDate, r2.endDate, w.endDate);
  }

  /** EventDetail: a task or a custom event, each None when absent. */
  datatype EventDetail = EventDetail(task: Option<CaseTaskResponse>, customEvent: Option<CustomEvent>)

  /** shadowFullTimelineResponse: a timeline entry as it arrives, details already decoded. */
  datatype ShadowFullTimelineResponse = ShadowFullTimelineResponse(
    date: Int64, kind: string, entity: string, entityId: string, details: EventDetail)

  /**
   * One entry of the full timeline of a case.
   */
  datatype FullTimelineResponse = FullTimelineResponse(
    date: Time, kind: string, entity: string, entityId: string, details: EventDetail)
  {
    /**
     * FullTimelineResponse.UnmarshalJSON: the date goes through the time codec;
     * kind, entity, entity id and details are copied.
     */
    function UnmarshalJSON(decoded: Result<ShadowFullTimelineResponse, string>): (r: (FullTimelineResponse, Option<string>))
      ensures decoded.Failure? ==> r == (this, Some(decoded.error))
      ensures decoded.Success? ==> r.1.None? && EntryDecodedFrom(r.0, decoded.value)
    {
      if decoded.Failure? then (this, Some(decoded.error))
      else
        var w := decoded.value;
        (FullTimelineResponse(date := ConvertInt64ToTime(w.date), kind := w.kind,
           entity := w.entity, entityId := w.entityId, details := w.details),
         None)
    }
  }

  /**
   * `r` is what the shadow `w` says, the date read as a time.
   */
  predicate EntryDecodedFrom(r: FullTimelineResponse, w: ShadowFullTimelineResponse) {
    TimeOf(r.date, w.date) && r.kind == w.kind && r.entity == w.entity && r.entityId == w.entityId
    && r.details == w.details
  }

  /** The shadow determines the decoded FullTimelineResponse completely. */
  lemma EntryDecodedFromDetermines(r1: FullTimelineResponse, r2: FullTimelineResponse, w: ShadowFullTimelineResponse)
    requires EntryDecodedFrom(r1, w) && EntryDecodedFrom(r2, w)
    ensures r1 == r2
  {
    TimeOfUnique(r1.date, r2.date, w.date);
  }
}
