/**
 * The timeline of a case: the request body of a custom event, the events
 * list a timeline request yields, and the search for one event in it. The
 * request itself is not modelled: its outcome, the decoded events or the
 * error, is a parameter.
 */
module Timeline {
  import opened Wrappers
  import opened Util
  import opened Wire
  import opened TimelineResponse

  /** A custom event to create or to update. */
  datatype TimelineEvent = TimelineEvent(date: Time, endDate: Time, title: string, description: string)
  {
    function Member(key: string): Option<Json> {
      if key == "date" then OptInt(EncodeTimeRef(date))
      else if key == "endDate" then OptInt(EncodeTimeRef(endDate))
      else if key == "title" then OmitEmpty(title)
      else if key == "description" then OmitEmpty(description)
      else None
    }

    function Body(): Payload {
      map k | k in TimelineEventKeys && Member(k).Some? :: Member(k).value
    }

    /**
     * TimelineEvent.MarshalJSON: the date and the end date are each sent as
     * UTC milliseconds exactly when set; empty strings are left out.
     */
    function MarshalJSON(): (r: Payload)
      ensures TimeAsRef(r, "date", date) && TimeAsRef(r, "endDate", endDate)
      ensures Emits(r, "title", title != "", JString(title))
      ensures Emits(r, "description", description != "", JString(description))
    {
      var b := Body();
      TimelineEventCarries(this, "date");
      TimeRefCarried(b, "date", date);
      TimelineEventCarries(this, "endDate");
      TimeRefCarried(b, "endDate", endDate);
      TimelineEventCarries(this, "title");
      TimelineEventCarries(this, "description");
      b
    }
  }

  const TimelineEventKeys: set<string> := {"date", "endDate", "title", "description"}

  lemma TimelineEventCarries(e: TimelineEvent, key: string)
    requires key in TimelineEventKeys
    ensures Carries(e.Body(), key, e.Member(key))
  {
  }

  /** The anonymous wrapper the timeline arrives in. */
  datatype TimelineWrapper = TimelineWrapper(events: seq<FullTimelineResponse>)

  /**
   * GetTimeline: `fetched` is the outcome of the request and of decoding
   * its body into the wrapper, the error text when either failed. The
   * events come back exactly as decoded, in order.
   */
  function GetTimeline(fetched: Result<TimelineWrapper, string>): (r: Result<seq<FullTimelineResponse>, string>)
    ensures r.Failure? <==> fetched.Failure?
    ensures r.Failure? ==> r.error == fetched.error
    ensures r.Success? ==> r.value == fetched.value.events
  {
    if fetched.Failure? then Failure(fetched.error) else Success(fetched.value.events)
  }

  function NoEventFound(eventId: string): string {
    "no event found with the ID: " + eventId
  }

  /**
   * GetTimelineEvent: the details of the first timeline entry whose entity
   * id is `eventId`; an error when there is none or when the timeline
   * could not be fetched.
   */
  method GetTimelineEvent(timeline: Result<seq<FullTimelineResponse>, string>, eventId: string)
    returns (r: Result<EventDetail, string>)
    ensures timeline.Failure? ==> r == Failure(timeline.error)
    ensures timeline.Success? ==>
      (r.Success? <==> exists i :: 0 <= i < |timeline.value| && timeline.value[i].entityId == eventId)
    ensures timeline.Success? && r.Failure? ==> r.error == NoEventFound(eventId)
    ensures timeline.Success? && r.Success? ==>
      exists i :: 0 <= i < |timeline.value| && timeline.value[i].entityId == eventId
        && r.value == timeline.value[i].details
        && forall j :: 0 <= j < i ==> timeline.value[j].entityId != eventId
  {
    if timeline.Failure? {
      return Failure(timeline.error);
    }
    var events := timeline.value;
    var k := 0;
    while k < |events|
      invariant 0 <= k <= |events|
      invariant forall j :: 0 <= j < k ==> events[j].entityId != eventId
    {
      if events[k].entityId == eventId {
        return Success(events[k].details);
      }
      k := k + 1;
    }
    return Failure(NoEventFound(eventId));
  }
}
