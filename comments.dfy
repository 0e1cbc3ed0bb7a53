/**
 * Comments on alerts and cases: a comment as the server reports it, which
 * the client can both decode and encode again, and the query stages of the
 * comment look-ups.
 */
module Comments {
  import opened Wrappers
  import opened Text
  import opened Util
  import opened Wire
  import opened Query

  /**
   * shadowCommentResponse: the comment as it arrives, times as millisecond
   * counts. extraData is None for a nil map (absent or null in the JSON).
   */
  datatype ShadowCommentResponse = ShadowCommentResponse(
    id: string, objectType: string, createdBy: string, createdAt: Int64, updatedAt: Int64,
    updatedBy: string, message: string, isEdited: bool, extraData: Option<map<string, string>>)

  /** A comment of an alert or a case. */
  datatype CommentResponse = CommentResponse(
    id: string, objectType: string, createdBy: string, createdAt: Time, updatedAt: Time,
    updatedBy: string, message: string, isEdited: bool, extraData: Option<map<string, string>>)
  {
    /**
     * The member written under `key`. Only the creation time is replaced by
     * a millisecond count; the update time goes through time.Time's own
     * encoding, as RFC 3339 text.
     */
    function Member(key: string): Option<Json> {
      if key == "createdAt" then OptInt(EncodeTimeRef(createdAt))
      else if key == "_id" then Some(JString(id))
      else if key == "_type" then Some(JString(objectType))
      else if key == "createdBy" then Some(JString(createdBy))
      else if key == "updatedAt" then Some(JTimeText(updatedAt))
      else if key == "updatedBy" then Some(JString(updatedBy))
      else if key == "message" then Some(JString(message))
      else if key == "isEdited" then Some(JBool(isEdited))
      else if key == "extraData" then Some(if extraData.Some? then StringMap(extraData.value) else JNull)
      else None
    }

    function Body(): Payload {
      map k | k in CommentKeys && Member(k).Some? :: Member(k).value
    }

    /**
     * CommentResponse.MarshalJSON: the creation time is sent as UTC
     * milliseconds exactly when set; the update time is sent as text, so
     * the result does not decode again through UnmarshalJSON, and time.Time
     * refuses to write a year outside 0..9999. A nil extraData map is sent
     * as null.
     */
    function MarshalJSON(): (r: Result<Payload, CodecError>)
      ensures r.Failure? <==> !InTextRange(updatedAt)
      ensures r.Failure? ==> r.error == TimeOutOfRange
      ensures r.Success? ==> TimeAsRef(r.value, "createdAt", createdAt)
      ensures r.Success? ==> Emits(r.value, "updatedAt", true, JTimeText(updatedAt))
      ensures r.Success? ==> Emits(r.value, "message", true, JString(message))
      ensures r.Success? && extraData.None? ==> Emits(r.value, "extraData", true, JNull)
      ensures r.Success? && extraData.Some? ==>
        "extraData" in r.value && r.value["extraData"].JObject?
        && r.value["extraData"].members.Keys == extraData.value.Keys
    {
      if !InTextRange(updatedAt) then Failure(TimeOutOfRange)
      else
        var b := Body();
        CommentCarries(this, "createdAt");
        TimeRefCarried(b, "createdAt", createdAt);
        CommentCarries(this, "updatedAt");
        CommentCarries(this, "message");
        CommentCarries(this, "extraData");
        Success(b)
    }

    /**
     * CommentResponse.UnmarshalJSON: every field is assigned; the two times
     * go through the time codec.
     */
    function UnmarshalJSON(decoded: Result<ShadowCommentResponse, string>): (r: (CommentResponse, Option<string>))
      ensures decoded.Failure? ==> r == (this, Some(decoded.error))
      ensures decoded.Success? ==> r.1.None? && CommentDecodedFrom(r.0, decoded.value)
    {
      if decoded.Failure? then (this, Some(decoded.error))
      else
        var w := decoded.value;
        (CommentResponse(w.id, w.objectType, w.createdBy, ConvertInt64ToTime(w.createdAt),
                         ConvertInt64ToTime(w.updatedAt), w.updatedBy, w.message, w.isEdited, w.extraData),
         None)
    }
  }

  const CommentKeys: set<string> := {
    "createdAt", "_id", "_type", "createdBy", "updatedAt", "updatedBy", "message", "isEdited", "extraData"}

  lemma CommentCarries(c: CommentResponse, key: string)
    requires key in CommentKeys
    ensures Carries(c.Body(), key, c.Member(key))
  {
  }

  /** `r` is what the shadow `w` says, both times read as times. */
  predicate CommentDecodedFrom(r: CommentResponse, w: ShadowCommentResponse) {
    r.id == w.id && r.objectType == w.objectType && r.createdBy == w.createdBy
    && TimeOf(r.createdAt, w.createdAt) && TimeOf(r.updatedAt, w.updatedAt)
    && r.updatedBy == w.updatedBy && r.message == w.message && r.isEdited == w.isEdited
    && r.extraData == w.extraData
  }

  /** The shadow determines the decoded comment completely. */
  lemma CommentDecodedFromDetermines(r1: CommentResponse, r2: CommentResponse, w: ShadowCommentResponse)
    requires CommentDecodedFrom(r1, w) && CommentDecodedFrom(r2, w)
    ensures r1 == r2
  {
    TimeOfUnique(r1.createdAt, r2.createdAt, w.createdAt);
    TimeOfUnique(r1.updatedAt, r2.updatedAt, w.updatedAt);
  }

  /**
   * The creation time survives encoding and decoding: the count sent is the
   * one the decoder turns back into the same time (the epoch instant aside,
   * which reads back as unset).
   */
  lemma CreatedAtRoundTrip(c: CommentResponse, w: ShadowCommentResponse)
    requires c.MarshalJSON().Success?
    requires "createdAt" in c.MarshalJSON().value && c.MarshalJSON().value["createdAt"] == JInt(w.createdAt)
    ensures c.UnmarshalJSON(Success(w)).0.createdAt == (if c.createdAt == Epoch then ZeroTime else c.createdAt)
  {
    var r := c.UnmarshalJSON(Success(w)).0;
    assert TimeOf(r.createdAt, w.createdAt);
  }

  // ---------------------------------------------------------------------
  // Query stages of the comment look-ups

  /** GetAlertComments: the comments of the alert with the given id. */
  function GetAlertComments(alertId: string): (r: seq<SearchQuery>)
    ensures |r| == 2 && r[0].name == "getAlert" && r[0].idOrName == Some(alertId)
    ensures r[0] == SearchQuery("getAlert", idOrName := r[0].idOrName) && r[1] == SearchQuery("comments")
  {
    [SearchQuery("getAlert", idOrName := Some(alertId)), SearchQuery("comments")]
  }

  /** GetCaseComments: the comments of the case with the given number. */
  function GetCaseComments(caseId: int): (r: seq<SearchQuery>)
    ensures |r| == 2 && r[0].name == "getCase" && r[1] == SearchQuery("comments")
    ensures r[0].idOrName.Some? && ParseDecimal(r[0].idOrName.value) == Some(caseId)
    ensures Canonical(r[0].idOrName.value)
    ensures r[0] == SearchQuery("getCase", idOrName := r[0].idOrName)
  {
    ItoaRoundTrip(caseId);
    ItoaCanonical(caseId);
    [SearchQuery("getCase", idOrName := Some(Itoa(caseId))), SearchQuery("comments")]
  }

  /**
   * GetCaseCommentsTimed: the comments of the case created at or after
   * `since`; unlike the alert and case look-ups, the bound is sent as an
   * integer, not as text.
   */
  function GetCaseCommentsTimed(caseId: int, since: Time): (r: seq<SearchQuery>)
    ensures |r| == 3 && r[..2] == GetCaseComments(caseId)
    ensures r[2] == SearchQuery("filter", gte := Some(Filter("_createdAt", value := Some(JInt(UnixMilli(since))))))
  {
    GetCaseComments(caseId)
      + [SearchQuery("filter", gte := Some(Filter("_createdAt", value := Some(JInt(UnixMilli(since))))))]
  }
}
