/**
 * Decoding observables and observable types from TheHive's responses;
 * `decoded` is encoding/json's reading of the response into the shadow
 * record, and UnmarshalJSON returns the receiver's new value with the error.
 */
module ObservableResponse {
  import opened Wrappers
  import opened Util
  import opened Wire

  /** shadowObservableResponse: the observable as it arrives. */
  datatype ShadowObservableResponse = ShadowObservableResponse(
    id: string, objectType: string, createdBy: string, updatedBy: string, createdAt: Int64,
    updatedAt: Int64, dataType: string, data: string, startDate: Int64, attachment: Json, tlp: int,
    tlpLabel: string, pap: int, papLabel: string, tags: seq<string>, ioc: bool, sighted: bool,
    sightedAt: Int64, message: string, extraData: Json, ignoreSimilarity: bool)

  /**
   * An observable as the client hands it out. The attachment and the extra
   * data (links) are carried as JSON; the empty reports struct is not modelled.
   */
  datatype ObservableResponse = ObservableResponse(
    id: string, objectType: string, createdBy: string, updatedBy: string, createdAt: Time,
    updatedAt: Time, dataType: string, data: string, startDate: Time, attachment: Json, tlp: int,
    tlpLabel: string, pap: int, papLabel: string, tags: seq<string>, ioc: bool, sighted: bool,
    sightedAt: Time, message: string, extraData: Json, ignoreSimilarity: bool)
  {
    /**
     * ObservableResponse.UnmarshalJSON: every field is assigned; the four dates
     * go through the time codec, the TLP and PAP codes and labels and everything
     * else are copied.
     */
    function UnmarshalJSON(decoded: Result<ShadowObservableResponse, string>): (r: (ObservableResponse, Option<string>))
      ensures decoded.Failure? ==> r == (this, Some(decoded.error))
      ensures decoded.Success? ==> r.1.None? && ObservableDecodedFrom(r.0, decoded.value)
    {
      if decoded.Failure? then (this, Some(decoded.error))
      else
        var w := decoded.value;
        (ObservableResponse(id := w.id, objectType := w.objectType, createdBy := w.createdBy,
           updatedBy := w.updatedBy, createdAt := ConvertInt64ToTime(w.createdAt),
           updatedAt := ConvertInt64ToTime(w.updatedAt), dataType := w.dataType, data := w.data,
           startDate := ConvertInt64ToTime(w.startDate), attachment := w.attachment, tlp := w.tlp,
           tlpLabel := w.tlpLabel, pap := w.pap, papLabel := w.papLabel, tags := w.tags,
           ioc := w.ioc, sighted := w.sighted, sightedAt := ConvertInt64ToTime(w.sightedAt),
           message := w.message, extraData := w.extraData, ignoreSimilarity := w.ignoreSimilarity),
         None)
    }
  }

  /**
   * `r` is what the shadow `w` says: each date the time its count means (0:
   * unset), every other field as sent.
   */
  predicate ObservableDecodedFrom(r: ObservableResponse, w: ShadowObservableResponse) {
    r.id == w.id && r.objectType == w.objectType && r.createdBy == w.createdBy
    && r.updatedBy == w.updatedBy && TimeOf(r.createdAt, w.createdAt)
    && TimeOf(r.updatedAt, w.updatedAt) && r.dataType == w.dataType && r.data == w.data
    && TimeOf(r.startDate, w.startDate) && r.attachment == w.attachment && r.tlp == w.tlp
    && r.tlpLabel == w.tlpLabel && r.pap == w.pap && r.papLabel == w.papLabel && r.tags == w.tags
    && r.ioc == w.ioc && r.sighted == w.sighted && TimeOf(r.sightedAt, w.sightedAt)
    && r.message == w.message && r.extraData == w.extraData
    && r.ignoreSimilarity == w.ignoreSimilarity
  }

  /** The shadow determines the decoded ObservableResponse completely. */
  lemma ObservableDecodedFromDetermines(r1: ObservableResponse, r2: ObservableResponse, w: ShadowObservableResponse)
    requires ObservableDecodedFrom(r1, w) && ObservableDecodedFrom(r2, w)
    ensures r1 == r2
  {
    TimeOfUnique(r1.createdAt, r2.createdAt, w.createdAt);
    TimeOfUnique(r1.updatedAt, r2.updatedAt, w.updatedAt);
    TimeOfUnique(r1.startDate, r2.startDate, w.startDate);
    TimeOfUnique(r1.sightedAt, r2.sightedAt, w.sightedAt);
  }

  /** shadowObservableTypeResponse: an observable type as it arrives. */
  datatype ShadowObservableTypeResponse = ShadowObservableTypeResponse(
    id: string, objectType: string, createdAt: Int64, createdBy: string, name: string,
    isAttachment: bool)

  /**
   * One of the observable types the instance knows.
   */
  datatype ObservableTypeResponse = ObservableTypeResponse(
    id: string, objectType: string, createdAt: Time, createdBy: string, name: string,
    isAttachment: bool)
  {
    /**
     * ObservableTypeResponse.UnmarshalJSON: the creation time goes through the
     * time codec, the other five fields are copied.
     */
    function UnmarshalJSON(decoded: Result<ShadowObservableTypeResponse, string>): (r: (ObservableTypeResponse, Option<string>))
      ensures decoded.Failure? ==> r == (this, Some(decoded.error))
      ensures decoded.Success? ==> r.1.None? && TypeDecodedFrom(r.0, decoded.value)
    {
      if decoded.Failure? then (this, Some(decoded.error))
      else
        var w := decoded.value;
        (ObservableTypeResponse(id := w.id, objectType := w.objectType,
           createdAt := ConvertInt64ToTime(w.createdAt), createdBy := w.createdBy, name := w.name,
           isAttachment := w.isAttachment),
         None)
    }
  }

  /**
   * `r` is what the shadow `w` says, the creation time read as a time.
   */
  predicate TypeDecodedFrom(r: ObservableTypeResponse, w: ShadowObservableTypeResponse) {
    r.id == w.id && r.objectType == w.objectType && TimeOf(r.createdAt, w.createdAt)
    && r.createdBy == w.createdBy && r.name == w.name && r.isAttachment == w.isAttachment
  }

  /** The shadow determines the decoded ObservableTypeResponse completely. */
  lemma TypeDecodedFromDetermines(r1: ObservableTypeResponse, r2: ObservableTypeResponse, w: ShadowObservableTypeResponse)
    requires TypeDecodedFrom(r1, w) && TypeDecodedFrom(r2, w)
    ensures r1 == r2
  {
    TimeOfUnique(r1.createdAt, r2.createdAt, w.createdAt);
  }
}
