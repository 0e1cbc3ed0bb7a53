/**
 * Users: decoding a user from TheHive's responses, and the query stage of
 * the user listing. `decoded` is encoding/json's reading of the response
 * into the shadow record, and UnmarshalJSON returns the receiver's new
 * value with the error.
 */
module Users {
  import opened Wrappers
  import opened Util
  import opened Wire
  import opened Query

  /** shadowUserResponse: the user as it arrives. */
  datatype ShadowUserResponse = ShadowUserResponse(
    id: string, createdBy: string, updatedBy: string, createdAt: Int64, updatedAt: Int64,
    login: string, name: string, email: string, hasKey: bool, hasPassword: bool, hasMFA: bool,
    locked: bool, profile: string, permissions: seq<string>, organisation: string, avatar: string,
    organisations: seq<Json>, userType: string, defaultOrganisation: string,
    extraData: map<string, string>)

  /**
   * A user as the client hands it out; the organisations it belongs to are
   * carried as JSON.
   */
  datatype UserResponse = UserResponse(
    id: string, createdBy: string, updatedBy: string, createdAt: Time, updatedAt: Time,
    login: string, name: string, email: string, hasKey: bool, hasPassword: bool, hasMFA: bool,
    locked: bool, profile: string, permissions: seq<string>, organisation: string, avatar: string,
    organisations: seq<Json>, userType: string, defaultOrganisation: string,
    extraData: map<string, string>)
  {
    /**
     * UserResponse.UnmarshalJSON: a failed decoding returns before any field is
     * assigned; otherwise the two timestamps go through the time codec and the
     * eighteen other fields are copied.
     */
    function UnmarshalJSON(decoded: Result<ShadowUserResponse, string>): (r: (UserResponse, Option<string>))
      ensures decoded.Failure? ==> r == (this, Some(decoded.error))
      ensures decoded.Success? ==> r.1.None? && UserDecodedFrom(r.0, decoded.value)
    {
      if decoded.Failure? then (this, Some(decoded.error))
      else
        var w := decoded.value;
        (UserResponse(id := w.id, createdBy := w.createdBy, updatedBy := w.updatedBy,
           createdAt := ConvertInt64ToTime(w.createdAt),
           updatedAt := ConvertInt64ToTime(w.updatedAt), login := w.login, name := w.name,
           email := w.email, hasKey := w.hasKey, hasPassword := w.hasPassword, hasMFA := w.hasMFA,
           locked := w.locked, profile := w.profile, permissions := w.permissions,
           organisation := w.organisation, avatar := w.avatar, organisations := w.organisations,
           userType := w.userType, defaultOrganisation := w.defaultOrganisation,
           extraData := w.extraData),
         None)
    }
  }

  /**
   * `r` is what the shadow `w` says: each timestamp the time its count means
   * (0: unset), every other field as sent.
   */
  predicate UserDecodedFrom(r: UserResponse, w: ShadowUserResponse) {
    r.id == w.id && r.createdBy == w.createdBy && r.updatedBy == w.updatedBy
    && TimeOf(r.createdAt, w.createdAt) && TimeOf(r.updatedAt, w.updatedAt) && r.login == w.login
    && r.name == w.name && r.email == w.email && r.hasKey == w.hasKey
    && r.hasPassword == w.hasPassword && r.hasMFA == w.hasMFA && r.locked == w.locked
    && r.profile == w.profile && r.permissions == w.permissions && r.organisation == w.organisation
    && r.avatar == w.avatar && r.organisations == w.organisations && r.userType == w.userType
    && r.defaultOrganisation == w.defaultOrganisation && r.extraData == w.extraData
  }

  /** The shadow determines the decoded UserResponse completely. */
  lemma UserDecodedFromDetermines(r1: UserResponse, r2: UserResponse, w: ShadowUserResponse)
    requires UserDecodedFrom(r1, w) && UserDecodedFrom(r2, w)
    ensures r1 == r2
  {
    TimeOfUnique(r1.createdAt, r2.createdAt, w.createdAt);
    TimeOfUnique(r1.updatedAt, r2.updatedAt, w.updatedAt);
  }

  /** GetVisibleUsers: the single stage listing the users visible to the caller. */
  function GetVisibleUsers(): (r: seq<SearchQuery>)
    ensures |r| == 1 && r[0].name == "listVisibleUsers"
    ensures r[0] == SearchQuery(r[0].name)
  {
    [SearchQuery("listVisibleUsers")]
  }
}
