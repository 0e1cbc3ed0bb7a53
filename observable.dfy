/**
 * Observables: the request body for an observable, which marks the
 * receiver as sighted when a sighting time is given, and the query stages
 * of the observable look-ups.
 */
module Observable {
  import opened Wrappers
  import opened Text
  import opened Util
  import opened Wire
  import opened Query

  /**
   * An observable seen in an alert or a case. Its MarshalJSON marks the
   * receiver as sighted when a sighting time is set.
   */
  class Observable {
    var dataType: string
    var data: string
    var message: string
    var tlp: string
    var pap: string
    var tags: seq<string>
    var ioc: bool
    var sighted: bool
    var startDate: Time
    var sightedAt: Time
    var ignoreSimilarity: bool
    var isZip: bool
    var zipPassword: string

    /** The fields as one value. */
    function State(): ObservableState
      reads this
    {
      ObservableState(dataType, data, message, tlp, pap, tags, ioc, sighted, startDate, sightedAt,
                      ignoreSimilarity, isZip, zipPassword)
    }

    /**
     * Observable.MarshalJSON: TLP, then PAP, labels through their codecs,
     * the first error aborting with the receiver untouched; a set sighting
     * time makes the observable sighted.
     */
    method MarshalJSON() returns (r: Result<Payload, CodecError>)
      modifies this`sighted
      ensures r.Failure? <==> BadTlp(tlp) || BadPap(pap)
      ensures BadTlp(tlp) ==> r == Failure(UnknownTlp(tlp))
      ensures !BadTlp(tlp) && BadPap(pap) ==> r == Failure(UnknownPap)
      ensures sighted == (if r.Success? && !IsZero(sightedAt) then true else old(sighted))
      ensures State() == old(State()).Marked()
      ensures r.Success? ==> r.value == State().Body() && ObservableBody(State())
    {
      var t := TlpClear.FromString(tlp);
      if tlp != "" && t.1.Some? {
        return Failure(t.1.value);
      }
      var p := PapClear.FromString(pap);
      if pap != "" && p.1.Some? {
        return Failure(p.1.value);
      }
      if !IsZero(sightedAt) {
        sighted := true;
      }
      ObservableBodyHolds(State());
      r := Success(State().Body());
    }
  }

  /**
   * The fields of an observable as one value: what its encoder reads and
   * updates, and what an alert holds for each of its observables.
   */
  datatype ObservableState = ObservableState(
    dataType: string, data: string, message: string, tlp: string, pap: string, tags: seq<string>,
    ioc: bool, sighted: bool, startDate: Time, sightedAt: Time, ignoreSimilarity: bool, isZip: bool,
    zipPassword: string)
  {
    /**
     * The member written under `key`. The two dates and the two codes are
     * pointers in the outer struct: present exactly when set, so a code of
     * 0 ("clear") is still sent.
     */
    function Member(key: string): Option<Json> {
      if key == "startDate" then OptInt(EncodeTimeRef(startDate))
      else if key == "sightedAt" then OptInt(EncodeTimeRef(sightedAt))
      else if key == "tlp" then TlpWire(tlp, true)
      else if key == "pap" then PapWire(pap, true)
      else if key == "dataType" then OmitEmpty(dataType)
      else if key == "data" then OmitEmpty(data)
      else if key == "message" then OmitEmpty(message)
      else if key == "tags" then OmitNoItems(Strings(tags))
      else if key == "ioc" then OmitFalse(ioc)
      else if key == "sighted" then OmitFalse(sighted)
      else if key == "ignoreSimilarity" then OmitFalse(ignoreSimilarity)
      else if key == "isZip" then OmitFalse(isZip)
      else if key == "zipPassword" then OmitEmpty(zipPassword)
      else None
    }

    function Body(): Payload {
      map k | k in ObservableKeys && Member(k).Some? :: Member(k).value
    }

    /** A label the codecs refuse: encoding the observable fails. */
    predicate Rejected() {
      BadTlp(tlp) || BadPap(pap)
    }

    /** The error a rejected observable's encoding returns. */
    function Error(): CodecError {
      if BadTlp(tlp) then UnknownTlp(tlp) else UnknownPap
    }

    /** The state an encoding leaves: sighted when a sighting time is set, unless rejected. */
    function Marked(): ObservableState {
      if Rejected() then this else this.(sighted := sighted || !IsZero(sightedAt))
    }
  }

  const ObservableKeys: set<string> := {
    "startDate", "sightedAt", "tlp", "pap", "dataType", "data", "message", "tags", "ioc",
    "sighted", "ignoreSimilarity", "isZip", "zipPassword"}

  /**
   * What the payload of an accepted observable holds: each date present
   * exactly when set, each code present exactly when its label is, and a
   * sighting time always accompanied by the sighted flag.
   */
  predicate ObservableBody(o: ObservableState) {
    var b := o.Body();
    TimeAsRef(b, "startDate", o.startDate) && TimeAsRef(b, "sightedAt", o.sightedAt)
    && TlpMember(b, "tlp", o.tlp, true) && PapMember(b, "pap", o.pap, true)
    && ("sightedAt" in b && o.sighted ==> "sighted" in b && b["sighted"] == JBool(true))
  }

  lemma ObservableCarries(o: ObservableState, key: string)
    requires key in ObservableKeys
    ensures Carries(o.Body(), key, o.Member(key))
  {
  }

  lemma ObservableBodyHolds(o: ObservableState)
    requires !BadTlp(o.tlp) && !BadPap(o.pap)
    ensures ObservableBody(o)
  {
    var b := o.Body();
    ObservableCarries(o, "startDate");
    TimeRefCarried(b, "startDate", o.startDate);
    ObservableCarries(o, "sightedAt");
    TimeRefCarried(b, "sightedAt", o.sightedAt);
    ObservableCarries(o, "tlp");
    TlpCarried(b, "tlp", o.tlp, true);
    ObservableCarries(o, "pap");
    PapCarried(b, "pap", o.pap, true);
    ObservableCarries(o, "sighted");
  }

  /** An accepted observable, once marked, is sent with the sighted flag whenever it has a sighting time. */
  lemma MarkedIsSighted(o: ObservableState)
    requires !o.Rejected() && !IsZero(o.sightedAt)
    ensures var b := o.Marked().Body(); "sighted" in b && b["sighted"] == JBool(true)
  {
    var m := o.Marked();
    ObservableCarries(m, "sighted");
  }

  // ---------------------------------------------------------------------
  // A slice of observables inside an alert

  /** The position of the first rejected observable; |ss| when there is none. */
  function FirstRejected(ss: seq<ObservableState>): (k: nat)
    ensures k <= |ss|
    ensures forall j :: 0 <= j < k ==> !ss[j].Rejected()
    ensures k < |ss| ==> ss[k].Rejected()
  {
    if |ss| == 0 || ss[0].Rejected() then 0 else 1 + FirstRejected(ss[1..])
  }

  /**
   * encoding/json's pass over a slice of observables: it calls each one's
   * MarshalJSON in order, so each is marked, until the first rejected one,
   * whose error ends the pass; it and those after it are left as they were.
   */
  function EncodedObservables(ss: seq<ObservableState>): (r: (seq<ObservableState>, Option<CodecError>))
    ensures |r.0| == |ss|
    ensures r.1 == if FirstRejected(ss) < |ss| then Some(ss[FirstRejected(ss)].Error()) else None
  {
    if |ss| == 0 then ([], None)
    else if ss[0].Rejected() then (ss, Some(ss[0].Error()))
    else
      var rest := EncodedObservables(ss[1..]);
      ([ss[0].Marked()] + rest.0, rest.1)
  }

  /**
   * The observables a pass leaves, position by position: marked before the
   * one it stops at, the rest as they were.
   */
  lemma {:induction false} EncodedObservablesAt(ss: seq<ObservableState>, j: nat)
    requires j < |ss|
    ensures j < FirstRejected(ss) ==> EncodedObservables(ss).0[j] == ss[j].Marked()
    ensures j >= FirstRejected(ss) ==> EncodedObservables(ss).0[j] == ss[j]
  {
    if j > 0 && !ss[0].Rejected() {
      EncodedObservablesAt(ss[1..], j - 1);
      assert ss[1..][j - 1] == ss[j];
    }
  }

  /**
   * A pass that went through leaves observables a second pass does not
   * change: marking twice is marking once.
   */
  lemma {:induction false} EncodedObservablesIdempotent(ss: seq<ObservableState>)
    requires EncodedObservables(ss).1.None?
    ensures EncodedObservables(EncodedObservables(ss).0) == EncodedObservables(ss)
  {
    if |ss| > 0 {
      EncodedObservablesIdempotent(ss[1..]);
      var m := ss[0].Marked();
      assert !m.Rejected() && m.Marked() == m;
      assert EncodedObservables(ss).0[1..] == EncodedObservables(ss[1..]).0;
    }
  }

  /** The array elements a slice of encoded observables is written as. */
  function ObservablesJson(ss: seq<ObservableState>): (r: seq<Json>)
    ensures |r| == |ss|
    ensures forall j :: 0 <= j < |ss| ==> r[j] == JObject(ss[j].Body())
  {
    seq(|ss|, j requires 0 <= j < |ss| => JObject(ss[j].Body()))
  }

  // ---------------------------------------------------------------------
  // Query stages of the observable look-ups

  /** GetObservableTypes: every observable type, most recently updated first. */
  function GetObservableTypes(): (r: seq<SearchQuery>)
    ensures |r| == 2 && r[0] == SearchQuery("listObservableType")
    ensures SortsBy(r[1], "_updatedAt", "desc")
  {
    [SearchQuery("listObservableType"), SearchQuery("sort", sort := Some(map["_updatedAt" := "desc"]))]
  }

  /**
   * GetCaseObservablesFiltered: the observables of the case with the given
   * number whose field (taken as given, not lower-cased) equals the value.
   */
  function GetCaseObservablesFiltered(caseId: int, field: string, value: string): (r: seq<SearchQuery>)
    ensures |r| == 3 && r[0].name == "getCase" && r[1] == SearchQuery("observables")
    ensures r[0].idOrName.Some? && ParseDecimal(r[0].idOrName.value) == Some(caseId)
    ensures Canonical(r[0].idOrName.value)
    ensures r[0] == SearchQuery("getCase", idOrName := r[0].idOrName)
    ensures r[2] == SearchQuery("filter", eq := r[2].eq) && EqualsString(r[2].eq, field, value)
  {
    ItoaRoundTrip(caseId);
    ItoaCanonical(caseId);
    [SearchQuery("getCase", idOrName := Some(Itoa(caseId))),
     SearchQuery("observables"),
     SearchQuery("filter", eq := Some(Filter(field, value := Some(JString(value)))))]
  }
}
