/**
 * Procedures (the tactics, techniques and procedures attached to alerts
 * and cases): the request body of a procedure and the decoding of the
 * server's reply. `decoded` is encoding/json's reading of the reply into
 * the shadow record, and UnmarshalJSON returns the receiver's new value
 * with the error.
 */
module Ttp {
  import opened Wrappers
  import opened Util
  import opened Wire

  /** A procedure to attach; tactic and description are pointers, None when nil. */
  datatype Procedure = Procedure(
    patternId: string,
    occurDate: Time,
    tactic: Option<string>,
    description: Option<string>)
  {
    /**
     * The member written under `key`. The outer occurDate points at a local
     * that is always there, so omitempty never drops it.
     */
    function Member(key: string): Option<Json> {
      if key == "occurDate" then Some(JInt(EncodeTime(occurDate)))
      else if key == "patternId" then Some(JString(patternId))
      else if key == "tactic" then OptString(tactic)
      else if key == "description" then OptString(description)
      else None
    }

    function Body(): Payload {
      map k | k in ProcedureKeys && Member(k).Some? :: Member(k).value
    }

    /**
     * Procedure.MarshalJSON: occurDate is always sent, as UTC milliseconds
     * when set and as 0 when unset; tactic and description only when given.
     */
    function MarshalJSON(): (r: Payload)
      ensures "occurDate" in r && r["occurDate"] == JInt(if IsZero(occurDate) then 0 else UnixMilli(occurDate))
      ensures Emits(r, "patternId", true, JString(patternId))
      ensures ("tactic" in r <==> tactic.Some?) && (tactic.Some? ==> r["tactic"] == JString(tactic.value))
      ensures ("description" in r <==> description.Some?)
        && (description.Some? ==> r["description"] == JString(description.value))
    {
      ProcedureCarries(this, "occurDate");
      ProcedureCarries(this, "patternId");
      ProcedureCarries(this, "tactic");
      ProcedureCarries(this, "description");
      Body()
    }
  }

  const ProcedureKeys: set<string> := {"occurDate", "patternId", "tactic", "description"}

  /** The array elements a slice of procedures is written as, each by its MarshalJSON. */
  function ProceduresJson(ps: seq<Procedure>): (r: seq<Json>)
    ensures |r| == |ps|
    ensures forall j :: 0 <= j < |ps| ==> r[j] == JObject(ps[j].MarshalJSON())
  {
    seq(|ps|, j requires 0 <= j < |ps| => JObject(ps[j].MarshalJSON()))
  }

  lemma ProcedureCarries(p: Procedure, key: string)
    requires key in ProcedureKeys
    ensures Carries(p.Body(), key, p.Member(key))
  {
  }

  /** shadowProcedureResponse: the procedure as it arrives. */
  datatype ShadowProcedureResponse = ShadowProcedureResponse(
    id: string, createdAt: Int64, createdBy: string, updatedAt: Int64, updatedBy: string,
    description: string, occurDate: Int64, patternId: string, patternName: string, tactic: string,
    tacticLabel: string, extraData: map<string, string>)

  /**
   * A procedure as the client hands it out.
   */
  datatype ProcedureResponse = ProcedureResponse(
    id: string, createdAt: Time, createdBy: string, updatedAt: Time, updatedBy: string,
    description: string, occurDate: Time, patternId: string, patternName: string, tactic: string,
    tacticLabel: string, extraData: map<string, string>)
  {
    /**
     * ProcedureResponse.UnmarshalJSON: every field is assigned; the three dates
     * go through the time codec, the tactic, its label and the other strings are
     * copied.
     */
    function UnmarshalJSON(decoded: Result<ShadowProcedureResponse, string>): (r: (ProcedureResponse, Option<string>))
      ensures decoded.Failure? ==> r == (this, Some(decoded.error))
      ensures decoded.Success? ==> r.1.None? && ProcedureDecodedFrom(r.0, decoded.value)
    {
      if decoded.Failure? then (this, Some(decoded.error))
      else
        var w := decoded.value;
        (ProcedureResponse(id := w.id, createdAt := ConvertInt64ToTime(w.createdAt),
           createdBy := w.createdBy, updatedAt := ConvertInt64ToTime(w.updatedAt),
           updatedBy := w.updatedBy, description := w.description,
           occurDate := ConvertInt64ToTime(w.occurDate), patternId := w.patternId,
           patternName := w.patternName, tactic := w.tactic, tacticLabel := w.tacticLabel,
           extraData := w.extraData),
         None)
    }
  }

  /**
   * `r` is what the shadow `w` says: each date the time its count means (0:
   * unset), every other field as sent.
   */
  predicate ProcedureDecodedFrom(r: ProcedureResponse, w: ShadowProcedureResponse) {
    r.id == w.id && TimeOf(r.createdAt, w.createdAt) && r.createdBy == w.createdBy
    && TimeOf(r.updatedAt, w.updatedAt) && r.updatedBy == w.updatedBy
    && r.description == w.description && TimeOf(r.occurDate, w.occurDate)
    && r.patternId == w.patternId && r.patternName == w.patternName && r.tactic == w.tactic
    && r.tacticLabel == w.tacticLabel && r.extraData == w.extraData
  }

  /** The shadow determines the decoded ProcedureResponse completely. */
  lemma ProcedureDecodedFromDetermines(r1: ProcedureResponse, r2: ProcedureResponse, w: ShadowProcedureResponse)
    requires ProcedureDecodedFrom(r1, w) && ProcedureDecodedFrom(r2, w)
    ensures r1 == r2
  {
    TimeOfUnique(r1.createdAt, r2.createdAt, w.createdAt);
    TimeOfUnique(r1.updatedAt, r2.updatedAt, w.updatedAt);
    TimeOfUnique(r1.occurDate, r2.occurDate, w.occurDate);
  }
}
