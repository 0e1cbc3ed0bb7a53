/**
 * Tasks: the request bodies for a case task and a task log, and the query
 * stages of the task look-ups. Both marshallers only read their receiver,
 * so they are functions of the task's value.
 */
module Task {
  import opened Wrappers
  import opened Text
  import opened Util
  import opened Wire
  import opened Query

  /** A task of a case; `order` is a pointer, None when nil. */
  datatype CaseTask = CaseTask(
    title: string,
    group: string,
    description: string,
    status: string,
    flag: bool,
    startDate: Time,
    endDate: Time,
    dueDate: Time,
    order: Option<int>,
    assignee: string,
    mandatory: bool)
  {
    /** The member written under `key`; the three dates are outer pointers. */
    function Member(key: string): Option<Json> {
      if key == "startDate" then OptInt(EncodeTimeRef(startDate))
      else if key == "endDate" then OptInt(EncodeTimeRef(endDate))
      else if key == "dueDate" then OptInt(EncodeTimeRef(dueDate))
      else if key == "title" then Some(JString(title))
      else if key == "group" then OmitEmpty(group)
      else if key == "description" then OmitEmpty(description)
      else if key == "status" then OmitEmpty(status)
      else if key == "flag" then OmitFalse(flag)
      else if key == "order" then OptInt(order)
      else if key == "assignee" then OmitEmpty(assignee)
      else if key == "mandatory" then OmitFalse(mandatory)
      else None
    }

    function Body(): Payload {
      map k | k in CaseTaskKeys && Member(k).Some? :: Member(k).value
    }

    /**
     * CaseTask.MarshalJSON: each date is sent as its UTC millisecond count
     * exactly when it is set; it never fails.
     */
    function MarshalJSON(): (r: Payload)
      ensures TimeAsRef(r, "startDate", startDate) && TimeAsRef(r, "endDate", endDate)
      ensures TimeAsRef(r, "dueDate", dueDate)
      ensures Emits(r, "title", true, JString(title))
      ensures ("order" in r <==> order.Some?) && (order.Some? ==> r["order"] == JInt(order.value))
    {
      CaseTaskBody(this);
      Body()
    }
  }

  const CaseTaskKeys: set<string> := {
    "startDate", "endDate", "dueDate", "title", "group", "description", "status", "flag",
    "order", "assignee", "mandatory"}

  lemma CaseTaskCarries(ct: CaseTask, key: string)
    requires key in CaseTaskKeys
    ensures Carries(ct.Body(), key, ct.Member(key))
  {
  }

  lemma CaseTaskBody(ct: CaseTask)
    ensures TimeAsRef(ct.Body(), "startDate", ct.startDate) && TimeAsRef(ct.Body(), "endDate", ct.endDate)
    ensures TimeAsRef(ct.Body(), "dueDate", ct.dueDate)
    ensures Emits(ct.Body(), "title", true, JString(ct.title))
    ensures ("order" in ct.Body() <==> ct.order.Some?) && (ct.order.Some? ==> ct.Body()["order"] == JInt(ct.order.value))
  {
    var b := ct.Body();
    CaseTaskCarries(ct, "startDate");
    TimeRefCarried(b, "startDate", ct.startDate);
    CaseTaskCarries(ct, "endDate");
    TimeRefCarried(b, "endDate", ct.endDate);
    CaseTaskCarries(ct, "dueDate");
    TimeRefCarried(b, "dueDate", ct.dueDate);
    CaseTaskCarries(ct, "title");
    CaseTaskCarries(ct, "order");
  }

  /** A log entry of a task; attachments are carried as JSON, None when nil. */
  datatype TaskLog = TaskLog(
    message: string,
    startDate: Time,
    includeInTimeline: Time,
    attachments: Option<Json>)
  {
    function Member(key: string): Option<Json> {
      if key == "startDate" then OptInt(EncodeTimeRef(startDate))
      else if key == "includeInTimeline" then OptInt(EncodeTimeRef(includeInTimeline))
      else if key == "message" then Some(JString(message))
      else if key == "attachments" then attachments
      else None
    }

    function Body(): Payload {
      map k | k in TaskLogKeys && Member(k).Some? :: Member(k).value
    }

    /**
     * TaskLog.MarshalJSON: the start date and the timeline date are each
     * sent as UTC milliseconds exactly when set; the message always.
     */
    function MarshalJSON(): (r: Payload)
      ensures TimeAsRef(r, "startDate", startDate)
      ensures TimeAsRef(r, "includeInTimeline", includeInTimeline)
      ensures Emits(r, "message", true, JString(message))
      ensures ("attachments" in r <==> attachments.Some?) && (attachments.Some? ==> r["attachments"] == attachments.value)
    {
      var b := Body();
      TaskLogCarries(this, "startDate");
      TimeRefCarried(b, "startDate", startDate);
      TaskLogCarries(this, "includeInTimeline");
      TimeRefCarried(b, "includeInTimeline", includeInTimeline);
      TaskLogCarries(this, "message");
      TaskLogCarries(this, "attachments");
      b
    }
  }

  const TaskLogKeys: set<string> := {"startDate", "includeInTimeline", "message", "attachments"}

  lemma TaskLogCarries(tl: TaskLog, key: string)
    requires key in TaskLogKeys
    ensures Carries(tl.Body(), key, tl.Member(key))
  {
  }

  // ---------------------------------------------------------------------
  // Query stages of the task look-ups

  /** GetTaskLogs: the logs of the task with the given id, oldest first. */
  function GetTaskLogs(taskId: string): (r: seq<SearchQuery>)
    ensures |r| == 3 && r[0] == SearchQuery("getTask", idOrName := Some(taskId))
    ensures r[1] == SearchQuery("logs") && SortsBy(r[2], "_createdAt", "asc")
  {
    [SearchQuery("getTask", idOrName := Some(taskId)),
     SearchQuery("logs"),
     SearchQuery("sort", sort := Some(map["_createdAt" := "asc"]))]
  }

  /** GetCaseTasks: the tasks of the case with the given number, oldest first. */
  function GetCaseTasks(caseId: int): (r: seq<SearchQuery>)
    ensures |r| == 3 && r[0].name == "getCase" && r[1] == SearchQuery("tasks")
    ensures r[0].idOrName.Some? && ParseDecimal(r[0].idOrName.value) == Some(caseId)
    ensures Canonical(r[0].idOrName.value)
    ensures r[0] == SearchQuery("getCase", idOrName := r[0].idOrName)
    ensures SortsBy(r[2], "_createdAt", "asc")
  {
    ItoaRoundTrip(caseId);
    ItoaCanonical(caseId);
    [SearchQuery("getCase", idOrName := Some(Itoa(caseId))),
     SearchQuery("tasks"),
     SearchQuery("sort", sort := Some(map["_createdAt" := "asc"]))]
  }
}
