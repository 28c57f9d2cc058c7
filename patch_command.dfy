/** The patch command for one instance: dispatch once, then poll its status a bounded number of times. */
module PatchCommand {
  import opened Services

  /** The poll loop makes at most this many status queries. */
  const MaxPolls := 30

  /** The pause before each status query, in seconds. */
  const PollIntervalSeconds := 10

  const SuccessStatus := "Success"

  /** The statuses after which a command changes no more. */
  const TerminalStatuses := {"Success", "Failed", "Cancelled", "TimedOut"}

  /** A reply that ends the poll loop: a terminal status, or an exception (which leaves the loop for the
      exception handler). */
  predicate Stops(reply: Invocation)
  {
    reply.Raised? || reply.status in TerminalStatuses
  }

  /** The reply to status query number n of a command on an instance. A named function rather than the bare
      oracle application, so that the quantifiers below have a term to trigger on. */
  function Reply(cloud: Cloud, commandId: string, instanceId: string, n: nat): Invocation
  {
    cloud.getCommandInvocation(commandId, instanceId, n)
  }

  /** The number of the last status query the poll loop makes, counted from query `from` on (1-based):
      the first query whose reply stops the loop, or the last one allowed. */
  function QueriesFrom(cloud: Cloud, commandId: string, instanceId: string, from: nat): (n: nat)
    requires from < MaxPolls
    ensures from < n <= MaxPolls
    ensures forall i :: from <= i < n - 1 ==> !Stops(Reply(cloud, commandId, instanceId, i))
    ensures n < MaxPolls ==> Stops(Reply(cloud, commandId, instanceId, n - 1))
    decreases MaxPolls - from
  {
    if Stops(Reply(cloud, commandId, instanceId, from)) || from + 1 == MaxPolls then from + 1
    else QueriesFrom(cloud, commandId, instanceId, from + 1)
  }

  /** The number of status queries the poll loop makes for a dispatched command. */
  function Queries(cloud: Cloud, commandId: string, instanceId: string): nat
  {
    QueriesFrom(cloud, commandId, instanceId, 0)
  }

  /** The verdict of run_patch_command: the dispatch did not raise and the last reply observed is the
      status Success. */
  function PatchSucceeds(cloud: Cloud, instanceId: string): bool
  {
    match cloud.sendCommand(instanceId)
    case None => false
    case Some(commandId) =>
      Reply(cloud, commandId, instanceId, Queries(cloud, commandId, instanceId) - 1) == Status(SuccessStatus)
  }

  /** The calls of n rounds of the poll loop: a sleep, then a status query. */
  function PollTrace(commandId: string, instanceId: string, n: nat): (t: seq<Call>)
    ensures |t| == 2 * n
  {
    if n == 0 then []
    else PollTrace(commandId, instanceId, n - 1) + [Sleep(PollIntervalSeconds), GetCommandInvocation(commandId, instanceId)]
  }

  /** In n rounds of the poll loop, sleeps and status queries alternate, a sleep first. */
  lemma {:induction false} PollTraceShape(commandId: string, instanceId: string, n: nat)
    ensures forall k :: 0 <= k < 2 * n ==>
      PollTrace(commandId, instanceId, n)[k] ==
        if k % 2 == 0 then Sleep(PollIntervalSeconds) else GetCommandInvocation(commandId, instanceId)
  {
    if n > 0 {
      PollTraceShape(commandId, instanceId, n - 1);
    }
  }

  /** One more round of the poll loop appends a sleep and a status query to the calls made so far. */
  lemma PollTraceSnoc(commandId: string, instanceId: string, n: nat)
    ensures [SendCommand(instanceId)] + PollTrace(commandId, instanceId, n + 1) ==
      [SendCommand(instanceId)] + PollTrace(commandId, instanceId, n)
        + [Sleep(PollIntervalSeconds)] + [GetCommandInvocation(commandId, instanceId)]
  {
  }

  /** The calls run_patch_command makes: one dispatch, then, if it did not raise, between 1 and MaxPolls
      rounds of the poll loop. */
  function CommandTrace(cloud: Cloud, instanceId: string): (t: seq<Call>)
    ensures |t| % 2 == 1 && t[0] == SendCommand(instanceId)
    ensures cloud.sendCommand(instanceId).None? ==> |t| == 1
    ensures cloud.sendCommand(instanceId).Some? ==> 3 <= |t| <= 1 + 2 * MaxPolls
  {
    match cloud.sendCommand(instanceId)
    case None => [SendCommand(instanceId)]
    case Some(commandId) =>
      [SendCommand(instanceId)] + PollTrace(commandId, instanceId, Queries(cloud, commandId, instanceId))
  }

  /** After the dispatch, each status query of run_patch_command is preceded by exactly one sleep, and every
      query is about the dispatched command on this instance. */
  lemma CommandTraceShape(cloud: Cloud, instanceId: string)
    requires cloud.sendCommand(instanceId).Some?
    ensures var t := CommandTrace(cloud, instanceId);
      forall k :: 1 <= k < |t| ==>
        t[k] == if k % 2 == 1 then Sleep(PollIntervalSeconds)
                else GetCommandInvocation(cloud.sendCommand(instanceId).value, instanceId)
  {
    var commandId := cloud.sendCommand(instanceId).value;
    var polls := PollTrace(commandId, instanceId, Queries(cloud, commandId, instanceId));
    PollTraceShape(commandId, instanceId, Queries(cloud, commandId, instanceId));
    var t := CommandTrace(cloud, instanceId);
    assert t == [SendCommand(instanceId)] + polls;
    forall k | 1 <= k < |t|
      ensures t[k] == if k % 2 == 1 then Sleep(PollIntervalSeconds) else GetCommandInvocation(commandId, instanceId)
    {
      assert t[k] == polls[k - 1];
      assert (k - 1) % 2 == 0 <==> k % 2 == 1;
    }
  }

  /** run_patch_command: dispatch the update command to the instance, then sleep and query its status up to
      MaxPolls times, leaving the loop at the first terminal status. True exactly when the last status seen
      is Success; an exception from the dispatch or from a query gives false. */
  method RunPatchCommand(cloud: Cloud, instanceId: string) returns (ok: bool, trace: seq<Call>)
    ensures ok == PatchSucceeds(cloud, instanceId)
    ensures trace == CommandTrace(cloud, instanceId)
  {
    trace := [SendCommand(instanceId)];
    var sent := cloud.sendCommand(instanceId);
    if sent.None? {
      return false, trace;
    }
    var commandId := sent.value;
    ghost var queries := Queries(cloud, commandId, instanceId);
    // overwritten by the first query, as MaxPolls > 0
    var output := Raised;
    var attempt := 0;
    while attempt < MaxPolls
      invariant 0 <= attempt <= MaxPolls
      invariant trace == [SendCommand(instanceId)] + PollTrace(commandId, instanceId, attempt)
      invariant forall i {:trigger Stops(Reply(cloud, commandId, instanceId, i))} :: 0 <= i < attempt ==>
        !Stops(Reply(cloud, commandId, instanceId, i))
      invariant attempt < MaxPolls ==> queries == QueriesFrom(cloud, commandId, instanceId, attempt)
      invariant attempt > 0 ==> output == Reply(cloud, commandId, instanceId, attempt - 1)
    {
      trace := trace + [Sleep(PollIntervalSeconds)];
      output := cloud.getCommandInvocation(commandId, instanceId, attempt);
      trace := trace + [GetCommandInvocation(commandId, instanceId)];
      PollTraceSnoc(commandId, instanceId, attempt);
      if output.Raised? {
        return false, trace;
      }
      if output.status in TerminalStatuses {
        break;
      }
      attempt := attempt + 1;
    }
    ok := output == Status(SuccessStatus);
  }

  /** The verdict, stated without the loop: the patch succeeds exactly when the dispatch goes through and,
      within the first MaxPolls queries, the first reply that ends the loop is the status Success. */
  lemma {:induction false} SucceedsIffFirstStopIsSuccess(cloud: Cloud, instanceId: string)
    ensures PatchSucceeds(cloud, instanceId) <==>
      && cloud.sendCommand(instanceId).Some?
      && var commandId := cloud.sendCommand(instanceId).value;
         exists i :: 0 <= i < MaxPolls && Reply(cloud, commandId, instanceId, i) == Status(SuccessStatus) &&
           forall j :: 0 <= j < i ==> !Stops(Reply(cloud, commandId, instanceId, j))
  {
    if cloud.sendCommand(instanceId).Some? {
      var commandId := cloud.sendCommand(instanceId).value;
      var n := Queries(cloud, commandId, instanceId);
      if PatchSucceeds(cloud, instanceId) {
        assert Reply(cloud, commandId, instanceId, n - 1) == Status(SuccessStatus);
      }
      if exists i :: 0 <= i < MaxPolls && Reply(cloud, commandId, instanceId, i) == Status(SuccessStatus) &&
           forall j :: 0 <= j < i ==> !Stops(Reply(cloud, commandId, instanceId, j)) {
        var i :| 0 <= i < MaxPolls && Reply(cloud, commandId, instanceId, i) == Status(SuccessStatus) &&
           forall j :: 0 <= j < i ==> !Stops(Reply(cloud, commandId, instanceId, j));
        assert Stops(Reply(cloud, commandId, instanceId, i));
        assert i == n - 1;
      }
    }
  }

  /** Reaching the query ceiling with only non-terminal statuses is reported as a failure: the last status
      seen is not Success. */
  lemma NoTerminalStatusFails(cloud: Cloud, instanceId: string)
    requires cloud.sendCommand(instanceId).Some?
    requires forall i :: 0 <= i < MaxPolls ==>
      !Stops(Reply(cloud, cloud.sendCommand(instanceId).value, instanceId, i))
    ensures Queries(cloud, cloud.sendCommand(instanceId).value, instanceId) == MaxPolls
    ensures !PatchSucceeds(cloud, instanceId)
  {
    var commandId := cloud.sendCommand(instanceId).value;
    var n := Queries(cloud, commandId, instanceId);
    assert !Stops(Reply(cloud, commandId, instanceId, n - 1));
  }

  /** An exception from the dispatch, or from any status query the loop makes, gives false. */
  lemma ExceptionFails(cloud: Cloud, instanceId: string)
    requires cloud.sendCommand(instanceId).Some? ==>
      var commandId := cloud.sendCommand(instanceId).value;
      exists i :: 0 <= i < Queries(cloud, commandId, instanceId) && Reply(cloud, commandId, instanceId, i) == Raised
    ensures !PatchSucceeds(cloud, instanceId)
  {
    if cloud.sendCommand(instanceId).Some? {
      var commandId := cloud.sendCommand(instanceId).value;
      var n := Queries(cloud, commandId, instanceId);
      var i :| 0 <= i < n && Reply(cloud, commandId, instanceId, i) == Raised;
      assert Stops(Reply(cloud, commandId, instanceId, i));
      assert i == n - 1;
    }
  }

  /** The command trace dispatches to its instance once, and every call in it acts on that instance. */
  lemma CommandTraceTouches(cloud: Cloud, instanceId: string)
    ensures Dispatched(CommandTrace(cloud, instanceId)) == [instanceId]
    ensures forall c :: c in CommandTrace(cloud, instanceId) && (c.SendCommand? || c.GetCommandInvocation?) ==>
      Concerns(c, instanceId)
  {
    var t := CommandTrace(cloud, instanceId);
    if cloud.sendCommand(instanceId).Some? {
      CommandTraceShape(cloud, instanceId);
    }
    assert t == [t[0]] + t[1..];
    DispatchedAppend([t[0]], t[1..]);
    DispatchedNone(t[1..]);
  }
}
