/** The two provider services the patch lambda talks to (the instance inventory and the
    remote command channel), modelled as oracles, and the calls the lambda makes on them. */
module Services {

  datatype Option<+T> = None | Some(value: T)

  /** One instance record of an inventory reply: its identifier and the name of its lifecycle state. */
  datatype Instance = Instance(instanceId: string, stateName: string)

  /** One reservation (grouping) of an inventory reply. */
  datatype Reservation = Reservation(instances: seq<Instance>)

  /** What one status query yields: the command's status string, or an exception raised by the call. */
  datatype Invocation = Status(status: string) | Raised

  /** The provider as the lambda observes it. Each oracle is a total function:
      - describeInstances(tagKey, tagValue): the reservations of the instances carrying that tag;
      - sendCommand(instanceId): the command identifier of the dispatched command, None when dispatch raises;
      - getCommandInvocation(commandId, instanceId, n): the reply to the n-th (0-based) status query. */
  datatype Cloud = Cloud(
    describeInstances: (string, string) -> seq<Reservation>,
    sendCommand: string -> Option<string>,
    getCommandInvocation: (string, string, nat) -> Invocation
  )

  /** A call the lambda makes on the outside world, recorded in the order it is made. */
  datatype Call =
    | DescribeInstances(tagKey: string, tagValue: string)
    | SendCommand(instanceId: string)
    | Sleep(seconds: nat)
    | GetCommandInvocation(commandId: string, instanceId: string)

  /** The call acts on the given instance. */
  predicate Concerns(c: Call, instanceId: string)
  {
    (c.SendCommand? || c.GetCommandInvocation?) && c.instanceId == instanceId
  }

  /** The instances a dispatch was attempted on, in dispatch order, including dispatches that raised. */
  function Dispatched(trace: seq<Call>): seq<string>
  {
    if trace == [] then []
    else (if trace[0].SendCommand? then [trace[0].instanceId] else []) + Dispatched(trace[1..])
  }

  lemma {:induction false} DispatchedAppend(a: seq<Call>, b: seq<Call>)
    ensures Dispatched(a + b) == Dispatched(a) + Dispatched(b)
  {
    if a == [] {
      assert a + b == b;
    } else {
      assert (a + b)[1..] == a[1..] + b;
      DispatchedAppend(a[1..], b);
    }
  }

  lemma {:induction false} DispatchedNone(t: seq<Call>)
    requires forall k :: 0 <= k < |t| ==> !t[k].SendCommand?
    ensures Dispatched(t) == []
  {
    if t != [] {
      DispatchedNone(t[1..]);
    }
  }

  /** The calls of several runs, one run after the other. */
  function Concat(runs: seq<seq<Call>>): seq<Call>
  {
    if runs == [] then [] else Concat(runs[..|runs| - 1]) + runs[|runs| - 1]
  }

  /** If run j dispatches to ids[j] alone, the runs together dispatch to exactly ids, in order. */
  lemma {:induction false} ConcatDispatched(runs: seq<seq<Call>>, ids: seq<string>)
    requires |runs| == |ids|
    requires forall j {:trigger runs[j]} :: 0 <= j < |runs| ==> Dispatched(runs[j]) == [ids[j]]
    ensures Dispatched(Concat(runs)) == ids
  {
    if runs != [] {
      var n := |runs| - 1;
      ConcatDispatched(runs[..n], ids[..n]);
      DispatchedAppend(Concat(runs[..n]), runs[n]);
      assert ids == ids[..n] + [ids[n]];
    }
  }

  /** A call of several runs is a call of one of them. */
  lemma {:induction false} InConcat(runs: seq<seq<Call>>, c: Call)
    requires c in Concat(runs)
    ensures exists j :: 0 <= j < |runs| && c in runs[j]
  {
    var n := |runs| - 1;
    if c !in runs[n] {
      InConcat(runs[..n], c);
      var j :| 0 <= j < n && c in runs[..n][j];
      assert runs[..n][j] == runs[j];
    }
  }
}
