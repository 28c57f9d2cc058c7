/** The event handler: validate the tag, select the running instances carrying it, and patch them one
    at a time, stopping at the first failure. */
module PatchHandler {
  import opened Services
  import InstanceSelector
  import PatchCommand

  /** The tag key that marks instances to patch (Patch=<value>). */
  const PatchKey := "Patch"

  /** The event field that holds the tag value. */
  const PatchTagField := "patch_tag"

  const MissingTagMessage := "Missing patch_tag in input event"

  /** The handler's reply. Input errors and patch failures share the status "error". */
  datatype PatchResult =
    | Error(message: string)
    | NoInstances(message: string)
    | Success(patchedInstances: seq<string>)
  {
    /** The reply's "status" field. */
    function StatusField(): string
    {
      match this
      case Error(_) => "error"
      case NoInstances(_) => "no_instances"
      case Success(_) => "success"
    }
  }

  /** The tag value of the event when it is truthy: the field is present and not the empty string. */
  function PatchTag(event: map<string, string>): Option<string>
  {
    if PatchTagField in event && event[PatchTagField] != "" then Some(event[PatchTagField]) else None
  }

  function NoInstancesMessage(value: string): string
  {
    "No running instances found with tag " + PatchKey + "=" + value
  }

  function FailedMessage(instanceId: string): string
  {
    "Patch failed on instance " + instanceId
  }

  /** The running instances the handler selects for a tag value. */
  function Selected(cloud: Cloud, value: string): seq<string>
  {
    InstanceSelector.RunningIds(cloud.describeInstances(PatchKey, value))
  }

  /** The position of the first instance whose patch fails, or |ids| when every one succeeds. */
  function FirstFailure(cloud: Cloud, ids: seq<string>): (k: nat)
    ensures k <= |ids|
    ensures forall j {:trigger PatchCommand.PatchSucceeds(cloud, ids[j])} :: 0 <= j < k ==> PatchCommand.PatchSucceeds(cloud, ids[j])
    ensures k < |ids| ==> !PatchCommand.PatchSucceeds(cloud, ids[k])
  {
    if ids == [] || !PatchCommand.PatchSucceeds(cloud, ids[0]) then 0
    else 1 + FirstFailure(cloud, ids[1..])
  }

  /** The calls of patching each instance of ids: entry j holds those for ids[j]. */
  function CommandTraces(cloud: Cloud, ids: seq<string>): seq<seq<Call>>
  {
    seq(|ids|, j requires 0 <= j < |ids| => PatchCommand.CommandTrace(cloud, ids[j]))
  }

  /** Patching ids one after the other dispatches to exactly ids, in order. */
  lemma CommandTracesDispatch(cloud: Cloud, ids: seq<string>)
    ensures Dispatched(Concat(CommandTraces(cloud, ids))) == ids
  {
    var runs := CommandTraces(cloud, ids);
    forall j | 0 <= j < |runs|
      ensures Dispatched(runs[j]) == [ids[j]]
    {
      PatchCommand.CommandTraceTouches(cloud, ids[j]);
    }
    ConcatDispatched(runs, ids);
  }

  /** Patching ids one after the other makes no dispatch and no status query about an instance outside ids. */
  lemma CommandTracesStayWithin(cloud: Cloud, ids: seq<string>, other: string)
    requires other !in ids
    ensures forall c :: c in Concat(CommandTraces(cloud, ids)) ==> !Concerns(c, other)
  {
    var runs := CommandTraces(cloud, ids);
    forall c | c in Concat(runs)
      ensures !Concerns(c, other)
    {
      InConcat(runs, c);
      var j :| 0 <= j < |runs| && c in runs[j];
      PatchCommand.CommandTraceTouches(cloud, ids[j]);
      assert ids[j] != other;
    }
  }

  /** The instances a patch run dispatches to: up to and including the first failing one. */
  function Patched(cloud: Cloud, ids: seq<string>): seq<string>
  {
    var k := FirstFailure(cloud, ids);
    if k < |ids| then ids[..k + 1] else ids
  }

  /** The patch loop stops at position i: every earlier instance succeeded and instance i failed. */
  lemma StopsAt(cloud: Cloud, instances: seq<string>, i: nat)
    requires i < |instances|
    requires forall j {:trigger PatchCommand.PatchSucceeds(cloud, instances[j])} :: 0 <= j < i ==>
      PatchCommand.PatchSucceeds(cloud, instances[j])
    requires !PatchCommand.PatchSucceeds(cloud, instances[i])
    ensures FirstFailure(cloud, instances) == i
    ensures Patched(cloud, instances) == instances[..i + 1]
  {
  }

  /** The patch loop runs to the end: every instance succeeded. */
  lemma RunsThrough(cloud: Cloud, instances: seq<string>)
    requires forall j {:trigger PatchCommand.PatchSucceeds(cloud, instances[j])} :: 0 <= j < |instances| ==>
      PatchCommand.PatchSucceeds(cloud, instances[j])
    ensures FirstFailure(cloud, instances) == |instances|
    ensures Patched(cloud, instances) == instances
  {
  }

  /** Patching one more instance appends its command trace. */
  lemma CommandTracesSnoc(cloud: Cloud, ids: seq<string>, i: nat)
    requires i < |ids|
    ensures CommandTraces(cloud, ids[..i + 1]) ==
      CommandTraces(cloud, ids[..i]) + [PatchCommand.CommandTrace(cloud, ids[i])]
  {
  }

  /** The patch loop of lambda_handler: patch the instances in order; at the first whose patch fails, stop
      with an error naming it (later instances are never touched); when all succeed, reply success with the
      instances in their given order. runs[j] holds the calls made for instances[j]. */
  method PatchInstances(cloud: Cloud, instances: seq<string>) returns (result: PatchResult, runs: seq<seq<Call>>)
    ensures var k := FirstFailure(cloud, instances);
      && (k < |instances| ==> result == Error(FailedMessage(instances[k])))
      && (k == |instances| ==> result == Success(instances))
    ensures runs == CommandTraces(cloud, Patched(cloud, instances))
  {
    runs := [];
    var i := 0;
    while i < |instances|
      invariant 0 <= i <= |instances|
      invariant forall j {:trigger PatchCommand.PatchSucceeds(cloud, instances[j])} :: 0 <= j < i ==>
        PatchCommand.PatchSucceeds(cloud, instances[j])
      invariant runs == CommandTraces(cloud, instances[..i])
    {
      var ok, calls := PatchCommand.RunPatchCommand(cloud, instances[i]);
      CommandTracesSnoc(cloud, instances, i);
      runs := runs + [calls];
      if !ok {
        StopsAt(cloud, instances, i);
        return Error(FailedMessage(instances[i])), runs;
      }
      i := i + 1;
    }
    RunsThrough(cloud, instances);
    assert instances[..i] == instances;
    result := Success(instances);
  }

  /** lambda_handler: reject an event without a truthy tag value before any call; otherwise select the
      running instances with the tag, reply no_instances when there are none, and patch them otherwise. */
  method LambdaHandler(cloud: Cloud, event: map<string, string>) returns (result: PatchResult, trace: seq<Call>)
    ensures PatchTag(event).None? ==> result == Error(MissingTagMessage) && trace == []
    ensures PatchTag(event).Some? ==>
      var value := PatchTag(event).value;
      var ids := Selected(cloud, value);
      var k := FirstFailure(cloud, ids);
      && (ids == [] ==> result == NoInstances(NoInstancesMessage(value)))
      && (k < |ids| ==> result == Error(FailedMessage(ids[k])))
      && (ids != [] && k == |ids| ==> result == Success(ids))
      && trace == [DescribeInstances(PatchKey, value)] + Concat(CommandTraces(cloud, Patched(cloud, ids)))
      && Dispatched(trace) == Patched(cloud, ids)
    ensures result.StatusField() == "error" <==>
      PatchTag(event).None? || FirstFailure(cloud, Selected(cloud, PatchTag(event).value)) < |Selected(cloud, PatchTag(event).value)|
  {
    var tag := PatchTag(event);
    if tag.None? {
      return Error(MissingTagMessage), [];
    }
    var value := tag.value;
    var instances;
    instances, trace := InstanceSelector.GetInstancesByTag(cloud, PatchKey, value);
    if instances == [] {
      return NoInstances(NoInstancesMessage(value)), trace;
    }
    var runs;
    result, runs := PatchInstances(cloud, instances);
    CommandTracesDispatch(cloud, Patched(cloud, instances));
    DispatchedAppend(trace, Concat(runs));
    trace := trace + Concat(runs);
  }
}
