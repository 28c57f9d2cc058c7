/** The instance selector: the running instances among those an inventory query returns. */
module InstanceSelector {
  import opened Services

  /** The lifecycle state name of an instance that is selected. */
  const RunningState := "running"

  predicate IsRunning(x: Instance)
  {
    x.stateName == RunningState
  }

  /** The instance records of an inventory reply, reservation by reservation, each in its own order. */
  function Flatten(response: seq<Reservation>): seq<Instance>
  {
    if response == [] then []
    else Flatten(response[..|response| - 1]) + response[|response| - 1].instances
  }

  lemma FlattenSnoc(response: seq<Reservation>, r: nat)
    requires r < |response|
    ensures Flatten(response[..r + 1]) == Flatten(response[..r]) + response[r].instances
  {
    assert response[..r + 1][..r] == response[..r];
  }

  /** The identifiers of the running records among xs, in record order. */
  function RunningIn(xs: seq<Instance>): seq<string>
  {
    if xs == [] then []
    else
      var last := xs[|xs| - 1];
      RunningIn(xs[..|xs| - 1]) + if IsRunning(last) then [last.instanceId] else []
  }

  lemma RunningInSnoc(xs: seq<Instance>, x: Instance)
    ensures RunningIn(xs + [x]) == RunningIn(xs) + if IsRunning(x) then [x.instanceId] else []
  {
    assert (xs + [x])[..|xs|] == xs;
  }

  /** Walking one more record of a reservation extends the selection by that record's identifier when it
      is running. */
  lemma RunningInExtend(done: seq<Instance>, xs: seq<Instance>, i: nat)
    requires i < |xs|
    ensures RunningIn(done + xs[..i + 1]) ==
      RunningIn(done + xs[..i]) + if IsRunning(xs[i]) then [xs[i].instanceId] else []
  {
    assert done + xs[..i + 1] == (done + xs[..i]) + [xs[i]];
    RunningInSnoc(done + xs[..i], xs[i]);
  }

  /** Walking every record of reservation r completes the selection of the first r + 1 reservations. */
  lemma RunningInNextReservation(response: seq<Reservation>, r: nat)
    requires r < |response|
    ensures RunningIn(Flatten(response[..r]) + response[r].instances) == RunningIn(Flatten(response[..r + 1]))
  {
    FlattenSnoc(response, r);
  }

  /** The identifiers the selector returns for an inventory reply. */
  function RunningIds(response: seq<Reservation>): seq<string>
  {
    RunningIn(Flatten(response))
  }

  /** Where each selected identifier comes from: the positions of the running records of xs, in order. */
  function RunningPositions(xs: seq<Instance>): (ps: seq<nat>)
    ensures |ps| == |RunningIn(xs)|
    ensures forall j :: 0 <= j < |ps| ==> ps[j] < |xs|
  {
    if xs == [] then []
    else
      var n := |xs| - 1;
      if IsRunning(xs[n]) then RunningPositions(xs[..n]) + [n] else RunningPositions(xs[..n])
  }

  /** The j-th selected identifier is that of the record at the j-th position, and that record is running. */
  lemma {:induction false} RunningPositionsPick(xs: seq<Instance>)
    ensures forall j :: 0 <= j < |RunningPositions(xs)| ==>
      IsRunning(xs[RunningPositions(xs)[j]]) && RunningIn(xs)[j] == xs[RunningPositions(xs)[j]].instanceId
  {
    if xs != [] {
      var n := |xs| - 1;
      var front := RunningPositions(xs[..n]);
      RunningPositionsPick(xs[..n]);
      var ps := RunningPositions(xs);
      forall j | 0 <= j < |ps|
        ensures IsRunning(xs[ps[j]]) && RunningIn(xs)[j] == xs[ps[j]].instanceId
      {
        if j < |front| {
          assert ps[j] == front[j];
          assert RunningIn(xs)[j] == RunningIn(xs[..n])[j];
          assert xs[..n][front[j]] == xs[front[j]];
        }
      }
    }
  }

  /** The positions are strictly increasing: the selection keeps the order of the records. */
  lemma {:induction false} RunningPositionsIncreasing(xs: seq<Instance>)
    ensures forall j, j' :: 0 <= j < j' < |RunningPositions(xs)| ==> RunningPositions(xs)[j] < RunningPositions(xs)[j']
  {
    if xs != [] {
      var n := |xs| - 1;
      var front := RunningPositions(xs[..n]);
      RunningPositionsIncreasing(xs[..n]);
      var ps := RunningPositions(xs);
      forall j, j' | 0 <= j < j' < |ps|
        ensures ps[j] < ps[j']
      {
        assert ps[j] == front[j] < n;
        if j' < |front| {
          assert ps[j'] == front[j'];
        } else {
          assert ps[j'] == n;
        }
      }
    }
  }

  /** Every running record has its position among the positions: no running record is dropped. */
  lemma {:induction false} RunningPositionsComplete(xs: seq<Instance>)
    ensures forall i :: 0 <= i < |xs| && IsRunning(xs[i]) ==> i in RunningPositions(xs)
  {
    if xs != [] {
      var n := |xs| - 1;
      RunningPositionsComplete(xs[..n]);
      forall i | 0 <= i < |xs| && IsRunning(xs[i])
        ensures i in RunningPositions(xs)
      {
        if i < n {
          assert xs[..n][i] == xs[i];
        }
      }
    }
  }

  /** An identifier is selected exactly when some running record carries it. */
  lemma RunningInMembership(xs: seq<Instance>, id: string)
    ensures id in RunningIn(xs) <==> exists i :: 0 <= i < |xs| && IsRunning(xs[i]) && xs[i].instanceId == id
  {
    var ps := RunningPositions(xs);
    RunningPositionsPick(xs);
    RunningPositionsComplete(xs);
    if id in RunningIn(xs) {
      var j :| 0 <= j < |RunningIn(xs)| && RunningIn(xs)[j] == id;
      assert IsRunning(xs[ps[j]]) && xs[ps[j]].instanceId == id;
    }
    if exists i :: 0 <= i < |xs| && IsRunning(xs[i]) && xs[i].instanceId == id {
      var i :| 0 <= i < |xs| && IsRunning(xs[i]) && xs[i].instanceId == id;
      var j :| 0 <= j < |ps| && ps[j] == i;
      assert RunningIn(xs)[j] == id;
    }
  }

  /** get_instances_by_tag: query the inventory for the tag (its one call), then walk reservations and their
      instances, appending the identifier of every running one. */
  method GetInstancesByTag(cloud: Cloud, key: string, value: string) returns (ids: seq<string>, trace: seq<Call>)
    ensures ids == RunningIds(cloud.describeInstances(key, value))
    ensures trace == [DescribeInstances(key, value)]
  {
    trace := [DescribeInstances(key, value)];
    var response := cloud.describeInstances(key, value);
    ids := [];
    var r := 0;
    while r < |response|
      invariant 0 <= r <= |response|
      invariant ids == RunningIn(Flatten(response[..r]))
    {
      var instances := response[r].instances;
      ghost var done := Flatten(response[..r]);
      var i := 0;
      assert done + instances[..0] == done;
      while i < |instances|
        invariant 0 <= i <= |instances|
        invariant ids == RunningIn(done + instances[..i])
      {
        if instances[i].stateName == RunningState {
          ids := ids + [instances[i].instanceId];
        }
        RunningInExtend(done, instances, i);
        i := i + 1;
      }
      assert instances[..i] == instances;
      RunningInNextReservation(response, r);
      r := r + 1;
    }
    assert response[..r] == response;
  }
}
