/**
 * The reconcile step of the runner replica-set controller: it counts the
 * runners a replica set controls, then scales the pool by one pass of deletes
 * (of runners GitHub reports as not busy) or creates, and writes the counts
 * back to the replica set's status.
 *
 * The cluster's answers (get, list, delete, create, status update) and the
 * GitHub busy probe are inputs; the calls the step makes are returned as an
 * `Effects` value. Time is in nanoseconds.
 */
module RunnerReplicaSetController {
  import opened Results

  const Minute: int := 60 * 1_000_000_000
  /** How long a runner may stay unknown to GitHub before it is scaled down anyway. */
  const RegistrationTimeout: int := 15 * Minute
  const ReplicaSetKind: string := "RunnerReplicaSet"
  /** The pod phase a ready runner reports. */
  const PodRunning: string := "Running"

  // ---------------------------------------------------------------------------
  // Objects

  /** An owner reference; `kind` and `name` say which object it refers to, `uid` which incarnation. */
  datatype OwnerReference = OwnerReference(kind: string, name: string, uid: string, controller: bool, blockOwnerDeletion: bool)

  datatype ObjectMeta = ObjectMeta(
    name: string,
    generateName: string,
    namespace: string,
    uid: string,
    ownerReferences: seq<OwnerReference>,
    creationTimestamp: int,
    deletionTimestamp: Option<int>)

  /** The part of a runner's spec the probe reads. */
  datatype RunnerSpec = RunnerSpec(enterprise: string, organization: string, repository: string)

  datatype Runner = Runner(meta: ObjectMeta, spec: RunnerSpec, phase: string)

  datatype RunnerTemplate = RunnerTemplate(meta: ObjectMeta, spec: RunnerSpec)

  datatype ReplicaSetStatus = ReplicaSetStatus(availableReplicas: int, readyReplicas: int)

  datatype ReplicaSet = ReplicaSet(meta: ObjectMeta, replicas: Option<int>, template: RunnerTemplate, status: ReplicaSetStatus)

  // ---------------------------------------------------------------------------
  // Ownership

  /** The first owner reference marked as controller, if any. */
  function ControllerOf(refs: seq<OwnerReference>): (c: Option<OwnerReference>)
    ensures c.None? <==> forall i :: 0 <= i < |refs| ==> !refs[i].controller
    ensures c.Some? ==> exists i :: 0 <= i < |refs| && refs[i] == c.value && c.value.controller &&
                                    forall j :: 0 <= j < i ==> !refs[j].controller
  {
    if |refs| == 0 then None
    else if refs[0].controller then Some(refs[0])
    else
      var c := ControllerOf(refs[1..]);
      assert c.Some? ==> exists i :: 1 <= i < |refs| && refs[i] == c.value && forall j :: 1 <= j < i ==> !refs[j].controller by {
        if c.Some? {
          var i :| 0 <= i < |refs[1..]| && refs[1..][i] == c.value && forall j :: 0 <= j < i ==> !refs[1..][j].controller;
          assert refs[i + 1] == c.value;
          assert forall j :: 1 <= j < i + 1 ==> !refs[j].controller by {
            forall j | 1 <= j < i + 1 ensures !refs[j].controller {
              assert refs[j] == refs[1..][j - 1];
            }
          }
        }
      }
      assert c.None? ==> forall i :: 1 <= i < |refs| ==> !refs[i].controller by {
        if c.None? {
          forall i | 1 <= i < |refs| ensures !refs[i].controller {
            assert refs[i] == refs[1..][i - 1];
          }
        }
      }
      c
  }

  /** Whether an object's controller is the given owner, compared by uid. */
  predicate IsControlledBy(controllee: ObjectMeta, owner: ObjectMeta)
  {
    var c := ControllerOf(controllee.ownerReferences);
    c.Some? && c.value.uid == owner.uid
  }

  /** Whether two references name the same object (same kind and name). */
  predicate ReferSameObject(a: OwnerReference, b: OwnerReference)
  {
    a.kind == b.kind && a.name == b.name
  }

  /** The reference a replica set puts on the runners it controls. */
  function ControllerReferenceTo(rs: ReplicaSet): OwnerReference
  {
    OwnerReference(ReplicaSetKind, rs.meta.name, rs.meta.uid, true, true)
  }

  /** Replaces the first reference to the same object as `ref`, or appends `ref` when there is none. */
  function UpsertOwnerRef(refs: seq<OwnerReference>, ref: OwnerReference): (r: seq<OwnerReference>)
    ensures ref in r
    ensures (exists i :: 0 <= i < |refs| && ReferSameObject(refs[i], ref)) ==> |r| == |refs|
    ensures (forall i :: 0 <= i < |refs| ==> !ReferSameObject(refs[i], ref)) ==> r == refs + [ref]
  {
    if |refs| == 0 then [ref]
    else if ReferSameObject(refs[0], ref) then [ref] + refs[1..]
    else
      var rest := UpsertOwnerRef(refs[1..], ref);
      assert (exists i :: 0 <= i < |refs| && ReferSameObject(refs[i], ref)) ==> exists i :: 0 <= i < |refs[1..]| && ReferSameObject(refs[1..][i], ref) by {
        if exists i :: 0 <= i < |refs| && ReferSameObject(refs[i], ref) {
          var i :| 0 <= i < |refs| && ReferSameObject(refs[i], ref);
          assert refs[1..][i - 1] == refs[i];
        }
      }
      assert (forall i :: 0 <= i < |refs| ==> !ReferSameObject(refs[i], ref)) ==> refs == [refs[0]] + refs[1..];
      [refs[0]] + rest
  }

  /** Why a controller reference could not be set. */
  datatype OwnershipError = AlreadyOwned(existing: OwnerReference)

  /**
   * `SetControllerReference`: fails when the object is already controlled by
   * another object; otherwise makes `owner` the object's controller.
   */
  function SetControllerReference(rs: ReplicaSet, meta: ObjectMeta): (r: Result<ObjectMeta, OwnershipError>)
    ensures var c := ControllerOf(meta.ownerReferences);
      r.Err? <==> c.Some? && !ReferSameObject(c.value, ControllerReferenceTo(rs))
    ensures r.Err? ==> r.error == AlreadyOwned(ControllerOf(meta.ownerReferences).value)
    ensures r.Ok? ==> r.value == meta.(ownerReferences := UpsertOwnerRef(meta.ownerReferences, ControllerReferenceTo(rs)))
  {
    var c := ControllerOf(meta.ownerReferences);
    var ref := ControllerReferenceTo(rs);
    if c.Some? && !ReferSameObject(c.value, ref) then Err(AlreadyOwned(c.value))
    else Ok(meta.(ownerReferences := UpsertOwnerRef(meta.ownerReferences, ref)))
  }

  /**
   * Upserting a controller reference into references whose controller, if any,
   * refers to the same object makes it their controller.
   */
  lemma {:induction false} UpsertMakesController(refs: seq<OwnerReference>, ref: OwnerReference)
    requires ref.controller
    requires ControllerOf(refs).Some? ==> ReferSameObject(ControllerOf(refs).value, ref)
    ensures ControllerOf(UpsertOwnerRef(refs, ref)) == Some(ref)
    decreases |refs|
  {
    if |refs| > 0 && !ReferSameObject(refs[0], ref) {
      assert !refs[0].controller;
      assert ControllerOf(refs) == ControllerOf(refs[1..]);
      UpsertMakesController(refs[1..], ref);
      var r := UpsertOwnerRef(refs, ref);
      assert r[1..] == UpsertOwnerRef(refs[1..], ref);
    }
  }

  /**
   * `newRunner`: a copy of the template with GenerateName `rs.Name + "-"`, the
   * replica set's namespace, and the replica set as its controller. The
   * runner is returned even when setting the controller failed.
   */
  function NewRunner(rs: ReplicaSet): (r: (Runner, Option<OwnershipError>))
    ensures r.0.meta.generateName == rs.meta.name + "-"
    ensures r.0.meta.namespace == rs.meta.namespace
    ensures r.0.spec == rs.template.spec
    ensures r.0.meta.name == rs.template.meta.name
    ensures r.0.meta.(ownerReferences := []) == rs.template.meta.(generateName := rs.meta.name + "-", namespace := rs.meta.namespace, ownerReferences := [])
    ensures r.0.phase == ""
  {
    var meta := rs.template.meta.(generateName := rs.meta.name + "-", namespace := rs.meta.namespace);
    var runner := Runner(meta, rs.template.spec, "");
    match SetControllerReference(rs, meta)
    case Err(e) => (runner, Some(e))
    case Ok(owned) => (runner.(meta := owned), None)
  }

  /**
   * The new runner is controlled by the replica set exactly when the
   * template's controller, if any, refers to the replica set; otherwise the
   * template's references are kept and the error is returned.
   */
  lemma NewRunnerOwnership(rs: ReplicaSet)
    ensures var (runner, err) := NewRunner(rs);
      && (err.None? <==> ControllerOf(rs.template.meta.ownerReferences).Some? ==>
                           ReferSameObject(ControllerOf(rs.template.meta.ownerReferences).value, ControllerReferenceTo(rs)))
      && (err.None? ==> ControllerOf(runner.meta.ownerReferences) == Some(ControllerReferenceTo(rs)) && IsControlledBy(runner.meta, rs.meta))
      && (err.Some? ==> err.value == AlreadyOwned(ControllerOf(rs.template.meta.ownerReferences).value)
                        && runner.meta.ownerReferences == rs.template.meta.ownerReferences)
  {
    var refs := rs.template.meta.ownerReferences;
    var c := ControllerOf(refs);
    if !(c.Some? && !ReferSameObject(c.value, ControllerReferenceTo(rs))) {
      UpsertMakesController(refs, ControllerReferenceTo(rs));
    }
  }

  // ---------------------------------------------------------------------------
  // Counting

  /** The runners, in list order, that the replica set controls. */
  function MyRunners(all: seq<Runner>, rs: ReplicaSet): (my: seq<Runner>)
    ensures |my| <= |all|
  {
    if |all| == 0 then []
    else MyRunners(all[..|all| - 1], rs) + (if IsControlledBy(all[|all| - 1].meta, rs.meta) then [all[|all| - 1]] else [])
  }

  /** A runner is one of the replica set's exactly when it is listed and controlled by it. */
  lemma {:induction false} MyRunnersMembers(all: seq<Runner>, rs: ReplicaSet, r: Runner)
    ensures r in MyRunners(all, rs) <==> r in all && IsControlledBy(r.meta, rs.meta)
    decreases |all|
  {
    if |all| > 0 {
      MyRunnersMembers(all[..|all| - 1], rs, r);
      assert all == all[..|all| - 1] + [all[|all| - 1]];
    }
  }

  /** The number of runners in phase Running. */
  function CountRunning(runners: seq<Runner>): nat
  {
    if |runners| == 0 then 0
    else CountRunning(runners[..|runners| - 1]) + (if runners[|runners| - 1].phase == PodRunning then 1 else 0)
  }

  /** Ready runners are available runners: `ready <= available`. */
  lemma {:induction false} ReadyAtMostAvailable(runners: seq<Runner>)
    ensures CountRunning(runners) <= |runners|
    decreases |runners|
  {
    if |runners| > 0 {
      ReadyAtMostAvailable(runners[..|runners| - 1]);
    }
  }

  /** The counting loop: the replica set's runners, how many there are, and how many are running. */
  method CountRunners(all: seq<Runner>, rs: ReplicaSet) returns (myRunners: seq<Runner>, available: int, ready: int)
    ensures myRunners == MyRunners(all, rs)
    ensures available == |myRunners| && ready == CountRunning(myRunners)
    ensures 0 <= ready <= available <= |all|
  {
    myRunners, available, ready := [], 0, 0;
    for i := 0 to |all|
      invariant myRunners == MyRunners(all[..i], rs)
      invariant available == |myRunners| && ready == CountRunning(myRunners)
    {
      assert all[..i + 1][..i] == all[..i];
      var r := all[i];
      if IsControlledBy(r.meta, rs.meta) {
        ghost var prev := myRunners;
        myRunners := myRunners + [r];
        available := available + 1;
        if r.phase == PodRunning {
          ready := ready + 1;
        }
        assert myRunners[..|myRunners| - 1] == prev;
      }
    }
    assert all[..|all|] == all;
    ReadyAtMostAvailable(myRunners);
  }

  /** The replica count asked for; 1 when unset. */
  function Desired(rs: ReplicaSet): (d: int)
    ensures rs.replicas.Some? ==> d == rs.replicas.value
    ensures rs.replicas.None? ==> d == 1
  {
    if rs.replicas.Some? then rs.replicas.value else 1
  }

  // ---------------------------------------------------------------------------
  // Probing

  /** What `IsRunnerBusy` answered for a runner, classified by the type of its error. */
  datatype ProbeResult = Probed(busy: bool) | ProbeOffline(busy: bool) | ProbeNotFound | ProbeRateLimited | ProbeFailed

  /** A probe error that ends the pass. */
  predicate Aborts(p: ProbeResult)
  {
    p.ProbeRateLimited? || p.ProbeFailed?
  }

  /** Whether the runner was created more than the registration timeout ago (strictly). */
  predicate RegistrationTimedOut(r: Runner, now: int)
  {
    now - (r.meta.creationTimestamp + RegistrationTimeout) > 0
  }

  /** Whether a runner with this probe answer is a target for scale-down. */
  predicate IsNotBusy(p: ProbeResult, r: Runner, now: int)
  {
    p == Probed(false) || p.ProbeOffline? || (p.ProbeNotFound? && RegistrationTimedOut(r, now))
  }

  /** The scale-down targets, in the order of `runners`. */
  function NotBusy(runners: seq<Runner>, probe: Runner -> ProbeResult, now: int): (nb: seq<Runner>)
    ensures |nb| <= |runners|
  {
    if |runners| == 0 then []
    else
      var r := runners[|runners| - 1];
      NotBusy(runners[..|runners| - 1], probe, now) + (if IsNotBusy(probe(r), r, now) then [r] else [])
  }

  /** Probing one more runner adds it to the targets exactly when its probe answer qualifies it. */
  lemma NotBusyStep(runners: seq<Runner>, i: nat, probe: Runner -> ProbeResult, now: int)
    requires i < |runners|
    ensures NotBusy(runners[..i + 1], probe, now)
         == NotBusy(runners[..i], probe, now) + (if IsNotBusy(probe(runners[i]), runners[i], now) then [runners[i]] else [])
  {
    assert runners[..i + 1][..i] == runners[..i];
  }

  /** A runner is a scale-down target exactly when it is among `runners` and its probe answer qualifies it. */
  lemma {:induction false} NotBusyMembers(runners: seq<Runner>, probe: Runner -> ProbeResult, now: int, r: Runner)
    ensures r in NotBusy(runners, probe, now) <==> r in runners && IsNotBusy(probe(r), r, now)
    decreases |runners|
  {
    if |runners| > 0 {
      NotBusyMembers(runners[..|runners| - 1], probe, now, r);
      assert runners == runners[..|runners| - 1] + [runners[|runners| - 1]];
    }
  }

  /** No runner that GitHub reports busy and online, and no unregistered runner younger than the timeout, is ever a target. */
  lemma BusyRunnersAreKept(runners: seq<Runner>, probe: Runner -> ProbeResult, now: int, r: Runner)
    requires probe(r) == Probed(true) || (probe(r) == ProbeNotFound && !RegistrationTimedOut(r, now))
    ensures r !in NotBusy(runners, probe, now)
  {
    NotBusyMembers(runners, probe, now, r);
  }

  /** The index of the first runner whose probe ends the pass, or `|runners|`. */
  function FirstAbort(runners: seq<Runner>, probe: Runner -> ProbeResult): (j: nat)
    ensures j <= |runners|
    ensures j < |runners| ==> Aborts(probe(runners[j]))
    ensures forall i :: 0 <= i < j ==> !Aborts(probe(runners[i]))
  {
    if |runners| == 0 then 0
    else if Aborts(probe(runners[0])) then 0
    else
      var j := FirstAbort(runners[1..], probe);
      assert forall i :: 1 <= i < j + 1 ==> runners[i] == runners[1..][i - 1];
      j + 1
  }

  /**
   * The probing loop: probes each runner in turn, collecting scale-down
   * targets, and stops at the first error other than not-found or offline.
   */
  method SelectNotBusy(myRunners: seq<Runner>, probe: Runner -> ProbeResult, now: int)
    returns (notBusy: seq<Runner>, probed: seq<Runner>, abort: Option<ProbeResult>)
    ensures var j := FirstAbort(myRunners, probe);
      && (abort.Some? <==> j < |myRunners|)
      && (abort.Some? ==> abort.value == probe(myRunners[j]) && probed == myRunners[..j + 1])
      && (abort.None? ==> probed == myRunners && notBusy == NotBusy(myRunners, probe, now))
  {
    notBusy, probed := [], [];
    for i := 0 to |myRunners|
      invariant i <= FirstAbort(myRunners, probe)
      invariant probed == myRunners[..i]
      invariant notBusy == NotBusy(myRunners[..i], probe, now)
    {
      var runner := myRunners[i];
      probed := probed + [runner];
      var p := probe(runner);
      if Aborts(p) {
        return notBusy, probed, Some(p);
      }
      NotBusyStep(myRunners, i, probe, now);
      if p.ProbeNotFound? || p.ProbeOffline? {
        var notRegistered := p.ProbeNotFound?;
        var offline := p.ProbeOffline?;
        if notRegistered && RegistrationTimedOut(runner, now) {
          notBusy := notBusy + [runner];
        }
        if offline {
          notBusy := notBusy + [runner];
        }
      } else if !p.busy {
        notBusy := notBusy + [runner];
      }
    }
    assert myRunners[..|myRunners|] == myRunners;
    return notBusy, probed, None;
  }

  // ---------------------------------------------------------------------------
  // Deleting and creating

  /** A cluster error; a not-found answer to a delete counts as success. */
  datatype ClientError = NotFound | ClientFailure(reason: string)

  predicate IsHardFailure(e: Option<ClientError>)
  {
    e.Some? && e.value.ClientFailure?
  }

  /** The first of calls `0 .. n-1` that fails, by `failed`, or `n`. */
  function FirstFailure(results: nat -> Option<ClientError>, n: nat, failed: Option<ClientError> -> bool): (f: nat)
    ensures f <= n
    ensures f < n ==> failed(results(f))
    ensures forall i :: 0 <= i < f ==> !failed(results(i))
  {
    if n == 0 then 0
    else
      var f := FirstFailure(results, n - 1, failed);
      if f < n - 1 then f else if failed(results(n - 1)) then n - 1 else n
  }

  /** The event recorded for the i-th successful delete. */
  function DeletedEvent(r: Runner): string
  {
    "Deleted runner '" + r.meta.name + "'"
  }

  /** The delete events, one per runner. */
  function DeletedEvents(runners: seq<Runner>): (events: seq<string>)
    ensures |events| == |runners|
    ensures forall i :: 0 <= i < |runners| ==> events[i] == DeletedEvent(runners[i])
  {
    if |runners| == 0 then [] else DeletedEvents(runners[..|runners| - 1]) + [DeletedEvent(runners[|runners| - 1])]
  }

  /**
   * The delete loop: deletes the first `n` targets in order and stops at the
   * first failure other than not-found. The event for the i-th delete names
   * the i-th of the replica set's runners, not the runner deleted.
   */
  method DeleteRunners(notBusy: seq<Runner>, myRunners: seq<Runner>, n: int, deleteResult: nat -> Option<ClientError>)
    returns (deleted: seq<Runner>, events: seq<string>, err: Option<ClientError>)
    requires 0 <= n <= |notBusy| && n <= |myRunners|
    ensures var f := FirstFailure(deleteResult, n, IsHardFailure);
      && deleted == notBusy[..if f < n then f + 1 else n]
      && events == DeletedEvents(myRunners[..f])
      && err == (if f < n then deleteResult(f) else None)
  {
    deleted, events := [], [];
    for i := 0 to n
      invariant i <= FirstFailure(deleteResult, n, IsHardFailure)
      invariant deleted == notBusy[..i]
      invariant events == DeletedEvents(myRunners[..i])
    {
      deleted := deleted + [notBusy[i]];
      var e := deleteResult(i);
      if IsHardFailure(e) {
        return deleted, events, e;
      }
      assert myRunners[..i + 1][..i] == myRunners[..i];
      events := events + [DeletedEvent(myRunners[i])];
    }
    return deleted, events, None;
  }

  predicate IsSome(e: Option<ClientError>)
  {
    e.Some?
  }

  /** The create loop: creates `runner` `n` times and stops at the first failure. */
  method CreateRunners(runner: Runner, n: int, createResult: nat -> Option<ClientError>)
    returns (created: seq<Runner>, err: Option<ClientError>)
    requires 0 <= n
    ensures var f := FirstFailure(createResult, n, IsSome);
      && |created| == (if f < n then f + 1 else n)
      && (forall i :: 0 <= i < |created| ==> created[i] == runner)
      && err == (if f < n then createResult(f) else None)
  {
    created := [];
    for i := 0 to n
      invariant i <= FirstFailure(createResult, n, IsSome)
      invariant |created| == i && forall j :: 0 <= j < i ==> created[j] == runner
    {
      created := created + [runner];
      var e := createResult(i);
      if e.Some? {
        return created, e;
      }
    }
    return created, None;
  }

  // ---------------------------------------------------------------------------
  // Reconcile

  /** The cluster's answers to the calls one reconcile makes. */
  datatype Cluster = Cluster(
    get: Result<ReplicaSet, ClientError>,
    list: Result<seq<Runner>, ClientError>,
    deleteResult: nat -> Option<ClientError>,
    createResult: nat -> Option<ClientError>,
    statusUpdate: Option<ClientError>)

  datatype ReconcileError =
    | GetFailed(cause: ClientError)
    | ListFailed(cause: ClientError)
    | ProbeError(probe: ProbeResult)
    | DeleteFailed(cause: ClientError)
    | NewRunnerFailed(ownership: OwnershipError)
    | CreateFailed(cause: ClientError)
    | StatusUpdateFailed(cause: ClientError)

  datatype ReconcileResult = ReconcileResult(requeueAfter: int, err: Option<ReconcileError>)

  /** What a scaling pass did: the runners probed, deleted and created, and the events recorded. */
  datatype Scaling = Scaling(probed: seq<Runner>, deleted: seq<Runner>, events: seq<string>, created: seq<Runner>)

  const NoScaling := Scaling([], [], [], [])

  /** What one reconcile did: its scaling pass and the replica set written to the status, if any. */
  datatype Effects = Effects(scaling: Scaling, statusWrite: Option<ReplicaSet>)

  const NoEffects := Effects(NoScaling, None)

  /**
   * Scale-down over the replica set's runners `my`: the probes made up to the
   * first aborting one, and either that abort (`stop`, with the rate-limit
   * delay when GitHub limited the rate) or the deletes of the first
   * `min(available - desired, |notBusy|)` targets in order, up to the first
   * failure. `stop` is `None` exactly when the pass goes on to the status.
   */
  ghost predicate ScaleDownContract(rs: ReplicaSet, my: seq<Runner>, probe: Runner -> ProbeResult, now: int, rateLimitDelay: int,
                                    deleteResult: nat -> Option<ClientError>, stop: Option<ReconcileResult>, scaling: Scaling)
    requires |my| > Desired(rs)
  {
    var j := FirstAbort(my, probe);
    && scaling.created == []
    && scaling.probed == (if j < |my| then my[..j + 1] else my)
    && (j < |my| ==>
          && stop == Some(ReconcileResult(if probe(my[j]).ProbeRateLimited? then rateLimitDelay else 0, Some(ProbeError(probe(my[j])))))
          && scaling.deleted == [] && scaling.events == [])
    && (j == |my| ==>
          var nb := NotBusy(my, probe, now);
          var excess := |my| - Desired(rs);
          var n := if |nb| < excess then |nb| else excess;
          var f := FirstFailure(deleteResult, n, IsHardFailure);
          && scaling.deleted == nb[..if f < n then f + 1 else n]
          && scaling.events == DeletedEvents(my[..f])
          && stop == (if f < n then Some(ReconcileResult(0, Some(DeleteFailed(deleteResult(f).value)))) else None))
  }

  /**
   * Scale-up by `desired - available`: a template controlled by another object
   * fails before any create; otherwise the runner from the template is created
   * that many times, up to the first failure. `stop` is `None` exactly when the
   * pass goes on to the status.
   */
  ghost predicate ScaleUpContract(rs: ReplicaSet, available: int, createResult: nat -> Option<ClientError>,
                                  stop: Option<ReconcileResult>, scaling: Scaling)
    requires Desired(rs) > available
  {
    var (runner, ownershipErr) := NewRunner(rs);
    var n := Desired(rs) - available;
    var f := FirstFailure(createResult, n, IsSome);
    && scaling.probed == [] && scaling.deleted == [] && scaling.events == []
    && (ownershipErr.Some? ==> stop == Some(ReconcileResult(0, Some(NewRunnerFailed(ownershipErr.value)))) && scaling.created == [])
    && (ownershipErr.None? ==>
          && |scaling.created| == (if f < n then f + 1 else n)
          && (forall i :: 0 <= i < |scaling.created| ==> scaling.created[i] == runner)
          && stop == (if f < n then Some(ReconcileResult(0, Some(CreateFailed(createResult(f).value)))) else None))
  }

  /** Scale-down: the probing loop, the clamp of `n`, then the delete loop. */
  method ScaleDown(rs: ReplicaSet, myRunners: seq<Runner>, probe: Runner -> ProbeResult, now: int, rateLimitDelay: int,
                   deleteResult: nat -> Option<ClientError>)
    returns (stop: Option<ReconcileResult>, scaling: Scaling)
    requires |myRunners| > Desired(rs)
    ensures ScaleDownContract(rs, myRunners, probe, now, rateLimitDelay, deleteResult, stop, scaling)
  {
    scaling := NoScaling;
    var n := |myRunners| - Desired(rs);
    var notBusy, probed, abort := SelectNotBusy(myRunners, probe, now);
    scaling := scaling.(probed := probed);
    if abort.Some? {
      if abort.value.ProbeRateLimited? {
        return Some(ReconcileResult(rateLimitDelay, Some(ProbeError(abort.value)))), scaling;
      }
      return Some(ReconcileResult(0, Some(ProbeError(abort.value)))), scaling;
    }
    if |notBusy| < n {
      n := |notBusy|;
    }
    var deleted, events, err := DeleteRunners(notBusy, myRunners, n, deleteResult);
    scaling := scaling.(deleted := deleted, events := events);
    if err.Some? {
      return Some(ReconcileResult(0, Some(DeleteFailed(err.value)))), scaling;
    }
    return None, scaling;
  }

  /** Scale-up: the create loop, building each runner with `newRunner`. */
  method ScaleUp(rs: ReplicaSet, available: int, createResult: nat -> Option<ClientError>)
    returns (stop: Option<ReconcileResult>, scaling: Scaling)
    requires Desired(rs) > available
    ensures ScaleUpContract(rs, available, createResult, stop, scaling)
  {
    scaling := NoScaling;
    var n := Desired(rs) - available;
    var (runner, ownershipErr) := NewRunner(rs);
    if ownershipErr.Some? {
      return Some(ReconcileResult(0, Some(NewRunnerFailed(ownershipErr.value)))), scaling;
    }
    var created, err := CreateRunners(runner, n, createResult);
    scaling := scaling.(created := created);
    if err.Some? {
      return Some(ReconcileResult(0, Some(CreateFailed(err.value)))), scaling;
    }
    return None, scaling;
  }

  /** The status guard: writes the counts to a copy of the replica set only when they differ from its status. */
  method UpdateStatus(rs: ReplicaSet, available: int, ready: int, statusUpdate: Option<ClientError>)
    returns (result: ReconcileResult, statusWrite: Option<ReplicaSet>)
    ensures var counts := ReplicaSetStatus(available, ready);
      && statusWrite == (if rs.status != counts then Some(rs.(status := counts)) else None)
      && result == ReconcileResult(0, if rs.status != counts && statusUpdate.Some? then Some(StatusUpdateFailed(statusUpdate.value)) else None)
  {
    statusWrite := None;
    if rs.status.availableReplicas != available || rs.status.readyReplicas != ready {
      var updated := rs.(status := ReplicaSetStatus(available, ready));
      statusWrite := Some(updated);
      if statusUpdate.Some? {
        return ReconcileResult(0, Some(StatusUpdateFailed(statusUpdate.value))), statusWrite;
      }
    }
    return ReconcileResult(0, None), statusWrite;
  }

  /** Whether the reconcile gets past reading the replica set and listing its namespace. */
  predicate Proceeds(c: Cluster)
  {
    c.get.Ok? && c.get.value.meta.deletionTimestamp.None? && !(c.list.Err? && !c.list.error.NotFound?)
  }

  /** The listed runners; a not-found answer lists none. */
  function Listed(c: Cluster): seq<Runner>
  {
    if c.list.Ok? then c.list.value else []
  }

  /** Whether the scaling pass over the listed runners `all` ends without an error, so that the status is considered. */
  ghost predicate ScalesCleanly(rs: ReplicaSet, all: seq<Runner>, probe: Runner -> ProbeResult, now: int,
                                deleteResult: nat -> Option<ClientError>, createResult: nat -> Option<ClientError>)
  {
    var my := MyRunners(all, rs);
    var available := |my|;
    var desired := Desired(rs);
    if available > desired then
      var nb := NotBusy(my, probe, now);
      var n := if |nb| < available - desired then |nb| else available - desired;
      FirstAbort(my, probe) == |my| && FirstFailure(deleteResult, n, IsHardFailure) == n
    else if desired > available then
      NewRunner(rs).1.None? && FirstFailure(createResult, desired - available, IsSome) == desired - available
    else true
  }

  /**
   * One reconcile pass over the listed runners `all` of replica set `rs`: the
   * scaling pass meets its contract, ending it with `result` when it does not
   * scale cleanly; when it does, the counts taken before scaling are written
   * to the status exactly when they changed; no status is written otherwise.
   */
  ghost predicate PassContract(rs: ReplicaSet, all: seq<Runner>, probe: Runner -> ProbeResult, now: int, rateLimitDelay: int,
                               deleteResult: nat -> Option<ClientError>, createResult: nat -> Option<ClientError>,
                               statusUpdate: Option<ClientError>, result: ReconcileResult, effects: Effects)
  {
    var my := MyRunners(all, rs);
    var available := |my|;
    var desired := Desired(rs);
    var cleanly := ScalesCleanly(rs, all, probe, now, deleteResult, createResult);
    var stop := if cleanly then None else Some(result);
    var counts := ReplicaSetStatus(available, CountRunning(my));
    && (available > desired ==> ScaleDownContract(rs, my, probe, now, rateLimitDelay, deleteResult, stop, effects.scaling))
    && (desired > available ==> ScaleUpContract(rs, available, createResult, stop, effects.scaling))
    && (available == desired ==> effects.scaling == NoScaling)
    && (cleanly ==>
          && effects.statusWrite == (if rs.status != counts then Some(rs.(status := counts)) else None)
          && result == ReconcileResult(0, if rs.status != counts && statusUpdate.Some? then Some(StatusUpdateFailed(statusUpdate.value)) else None))
    && (!cleanly ==> effects.statusWrite == None)
  }

  /** Counting, one scaling pass, and the status guard, over the runners listed in the replica set's namespace. */
  method Pass(rs: ReplicaSet, all: seq<Runner>, probe: Runner -> ProbeResult, now: int, rateLimitDelay: int,
              deleteResult: nat -> Option<ClientError>, createResult: nat -> Option<ClientError>, statusUpdate: Option<ClientError>)
    returns (result: ReconcileResult, effects: Effects)
    ensures PassContract(rs, all, probe, now, rateLimitDelay, deleteResult, createResult, statusUpdate, result, effects)
  {
    var myRunners, available, ready := CountRunners(all, rs);
    var desired := Desired(rs);
    var stop, scaling := None, NoScaling;
    if available > desired {
      stop, scaling := ScaleDown(rs, myRunners, probe, now, rateLimitDelay, deleteResult);
    } else if desired > available {
      stop, scaling := ScaleUp(rs, available, createResult);
    }
    assert stop.None? <==> ScalesCleanly(rs, all, probe, now, deleteResult, createResult);
    if stop.Some? {
      return stop.value, Effects(scaling, None);
    }
    var statusWrite;
    result, statusWrite := UpdateStatus(rs, available, ready, statusUpdate);
    effects := Effects(scaling, statusWrite);
  }

  /**
   * `Reconcile`: reads the replica set and the runners in its namespace,
   * scales the pool one step towards the desired count (1 when unset), and
   * writes the counts taken before scaling to the status when they changed.
   * A replica set being deleted, or one that is gone, is left alone.
   */
  method Reconcile(c: Cluster, probe: Runner -> ProbeResult, now: int, rateLimitDelay: int)
    returns (result: ReconcileResult, effects: Effects)
    ensures c.get.Err? ==> result == ReconcileResult(0, if c.get.error.NotFound? then None else Some(GetFailed(c.get.error))) && effects == NoEffects
    ensures c.get.Ok? && c.get.value.meta.deletionTimestamp.Some? ==> result == ReconcileResult(0, None) && effects == NoEffects
    ensures c.get.Ok? && c.get.value.meta.deletionTimestamp.None? && c.list.Err? && !c.list.error.NotFound? ==>
      result == ReconcileResult(0, Some(ListFailed(c.list.error))) && effects == NoEffects
    ensures Proceeds(c) ==>
      PassContract(c.get.value, Listed(c), probe, now, rateLimitDelay, c.deleteResult, c.createResult, c.statusUpdate, result, effects)
  {
    result, effects := ReconcileResult(0, None), NoEffects;
    if c.get.Err? {
      if c.get.error.NotFound? {
        return;
      }
      return ReconcileResult(0, Some(GetFailed(c.get.error))), effects;
    }
    var rs := c.get.value;
    if rs.meta.deletionTimestamp.Some? {
      return;
    }
    var allRunners := [];
    if c.list.Err? {
      if !c.list.error.NotFound? {
        return ReconcileResult(0, Some(ListFailed(c.list.error))), effects;
      }
    } else {
      allRunners := c.list.value;
    }
    assert allRunners == Listed(c);
    result, effects := Pass(rs, allRunners, probe, now, rateLimitDelay, c.deleteResult, c.createResult, c.statusUpdate);
  }

  // ---------------------------------------------------------------------------
  // Consequences

  /**
   * Scale-down deletes only targets: every runner it deletes is one of the
   * replica set's and was probed not busy, offline, or unregistered past the
   * timeout; so a runner GitHub reports busy is never deleted.
   */
  lemma ScaleDownDeletesOnlyTargets(rs: ReplicaSet, my: seq<Runner>, probe: Runner -> ProbeResult, now: int, rateLimitDelay: int,
                                    deleteResult: nat -> Option<ClientError>, stop: Option<ReconcileResult>, scaling: Scaling)
    requires |my| > Desired(rs)
    requires ScaleDownContract(rs, my, probe, now, rateLimitDelay, deleteResult, stop, scaling)
    ensures forall r :: r in scaling.deleted ==> r in my && IsNotBusy(probe(r), r, now)
    ensures forall r :: r in scaling.deleted ==> probe(r) != Probed(true)
  {
    var nb := NotBusy(my, probe, now);
    forall r | r in scaling.deleted
      ensures r in my && IsNotBusy(probe(r), r, now)
    {
      if FirstAbort(my, probe) == |my| {
        var k :| 0 <= k < |scaling.deleted| && scaling.deleted[k] == r;
        assert r in nb;
        NotBusyMembers(my, probe, now, r);
      }
    }
  }

  /**
   * Without a probe abort or a delete failure, scale-down deletes exactly
   * `min(available - desired, |notBusy|)` runners, the first targets in list
   * order, and goes on to the status.
   */
  lemma ScaleDownDeleteCount(rs: ReplicaSet, my: seq<Runner>, probe: Runner -> ProbeResult, now: int, rateLimitDelay: int,
                             deleteResult: nat -> Option<ClientError>, stop: Option<ReconcileResult>, scaling: Scaling)
    requires |my| > Desired(rs)
    requires ScaleDownContract(rs, my, probe, now, rateLimitDelay, deleteResult, stop, scaling)
    requires forall i :: 0 <= i < |my| ==> !Aborts(probe(my[i]))
    requires forall i: nat :: !IsHardFailure(deleteResult(i))
    ensures var nb := NotBusy(my, probe, now);
      var excess := |my| - Desired(rs);
      && |scaling.deleted| == (if |nb| < excess then |nb| else excess)
      && scaling.deleted == nb[..|scaling.deleted|]
      && scaling.probed == my
      && stop.None?
  {
  }

  /** Offline runners are not preferred: an idle online runner listed first is deleted before an offline one. */
  lemma OfflineRunnersAreNotPreferred(idle: Runner, offline: Runner, now: int)
    requires idle != offline
    ensures var probe := (r: Runner) => if r == idle then Probed(false) else ProbeOffline(false);
      NotBusy([idle, offline], probe, now)[..1] == [idle]
  {
    var probe := (r: Runner) => if r == idle then Probed(false) else ProbeOffline(false);
    assert [idle, offline][..1] == [idle];
    assert [idle, offline][..1][..0] == [];
  }

  /**
   * The delete event names the replica set's i-th runner, not the runner
   * deleted: with a busy runner listed first, deleting the idle one records
   * the busy one's name.
   */
  lemma DeleteEventNamesWrongRunner(busy: Runner, idle: Runner, now: int)
    requires busy != idle && busy.meta.name != idle.meta.name
    ensures var probe := (r: Runner) => if r == busy then Probed(true) else Probed(false);
      && NotBusy([busy, idle], probe, now)[..1] == [idle]
      && DeletedEvents([busy, idle][..1]) == [DeletedEvent(busy)]
      && DeletedEvent(busy) != DeletedEvent(idle)
  {
    var probe := (r: Runner) => if r == busy then Probed(true) else Probed(false);
    assert [busy, idle][..1] == [busy];
    assert [busy, idle][..1][..0] == [];
    var prefix := "Deleted runner '";
    var busyEvent, idleEvent := DeletedEvent(busy), DeletedEvent(idle);
    assert busyEvent[|prefix|..|busyEvent| - 1] == busy.meta.name;
    assert idleEvent[|prefix|..|idleEvent| - 1] == idle.meta.name;
  }
}
