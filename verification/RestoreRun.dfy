/**
  A restore run: the accepted plan is checked again, and only under the mutation lock and on the
  planned destination are the steps taken, over ports that may fail at any call.
 */
module RestoreRun {
  import opened Wrappers

  datatype Decision = Compatible | RequiresUpgrade | Unsupported | Corrupt

  datatype Step =
    | ReleaseAcquire | TargetBegin | ReleaseStage | ProtectionStage | DatabasePrepare | DatabaseRestore
    | FilesystemRestore | UpdaterStage | UpgradeIfRequired | UpgradeApply | Bootstrap | RuntimeRebuild | LocatorBuild
    | AuthenticationRotate | ValidateTarget | TargetPublish

  /** The plan the operator accepted; `bodyDigest` is the digest of what the plan says now. */
  datatype Plan = Plan(digest: string, bodyDigest: string, destination: string, decision: Decision, actions: seq<string>)

  datatype Evidence = Evidence(completed: seq<Step>, failedStep: Step, targetActive: Option<bool>)

  datatype Call =
    | PrepareSnapshot | EnterLock | InspectDestination | Perform(step: Step) | RecordRecovery(evidence: Evidence)
    | LeaveLock

  datatype Event = Event(call: Call, ok: bool)

  datatype Outcome =
    | Refused(code: string) | Published(completed: seq<Step>) | RecoveryRequired(evidence: Evidence)
    | EvidenceLost(evidence: Evidence) | LeaveRaised

  /** The steps every plan announces. */
  const EXECUTION_STEPS: seq<Step> := [
    ReleaseAcquire, TargetBegin, ReleaseStage, ProtectionStage, DatabasePrepare, DatabaseRestore, FilesystemRestore,
    UpdaterStage, UpgradeIfRequired, Bootstrap, RuntimeRebuild, LocatorBuild, AuthenticationRotate, ValidateTarget,
    TargetPublish]

  /** The steps this plan takes and reports: at the ninth place the upgrade, or nothing. */
  function Steps(plan: Plan): (r: seq<Step>)
    ensures |r| == if plan.actions == [] then 14 else 15
  {
    EXECUTION_STEPS[..8] + (if plan.actions == [] then [] else [UpgradeApply]) + EXECUTION_STEPS[9..]
  }

  function Done(steps: seq<Step>): (r: seq<Event>)
    ensures |r| == |steps| && forall k :: 0 <= k < |r| ==> r[k] == Event(Perform(steps[k]), true)
  {
    seq(|steps|, k requires 0 <= k < |steps| => Event(Perform(steps[k]), true))
  }

  /**
    The outside: whether the `n`-th call returns, the digest of the plan made afresh, and the destination
    as it is under the lock.
   */
  class Ports {
    const script: nat -> bool
    const freshDigest: string
    const destination: string
    var log: seq<Event>

    ghost predicate Valid()
      reads this
    {
      forall n :: 0 <= n < |log| ==> log[n].ok == script(n)
    }

    constructor (script: nat -> bool, freshDigest: string, destination: string)
      ensures this.script == script && this.freshDigest == freshDigest && this.destination == destination
      ensures Valid() && log == []
    {
      this.script, this.freshDigest, this.destination := script, freshDigest, destination;
      log := [];
    }

    method Try(call: Call) returns (ok: bool)
      requires Valid()
      modifies this
      ensures Valid() && ok == script(|old(log)|) && log == old(log) + [Event(call, ok)]
    {
      ok := script(|log|);
      log := log + [Event(call, ok)];
    }
  }

  // ----- The shape of a run

  const OPENING: seq<Event> := [
    Event(PrepareSnapshot, true), Event(Perform(ReleaseAcquire), true), Event(EnterLock, true),
    Event(InspectDestination, true)]

  /** The steps up to the `k`-th, and, if that is not the last, its failure and the recovery record. */
  predicate MutationLog(steps: seq<Step>, k: nat, outcome: Outcome, log: seq<Event>) {
    && 1 <= k <= |steps|
    && (if k == |steps| then
          outcome == Published(steps) && log == Done(steps[1..])
        else
          && (outcome.RecoveryRequired? || outcome.EvidenceLost?)
          && outcome.evidence == EvidenceAt(steps, k)
          && log == Done(steps[1..k]) + [
               Event(Perform(steps[k]), false),
               Event(RecordRecovery(outcome.evidence), outcome.RecoveryRequired?)])
  }

  function EvidenceAt(steps: seq<Step>, k: nat): Evidence
    requires k < |steps|
  {
    Evidence(steps[..k], steps[k], if steps[k] == TargetPublish then None else Some(false))
  }

  // ----- The run

  method TakeSteps(ports: Ports, steps: seq<Step>) returns (k: nat)
    requires steps != [] && ports.Valid()
    modifies ports
    ensures 1 <= k <= |steps| && ports.Valid()
    ensures ports.log == old(ports.log) + Done(steps[1..k])
      + if k < |steps| then [Event(Perform(steps[k]), false)] else []
  {
    k := 1;
    while k < |steps|
      invariant 1 <= k <= |steps| && ports.Valid() && ports.log == old(ports.log) + Done(steps[1..k])
    {
      var ok := ports.Try(Perform(steps[k]));
      if !ok {
        return;
      }
      assert Done(steps[1..k + 1]) == Done(steps[1..k]) + [Event(Perform(steps[k]), true)];
      k := k + 1;
    }
  }

  /** Under the lock, on the planned destination. */
  method Mutate(ports: Ports, steps: seq<Step>) returns (outcome: Outcome, ghost k: nat, ghost log: seq<Event>)
    requires steps != [] && ports.Valid()
    modifies ports
    ensures ports.Valid() && ports.log == old(ports.log) + log && MutationLog(steps, k, outcome, log)
  {
    var taken := TakeSteps(ports, steps);
    k := taken;
    log := Done(steps[1..k]);
    if taken == |steps| {
      assert steps[1..k] == steps[1..];
      return Published(steps), k, log;
    }
    var evidence := EvidenceAt(steps, taken);
    var recorded := ports.Try(RecordRecovery(evidence));
    log := log + [Event(Perform(steps[k]), false), Event(RecordRecovery(evidence), recorded)];
    outcome := if recorded then RecoveryRequired(evidence) else EvidenceLost(evidence);
  }

  /** The lock is left on every path; leaving it may raise over the result. */
  method Leave(ports: Ports, outcome: Outcome) returns (final: Outcome)
    requires outcome != LeaveRaised && ports.Valid()
    modifies ports
    ensures final == outcome || final == LeaveRaised
    ensures ports.Valid() && ports.log == old(ports.log) + [Event(LeaveLock, final == outcome)]
  {
    var ok := ports.Try(LeaveLock);
    final := if ok then outcome else LeaveRaised;
  }

  /**
    A run under the lock: the opening, the mutations, and the end of the lock, which may raise over the
    outcome `inner` of the steps.
   */
  predicate RanUnderLock(
    steps: seq<Step>, k: nat, inner: Outcome, mutations: seq<Event>, outcome: Outcome, log: seq<Event>) {
    && MutationLog(steps, k, inner, mutations)
    && (outcome == inner || outcome == LeaveRaised)
    && log == OPENING + mutations + [Event(LeaveLock, outcome == inner)]
  }

  /** The acceptance checks that need no port. */
  function Rejection(plan: Plan, accepted: string, acceptUpgrade: bool): Option<string> {
    if accepted != plan.digest then Some("RESTORE_PLAN_NOT_ACCEPTED")
    else if plan.bodyDigest != plan.digest then Some("RESTORE_PLAN_INVALID")
    else if plan.decision == Unsupported || plan.decision == Corrupt then Some("RESTORE_COMPATIBILITY_REJECTED")
    else if plan.decision == RequiresUpgrade && !acceptUpgrade then Some("RESTORE_UPGRADE_NOT_ACCEPTED")
    else None
  }

  /** What is accepted: the unchanged plan the operator saw, compatible, or with an upgrade he accepted too. */
  lemma AcceptedExactly(plan: Plan, accepted: string, acceptUpgrade: bool)
    ensures Rejection(plan, accepted, acceptUpgrade).None? <==>
      && accepted == plan.digest && plan.bodyDigest == plan.digest
      && (plan.decision == Compatible || (plan.decision == RequiresUpgrade && acceptUpgrade))
  {
  }

  /** The calls that change nothing at the target. */
  predicate Harmless(call: Call) {
    || call == PrepareSnapshot || call == Perform(ReleaseAcquire) || call == EnterLock || call == InspectDestination
    || call == LeaveLock
  }

  predicate Untouched(log: seq<Event>) {
    forall e :: e in log ==> Harmless(e.call)
  }

  /** No step but the acquisition of the release is even attempted, and no recovery is recorded. */
  lemma UntouchedMeans(log: seq<Event>, k: nat)
    requires Untouched(log) && k < |log|
    ensures !log[k].call.RecordRecovery? && (log[k].call.Perform? ==> log[k].call.step == ReleaseAcquire)
  {
    assert log[k] in log;
  }

  predicate AllReturned(log: seq<Event>) {
    forall k :: 0 <= k < |log| ==> log[k].ok
  }

  lemma Inside(opening: seq<Event>, mutations: seq<Event>, leave: Event)
    ensures var log := opening + mutations + [leave];
      log[|log| - 1] == leave && forall m :: 0 <= m < |mutations| ==> log[|opening| + m] == mutations[m]
  {
  }

  /** A run under the lock all of whose calls returned has published. */
  lemma AllReturnedPublished(
    steps: seq<Step>, k: nat, inner: Outcome, mutations: seq<Event>, outcome: Outcome, log: seq<Event>)
    requires RanUnderLock(steps, k, inner, mutations, outcome, log) && AllReturned(log)
    ensures outcome == Published(steps)
  {
    Inside(OPENING, mutations, Event(LeaveLock, outcome == inner));
    if k < |steps| { FailureShows(steps, k, inner, mutations); }
  }

  lemma FailureShows(steps: seq<Step>, k: nat, inner: Outcome, mutations: seq<Event>)
    requires MutationLog(steps, k, inner, mutations) && k < |steps|
    ensures k < |mutations| && !mutations[k - 1].ok && mutations[k].ok == inner.RecoveryRequired?
  {
  }

  /** A plan made afresh has the accepted digest, and the destination is still the planned one. */
  predicate Confirmed(plan: Plan, ports: Ports) {
    ports.freshDigest == plan.digest && ports.destination == plan.destination
  }

  /** The four calls of the opening return. */
  predicate Opens(script: nat -> bool, start: nat) {
    script(start) && script(start + 1) && script(start + 2) && script(start + 3)
  }

  /** The destination is inspected under the lock, which is left when it is not the planned one. */
  method Inspect(ports: Ports, plan: Plan) returns (refused: Option<Outcome>, ghost log: seq<Event>)
    requires ports.Valid()
    modifies ports
    ensures ports.Valid() && ports.log == old(ports.log) + log
    ensures refused.None? <==> ports.destination == plan.destination && ports.script(|old(ports.log)|)
    ensures refused.None? ==> log == [Event(InspectDestination, true)]
    ensures refused.Some? ==> (refused.value.Refused? || refused.value == LeaveRaised) && Untouched(log)
  {
    var inspected := ports.Try(InspectDestination);
    log := [Event(InspectDestination, inspected)];
    if inspected && ports.destination == plan.destination {
      return None, log;
    }
    var final := Leave(ports, Refused("RESTORE_DESTINATION_CHANGED"));
    log := log + [Event(LeaveLock, final.Refused?)];
    return Some(final), log;
  }

  /** From the acceptance of the plan to the inspection of its destination under the lock. */
  method Open(ports: Ports, plan: Plan) returns (refused: Option<Outcome>, ghost log: seq<Event>)
    requires ports.Valid()
    modifies ports
    ensures ports.Valid() && ports.log == old(ports.log) + log
    ensures refused.None? <==> Confirmed(plan, ports) && Opens(ports.script, |old(ports.log)|)
    ensures refused.None? ==> log == OPENING
    ensures refused.Some? ==> (refused.value.Refused? || refused.value == LeaveRaised) && Untouched(log)
  {
    var prepared := ports.Try(PrepareSnapshot);
    log := [Event(PrepareSnapshot, prepared)];
    if !prepared || ports.freshDigest != plan.digest {
      return Some(Refused("RESTORE_PLAN_STALE")), log;
    }
    var acquired := ports.Try(Perform(ReleaseAcquire));
    log := log + [Event(Perform(ReleaseAcquire), acquired)];
    if !acquired {
      return Some(Refused("RESTORE_RELEASE_ACQUISITION_FAILED")), log;
    }
    var locked := ports.Try(EnterLock);
    log := log + [Event(EnterLock, locked)];
    if !locked {
      return Some(Refused("RESTORE_LOCK_ACQUISITION_FAILED")), log;
    }
    ghost var rest;
    refused, rest := Inspect(ports, plan);
    log := log + rest;
  }

  /** The steps and the end of the lock, on top of the opening. */
  method Proceed(ports: Ports, steps: seq<Step>)
    returns (outcome: Outcome, inner: Outcome, ghost k: nat, ghost mutations: seq<Event>, ghost log: seq<Event>)
    requires steps != [] && ports.Valid()
    modifies ports
    ensures ports.Valid() && ports.log == old(ports.log) + log
    ensures RanUnderLock(steps, k, inner, mutations, outcome, OPENING + log)
  {
    inner, k, mutations := Mutate(ports, steps);
    outcome := Leave(ports, inner);
    log := mutations + [Event(LeaveLock, outcome == inner)];
    assert OPENING + log == OPENING + mutations + [Event(LeaveLock, outcome == inner)];
  }

  /** The plan was accepted and is confirmed under the lock. */
  ghost predicate Enters(ports: Ports, plan: Plan, accepted: string, acceptUpgrade: bool, start: nat) {
    && Rejection(plan, accepted, acceptUpgrade).None?
    && Confirmed(plan, ports) && Opens(ports.script, start)
  }

  /** What a run that takes its steps rests on. */
  lemma EntersExactly(ports: Ports, plan: Plan, accepted: string, acceptUpgrade: bool, start: nat)
    ensures Enters(ports, plan, accepted, acceptUpgrade, start) <==>
      && accepted == plan.digest && plan.bodyDigest == plan.digest
      && (plan.decision == Compatible || (plan.decision == RequiresUpgrade && acceptUpgrade))
      && ports.freshDigest == accepted && ports.destination == plan.destination
      && forall n :: start <= n < start + 4 ==> ports.script(n)
  {
    AcceptedExactly(plan, accepted, acceptUpgrade);
  }

  /**
    The steps are taken exactly when the plan was accepted, a fresh plan has its digest, and the
    destination under the lock is the planned one; every other run mutates nothing.
   */
  method ExecuteRestore(ports: Ports, plan: Plan, accepted: string, acceptUpgrade: bool)
    returns (outcome: Outcome, inner: Outcome, ghost k: nat, ghost mutations: seq<Event>, ghost log: seq<Event>)
    requires ports.Valid()
    modifies ports
    ensures ports.Valid() && ports.log == old(ports.log) + log
    ensures Enters(ports, plan, accepted, acceptUpgrade, |old(ports.log)|) ==>
      && RanUnderLock(Steps(plan), k, inner, mutations, outcome, log)
      && (AllReturned(log) ==> outcome == Published(Steps(plan)))
    ensures !Enters(ports, plan, accepted, acceptUpgrade, |old(ports.log)|) ==>
      Untouched(log) && (outcome.Refused? || outcome == LeaveRaised)
    ensures Rejection(plan, accepted, acceptUpgrade).Some? ==> outcome.Refused? && log == []
  {
    inner, k, mutations := LeaveRaised, 0, [];
    var rejection := Rejection(plan, accepted, acceptUpgrade);
    if rejection.Some? {
      return Refused(rejection.value), inner, k, mutations, [];
    }
    var refused;
    refused, log := Open(ports, plan);
    if refused.Some? {
      outcome := refused.value;
      return;
    }
    ghost var rest;
    outcome, inner, k, mutations, rest := Proceed(ports, Steps(plan));
    log := log + rest;
    if AllReturned(log) { AllReturnedPublished(Steps(plan), k, inner, mutations, outcome, log); }
  }

  // ----- What every run keeps

  /** The upgrade is a step exactly when the plan has actions; publication is the last step and no other. */
  lemma StepsOfPlan(plan: Plan, k: nat)
    requires k < |Steps(plan)|
    ensures UpgradeApply in Steps(plan) <==> plan.actions != []
    ensures Steps(plan)[k] == TargetPublish <==> k == |Steps(plan)| - 1
    ensures Steps(plan)[k] == ReleaseAcquire <==> k == 0
  {
    if plan.actions != [] { assert Steps(plan)[8] == UpgradeApply; }
    if k >= 8 && plan.actions == [] { assert Steps(plan)[k] == EXECUTION_STEPS[k + 1]; }
    if k >= 9 && plan.actions != [] { assert Steps(plan)[k] == EXECUTION_STEPS[k]; }
    if k < 8 { assert Steps(plan)[k] == EXECUTION_STEPS[k]; }
  }

  lemma PrefixOneMore(steps: seq<Step>, k: nat)
    requires 1 <= k < |steps|
    ensures steps[..k] + [steps[k]] <= steps && steps[0] in steps[..k]
  {
    assert steps[..k] + [steps[k]] == steps[..k + 1] && steps[..k][0] == steps[0];
  }

  /**
    The completed steps and the failed one are a prefix of the steps this plan takes, and the target's state is
    unknown exactly when publication, the last step, was the one that failed.
   */
  lemma EvidenceIsPrefix(plan: Plan, k: nat, outcome: Outcome, log: seq<Event>)
    requires MutationLog(Steps(plan), k, outcome, log) && !outcome.Published?
    ensures outcome.evidence.completed + [outcome.evidence.failedStep] <= Steps(plan)
    ensures ReleaseAcquire in outcome.evidence.completed
    ensures outcome.evidence.targetActive == None <==> outcome.evidence.failedStep == TargetPublish
    ensures outcome.evidence.targetActive == None <==> k == |Steps(plan)| - 1
  {
    StepsOfPlan(plan, k);
    StepsOfPlan(plan, 0);
    PrefixOneMore(Steps(plan), k);
  }

  /** What a run reports as completed, with the failed step if there is one. */
  function Reported(outcome: Outcome): seq<Step>
    requires outcome.Published? || outcome.RecoveryRequired? || outcome.EvidenceLost?
  {
    if outcome.Published? then outcome.completed else outcome.evidence.completed + [outcome.evidence.failedStep]
  }

  /**
    Against the announced steps, the report is a prefix exactly when the run failed before the ninth
    place: from there on the upgrade is reported under another name or not at all.
   */
  lemma AnnouncedExactly(plan: Plan, k: nat, outcome: Outcome, log: seq<Event>)
    requires MutationLog(Steps(plan), k, outcome, log)
    ensures Reported(outcome) <= EXECUTION_STEPS <==> k < 8
  {
    var steps := Steps(plan);
    var n := if k < |steps| then k + 1 else k;
    assert Reported(outcome) == steps[..n];
    PrefixAgrees(steps, EXECUTION_STEPS, n);
    if k < 8 {
      forall m | 0 <= m < n ensures steps[m] == EXECUTION_STEPS[m] { StepAnnounced(plan, m); }
    } else {
      StepAnnounced(plan, 8);
    }
  }

  lemma StepAnnounced(plan: Plan, m: nat)
    requires m <= 8
    ensures Steps(plan)[m] == EXECUTION_STEPS[m] <==> m < 8
  {
    if m == 8 && plan.actions != [] { assert Steps(plan)[8] == UpgradeApply; }
    if m == 8 && plan.actions == [] { assert Steps(plan)[8] == Bootstrap; }
  }

  lemma PrefixAgrees(a: seq<Step>, b: seq<Step>, n: nat)
    requires n <= |a| && n <= |b|
    ensures a[..n] <= b <==> forall m :: 0 <= m < n ==> a[m] == b[m]
  {
    if a[..n] <= b {
      forall m | 0 <= m < n ensures a[m] == b[m] { assert a[..n][m] == b[..n][m]; }
    }
  }

  /** When one call of a run under the lock fails, that is the step where it stops. */
  lemma FailsAt(
    steps: seq<Step>, k: nat, inner: Outcome, mutations: seq<Event>, outcome: Outcome, log: seq<Event>, n: nat)
    requires RanUnderLock(steps, k, inner, mutations, outcome, log) && 1 <= n < |steps|
    requires forall i :: 0 <= i < |log| ==> (log[i].ok <==> i != n + 3)
    ensures k == n && outcome.RecoveryRequired? && outcome == inner
  {
    Inside(OPENING, mutations, Event(LeaveLock, outcome == inner));
    if k < |steps| {
      FailureShows(steps, k, inner, mutations);
    } else {
      CompletedShows(steps, k, inner, mutations, n);
    }
  }

  lemma CompletedShows(steps: seq<Step>, k: nat, inner: Outcome, mutations: seq<Event>, n: nat)
    requires MutationLog(steps, k, inner, mutations) && k == |steps| && 1 <= n < k
    ensures n - 1 < |mutations| && mutations[n - 1].ok
  {
  }

  /** One such run: the call at the ninth place fails, and the report is no prefix of what was announced. */
  method NinthStepFails(plan: Plan) returns (outcome: Outcome)
    requires Rejection(plan, plan.digest, true).None?
    ensures outcome.RecoveryRequired? && |outcome.evidence.completed| == 8
    ensures !(Reported(outcome) <= EXECUTION_STEPS)
  {
    var ports := new Ports((n: nat) => n != 11, plan.digest, plan.destination);
    var inner;
    ghost var k, mutations, log;
    outcome, inner, k, mutations, log := ExecuteRestore(ports, plan, plan.digest, true);
    assert ports.log == log;
    FailsAt(Steps(plan), k, inner, mutations, outcome, log, 8);
    AnnouncedExactly(plan, k, outcome, mutations);
  }

  /** Nothing mutates before the lock is entered and the destination inspected, or after the lock is left. */
  lemma MutationsUnderLock(
    steps: seq<Step>, k: nat, inner: Outcome, mutations: seq<Event>, outcome: Outcome, log: seq<Event>, i: nat)
    requires RanUnderLock(steps, k, inner, mutations, outcome, log) && i < |log|
    requires log[i].call.RecordRecovery? || (log[i].call.Perform? && log[i].call.step != ReleaseAcquire)
    ensures 4 <= i < |log| - 1
    ensures log[..4] == OPENING && log[|log| - 1].call == LeaveLock
    ensures forall m :: 0 <= m < |log| - 1 ==> log[m].call != LeaveLock
  {
    NeverLeaves(steps, k, inner, mutations);
    Framed(OPENING, mutations, Event(LeaveLock, outcome == inner));
  }

  lemma NeverLeaves(steps: seq<Step>, k: nat, inner: Outcome, mutations: seq<Event>)
    requires MutationLog(steps, k, inner, mutations)
    ensures forall m :: 0 <= m < |mutations| ==> mutations[m].call != LeaveLock
  {
  }

  lemma Framed(opening: seq<Event>, mutations: seq<Event>, leave: Event)
    requires opening == OPENING && leave.call == LeaveLock
    requires forall m :: 0 <= m < |mutations| ==> mutations[m].call != LeaveLock
    ensures var log := opening + mutations + [leave];
      && log[..4] == OPENING && log[|log| - 1] == leave
      && (forall m :: 0 <= m < |log| - 1 ==> log[m].call != LeaveLock)
      && (forall m :: 0 <= m < |log| && !Harmless(log[m].call) ==> 4 <= m < |log| - 1)
  {
    var log := opening + mutations + [leave];
    forall m | 0 <= m < |log| - 1 ensures log[m].call != LeaveLock && (m < 4 ==> Harmless(log[m].call)) {
      if m < 4 { assert log[m] == OPENING[m]; } else { assert log[m] == mutations[m - 4]; }
    }
  }

  // ----- The order of the steps

  /** The order in which a restore touches the target. */
  function Rank(step: Step): nat {
    match step
    case ReleaseAcquire => 0
    case TargetBegin => 1
    case ReleaseStage => 2
    case ProtectionStage => 3
    case DatabasePrepare => 4
    case DatabaseRestore => 5
    case FilesystemRestore => 6
    case UpdaterStage => 7
    case UpgradeIfRequired => 8
    case UpgradeApply => 8
    case Bootstrap => 9
    case RuntimeRebuild => 10
    case LocatorBuild => 11
    case AuthenticationRotate => 12
    case ValidateTarget => 13
    case TargetPublish => 14
  }

  /** Every step but the announced placeholder is taken, the upgrade when there is one. */
  predicate Taken(plan: Plan, step: Step) {
    step != UpgradeIfRequired && (step == UpgradeApply ==> plan.actions != [])
  }

  /** The place of a step among those this plan takes. */
  function Place(plan: Plan, step: Step): nat {
    if Rank(step) > 8 && plan.actions == [] then Rank(step) - 1 else Rank(step)
  }

  lemma AnnouncedRank(k: nat)
    requires k < |EXECUTION_STEPS|
    ensures |EXECUTION_STEPS| == 15 && Rank(EXECUTION_STEPS[k]) == k
    ensures EXECUTION_STEPS[k] == UpgradeIfRequired <==> k == 8
    ensures EXECUTION_STEPS[k] != UpgradeApply
  {
  }

  lemma AnnouncedAt(step: Step)
    requires step != UpgradeApply
    ensures Rank(step) < |EXECUTION_STEPS| && EXECUTION_STEPS[Rank(step)] == step
  {
  }

  lemma StepSource(plan: Plan, k: nat)
    requires k < |Steps(plan)|
    ensures k < 8 ==> Steps(plan)[k] == EXECUTION_STEPS[k]
    ensures k == 8 && plan.actions != [] ==> Steps(plan)[k] == UpgradeApply
    ensures k > 8 && plan.actions != [] ==> Steps(plan)[k] == EXECUTION_STEPS[k]
    ensures k >= 8 && plan.actions == [] ==> Steps(plan)[k] == EXECUTION_STEPS[k + 1]
  {
  }

  lemma StepPlaces(plan: Plan, k: nat)
    requires k < |Steps(plan)|
    ensures Taken(plan, Steps(plan)[k]) && Place(plan, Steps(plan)[k]) == k
  {
    StepSource(plan, k);
    AnnouncedRank(if k >= 8 && plan.actions == [] then k + 1 else k);
  }

  lemma TakenAt(plan: Plan, step: Step)
    requires Taken(plan, step)
    ensures Place(plan, step) < |Steps(plan)| && Steps(plan)[Place(plan, step)] == step
  {
    if step != UpgradeApply {
      AnnouncedAt(step);
      AnnouncedRank(Rank(step));
    }
    StepSource(plan, Place(plan, step));
  }

  lemma MutationAt(steps: seq<Step>, k: nat, inner: Outcome, mutations: seq<Event>, m: nat)
    requires MutationLog(steps, k, inner, mutations) && m < |mutations| && mutations[m].call.Perform?
    ensures m + 1 < |steps| && mutations[m].call == Perform(steps[m + 1])
    ensures forall i :: 0 <= i < m ==> mutations[i] == Event(Perform(steps[i + 1]), true)
  {
  }

  lemma OpeningAt(mutations: seq<Event>, leave: Event, i: nat)
    requires i < 4 + |mutations| + 1
    ensures (OPENING + mutations + [leave])[i]
      == if i < 4 then OPENING[i] else if i < 4 + |mutations| then mutations[i - 4] else leave
  {
  }

  /**
    In every run under the lock a step is attempted only after every earlier step of the plan has returned:
    the database is prepared before it is restored, and everything is validated before it is published.
   */
  lemma StepsInOrder(
    plan: Plan, k: nat, inner: Outcome, mutations: seq<Event>, outcome: Outcome, log: seq<Event>, i: nat, step: Step)
    requires RanUnderLock(Steps(plan), k, inner, mutations, outcome, log)
    requires i < |log| && log[i].call.Perform?
    requires Taken(plan, step) && Rank(step) < Rank(log[i].call.step)
    ensures Event(Perform(step), true) in log[..i]
    ensures Taken(plan, log[i].call.step)
  {
    var leave := Event(LeaveLock, outcome == inner);
    OpeningAt(mutations, leave, i);
    if i >= 4 {
      MutationAt(Steps(plan), k, inner, mutations, i - 4);
      StepPlaces(plan, i - 3);
      TakenAt(plan, step);
      EarlierStep(plan, mutations, leave, i, step);
    }
  }

  lemma EarlierStep(plan: Plan, mutations: seq<Event>, leave: Event, i: nat, step: Step)
    requires 4 <= i < 4 + |mutations| && i - 3 < |Steps(plan)|
    requires forall m :: 0 <= m < i - 4 ==> mutations[m] == Event(Perform(Steps(plan)[m + 1]), true)
    requires Place(plan, step) < i - 3 && Steps(plan)[Place(plan, step)] == step
    ensures Event(Perform(step), true) in (OPENING + mutations + [leave])[..i]
  {
    var p := Place(plan, step);
    var log := OPENING + mutations + [leave];
    if p == 0 {
      StepsOfPlan(plan, 0);
      OpeningAt(mutations, leave, 1);
      assert log[..i][1] == Event(Perform(ReleaseAcquire), true);
    } else {
      OpeningAt(mutations, leave, p + 3);
      assert log[..i][p + 3] == Event(Perform(step), true);
    }
  }

  lemma LastPlaces(plan: Plan, k: nat)
    requires k < |Steps(plan)| && Steps(plan)[k] == TargetPublish
    ensures k >= 2 && Steps(plan)[k - 1] == ValidateTarget
  {
    StepPlaces(plan, k);
    TakenAt(plan, ValidateTarget);
  }

  lemma StepBefore(steps: seq<Step>, k: nat, inner: Outcome, mutations: seq<Event>, m: nat)
    requires MutationLog(steps, k, inner, mutations)
    requires 1 <= m < |mutations| && mutations[m].call.Perform?
    ensures m + 1 < |steps| && mutations[m - 1] == Event(Perform(steps[m]), true)
  {
    MutationAt(steps, k, inner, mutations, m);
  }

  lemma PublishIsMutation(mutations: seq<Event>, leave: Event, i: nat)
    requires i < 4 + |mutations| + 1 && leave.call == LeaveLock
    requires (OPENING + mutations + [leave])[i].call == Perform(TargetPublish)
    ensures 4 <= i < 4 + |mutations| && mutations[i - 4].call == Perform(TargetPublish)
  {
    OpeningAt(mutations, leave, i);
  }

  /** Directly before the publication is attempted the validation has returned. */
  lemma ValidatedJustBefore(
    plan: Plan, k: nat, inner: Outcome, mutations: seq<Event>, outcome: Outcome, log: seq<Event>, i: nat)
    requires RanUnderLock(Steps(plan), k, inner, mutations, outcome, log)
    requires i < |log| && log[i].call == Perform(TargetPublish)
    ensures i >= 1 && log[i - 1] == Event(Perform(ValidateTarget), true)
  {
    var leave := Event(LeaveLock, outcome == inner);
    PublishIsMutation(mutations, leave, i);
    MutationAt(Steps(plan), k, inner, mutations, i - 4);
    LastPlaces(plan, i - 3);
    StepBefore(Steps(plan), k, inner, mutations, i - 4);
    OpeningAt(mutations, leave, i - 1);
  }
}
