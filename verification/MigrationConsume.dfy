/**
  Consumption of a verified migration bundle into an inactive target, over a target that may fail at
  any call, with the trace of every call that was attempted.
 */
module MigrationConsume {

  datatype Stage =
    | Begin | Database | Plugin | Media | Configuration | Private | Updater | Upgrade | Validate | Publish | Rollback

  datatype ErrorCode = RollbackFailed | ValidationRefused | StageFailed(stage: Stage)

  datatype Evidence = Evidence(completed: seq<Stage>, failedStep: Stage, code: ErrorCode)

  /** What is done before the target is touched: the bundle is verified, opened and read. */
  datatype Preliminary =
    | CopySnapshot | VerifyBundle | RequireCompatible | InspectTarget | CheckInspection | ReadEnvelope | OpenEnvelope
    | ReadPlugins | ReadMedia | ReadConfiguration | ReadPrivateState | ReadUpdaterState | ReadDatabaseMetadata

  datatype Call =
    | Prepare(step: Preliminary) | BeginTarget | StageDatabase | StagePlugin(member: string) | StageLocalMedia(member: string)
    | StageConfiguration | StagePrivateState | StageUpdaterState | ApplyUpgrade(actions: seq<string>)
    | ValidateInactive | PublishInactive | RollbackTarget | RecordRecovery(evidence: Evidence)

  /** A call returns, raises, or, for the validation alone, returns false. */
  datatype Answer = Done | Failed | Refused

  datatype Entry = Entry(call: Call, answer: Answer)

  /** What the bundle asks to be staged. */
  datatype Bundle = Bundle(packages: seq<string>, localMedia: seq<string>, upgrades: seq<string>)

  datatype Outcome =
    | NotStarted | Consumed | BeginFailed | RecoveryRequired(evidence: Evidence) | EvidenceLost(evidence: Evidence)

  class Target {
    ghost var trace: seq<Entry>

    constructor ()
      ensures trace == []
    {
      trace := [];
    }

    method Invoke(call: Call) returns (answer: Answer)
      modifies this
      ensures trace == old(trace) + [Entry(call, answer)]
      ensures answer == Refused ==> call == ValidateInactive
    {
      answer := *;
      if answer == Refused && call != ValidateInactive {
        answer := Failed;
      }
      trace := trace + [Entry(call, answer)];
    }
  }

  // ----- The plan of a consumption

  datatype Segment = Segment(stage: Stage, calls: seq<Call>)

  function PluginCalls(members: seq<string>): (r: seq<Call>)
    ensures |r| == |members| && forall k :: 0 <= k < |r| ==> r[k] == StagePlugin(members[k])
  {
    seq(|members|, k requires 0 <= k < |members| => StagePlugin(members[k]))
  }

  function MediaCalls(members: seq<string>): (r: seq<Call>)
    ensures |r| == |members| && forall k :: 0 <= k < |r| ==> r[k] == StageLocalMedia(members[k])
  {
    seq(|members|, k requires 0 <= k < |members| => StageLocalMedia(members[k]))
  }

  /** The stages in order, each with its calls; a stage without calls leaves no mark. */
  function Plan(b: Bundle): (r: seq<Segment>)
    ensures |r| == 10
  {
    [Segment(Begin, [BeginTarget]), Segment(Database, [StageDatabase]),
     Segment(Plugin, PluginCalls(b.packages)), Segment(Media, MediaCalls(b.localMedia)),
     Segment(Configuration, [StageConfiguration]), Segment(Private, [StagePrivateState]),
     Segment(Updater, [StageUpdaterState]),
     Segment(Upgrade, if b.upgrades == [] then [] else [ApplyUpgrade(b.upgrades)]),
     Segment(Validate, [ValidateInactive]), Segment(Publish, [PublishInactive])]
  }

  function AllDone(calls: seq<Call>): (r: seq<Entry>)
    ensures |r| == |calls| && forall k :: 0 <= k < |r| ==> r[k] == Entry(calls[k], Done)
  {
    seq(|calls|, k requires 0 <= k < |calls| => Entry(calls[k], Done))
  }

  function Flat(segments: seq<Segment>): seq<Call> {
    if segments == [] then [] else Flat(segments[..|segments| - 1]) + segments[|segments| - 1].calls
  }

  /** The stages that had something to do. */
  function Names(segments: seq<Segment>): seq<Stage> {
    if segments == [] then []
    else
      var last := segments[|segments| - 1];
      Names(segments[..|segments| - 1]) + if last.calls == [] then [] else [last.stage]
  }

  /** Stages before `j` are complete, and call `i` of stage `j` did not go through. */
  predicate StoppedAt(plan: seq<Segment>, j: nat, i: nat, answer: Answer, trace: seq<Entry>) {
    && j < |plan| && i < |plan[j].calls| && answer != Done
    && (answer == Refused ==> plan[j].calls[i] == ValidateInactive)
    && trace == AllDone(Flat(plan[..j]) + plan[j].calls[..i]) + [Entry(plan[j].calls[i], answer)]
  }

  function CodeFor(stage: Stage, answer: Answer): ErrorCode {
    if answer == Refused then ValidationRefused else StageFailed(stage)
  }

  /** Every way a consumption can run. */
  ghost predicate Ran(b: Bundle, trace: seq<Entry>, outcome: Outcome) {
    || (outcome == Consumed && trace == AllDone(Flat(Plan(b))))
    || RolledBack(trace, outcome)
    || exists j: nat, i: nat, answer: Answer :: RecoveredAt(b, j, i, answer, trace, outcome)
  }

  /** The target refused to begin: one rollback, and a recovery record only if that failed. */
  predicate RolledBack(trace: seq<Entry>, outcome: Outcome) {
    var evidence := Evidence([], Rollback, RollbackFailed);
    || (outcome == BeginFailed && trace == [Entry(BeginTarget, Failed), Entry(RollbackTarget, Done)])
    || (Recorded(evidence, outcome) && |trace| == 3
        && trace == [Entry(BeginTarget, Failed), Entry(RollbackTarget, Failed), RecordEntry(evidence, outcome)])
  }

  predicate Recorded(evidence: Evidence, outcome: Outcome) {
    outcome == RecoveryRequired(evidence) || outcome == EvidenceLost(evidence)
  }

  function RecordEntry(evidence: Evidence, outcome: Outcome): Entry {
    Entry(RecordRecovery(evidence), if outcome.RecoveryRequired? then Done else Failed)
  }

  /** A later call failed: no rollback, one recovery record that names the completed stages. */
  predicate RecoveredAt(b: Bundle, j: nat, i: nat, answer: Answer, trace: seq<Entry>, outcome: Outcome) {
    && 1 <= j < |Plan(b)| && trace != []
    && StoppedAt(Plan(b), j, i, answer, trace[..|trace| - 1])
    && var evidence := Evidence(Names(Plan(b)[..j]), Plan(b)[j].stage, CodeFor(Plan(b)[j].stage, answer));
       Recorded(evidence, outcome) && trace[|trace| - 1] == RecordEntry(evidence, outcome)
  }

  // ----- The run

  lemma FlatOneMore(before: seq<Segment>, s: Segment)
    ensures Flat(before + [s]) == Flat(before) + s.calls
    ensures Names(before + [s]) == Names(before) + if s.calls == [] then [] else [s.stage]
  {
    assert (before + [s])[..|before|] == before;
  }

  lemma DoneOneMore(calls: seq<Call>, call: Call)
    ensures AllDone(calls + [call]) == AllDone(calls) + [Entry(call, Done)]
  {
  }

  /** Makes the calls of one stage in order, up to the first that does not go through. */
  method Perform(target: Target, s: Segment, completed: seq<Stage>, ghost start: seq<Entry>, ghost before: seq<Segment>)
    returns (answer: Answer, now: seq<Stage>, i: nat)
    requires target.trace == start + AllDone(Flat(before)) && completed == Names(before)
    modifies target
    ensures answer == Done ==> target.trace == start + AllDone(Flat(before + [s])) && now == Names(before + [s])
    ensures answer != Done ==>
      && now == completed && i < |s.calls|
      && target.trace == start + (AllDone(Flat(before) + s.calls[..i]) + [Entry(s.calls[i], answer)])
    ensures answer == Refused ==> i < |s.calls| && s.calls[i] == ValidateInactive
  {
    i := 0;
    assert Flat(before) + s.calls[..0] == Flat(before);
    while i < |s.calls|
      invariant 0 <= i <= |s.calls|
      invariant target.trace == start + AllDone(Flat(before) + s.calls[..i])
    {
      answer := target.Invoke(s.calls[i]);
      Assoc(start, AllDone(Flat(before) + s.calls[..i]), [Entry(s.calls[i], answer)]);
      if answer != Done {
        return answer, completed, i;
      }
      OneMoreCall(Flat(before), s.calls, i);
      i := i + 1;
    }
    assert s.calls[..|s.calls|] == s.calls;
    FlatOneMore(before, s);
    return Done, if s.calls == [] then completed else completed + [s.stage], i;
  }

  lemma Assoc(a: seq<Entry>, b: seq<Entry>, c: seq<Entry>)
    ensures a + b + c == a + (b + c)
  {
  }

  lemma OneMoreCall(before: seq<Call>, calls: seq<Call>, i: nat)
    requires i < |calls|
    ensures AllDone(before + calls[..i + 1]) == AllDone(before + calls[..i]) + [Entry(calls[i], Done)]
  {
    assert before + calls[..i + 1] == before + calls[..i] + [calls[i]];
    DoneOneMore(before + calls[..i], calls[i]);
  }

  lemma PlanOneMore(plan: seq<Segment>, k: nat)
    requires k < |plan|
    ensures plan[..k + 1] == plan[..k] + [plan[k]]
  {
  }

  /** Stages `from` up to the last of the plan, in order. */
  method PerformFrom(
    target: Target, plan: seq<Segment>, completed: seq<Stage>, ghost start: seq<Entry>, from: nat)
    returns (answer: Answer, now: seq<Stage>, failedStep: Stage, ghost j: nat, ghost i: nat, ghost stopped: seq<Entry>)
    requires from <= |plan|
    requires target.trace == start + AllDone(Flat(plan[..from])) && completed == Names(plan[..from])
    modifies target
    ensures target.trace == start + stopped
    ensures answer == Done ==> stopped == AllDone(Flat(plan))
    ensures answer != Done ==>
      && from <= j && StoppedAt(plan, j, i, answer, stopped)
      && now == Names(plan[..j]) && failedStep == plan[j].stage
  {
    now, j, i := completed, from, 0;
    failedStep := Begin;
    var k := from;
    while k < |plan|
      invariant from <= k <= |plan|
      invariant target.trace == start + AllDone(Flat(plan[..k])) && now == Names(plan[..k])
    {
      failedStep := plan[k].stage;
      var at: nat;
      answer, now, at := Perform(target, plan[k], now, start, plan[..k]);
      if answer != Done {
        j, i := k, at;
        stopped := AllDone(Flat(plan[..j]) + plan[j].calls[..i]) + [Entry(plan[j].calls[i], answer)];
        return;
      }
      PlanOneMore(plan, k);
      k := k + 1;
    }
    assert plan[..|plan|] == plan;
    answer, stopped := Done, AllDone(Flat(plan));
  }

  /** Leaves evidence of an interrupted consumption with the target. */
  method Record(target: Target, evidence: Evidence) returns (outcome: Outcome)
    modifies target
    ensures Recorded(evidence, outcome) && target.trace == old(target.trace) + [RecordEntry(evidence, outcome)]
  {
    var answer := target.Invoke(RecordRecovery(evidence));
    outcome := if answer == Done then RecoveryRequired(evidence) else EvidenceLost(evidence);
  }

  /** The target refused to begin. */
  method BackOut(target: Target) returns (outcome: Outcome, ghost trace: seq<Entry>)
    modifies target
    ensures target.trace == old(target.trace) + trace
    ensures RolledBack([Entry(BeginTarget, Failed)] + trace, outcome)
  {
    var rolledBack := target.Invoke(RollbackTarget);
    if rolledBack == Done {
      return BeginFailed, [Entry(RollbackTarget, Done)];
    }
    outcome := Record(target, Evidence([], Rollback, RollbackFailed));
    trace := [Entry(RollbackTarget, Failed), RecordEntry(Evidence([], Rollback, RollbackFailed), outcome)];
  }

  lemma BeginSegment(b: Bundle)
    ensures Flat(Plan(b)[..1]) == [BeginTarget] && Names(Plan(b)[..1]) == [Begin]
  {
    var first := Segment(Begin, [BeginTarget]);
    assert Plan(b)[..1] == [] + [first];
    FlatOneMore([], first);
  }

  lemma Recovered(b: Bundle, j: nat, i: nat, answer: Answer, stopped: seq<Entry>, outcome: Outcome)
    requires 1 <= j && StoppedAt(Plan(b), j, i, answer, stopped)
    requires Recorded(Evidence(Names(Plan(b)[..j]), Plan(b)[j].stage, CodeFor(Plan(b)[j].stage, answer)), outcome)
    ensures Ran(b, stopped + [RecordEntry(outcome.evidence, outcome)], outcome)
  {
    var trace := stopped + [RecordEntry(outcome.evidence, outcome)];
    assert trace[..|trace| - 1] == stopped;
    assert RecoveredAt(b, j, i, answer, trace, outcome);
  }

  /** From beginning at the target to publication. */
  method StageBundle(target: Target, b: Bundle) returns (outcome: Outcome, ghost trace: seq<Entry>)
    modifies target
    ensures target.trace == old(target.trace) + trace && Ran(b, trace, outcome)
  {
    ghost var start := target.trace;
    var begun := target.Invoke(BeginTarget);
    if begun != Done {
      outcome, trace := BackOut(target);
      Assoc(start, [Entry(BeginTarget, Failed)], trace);
      trace := [Entry(BeginTarget, Failed)] + trace;
      return;
    }
    BeginSegment(b);
    var plan := Plan(b);
    var answer, completed, failedStep, j, i, stopped := PerformFrom(target, plan, [Begin], start, 1);
    if answer == Done {
      return Consumed, stopped;
    }
    outcome := Record(target, Evidence(completed, failedStep, CodeFor(failedStep, answer)));
    Assoc(start, stopped, [RecordEntry(outcome.evidence, outcome)]);
    trace := stopped + [RecordEntry(outcome.evidence, outcome)];
    Recovered(b, j, i, answer, stopped, outcome);
  }

  // ----- The preliminaries

  const PRELIMINARIES: seq<Call> := [
    Prepare(CopySnapshot), Prepare(VerifyBundle), Prepare(RequireCompatible), Prepare(InspectTarget),
    Prepare(CheckInspection), Prepare(ReadEnvelope), Prepare(OpenEnvelope), Prepare(ReadPlugins), Prepare(ReadMedia),
    Prepare(ReadConfiguration), Prepare(ReadPrivateState), Prepare(ReadUpdaterState), Prepare(ReadDatabaseMetadata)]

  /** The preliminaries ended at the `n`-th, or all returned and the run went on as `rest`. */
  ghost predicate Started(b: Bundle, n: nat, rest: seq<Entry>, outcome: Outcome, trace: seq<Entry>) {
    && n <= |PRELIMINARIES|
    && if n < |PRELIMINARIES| then
         outcome == NotStarted && trace == AllDone(PRELIMINARIES[..n]) + [Entry(PRELIMINARIES[n], Failed)]
       else
         outcome != NotStarted && trace == AllDone(PRELIMINARIES) + rest && Ran(b, rest, outcome)
  }

  method PrepareAll(target: Target, calls: seq<Call>) returns (n: nat)
    requires ValidateInactive !in calls
    modifies target
    ensures n <= |calls|
    ensures target.trace == old(target.trace) + AllDone(calls[..n])
      + if n < |calls| then [Entry(calls[n], Failed)] else []
  {
    n := 0;
    while n < |calls|
      invariant n <= |calls| && target.trace == old(target.trace) + AllDone(calls[..n])
    {
      var answer := target.Invoke(calls[n]);
      if answer != Done {
        return;
      }
      OneMoreCall([], calls, n);
      assert [] + calls[..n] == calls[..n] && [] + calls[..n + 1] == calls[..n + 1];
      n := n + 1;
    }
  }

  /**
    A whole consumption.  The bundle it works from is the one read in the preliminaries; nothing is asked
    of the target but its inspection until all of them have returned.
   */
  method Consume(target: Target, b: Bundle)
    returns (outcome: Outcome, ghost n: nat, ghost rest: seq<Entry>, ghost trace: seq<Entry>)
    modifies target
    ensures target.trace == old(target.trace) + trace && Started(b, n, rest, outcome, trace)
  {
    ghost var start := target.trace;
    var prepared := PrepareAll(target, PRELIMINARIES);
    n, rest := prepared, [];
    if prepared < |PRELIMINARIES| {
      trace := AllDone(PRELIMINARIES[..n]) + [Entry(PRELIMINARIES[n], Failed)];
      Assoc(start, AllDone(PRELIMINARIES[..n]), [Entry(PRELIMINARIES[n], Failed)]);
      return NotStarted, n, rest, trace;
    }
    assert PRELIMINARIES[..n] == PRELIMINARIES;
    outcome, rest := StageBundle(target, b);
    trace := AllDone(PRELIMINARIES) + rest;
    Assoc(start, AllDone(PRELIMINARIES), rest);
  }

  lemma EntryAt(calls: seq<Call>, after: seq<Entry>, k: nat)
    requires k < |calls| + |after|
    ensures (AllDone(calls) + after)[k] == if k < |calls| then Entry(calls[k], Done) else after[k - |calls|]
  {
  }

  predicate AllPrepare(calls: seq<Call>) {
    forall m :: 0 <= m < |calls| ==> calls[m].Prepare?
  }

  lemma PreliminariesPrepare()
    ensures AllPrepare(PRELIMINARIES)
  {
  }

  /** An entry that is no preliminary comes after all of them. */
  lemma AfterCalls(calls: seq<Call>, rest: seq<Entry>, k: nat, call: Call)
    requires AllPrepare(calls) && call in calls
    requires k < |calls| + |rest| && !(AllDone(calls) + rest)[k].call.Prepare?
    ensures Returned((AllDone(calls) + rest)[..k], call)
  {
    EntryAt(calls, rest, k);
    var m :| 0 <= m < |calls| && calls[m] == call;
    EntryAt(calls, rest, m);
    assert (AllDone(calls) + rest)[..k][m] == Entry(call, Done);
  }

  lemma CutCalls(calls: seq<Call>, n: nat, k: nat)
    requires AllPrepare(calls) && n < |calls| && k <= n
    ensures (AllDone(calls[..n]) + [Entry(calls[n], Failed)])[k].call.Prepare?
  {
    EntryAt(calls[..n], [Entry(calls[n], Failed)], k);
  }

  /** The place of each preliminary. */
  function Place(step: Preliminary): nat {
    match step
    case CopySnapshot => 0
    case VerifyBundle => 1
    case RequireCompatible => 2
    case InspectTarget => 3
    case CheckInspection => 4
    case ReadEnvelope => 5
    case OpenEnvelope => 6
    case ReadPlugins => 7
    case ReadMedia => 8
    case ReadConfiguration => 9
    case ReadPrivateState => 10
    case ReadUpdaterState => 11
    case ReadDatabaseMetadata => 12
  }

  lemma PlaceInPreliminaries(step: Preliminary)
    ensures Place(step) < |PRELIMINARIES| && PRELIMINARIES[Place(step)] == Prepare(step)
  {
  }

  lemma PreliminaryAt(k: nat)
    requires k < |PRELIMINARIES|
    ensures PRELIMINARIES[k].Prepare? && Place(PRELIMINARIES[k].step) == k
  {
  }

  /** The first calls of every run are the preliminaries, each in its place, up to one that fails. */
  lemma PreliminariesInPlace(
    b: Bundle, n: nat, rest: seq<Entry>, outcome: Outcome, trace: seq<Entry>, k: nat)
    requires Started(b, n, rest, outcome, trace) && k < |trace| && k < 13
    ensures trace[k].call.Prepare? && Place(trace[k].call.step) == k
    ensures trace[k].answer == Done || (outcome == NotStarted && k == |trace| - 1)
  {
    PreliminaryAt(k);
    if n < |PRELIMINARIES| {
      EntryAt(PRELIMINARIES[..n], [Entry(PRELIMINARIES[n], Failed)], k);
      PreliminaryAt(n);
    } else {
      EntryAt(PRELIMINARIES, rest, k);
    }
  }

  /** Nothing but the preliminaries is attempted before all of them have returned. */
  lemma PreliminariesFirst(
    b: Bundle, n: nat, rest: seq<Entry>, outcome: Outcome, trace: seq<Entry>, k: nat, step: Preliminary)
    requires Started(b, n, rest, outcome, trace) && k < |trace| && !trace[k].call.Prepare?
    ensures Returned(trace[..k], Prepare(step)) && outcome != NotStarted
  {
    PreliminariesPrepare();
    PlaceInPreliminaries(step);
    if n < |PRELIMINARIES| {
      CutCalls(PRELIMINARIES, n, k);
    } else {
      AfterCalls(PRELIMINARIES, rest, k, Prepare(step));
    }
  }

  // ----- What every run keeps

  predicate Attempted(trace: seq<Entry>, call: Call) {
    exists k :: 0 <= k < |trace| && trace[k].call == call
  }

  predicate Returned(trace: seq<Entry>, call: Call) {
    Entry(call, Done) in trace
  }

  lemma {:induction false} FlatMember(segments: seq<Segment>, call: Call)
    ensures call in Flat(segments) <==> exists j :: 0 <= j < |segments| && call in segments[j].calls
    decreases |segments|
  {
    if segments != [] {
      var front, last := segments[..|segments| - 1], segments[|segments| - 1];
      FlatMember(front, call);
      if call in Flat(front) {
        var j :| 0 <= j < |front| && call in front[j].calls;
        assert call in segments[j].calls;
      } else if exists j :: 0 <= j < |segments| && call in segments[j].calls {
        var j :| 0 <= j < |segments| && call in segments[j].calls;
        if j < |front| { assert call in front[j].calls; }
      }
    }
  }

  lemma PlanCalls(b: Bundle, j: nat, call: Call)
    requires j < |Plan(b)| && call in Plan(b)[j].calls
    ensures call != RollbackTarget && !call.RecordRecovery?
    ensures call == BeginTarget <==> j == 0
    ensures call == ValidateInactive <==> j == 8
    ensures call == PublishInactive <==> j == 9
  {
  }

  lemma DoneMember(calls: seq<Call>, call: Call)
    ensures Returned(AllDone(calls), call) <==> call in calls
    ensures Attempted(AllDone(calls), call) <==> call in calls
  {
    if call in calls {
      var k :| 0 <= k < |calls| && calls[k] == call;
      assert AllDone(calls)[k] == Entry(call, Done);
    }
  }

  /** The calls attempted before a run stopped. */
  function Before(b: Bundle, j: nat, i: nat): seq<Call>
    requires j < |Plan(b)| && i <= |Plan(b)[j].calls|
  {
    Flat(Plan(b)[..j]) + Plan(b)[j].calls[..i]
  }

  lemma BeforeMember(b: Bundle, j: nat, i: nat, call: Call)
    requires j < |Plan(b)| && i <= |Plan(b)[j].calls| && call in Before(b, j, i)
    ensures exists k :: 0 <= k <= j && call in Plan(b)[k].calls
  {
    var plan := Plan(b);
    if call in Flat(plan[..j]) {
      FlatMember(plan[..j], call);
      var k :| 0 <= k < |plan[..j]| && call in plan[..j][k].calls;
      assert call in plan[k].calls;
    } else {
      assert call in plan[j].calls;
    }
  }

  /** The trace of a run that stopped after beginning: done calls, the failed one, the record. */
  lemma RecoveredTrace(b: Bundle, j: nat, i: nat, answer: Answer, trace: seq<Entry>, outcome: Outcome)
    requires RecoveredAt(b, j, i, answer, trace, outcome)
    ensures trace == AllDone(Before(b, j, i)) + [Entry(Plan(b)[j].calls[i], answer)]
      + [RecordEntry(outcome.evidence, outcome)]
    ensures |Before(b, j, i)| < |trace| && trace[|Before(b, j, i)|].answer != Done
  {
    assert trace == trace[..|trace| - 1] + [trace[|trace| - 1]];
  }

  lemma PublicationAfterPlan(b: Bundle, trace: seq<Entry>, outcome: Outcome, k: nat, call: Call)
    requires Ran(b, trace, outcome) && k < |trace| && trace[k].call == PublishInactive
    requires call in Flat(Plan(b)) && call != PublishInactive
    ensures Returned(trace[..k], call)
  {
    BeforePublication(b, call);
    var before := Before(b, 9, 0);
    DoneMember(before, call);
    if outcome == Consumed && trace == AllDone(Flat(Plan(b))) {
      PublishedPlan(b);
      CutAtPublication(before, [Entry(PublishInactive, Done)], trace, k);
    } else if !RolledBack(trace, outcome) {
      var j: nat, i: nat, answer :| RecoveredAt(b, j, i, answer, trace, outcome);
      RecoveredTrace(b, j, i, answer, trace, outcome);
      StopsAtPublication(b, j, i, answer, trace, outcome);
      NoPublicationBefore(b);
      CutAtPublication(
        before, [Entry(PublishInactive, answer), RecordEntry(outcome.evidence, outcome)], trace, k);
    }
  }

  lemma PublishedPlan(b: Bundle)
    ensures Flat(Plan(b)) == Before(b, 9, 0) + [PublishInactive] && PublishInactive !in Before(b, 9, 0)
    ensures AllDone(Flat(Plan(b))) == AllDone(Before(b, 9, 0)) + [Entry(PublishInactive, Done)]
  {
    NoPublicationBefore(b);
    assert Plan(b)[..9] + [Plan(b)[9]] == Plan(b);
    FlatOneMore(Plan(b)[..9], Plan(b)[9]);
    assert Before(b, 9, 0) == Flat(Plan(b)[..9]);
    DoneOneMore(Before(b, 9, 0), PublishInactive);
  }

  lemma CutAtPublication(before: seq<Call>, after: seq<Entry>, trace: seq<Entry>, k: nat)
    requires PublishInactive !in before && trace == AllDone(before) + after
    requires 1 <= |after| <= 2 && (|after| == 2 ==> after[1].call.RecordRecovery?)
    requires k < |trace| && trace[k].call == PublishInactive
    ensures trace[..k] == AllDone(before)
  {
    EntryAt(before, after, k);
  }

  lemma BeforePublication(b: Bundle, call: Call)
    requires call in Flat(Plan(b)) && call != PublishInactive
    ensures call in Before(b, 9, 0)
  {
    var plan := Plan(b);
    FlatMember(plan, call);
    var k :| 0 <= k < |plan| && call in plan[k].calls;
    PlanCalls(b, k, call);
    assert call in plan[..9][k].calls;
    FlatMember(plan[..9], call);
  }

  lemma StopsAtPublication(b: Bundle, j: nat, i: nat, answer: Answer, trace: seq<Entry>, outcome: Outcome)
    requires RecoveredAt(b, j, i, answer, trace, outcome) && Attempted(trace, PublishInactive)
    ensures j == 9 && i == 0
  {
    RecoveredTrace(b, j, i, answer, trace, outcome);
    var k :| 0 <= k < |trace| && trace[k].call == PublishInactive;
    if k < |Before(b, j, i)| {
      assert PublishInactive in Before(b, j, i);
      BeforeMember(b, j, i, PublishInactive);
      var m :| 0 <= m <= j && PublishInactive in Plan(b)[m].calls;
      PlanCalls(b, m, PublishInactive);
      FlatMember(Plan(b)[..9], PublishInactive);
      NoPublicationBefore(b);
    } else {
      assert k == |Before(b, j, i)|;
      PlanCalls(b, j, PublishInactive);
    }
  }

  lemma NoPublicationBefore(b: Bundle)
    ensures PublishInactive !in Before(b, 9, 0)
  {
    if PublishInactive in Before(b, 9, 0) {
      assert Before(b, 9, 0) == Flat(Plan(b)[..9]);
      FlatMember(Plan(b)[..9], PublishInactive);
      var m :| 0 <= m < 9 && PublishInactive in Plan(b)[..9][m].calls;
      PlanCalls(b, m, PublishInactive);
    }
  }

  /** Rollback is attempted only when the target refused to begin, and never after database staging was attempted. */
  lemma RollbackOnlyBeforeDatabase(b: Bundle, trace: seq<Entry>, outcome: Outcome)
    requires Ran(b, trace, outcome) && Attempted(trace, RollbackTarget)
    ensures RolledBack(trace, outcome) && !Attempted(trace, StageDatabase)
  {
    if outcome == Consumed && trace == AllDone(Flat(Plan(b))) {
      DoneMember(Flat(Plan(b)), RollbackTarget);
      FlatMember(Plan(b), RollbackTarget);
      var m :| 0 <= m < |Plan(b)| && RollbackTarget in Plan(b)[m].calls;
      PlanCalls(b, m, RollbackTarget);
    } else if !RolledBack(trace, outcome) {
      var j: nat, i: nat, answer :| RecoveredAt(b, j, i, answer, trace, outcome);
      RecoveredTrace(b, j, i, answer, trace, outcome);
      NeverInPlan(b, j, i, RollbackTarget);
    }
  }

  lemma NeverInPlan(b: Bundle, j: nat, i: nat, call: Call)
    requires j < |Plan(b)| && i < |Plan(b)[j].calls| && (call == RollbackTarget || call.RecordRecovery?)
    ensures call !in Before(b, j, i) && call != Plan(b)[j].calls[i]
  {
    if call in Before(b, j, i) {
      BeforeMember(b, j, i, call);
      var m :| 0 <= m <= j && call in Plan(b)[m].calls;
      PlanCalls(b, m, call);
    }
    PlanCalls(b, j, Plan(b)[j].calls[i]);
  }

  /** The number of recovery records attempted. */
  function Records(trace: seq<Entry>): nat {
    if trace == [] then 0
    else Records(trace[..|trace| - 1]) + if trace[|trace| - 1].call.RecordRecovery? then 1 else 0
  }

  predicate RecordsNothing(trace: seq<Entry>) {
    forall k :: 0 <= k < |trace| ==> !trace[k].call.RecordRecovery?
  }

  lemma {:induction false} NoRecords(trace: seq<Entry>)
    requires RecordsNothing(trace)
    ensures Records(trace) == 0
    decreases |trace|
  {
    if trace != [] { NoRecords(trace[..|trace| - 1]); }
  }

  /**
    A run that does not succeed ends either with one successful rollback and no recovery record, or
    with exactly one recovery record attempted, as its last call.
   */
  lemma FailureLeavesOneTrace(b: Bundle, trace: seq<Entry>, outcome: Outcome)
    requires Ran(b, trace, outcome) && outcome != Consumed
    ensures outcome == BeginFailed ==> Records(trace) == 0 && trace[|trace| - 1] == Entry(RollbackTarget, Done)
    ensures outcome != BeginFailed ==>
      Records(trace) == 1 && trace[|trace| - 1] == RecordEntry(outcome.evidence, outcome)
  {
    if RolledBack(trace, outcome) {
      RolledBackRecords(trace, outcome);
    } else {
      var j: nat, i: nat, answer :| RecoveredAt(b, j, i, answer, trace, outcome);
      StoppedRecordsNothing(b, j, i, answer, trace[..|trace| - 1]);
      LastIsOnlyRecord(trace);
    }
  }

  lemma RolledBackRecords(trace: seq<Entry>, outcome: Outcome)
    requires RolledBack(trace, outcome)
    ensures trace != []
    ensures outcome == BeginFailed ==> Records(trace) == 0 && trace[|trace| - 1] == Entry(RollbackTarget, Done)
    ensures outcome != BeginFailed ==>
      Records(trace) == 1 && trace[|trace| - 1] == RecordEntry(outcome.evidence, outcome)
  {
    if outcome == BeginFailed { NoRecords(trace); } else { LastIsOnlyRecord(trace); }
  }

  lemma LastIsOnlyRecord(trace: seq<Entry>)
    requires trace != [] && trace[|trace| - 1].call.RecordRecovery?
    requires RecordsNothing(trace[..|trace| - 1])
    ensures Records(trace) == 1
  {
    NoRecords(trace[..|trace| - 1]);
  }

  lemma StoppedRecordsNothing(b: Bundle, j: nat, i: nat, answer: Answer, trace: seq<Entry>)
    requires StoppedAt(Plan(b), j, i, answer, trace)
    ensures RecordsNothing(trace)
  {
    forall k | 0 <= k < |trace| ensures !trace[k].call.RecordRecovery? {
      if trace[k].call.RecordRecovery? { NeverInPlan(b, j, i, trace[k].call); }
    }
  }

  /** The completed stages of the evidence are exactly those before the failed one that had calls, and all those calls returned. */
  lemma EvidenceIsExact(b: Bundle, j: nat, i: nat, answer: Answer, trace: seq<Entry>, outcome: Outcome, k: nat)
    requires RecoveredAt(b, j, i, answer, trace, outcome) && k < |Plan(b)|
    ensures Plan(b)[k].stage in outcome.evidence.completed <==> k < j && Plan(b)[k].calls != []
    ensures k < j ==> forall call :: call in Plan(b)[k].calls ==> Returned(trace, call)
    ensures outcome.evidence.failedStep == Plan(b)[j].stage
  {
    NamesMember(b, j, k);
    RecoveredTrace(b, j, i, answer, trace, outcome);
    if k < j {
      forall call | call in Plan(b)[k].calls ensures Returned(trace, call) {
        assert call in Plan(b)[..j][k].calls;
        FlatMember(Plan(b)[..j], call);
        DoneMember(Before(b, j, i), call);
        assert Entry(call, Done) in AllDone(Before(b, j, i));
      }
    }
  }

  lemma StagesDiffer(b: Bundle, k: nat, m: nat)
    requires k < m < |Plan(b)|
    ensures Plan(b)[k].stage != Plan(b)[m].stage
  {
  }

  lemma {:induction false} NamesMember(b: Bundle, j: nat, k: nat)
    requires j <= |Plan(b)| && k < |Plan(b)|
    ensures Plan(b)[k].stage in Names(Plan(b)[..j]) <==> k < j && Plan(b)[k].calls != []
    decreases j
  {
    var plan := Plan(b);
    if j > 0 {
      NamesMember(b, j - 1, k);
      assert plan[..j][..j - 1] == plan[..j - 1];
      if k < j - 1 { StagesDiffer(b, k, j - 1); } else if k > j - 1 { StagesDiffer(b, j - 1, k); }
    }
  }

  lemma RolledBackFails(trace: seq<Entry>, outcome: Outcome)
    requires RolledBack(trace, outcome)
    ensures trace != [] && trace[0].answer == Failed
  {
  }

  predicate AllReturned(trace: seq<Entry>) {
    forall k :: 0 <= k < |trace| ==> trace[k].answer == Done
  }

  /** A run at the target all of whose calls went through has consumed the bundle. */
  lemma AllDoneConsumes(b: Bundle, trace: seq<Entry>, outcome: Outcome)
    requires Ran(b, trace, outcome) && AllReturned(trace)
    ensures outcome == Consumed
  {
    if RolledBack(trace, outcome) {
      RolledBackFails(trace, outcome);
    } else if outcome != Consumed {
      var j: nat, i: nat, answer :| RecoveredAt(b, j, i, answer, trace, outcome);
      RecoveredTrace(b, j, i, answer, trace, outcome);
    }
  }

  lemma ReturnedAfter(calls: seq<Call>, rest: seq<Entry>)
    requires AllReturned(AllDone(calls) + rest)
    ensures AllReturned(rest)
  {
    forall k | 0 <= k < |rest| ensures rest[k].answer == Done { EntryAt(calls, rest, |calls| + k); }
  }

  lemma LastReturned(before: seq<Entry>, last: Entry)
    requires AllReturned(before + [last])
    ensures last.answer == Done
  {
    assert (before + [last])[|before|] == last;
  }

  /** The same from the first preliminary on. */
  lemma WholeRunConsumes(b: Bundle, n: nat, rest: seq<Entry>, outcome: Outcome, trace: seq<Entry>)
    requires Started(b, n, rest, outcome, trace) && AllReturned(trace)
    ensures outcome == Consumed
  {
    if n < |PRELIMINARIES| {
      LastReturned(AllDone(PRELIMINARIES[..n]), Entry(PRELIMINARIES[n], Failed));
    } else {
      ReturnedAfter(PRELIMINARIES, rest);
      AllDoneConsumes(b, rest, outcome);
    }
  }

  // ----- What is staged, and in which order

  /**
    The calls of a complete consumption, position by position: begin, the database, every plugin
    package and every local media member in the order of the bundle, the configuration, the private
    and the updater state, the upgrade if there is one, the validation and the publication.
   */
  ghost predicate Scheduled(b: Bundle, calls: seq<Call>) {
    var p, q, u := |b.packages|, |b.localMedia|, if b.upgrades == [] then 0 else 1;
    && |calls| == p + q + u + 7
    && calls[0] == BeginTarget && calls[1] == StageDatabase
    && (forall k :: 2 <= k < 2 + p ==> calls[k] == StagePlugin(b.packages[k - 2]))
    && (forall k :: 2 + p <= k < 2 + p + q ==> calls[k] == StageLocalMedia(b.localMedia[k - 2 - p]))
    && calls[2 + p + q] == StageConfiguration
    && calls[3 + p + q] == StagePrivateState && calls[4 + p + q] == StageUpdaterState
    && (u == 1 ==> calls[5 + p + q] == ApplyUpgrade(b.upgrades))
    && calls[5 + p + q + u] == ValidateInactive && calls[6 + p + q + u] == PublishInactive
  }

  function UpgradeCalls(b: Bundle): seq<Call> {
    if b.upgrades == [] then [] else [ApplyUpgrade(b.upgrades)]
  }

  lemma FlatUpTo(plan: seq<Segment>, k: nat)
    requires 2 <= k <= |plan|
    ensures Flat(plan[..k]) == Flat(plan[..k - 2]) + plan[k - 2].calls + plan[k - 1].calls
  {
    PlanOneMore(plan, k - 2);
    FlatOneMore(plan[..k - 2], plan[k - 2]);
    PlanOneMore(plan, k - 1);
    FlatOneMore(plan[..k - 1], plan[k - 1]);
  }

  lemma FlatOfTen(plan: seq<Segment>)
    requires |plan| == 10
    ensures Flat(plan) == plan[0].calls + plan[1].calls + plan[2].calls + plan[3].calls + plan[4].calls
      + plan[5].calls + plan[6].calls + plan[7].calls + plan[8].calls + plan[9].calls
  {
    FlatUpTo(plan, 2);
    FlatUpTo(plan, 4);
    FlatUpTo(plan, 6);
    FlatUpTo(plan, 8);
    FlatUpTo(plan, 10);
    NothingBefore(plan);
  }

  lemma NothingBefore(plan: seq<Segment>)
    requires |plan| == 10
    ensures Flat(plan[..0]) + plan[0].calls == plan[0].calls && Flat(plan[..10]) == Flat(plan)
  {
    assert plan[..10] == plan;
    assert Flat(plan[..0]) == [];
  }

  /** The calls before the configuration. */
  ghost predicate ContentScheduled(b: Bundle, calls: seq<Call>) {
    var p, q := |b.packages|, |b.localMedia|;
    && |calls| == 2 + p + q
    && calls[0] == BeginTarget && calls[1] == StageDatabase
    && (forall k :: 2 <= k < 2 + p ==> calls[k] == StagePlugin(b.packages[k - 2]))
    && (forall k :: 2 + p <= k < 2 + p + q ==> calls[k] == StageLocalMedia(b.localMedia[k - 2 - p]))
  }

  lemma ContentCalls(b: Bundle)
    ensures ContentScheduled(b, [BeginTarget] + [StageDatabase] + PluginCalls(b.packages) + MediaCalls(b.localMedia))
  {
  }

  /** The calls from the configuration on. */
  ghost predicate StateScheduled(b: Bundle, calls: seq<Call>) {
    var u := if b.upgrades == [] then 0 else 1;
    && |calls| == 5 + u
    && calls[0] == StageConfiguration && calls[1] == StagePrivateState && calls[2] == StageUpdaterState
    && (u == 1 ==> calls[3] == ApplyUpgrade(b.upgrades))
    && calls[3 + u] == ValidateInactive && calls[4 + u] == PublishInactive
  }

  lemma StateCalls(b: Bundle, before: seq<Call>) returns (tail: seq<Call>)
    ensures StateScheduled(b, tail)
    ensures before + tail == before + [StageConfiguration] + [StagePrivateState] + [StageUpdaterState]
      + UpgradeCalls(b) + [ValidateInactive] + [PublishInactive]
  {
    tail := [StageConfiguration, StagePrivateState, StageUpdaterState] + UpgradeCalls(b)
      + [ValidateInactive, PublishInactive];
  }

  lemma BothScheduled(b: Bundle, head: seq<Call>, tail: seq<Call>)
    requires ContentScheduled(b, head) && StateScheduled(b, tail)
    ensures Scheduled(b, head + tail)
  {
  }

  lemma PlanScheduled(b: Bundle)
    ensures Scheduled(b, Flat(Plan(b)))
  {
    FlatOfTen(Plan(b));
    var head := [BeginTarget] + [StageDatabase] + PluginCalls(b.packages) + MediaCalls(b.localMedia);
    ContentCalls(b);
    var tail := StateCalls(b, head);
    BothScheduled(b, head, tail);
  }

  lemma ScheduleUnique(b: Bundle, a: seq<Call>, c: seq<Call>)
    requires Scheduled(b, a) && Scheduled(b, c)
    ensures a == c
  {
  }

  /** Publication is attempted only after everything of the bundle has been staged and the validation has said yes. */
  lemma PublicationIsLast(b: Bundle, trace: seq<Entry>, outcome: Outcome, k: nat, call: Call)
    requires Ran(b, trace, outcome) && k < |trace| && trace[k].call == PublishInactive
    requires StageOfBundle(b, call) || call == ValidateInactive
    ensures Returned(trace[..k], call)
  {
    var calls := Flat(Plan(b));
    PlanScheduled(b);
    if call == ValidateInactive {
      ScheduledOnly(b, calls, |calls| - 2);
    } else {
      var m := ScheduledStage(b, calls, call);
    }
    PublicationAfterPlan(b, trace, outcome, k, call);
  }

  lemma {:induction false} FlatPrefix(plan: seq<Segment>, j: nat)
    requires j <= |plan|
    ensures Flat(plan[..j]) <= Flat(plan)
    decreases |plan| - j
  {
    if j < |plan| {
      FlatPrefix(plan, j + 1);
      PlanOneMore(plan, j);
      FlatOneMore(plan[..j], plan[j]);
    } else {
      assert plan[..j] == plan;
    }
  }

  lemma BeforeScheduled(b: Bundle, j: nat, i: nat, calls: seq<Call>)
    requires j < |Plan(b)| && i < |Plan(b)[j].calls| && Scheduled(b, calls)
    ensures Before(b, j, i) + [Plan(b)[j].calls[i]] <= calls
  {
    var plan := Plan(b);
    PlanScheduled(b);
    ScheduleUnique(b, Flat(plan), calls);
    FlatPrefix(plan, j + 1);
    PlanOneMore(plan, j);
    FlatOneMore(plan[..j], plan[j]);
    assert plan[j].calls[..i] + [plan[j].calls[i]] <= plan[j].calls;
    PrefixOfConcat(Flat(plan[..j]), plan[j].calls, i);
  }

  lemma PrefixOfConcat(a: seq<Call>, c: seq<Call>, i: nat)
    requires i < |c|
    ensures a + c[..i] + [c[i]] <= a + c
  {
  }

  lemma RolledBackCalls(trace: seq<Entry>, outcome: Outcome, k: nat)
    requires RolledBack(trace, outcome) && k < |trace|
    ensures trace[0] == Entry(BeginTarget, Failed)
    ensures k > 0 ==> trace[k].call == RollbackTarget || trace[k].call.RecordRecovery?
  {
  }

  lemma StoppedCalls(before: seq<Call>, failed: Entry, record: Entry, calls: seq<Call>, trace: seq<Entry>, k: nat)
    requires before + [failed.call] <= calls && trace == AllDone(before) + [failed] + [record] && k < |trace| - 1
    ensures trace[k].call == calls[k]
  {
    EntryAt(before, [failed] + [record], k);
    assert trace == AllDone(before) + ([failed] + [record]);
    assert (before + [failed.call])[k] == calls[k];
  }

  lemma RecoveredInOrder(
    b: Bundle, j: nat, i: nat, answer: Answer, trace: seq<Entry>, outcome: Outcome, calls: seq<Call>, k: nat)
    requires RecoveredAt(b, j, i, answer, trace, outcome) && Scheduled(b, calls)
    requires k < |trace| && !trace[k].call.RecordRecovery?
    ensures k < |calls| && trace[k].call == calls[k]
  {
    RecoveredTrace(b, j, i, answer, trace, outcome);
    BeforeScheduled(b, j, i, calls);
    StoppedCalls(Before(b, j, i), Entry(Plan(b)[j].calls[i], answer), RecordEntry(outcome.evidence, outcome), calls,
                 trace, k);
  }

  /**
    Nothing is ever staged out of order or beside the bundle: in every run, successful or not, each
    call on the target stands at its scheduled place; only the rollback and the recovery record do not.
   */
  lemma StagedInOrder(b: Bundle, trace: seq<Entry>, outcome: Outcome, calls: seq<Call>, k: nat)
    requires Ran(b, trace, outcome) && Scheduled(b, calls) && k < |trace|
    requires trace[k].call != RollbackTarget && !trace[k].call.RecordRecovery?
    ensures k < |calls| && trace[k].call == calls[k]
  {
    if outcome == Consumed && trace == AllDone(Flat(Plan(b))) {
      PlanScheduled(b);
      ScheduleUnique(b, Flat(Plan(b)), calls);
    } else if RolledBack(trace, outcome) {
      RolledBackCalls(trace, outcome, k);
    } else {
      var j: nat, i: nat, answer :| RecoveredAt(b, j, i, answer, trace, outcome);
      RecoveredInOrder(b, j, i, answer, trace, outcome, calls, k);
    }
  }

  /** A consumed bundle was staged completely: every scheduled call returned, and there were no others. */
  lemma ConsumedStagesAll(b: Bundle, trace: seq<Entry>, outcome: Outcome, calls: seq<Call>)
    requires Ran(b, trace, outcome) && outcome == Consumed && Scheduled(b, calls)
    ensures trace == AllDone(calls)
  {
    PlanScheduled(b);
    ScheduleUnique(b, Flat(Plan(b)), calls);
  }

  /** What must have been staged before the validation. */
  predicate StageOfBundle(b: Bundle, call: Call) {
    || call == BeginTarget || call == StageDatabase
    || (call.StagePlugin? && call.member in b.packages)
    || (call.StageLocalMedia? && call.member in b.localMedia)
    || call == StageConfiguration || call == StagePrivateState || call == StageUpdaterState
    || (b.upgrades != [] && call == ApplyUpgrade(b.upgrades))
  }

  lemma ScheduledStage(b: Bundle, calls: seq<Call>, call: Call) returns (k: nat)
    requires Scheduled(b, calls) && StageOfBundle(b, call)
    ensures k < |calls| - 2 && calls[k] == call
  {
    var p, q := |b.packages|, |b.localMedia|;
    k := 5 + p + q;
    if call == BeginTarget {
      k := 0;
    } else if call == StageDatabase {
      k := 1;
    } else if call.StagePlugin? {
      var i :| 0 <= i < p && b.packages[i] == call.member;
      k := 2 + i;
    } else if call.StageLocalMedia? {
      var i :| 0 <= i < q && b.localMedia[i] == call.member;
      k := 2 + p + i;
    } else if call == StageConfiguration {
      k := 2 + p + q;
    } else if call == StagePrivateState {
      k := 3 + p + q;
    } else if call == StageUpdaterState {
      k := 4 + p + q;
    }
  }

  lemma ScheduledOnly(b: Bundle, calls: seq<Call>, k: nat)
    requires Scheduled(b, calls) && k < |calls|
    ensures k < |calls| - 2 ==> StageOfBundle(b, calls[k])
    ensures k == |calls| - 2 ==> calls[k] == ValidateInactive
    ensures k == |calls| - 1 ==> calls[k] == PublishInactive
  {
    var p, q := |b.packages|, |b.localMedia|;
    if 2 <= k < 2 + p {
      assert b.packages[k - 2] in b.packages;
    } else if 2 + p <= k < 2 + p + q {
      assert b.localMedia[k - 2 - p] in b.localMedia;
    }
  }

  lemma StagedBefore(b: Bundle, first: seq<Call>, calls: seq<Call>, call: Call, v: nat)
    requires AllPrepare(first) && Scheduled(b, calls) && v == |first| + |calls| - 2
    ensures StageOfBundle(b, call) ==> Returned((AllDone(first) + AllDone(calls))[..v], call)
    ensures Attempted((AllDone(first) + AllDone(calls))[..v], call) ==> call.Prepare? || StageOfBundle(b, call)
  {
    var trace := AllDone(first) + AllDone(calls);
    if StageOfBundle(b, call) {
      var k := ScheduledStage(b, calls, call);
      EntryAt(first, AllDone(calls), |first| + k);
      assert trace[..v][|first| + k] == Entry(call, Done);
    }
    if Attempted(trace[..v], call) {
      var k :| 0 <= k < |trace[..v]| && trace[..v][k].call == call;
      EntryAt(first, AllDone(calls), k);
      if k >= |first| { ScheduledOnly(b, calls, k - |first|); }
    }
  }

  lemma EndsPublished(b: Bundle, first: seq<Call>, calls: seq<Call>, v: nat)
    requires Scheduled(b, calls) && v == |first| + |calls| - 2
    ensures (AllDone(first) + AllDone(calls))[v] == Entry(ValidateInactive, Done)
    ensures (AllDone(first) + AllDone(calls))[v + 1] == Entry(PublishInactive, Done)
  {
    ScheduledOnly(b, calls, |calls| - 2);
    ScheduledOnly(b, calls, |calls| - 1);
    EntryAt(first, AllDone(calls), v);
    EntryAt(first, AllDone(calls), v + 1);
  }

  /**
    When a whole consumption succeeds, the database, every plugin package and local media member, the
    configuration, the private and the updater state, and the upgrade if any have been staged before the
    validation said yes, nothing else has, and the publication is all that follows.
   */
  lemma ConsumedMeans(
    b: Bundle, n: nat, rest: seq<Entry>, outcome: Outcome, trace: seq<Entry>, calls: seq<Call>, call: Call)
    returns (v: nat)
    requires Started(b, n, rest, outcome, trace) && outcome == Consumed && Scheduled(b, calls)
    ensures trace == AllDone(PRELIMINARIES) + AllDone(calls) && |trace| == v + 2
    ensures trace[v] == Entry(ValidateInactive, Done) && trace[v + 1] == Entry(PublishInactive, Done)
    ensures StageOfBundle(b, call) ==> Returned(trace[..v], call)
    ensures Attempted(trace[..v], call) ==> call.Prepare? || StageOfBundle(b, call)
  {
    ConsumedStagesAll(b, rest, outcome, calls);
    v := |PRELIMINARIES| + |calls| - 2;
    PreliminariesPrepare();
    StagedBefore(b, PRELIMINARIES, calls, call, v);
    EndsPublished(b, PRELIMINARIES, calls, v);
  }

  // ----- What the recovery evidence says about the calls

  /** The calls a stage is made of. */
  predicate InStage(stage: Stage, call: Call) {
    match stage
    case Begin => call == BeginTarget
    case Database => call == StageDatabase
    case Plugin => call.StagePlugin?
    case Media => call.StageLocalMedia?
    case Configuration => call == StageConfiguration
    case Private => call == StagePrivateState
    case Updater => call == StageUpdaterState
    case Upgrade => call.ApplyUpgrade?
    case Validate => call == ValidateInactive
    case Publish => call == PublishInactive
    case Rollback => call == RollbackTarget
  }

  function Rank(stage: Stage): nat {
    match stage
    case Begin => 0
    case Database => 1
    case Plugin => 2
    case Media => 3
    case Configuration => 4
    case Private => 5
    case Updater => 6
    case Upgrade => 7
    case Validate => 8
    case Publish => 9
    case Rollback => 10
  }

  lemma OneStage(s: Stage, t: Stage, call: Call)
    requires InStage(s, call) && InStage(t, call)
    ensures s == t
  {
  }

  lemma PlanStage(b: Bundle, j: nat)
    requires j < |Plan(b)|
    ensures Rank(Plan(b)[j].stage) == j
    ensures forall call :: call in Plan(b)[j].calls ==> InStage(Plan(b)[j].stage, call)
  {
  }

  predicate Marked(plan: seq<Segment>, j: nat, stage: Stage) {
    exists k :: 0 <= k < |plan| && k < j && plan[k].stage == stage && plan[k].calls != []
  }

  lemma {:induction false} NamesExactly(plan: seq<Segment>, j: nat, stage: Stage)
    requires j <= |plan|
    ensures stage in Names(plan[..j]) <==> Marked(plan, j, stage)
  {
    if j > 0 {
      NamesExactly(plan, j - 1, stage);
      PlanOneMore(plan, j - 1);
      FlatOneMore(plan[..j - 1], plan[j - 1]);
    }
  }

  ghost predicate InRankOrder(stages: seq<Stage>) {
    forall x, y :: 0 <= x < y < |stages| ==> Rank(stages[x]) < Rank(stages[y])
  }

  lemma {:induction false} NamesInOrder(b: Bundle, j: nat)
    requires j <= |Plan(b)|
    ensures InRankOrder(Names(Plan(b)[..j])) && forall s :: s in Names(Plan(b)[..j]) ==> Rank(s) < j
  {
    if j > 0 {
      NamesInOrder(b, j - 1);
      PlanOneMore(Plan(b), j - 1);
      FlatOneMore(Plan(b)[..j - 1], Plan(b)[j - 1]);
      PlanStage(b, j - 1);
      OrderOneMore(Names(Plan(b)[..j - 1]), Plan(b)[j - 1].stage);
    }
  }

  lemma OrderOneMore(stages: seq<Stage>, last: Stage)
    requires InRankOrder(stages) && forall s :: s in stages ==> Rank(s) < Rank(last)
    ensures InRankOrder(stages + [last])
  {
  }

  predicate CalledBefore(trace: seq<Entry>, n: nat, stage: Stage) {
    exists k :: 0 <= k < |trace| && k < n && InStage(stage, trace[k].call)
  }

  /**
    The recovery evidence of a run that had begun: the failed step is the stage of the call that did not
    go through, the completed steps are, in order, the other stages of which some call was made, and the
    code tells a validation that said no from every call that raised.
   */
  lemma EvidenceNamesCalls(b: Bundle, trace: seq<Entry>, outcome: Outcome, stage: Stage)
    requires Ran(b, trace, outcome) && !RolledBack(trace, outcome) && outcome != Consumed
    ensures |trace| >= 2 && Recorded(outcome.evidence, outcome)
    ensures forall k :: 0 <= k < |trace| - 2 ==> trace[k].answer == Done
    ensures var failed, evidence := trace[|trace| - 2], outcome.evidence;
      && failed.answer != Done && InStage(evidence.failedStep, failed.call)
      && evidence.code
        == (if failed == Entry(ValidateInactive, Refused) then ValidationRefused else StageFailed(evidence.failedStep))
      && (stage in evidence.completed <==> stage != evidence.failedStep && CalledBefore(trace, |trace| - 2, stage))
      && InRankOrder(evidence.completed)
  {
    var j: nat, i: nat, answer :| RecoveredAt(b, j, i, answer, trace, outcome);
    RecoveredTrace(b, j, i, answer, trace, outcome);
    RecoveredShape(Before(b, j, i), Entry(Plan(b)[j].calls[i], answer), RecordEntry(outcome.evidence, outcome), trace);
    PlanStage(b, j);
    NamesInOrder(b, j);
    StageMarked(b, j, i, stage);
    CallsOfStage(Before(b, j, i), trace, stage);
  }

  lemma RecoveredShape(before: seq<Call>, failed: Entry, record: Entry, trace: seq<Entry>)
    requires trace == AllDone(before) + [failed] + [record]
    ensures |trace| == |before| + 2 && trace[|trace| - 2] == failed
    ensures forall k :: 0 <= k < |before| ==> trace[k] == Entry(before[k], Done)
  {
  }

  lemma CallsOfStage(before: seq<Call>, trace: seq<Entry>, stage: Stage)
    requires |trace| == |before| + 2 && forall k :: 0 <= k < |before| ==> trace[k] == Entry(before[k], Done)
    ensures CalledBefore(trace, |before|, stage) <==> exists call :: call in before && InStage(stage, call)
  {
    if CalledBefore(trace, |before|, stage) {
      var k :| 0 <= k < |trace| && k < |before| && InStage(stage, trace[k].call);
      assert before[k] in before;
    }
  }

  lemma StageMarked(b: Bundle, j: nat, i: nat, stage: Stage)
    requires j < |Plan(b)| && i < |Plan(b)[j].calls|
    ensures stage in Names(Plan(b)[..j]) <==>
      stage != Plan(b)[j].stage && exists call :: call in Before(b, j, i) && InStage(stage, call)
  {
    var plan := Plan(b);
    NamesExactly(plan, j, stage);
    if Marked(plan, j, stage) {
      var k :| 0 <= k < |plan| && k < j && plan[k].stage == stage && plan[k].calls != [];
      PlanStage(b, k);
      StagesDiffer(b, k, j);
      FlatMember(plan[..j], plan[k].calls[0]);
      assert plan[k].calls[0] in plan[..j][k].calls;
      assert plan[k].calls[0] in Before(b, j, i);
    }
    if call :| call in Before(b, j, i) && InStage(stage, call) {
      if stage != plan[j].stage {
        StageCalledEarlier(b, j, i, stage, call);
      }
    }
  }

  lemma StageCalledEarlier(b: Bundle, j: nat, i: nat, stage: Stage, call: Call)
    requires j < |Plan(b)| && i < |Plan(b)[j].calls| && stage != Plan(b)[j].stage
    requires call in Before(b, j, i) && InStage(stage, call)
    ensures Marked(Plan(b), j, stage)
  {
    BeforeMember(b, j, i, call);
    var k :| 0 <= k <= j && call in Plan(b)[k].calls;
    PlanStage(b, k);
    OneStage(stage, Plan(b)[k].stage, call);
  }
}
