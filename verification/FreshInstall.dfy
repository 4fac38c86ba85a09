/**
  The fresh-install operation: a status, a phase, two mutation flags and a history, changed only by
  transitions that print the new record and parse it back.

  The printed record is typed (no unknown field, no value of the wrong type); the enumerations are
  printed as text.  The tests on identifiers, digests, codes and timestamps are rules.
 */
module FreshInstall {
  import opened Wrappers

  datatype Status = Running | Succeeded | FailedNoMutation | RolledBack | ManualRecoveryRequired | Reconciled

  datatype Phase =
    | PreflightVerified | RootsPreparing | ConfigStaging | MaterialStaging | ServicesPreparing | DatabaseMigrating
    | Bootstrapping | RuntimeStarting | Validating | UpdaterAdopting | DoctorRunning | Complete

  datatype Event = Event(status: Status, phase: Phase, at: string, code: string)

  datatype Identity = Identity(
    operationId: string, instanceName: string, instanceId: string, planDigest: string, releaseDigest: string,
    deploymentDigest: string, configRevision: string)

  datatype Operation = Operation(
    identity: Identity, status: Status, phase: Phase, mutated: bool, irreversible: bool,
    completedSteps: seq<string>, failedStep: Option<string>, errorCode: Option<string>, targetActive: Option<bool>,
    createdAt: string, updatedAt: string, events: seq<Event>)

  datatype EventPayload = EventPayload(status: string, phase: string, at: string, code: string)

  datatype Payload = Payload(
    format: string, schemaVersion: int, kind: string, identity: Identity, status: string, phase: string,
    mutated: bool, irreversible: bool, completedSteps: seq<string>, failedStep: Option<string>,
    errorCode: Option<string>, targetActive: Option<bool>, createdAt: string, updatedAt: string,
    events: seq<EventPayload>)

  /** The texts of the enumerations and the tests on single strings. */
  datatype Rules = Rules(
    phaseName: Phase -> string, phaseOf: string -> Option<Phase>,
    statusName: Status -> string, statusOf: string -> Option<Status>,
    id: string -> bool, uuid: string -> bool, digest: string -> bool, instanceName: string -> bool,
    timestamp: string -> bool, code: string -> bool)

  const FORMAT := "animemo.operation"
  const SCHEMA_VERSION := 2
  const KIND := "fresh_install"
  const PHASES := 12
  const MAX_EVENTS := 64

  const CREATED := "FRESH_INSTALL_CREATED"
  const PHASE_ENTERED := "FRESH_INSTALL_PHASE_ENTERED"
  const MUTATION_STARTED := "FRESH_INSTALL_MUTATION_STARTED"
  const IRREVERSIBLE_STARTED := "FRESH_INSTALL_IRREVERSIBLE_MUTATION_STARTED"
  const SUCCEEDED := "FRESH_INSTALL_SUCCEEDED"
  const RECONCILED := "FRESH_INSTALL_RECONCILED"

  /** Every enumeration text reads back, and the codes the transitions write are codes. */
  ghost predicate Lawful(rules: Rules) {
    && (forall p :: rules.phaseOf(rules.phaseName(p)) == Some(p))
    && (forall s :: rules.statusOf(rules.statusName(s)) == Some(s))
    && (forall t: string :: rules.phaseOf(t).Some? ==> rules.phaseName(rules.phaseOf(t).value) == t)
    && (forall t: string :: rules.statusOf(t).Some? ==> rules.statusName(rules.statusOf(t).value) == t)
    && rules.code(CREATED) && rules.code(PHASE_ENTERED) && rules.code(MUTATION_STARTED)
    && rules.code(IRREVERSIBLE_STARTED) && rules.code(SUCCEEDED) && rules.code(RECONCILED)
  }

  function Index(p: Phase): (i: nat)
    ensures i < PHASES && PhaseAt(i) == p
  {
    match p
    case PreflightVerified => 0
    case RootsPreparing => 1
    case ConfigStaging => 2
    case MaterialStaging => 3
    case ServicesPreparing => 4
    case DatabaseMigrating => 5
    case Bootstrapping => 6
    case RuntimeStarting => 7
    case Validating => 8
    case UpdaterAdopting => 9
    case DoctorRunning => 10
    case Complete => 11
  }

  function PhaseAt(i: nat): Phase {
    if i == 0 then PreflightVerified
    else if i == 1 then RootsPreparing
    else if i == 2 then ConfigStaging
    else if i == 3 then MaterialStaging
    else if i == 4 then ServicesPreparing
    else if i == 5 then DatabaseMigrating
    else if i == 6 then Bootstrapping
    else if i == 7 then RuntimeStarting
    else if i == 8 then Validating
    else if i == 9 then UpdaterAdopting
    else if i == 10 then DoctorRunning
    else Complete
  }

  /** The names of the first `n` phases. */
  function PhasesBefore(rules: Rules, n: nat): (r: seq<string>)
    ensures |r| == n
  {
    if n == 0 then [] else PhasesBefore(rules, n - 1) + [rules.phaseName(PhaseAt(n - 1))]
  }

  // ----- Printing and parsing

  function PrintedEvent(rules: Rules, e: Event): EventPayload {
    EventPayload(rules.statusName(e.status), rules.phaseName(e.phase), e.at, e.code)
  }

  function PrintedEvents(rules: Rules, es: seq<Event>): (r: seq<EventPayload>)
    ensures |r| == |es|
  {
    if es == [] then [] else PrintedEvents(rules, es[..|es| - 1]) + [PrintedEvent(rules, es[|es| - 1])]
  }

  function Printed(rules: Rules, o: Operation): Payload {
    Payload(
      FORMAT, SCHEMA_VERSION, KIND, o.identity, rules.statusName(o.status), rules.phaseName(o.phase), o.mutated,
      o.irreversible, o.completedSteps, o.failedStep, o.errorCode, o.targetActive, o.createdAt, o.updatedAt,
      PrintedEvents(rules, o.events))
  }

  function ParsedEvent(rules: Rules, e: EventPayload): Option<Event> {
    var status := rules.statusOf(e.status);
    var phase := rules.phaseOf(e.phase);
    if status.None? || phase.None? || !rules.code(e.code) || !rules.timestamp(e.at) then None
    else Some(Event(status.value, phase.value, e.at, e.code))
  }

  function ParsedEvents(rules: Rules, es: seq<EventPayload>): (r: Option<seq<Event>>)
    ensures r.Some? ==> |r.value| == |es|
  {
    if es == [] then Some([])
    else
      var front := ParsedEvents(rules, es[..|es| - 1]);
      var last := ParsedEvent(rules, es[|es| - 1]);
      if front.None? || last.None? then None else Some(front.value + [last.value])
  }

  predicate IdentityOk(rules: Rules, i: Identity) {
    && rules.id(i.operationId) && rules.instanceName(i.instanceName) && rules.uuid(i.instanceId)
    && rules.digest(i.planDigest) && rules.digest(i.releaseDigest) && rules.digest(i.deploymentDigest)
    && rules.uuid(i.configRevision)
  }

  /** The checks on the flags, the steps and the failure fields. */
  predicate StateOk(rules: Rules, p: Payload) {
    && rules.statusOf(p.status).Some? && rules.phaseOf(p.phase).Some?
    && (p.irreversible ==> p.mutated)
    && |p.completedSteps| <= PHASES && p.completedSteps == PhasesBefore(rules, |p.completedSteps|)
    && (p.failedStep.Some? ==> rules.phaseOf(p.failedStep.value).Some?)
    && (p.errorCode.Some? ==> rules.code(p.errorCode.value))
  }

  predicate HistoryOk(rules: Rules, p: Payload, status: Status, phase: Phase, events: seq<Event>) {
    && 1 <= |events| <= MAX_EVENTS
    && events[|events| - 1].status == status && events[|events| - 1].phase == phase
    && rules.timestamp(p.createdAt) && rules.timestamp(p.updatedAt)
    && events[0].at == p.createdAt && events[|events| - 1].at == p.updatedAt
  }

  predicate OutcomeOk(p: Payload, status: Status, phase: Phase) {
    && (status == Succeeded ==> phase == Complete && p.errorCode == None)
    && (status == FailedNoMutation || status == RolledBack || status == ManualRecoveryRequired ==>
          p.errorCode.Some? && p.failedStep.Some?)
    && (status == ManualRecoveryRequired ==> p.mutated)
    && (status == FailedNoMutation ==> !p.mutated)
  }

  function Parse(rules: Rules, p: Payload): Result<Operation, string> {
    if p.format != FORMAT then Err("FRESH_OPERATION_FORMAT_UNSUPPORTED")
    else if p.schemaVersion != SCHEMA_VERSION then Err("FRESH_OPERATION_SCHEMA_UNSUPPORTED")
    else if p.kind != KIND then Err("FRESH_OPERATION_KIND_UNSUPPORTED")
    else if !StateOk(rules, p) then Err("FRESH_OPERATION_STATE_INVALID")
    else
      var status, phase := rules.statusOf(p.status).value, rules.phaseOf(p.phase).value;
      var events := ParsedEvents(rules, p.events);
      if events.None? || !HistoryOk(rules, p, status, phase, events.value) then Err("FRESH_OPERATION_EVENT_INVALID")
      else if !OutcomeOk(p, status, phase) then Err("FRESH_OPERATION_STATE_INVALID")
      else if !IdentityOk(rules, p.identity) then Err("FRESH_OPERATION_IDENTITY_INVALID")
      else Ok(Operation(
        p.identity, status, phase, p.mutated, p.irreversible, p.completedSteps, p.failedStep, p.errorCode,
        p.targetActive, p.createdAt, p.updatedAt, events.value))
  }

  lemma {:induction false} EventsReadBack(rules: Rules, es: seq<Event>)
    requires Lawful(rules) && forall k :: 0 <= k < |es| ==> rules.code(es[k].code) && rules.timestamp(es[k].at)
    ensures ParsedEvents(rules, PrintedEvents(rules, es)) == Some(es)
    decreases |es|
  {
    if es != [] {
      var front := es[..|es| - 1];
      EventsReadBack(rules, front);
      var printed := PrintedEvents(rules, es);
      assert printed[..|printed| - 1] == PrintedEvents(rules, front);
      assert front + [es[|es| - 1]] == es;
    }
  }

  lemma {:induction false} EventsPrintBack(rules: Rules, es: seq<EventPayload>)
    requires Lawful(rules) && ParsedEvents(rules, es).Some?
    ensures PrintedEvents(rules, ParsedEvents(rules, es).value) == es
    decreases |es|
  {
    if es != [] {
      EventsPrintBack(rules, es[..|es| - 1]);
      var parsed := ParsedEvents(rules, es).value;
      assert parsed[..|parsed| - 1] == ParsedEvents(rules, es[..|es| - 1]).value;
    }
  }

  /** An accepted record prints as the text it was read from. */
  lemma PrintOfParse(rules: Rules, p: Payload)
    requires Lawful(rules) && Parse(rules, p).Ok?
    ensures Printed(rules, Parse(rules, p).value) == p
  {
    EventsPrintBack(rules, p.events);
  }

  /** What parsing demands of the flags, the steps and the failure fields. */
  predicate FieldsOk(rules: Rules, o: Operation) {
    && (o.irreversible ==> o.mutated)
    && |o.completedSteps| <= PHASES && o.completedSteps == PhasesBefore(rules, |o.completedSteps|)
    && (o.failedStep.Some? ==> rules.phaseOf(o.failedStep.value).Some?)
    && (o.errorCode.Some? ==> rules.code(o.errorCode.value))
  }

  predicate EventsOk(rules: Rules, es: seq<Event>) {
    forall k :: 0 <= k < |es| ==> rules.code(es[k].code) && rules.timestamp(es[k].at)
  }

  /** The history starts with the creation and ends in the present. */
  predicate EndsInPresent(o: Operation) {
    && 1 <= |o.events| <= MAX_EVENTS
    && o.events[|o.events| - 1].status == o.status && o.events[|o.events| - 1].phase == o.phase
    && o.events[0].at == o.createdAt && o.events[|o.events| - 1].at == o.updatedAt
  }

  predicate OutcomeFits(o: Operation) {
    && (o.status == Succeeded ==> o.phase == Complete && o.errorCode == None)
    && (o.status == FailedNoMutation || o.status == RolledBack || o.status == ManualRecoveryRequired ==>
          o.errorCode.Some? && o.failedStep.Some?)
    && (o.status == ManualRecoveryRequired ==> o.mutated)
    && (o.status == FailedNoMutation ==> !o.mutated)
  }

  /** What parsing demands of a record, said of the operation it prints. */
  predicate WellFormed(rules: Rules, o: Operation) {
    FieldsOk(rules, o) && EventsOk(rules, o.events) && EndsInPresent(o) && OutcomeFits(o) && IdentityOk(rules, o.identity)
  }

  lemma PrintedState(rules: Rules, o: Operation)
    requires Lawful(rules) && FieldsOk(rules, o)
    ensures StateOk(rules, Printed(rules, o))
  {
  }

  lemma PrintedHistory(rules: Rules, o: Operation)
    requires EventsOk(rules, o.events) && EndsInPresent(o)
    ensures HistoryOk(rules, Printed(rules, o), o.status, o.phase, o.events)
  {
    assert rules.timestamp(o.events[0].at) && rules.timestamp(o.events[|o.events| - 1].at);
  }

  /** Well-formed operations print to records that parse back to them. */
  lemma ParseOfPrint(rules: Rules, o: Operation)
    requires Lawful(rules) && WellFormed(rules, o)
    ensures Parse(rules, Printed(rules, o)) == Ok(o)
  {
    PrintedState(rules, o);
    PrintedHistory(rules, o);
    EventsReadBack(rules, o.events);
  }

  lemma {:induction false} ParsedEventsOk(rules: Rules, es: seq<EventPayload>)
    requires ParsedEvents(rules, es).Some?
    ensures EventsOk(rules, ParsedEvents(rules, es).value)
    decreases |es|
  {
    if es != [] { ParsedEventsOk(rules, es[..|es| - 1]); }
  }

  ghost predicate Prints(rules: Rules, o: Operation, p: Payload) {
    WellFormed(rules, o) && Printed(rules, o) == p
  }

  /** The parser accepts exactly the printed records of well-formed operations. */
  lemma ParseExactly(rules: Rules, p: Payload)
    requires Lawful(rules)
    ensures Parse(rules, p).Ok? <==> exists o :: Prints(rules, o, p)
  {
    if Parse(rules, p).Ok? {
      var o := Parse(rules, p).value;
      PrintOfParse(rules, p);
      ParsedEventsOk(rules, p.events);
      assert Prints(rules, o, p);
    } else if o :| Prints(rules, o, p) {
      ParseOfPrint(rules, o);
    }
  }

  // ----- Transitions

  datatype Command =
    | Enter(next: Phase, at: string)
    | MarkMutation(at: string)
    | MarkIrreversible(at: string)
    | Fail(code: string, at: string, rollbackSucceeded: Option<bool>, targetActive: Option<bool>)
    | Succeed(at: string)
    | Reconcile(at: string)

  function Reparsed(rules: Rules, o: Operation): Result<Operation, string> {
    Parse(rules, Printed(rules, o))
  }

  /** The record with a new status and phase, one more event and a new timestamp. */
  function Logged(o: Operation, status: Status, phase: Phase, at: string, code: string): Operation {
    o.(status := status, phase := phase, updatedAt := at, events := o.events + [Event(status, phase, at, code)])
  }

  function FailureStatus(o: Operation, rollbackSucceeded: Option<bool>): Status {
    if !o.mutated then FailedNoMutation
    else if o.irreversible || rollbackSucceeded != Some(true) then ManualRecoveryRequired
    else RolledBack
  }

  function Create(rules: Rules, identity: Identity, at: string): Result<Operation, string> {
    if !rules.id(identity.operationId) then Err("FRESH_OPERATION_ID_INVALID")
    else if !rules.timestamp(at) then Err("FRESH_OPERATION_TIME_INVALID")
    else if !IdentityOk(rules, identity) then Err("FRESH_OPERATION_IDENTITY_INVALID")
    else Reparsed(rules, Operation(
      identity, Running, PreflightVerified, false, false, [], None, None, Some(false), at, at,
      [Event(Running, PreflightVerified, at, CREATED)]))
  }

  /** Why a command is refused before anything is changed. */
  function Refusal(rules: Rules, o: Operation, c: Command): Option<string> {
    match c
    case Enter(next, at) =>
      if o.status != Running then Some("FRESH_OPERATION_TERMINAL")
      else if Index(o.phase) + 1 >= PHASES || PhaseAt(Index(o.phase) + 1) != next then
        Some("FRESH_OPERATION_TRANSITION_INVALID")
      else if !rules.timestamp(at) then Some("FRESH_OPERATION_TIME_INVALID") else None
    case MarkMutation(at) =>
      if o.status != Running then Some("FRESH_OPERATION_TERMINAL")
      else if !o.mutated && !rules.timestamp(at) then Some("FRESH_OPERATION_TIME_INVALID") else None
    case MarkIrreversible(at) =>
      if o.status != Running || o.phase != DatabaseMigrating || !o.mutated then
        Some("FRESH_OPERATION_IRREVERSIBLE_BOUNDARY_INVALID")
      else if !o.irreversible && !rules.timestamp(at) then Some("FRESH_OPERATION_TIME_INVALID") else None
    case Fail(code, at, _, _) =>
      if o.status != Running then Some("FRESH_OPERATION_TERMINAL")
      else if !rules.code(code) then Some("FRESH_OPERATION_ERROR_INVALID")
      else if !rules.timestamp(at) then Some("FRESH_OPERATION_TIME_INVALID") else None
    case Succeed(at) =>
      if o.status != Running || o.phase != DoctorRunning then Some("FRESH_OPERATION_TRANSITION_INVALID")
      else if !rules.timestamp(at) then Some("FRESH_OPERATION_TIME_INVALID") else None
    case Reconcile(at) =>
      if o.status != ManualRecoveryRequired then Some("FRESH_OPERATION_RECONCILE_INVALID")
      else if !rules.timestamp(at) then Some("FRESH_OPERATION_TIME_INVALID") else None
  }

  /** A mark that is already set is returned without a new event. */
  predicate Already(o: Operation, c: Command) {
    (c.MarkMutation? && o.mutated) || (c.MarkIrreversible? && o.irreversible)
  }

  /** The record a command writes, before it is parsed back. */
  function Replaced(rules: Rules, o: Operation, c: Command): Operation {
    match c
    case Enter(next, at) =>
      Logged(o, Running, next, at, PHASE_ENTERED)
        .(completedSteps := o.completedSteps + [rules.phaseName(o.phase)])
    case MarkMutation(at) => Logged(o, o.status, o.phase, at, MUTATION_STARTED).(mutated := true)
    case MarkIrreversible(at) => Logged(o, o.status, o.phase, at, IRREVERSIBLE_STARTED).(irreversible := true)
    case Fail(code, at, rollbackSucceeded, targetActive) =>
      Logged(o, FailureStatus(o, rollbackSucceeded), o.phase, at, code)
        .(failedStep := Some(rules.phaseName(o.phase)), errorCode := Some(code), targetActive := targetActive)
    case Succeed(at) =>
      Logged(o, Succeeded, Complete, at, SUCCEEDED)
        .(completedSteps := o.completedSteps + [rules.phaseName(o.phase)], targetActive := Some(true))
    case Reconcile(at) => Logged(o, Reconciled, o.phase, at, RECONCILED)
  }

  function Apply(rules: Rules, o: Operation, c: Command): Result<Operation, string> {
    var refusal := Refusal(rules, o, c);
    if refusal.Some? then Err(refusal.value)
    else if Already(o, c) then Ok(o)
    else Reparsed(rules, Replaced(rules, o, c))
  }

  /** A refused command leaves the caller with the operation it had. */
  function Run(rules: Rules, o: Operation, commands: seq<Command>): Operation {
    if commands == [] then o
    else
      var before := Run(rules, o, commands[..|commands| - 1]);
      var after := Apply(rules, before, commands[|commands| - 1]);
      if after.Ok? then after.value else before
  }

  // ----- What every run keeps

  function EventCount(o: Operation): nat {
    1 + Index(o.phase) + (if o.mutated then 1 else 0) + (if o.irreversible then 1 else 0)
    + match o.status
      case Running => 0
      case Succeeded => 0
      case Reconciled => 2
      case _ => 1
  }

  predicate Failing(o: Operation, phase: string) {
    o.failedStep == Some(phase) && o.errorCode.Some?
  }

  /** The failure fields agree with the status and the flags. */
  predicate Consistent(rules: Rules, o: Operation) {
    match o.status
    case Running => o.failedStep == None && o.errorCode == None
    case Succeeded => o.failedStep == None && o.errorCode == None && o.phase == Complete && o.targetActive == Some(true)
    case FailedNoMutation => !o.mutated && Failing(o, rules.phaseName(o.phase))
    case RolledBack => o.mutated && !o.irreversible && Failing(o, rules.phaseName(o.phase))
    case ManualRecoveryRequired => o.mutated && Failing(o, rules.phaseName(o.phase))
    case Reconciled => o.mutated && Failing(o, rules.phaseName(o.phase))
  }

  predicate Settled(rules: Rules, o: Operation) {
    && WellFormed(rules, o) && Consistent(rules, o)
    && o.completedSteps == PhasesBefore(rules, Index(o.phase))
    && (o.irreversible ==> o.mutated && Index(o.phase) >= Index(DatabaseMigrating))
    && |o.events| == EventCount(o)
  }

  /** The command's own preconditions. */
  predicate Permitted(rules: Rules, o: Operation, c: Command) {
    match c
    case Enter(next, at) => o.status == Running && Index(next) == Index(o.phase) + 1 && rules.timestamp(at)
    case MarkMutation(at) => o.status == Running && (o.mutated || rules.timestamp(at))
    case MarkIrreversible(at) =>
      o.status == Running && o.phase == DatabaseMigrating && o.mutated && (o.irreversible || rules.timestamp(at))
    case Fail(code, at, _, _) => o.status == Running && rules.code(code) && rules.timestamp(at)
    case Succeed(at) => o.status == Running && o.phase == DoctorRunning && rules.timestamp(at)
    case Reconcile(at) => o.status == ManualRecoveryRequired && rules.timestamp(at)
  }

  lemma CreateSettles(rules: Rules, identity: Identity, at: string)
    requires Lawful(rules)
    ensures Create(rules, identity, at).Ok? <==> IdentityOk(rules, identity) && rules.timestamp(at)
    ensures Create(rules, identity, at).Ok? ==> Settled(rules, Create(rules, identity, at).value)
  {
    if IdentityOk(rules, identity) && rules.timestamp(at) {
      var o := Operation(
        identity, Running, PreflightVerified, false, false, [], None, None, Some(false), at, at,
        [Event(Running, PreflightVerified, at, CREATED)]);
      ParseOfPrint(rules, o);
    }
  }

  /** One more event on a settled history. */
  lemma LoggedEvents(rules: Rules, o: Operation, status: Status, phase: Phase, at: string, code: string)
    requires Settled(rules, o) && rules.timestamp(at) && rules.code(code)
    ensures var v := Logged(o, status, phase, at, code);
      EventsOk(rules, v.events) && EndsInPresent(v) && |v.events| == |o.events| + 1
  {
    assert |o.events| == EventCount(o) <= 16;
  }

  lemma StepsOneMore(rules: Rules, o: Operation)
    requires Settled(rules, o) && Index(o.phase) + 1 < PHASES
    ensures o.completedSteps + [rules.phaseName(o.phase)] == PhasesBefore(rules, Index(o.phase) + 1)
  {
  }

  lemma AdvanceSettles(rules: Rules, o: Operation, c: Command)
    requires Lawful(rules) && Settled(rules, o) && Permitted(rules, o, c) && (c.Enter? || c.Succeed?)
    ensures Settled(rules, Replaced(rules, o, c))
  {
    StepsOneMore(rules, o);
    if c.Enter? {
      LoggedEvents(rules, o, Running, c.next, c.at, PHASE_ENTERED);
    } else {
      LoggedEvents(rules, o, Succeeded, Complete, c.at, SUCCEEDED);
    }
  }

  lemma MarkSettles(rules: Rules, o: Operation, c: Command)
    requires Lawful(rules) && Settled(rules, o) && Permitted(rules, o, c) && !Already(o, c)
    requires c.MarkMutation? || c.MarkIrreversible?
    ensures Settled(rules, Replaced(rules, o, c))
  {
    LoggedEvents(
      rules, o, o.status, o.phase, c.at, if c.MarkMutation? then MUTATION_STARTED else IRREVERSIBLE_STARTED);
  }

  lemma EndSettles(rules: Rules, o: Operation, c: Command)
    requires Lawful(rules) && Settled(rules, o) && Permitted(rules, o, c) && (c.Fail? || c.Reconcile?)
    ensures Settled(rules, Replaced(rules, o, c))
  {
    if c.Fail? {
      LoggedEvents(rules, o, FailureStatus(o, c.rollbackSucceeded), o.phase, c.at, c.code);
    } else {
      LoggedEvents(rules, o, Reconciled, o.phase, c.at, RECONCILED);
    }
  }

  /** A permitted command writes a settled record. */
  lemma ReplacedSettles(rules: Rules, o: Operation, c: Command)
    requires Lawful(rules) && Settled(rules, o) && Permitted(rules, o, c) && !Already(o, c)
    ensures Settled(rules, Replaced(rules, o, c))
  {
    if c.Enter? || c.Succeed? {
      AdvanceSettles(rules, o, c);
    } else if c.MarkMutation? || c.MarkIrreversible? {
      MarkSettles(rules, o, c);
    } else {
      EndSettles(rules, o, c);
    }
  }

  lemma RefusalMeans(rules: Rules, o: Operation, c: Command)
    ensures Refusal(rules, o, c).None? <==> Permitted(rules, o, c)
  {
    if c.Enter? && Index(o.phase) + 1 < PHASES { IndexOfPhaseAt(Index(o.phase) + 1); }
  }

  lemma IndexOfPhaseAt(i: nat)
    requires i < PHASES
    ensures Index(PhaseAt(i)) == i
  {
  }

  /**
    The re-parse at the end of a transition never rejects and changes nothing: a command succeeds
    exactly when it is permitted, returns the record it wrote, and leaves a settled operation.
   */
  lemma ApplySettles(rules: Rules, o: Operation, c: Command)
    requires Lawful(rules) && Settled(rules, o)
    ensures Apply(rules, o, c).Ok? <==> Permitted(rules, o, c)
    ensures Apply(rules, o, c).Ok? ==>
      && Apply(rules, o, c).value == (if Already(o, c) then o else Replaced(rules, o, c))
      && Settled(rules, Apply(rules, o, c).value)
  {
    RefusalMeans(rules, o, c);
    if Permitted(rules, o, c) && !Already(o, c) {
      ReplacedSettles(rules, o, c);
      ParseOfPrint(rules, Replaced(rules, o, c));
    }
  }

  /** What no command touches, and the one event every effective command adds. */
  predicate Adds(o: Operation, v: Operation, status: Status, phase: Phase, at: string, code: string) {
    && v.identity == o.identity && v.createdAt == o.createdAt
    && v.status == status && v.phase == phase && v.updatedAt == at
    && v.events == o.events + [Event(status, phase, at, code)]
  }

  /** What a transition changes besides the status, the phase and the history. */
  lemma TransitionEffects(rules: Rules, o: Operation, c: Command)
    requires Lawful(rules) && Settled(rules, o) && Apply(rules, o, c).Ok? && !c.Fail?
    ensures var v := Apply(rules, o, c).value;
      match c
      case Enter(next, at) =>
        && Adds(o, v, Running, next, at, "FRESH_INSTALL_PHASE_ENTERED") && Index(next) == Index(o.phase) + 1
        && v.completedSteps == o.completedSteps + [rules.phaseName(o.phase)]
        && v.mutated == o.mutated && v.irreversible == o.irreversible && v.targetActive == o.targetActive
      case MarkMutation(at) =>
        && v.mutated && v.irreversible == o.irreversible && v.targetActive == o.targetActive
        && (o.mutated ==> v == o)
        && (!o.mutated ==> Adds(o, v, Running, o.phase, at, "FRESH_INSTALL_MUTATION_STARTED"))
      case MarkIrreversible(at) =>
        && v.mutated && v.irreversible && o.phase == DatabaseMigrating && v.targetActive == o.targetActive
        && (o.irreversible ==> v == o)
        && (!o.irreversible ==> Adds(o, v, Running, o.phase, at, "FRESH_INSTALL_IRREVERSIBLE_MUTATION_STARTED"))
      case Succeed(at) =>
        && Adds(o, v, Succeeded, Complete, at, "FRESH_INSTALL_SUCCEEDED") && o.phase == DoctorRunning
        && v.completedSteps == o.completedSteps + [rules.phaseName(DoctorRunning)] && v.targetActive == Some(true)
        && v.mutated == o.mutated && v.irreversible == o.irreversible
      case Reconcile(at) =>
        && Adds(o, v, Reconciled, o.phase, at, "FRESH_INSTALL_RECONCILED")
        && v.mutated == o.mutated && v.irreversible == o.irreversible && v.targetActive == o.targetActive
        && v.failedStep == o.failedStep && v.errorCode == o.errorCode
      case Fail(_, _, _, _) => true
  {
    ApplySettles(rules, o, c);
  }

  /**
    What becomes of a failing operation: nothing was changed, or the reported rollback undid it and
    nothing irreversible had begun, or somebody has to recover it by hand.
   */
  lemma FailDecides(rules: Rules, o: Operation, c: Command)
    requires Lawful(rules) && Settled(rules, o) && Apply(rules, o, c).Ok? && c.Fail?
    ensures var v := Apply(rules, o, c).value;
      && (v.status == FailedNoMutation <==> !o.mutated)
      && (v.status == RolledBack <==> o.mutated && !o.irreversible && c.rollbackSucceeded == Some(true))
      && (v.status == ManualRecoveryRequired <==>
            o.mutated && (o.irreversible || c.rollbackSucceeded == None || c.rollbackSucceeded == Some(false)))
  {
    ApplySettles(rules, o, c);
    match c.rollbackSucceeded
    case None =>
    case Some(succeeded) => assert succeeded || c.rollbackSucceeded == Some(false);
  }

  /** What a failure records. */
  lemma FailRecords(rules: Rules, o: Operation, c: Command)
    requires Lawful(rules) && Settled(rules, o) && Apply(rules, o, c).Ok? && c.Fail?
    ensures var v := Apply(rules, o, c).value;
      && Adds(o, v, v.status, o.phase, c.at, c.code)
      && v.failedStep == Some(rules.phaseName(o.phase)) && v.errorCode == Some(c.code)
      && v.targetActive == c.targetActive && v.completedSteps == o.completedSteps
      && v.mutated == o.mutated && v.irreversible == o.irreversible
  {
    ApplySettles(rules, o, c);
  }

  /** Every run from a created operation stays settled. */
  lemma {:induction false} RunSettles(rules: Rules, o: Operation, commands: seq<Command>)
    requires Lawful(rules) && Settled(rules, o)
    ensures Settled(rules, Run(rules, o, commands))
    decreases |commands|
  {
    if commands != [] {
      RunSettles(rules, o, commands[..|commands| - 1]);
      ApplySettles(rules, Run(rules, o, commands[..|commands| - 1]), commands[|commands| - 1]);
    }
  }

  /** What holds of the record after any run. */
  lemma RunGuarantees(rules: Rules, identity: Identity, at: string, commands: seq<Command>)
    requires Lawful(rules) && Create(rules, identity, at).Ok?
    ensures var o := Run(rules, Create(rules, identity, at).value, commands);
      && o.completedSteps == PhasesBefore(rules, Index(o.phase))
      && |o.events| <= 16
      && (o.irreversible ==> o.mutated && Index(o.phase) >= Index(DatabaseMigrating) && o.status != RolledBack)
      && (o.status == ManualRecoveryRequired ==> o.mutated)
      && (o.status == FailedNoMutation ==> !o.mutated)
      && Parse(rules, Printed(rules, o)) == Ok(o)
  {
    CreateSettles(rules, identity, at);
    var created := Create(rules, identity, at).value;
    RunSettles(rules, created, commands);
    ParseOfPrint(rules, Run(rules, created, commands));
  }

  // ----- What no run undoes

  /** `b` continues the history of `a`: same identity, longer history, no flag withdrawn, no phase left behind. */
  predicate Continues(a: Operation, b: Operation) {
    && b.identity == a.identity && b.createdAt == a.createdAt
    && a.events <= b.events
    && (a.mutated ==> b.mutated) && (a.irreversible ==> b.irreversible)
    && Index(a.phase) <= Index(b.phase)
    && (a.status != Running && a.status != ManualRecoveryRequired ==> b == a)
    && (a.status == ManualRecoveryRequired ==> b == a || b.status == Reconciled)
  }

  lemma ReplacedContinues(rules: Rules, o: Operation, c: Command)
    requires Permitted(rules, o, c) && !Already(o, c)
    ensures Continues(o, Replaced(rules, o, c))
  {
  }

  lemma ContinuesTwice(a: Operation, b: Operation, c: Operation)
    requires Continues(a, b) && Continues(b, c)
    ensures Continues(a, c)
  {
    assert a.events <= c.events by {
      assert b.events[..|a.events|] == a.events && c.events[..|b.events|] == b.events;
      assert c.events[..|a.events|] == a.events;
    }
  }

  /**
    A run only adds to the history.  Terminal states are absorbing, except that manual recovery may be
    reconciled; a mutation or irreversible mark is never withdrawn.
   */
  lemma {:induction false} RunContinues(rules: Rules, o: Operation, commands: seq<Command>)
    requires Lawful(rules) && Settled(rules, o)
    ensures Continues(o, Run(rules, o, commands))
    decreases |commands|
  {
    if commands != [] {
      var front, last := commands[..|commands| - 1], commands[|commands| - 1];
      RunContinues(rules, o, front);
      RunSettles(rules, o, front);
      var before := Run(rules, o, front);
      ApplySettles(rules, before, last);
      if Apply(rules, before, last).Ok? {
        if !Already(before, last) { ReplacedContinues(rules, before, last); }
        ContinuesTwice(o, before, Apply(rules, before, last).value);
      }
    }
  }

  /** Once irreversible, no run ends rolled back. */
  lemma IrreversibleNeverRollsBack(rules: Rules, o: Operation, commands: seq<Command>)
    requires Lawful(rules) && Settled(rules, o) && o.irreversible
    ensures Run(rules, o, commands).irreversible && Run(rules, o, commands).status != RolledBack
  {
    RunContinues(rules, o, commands);
    RunSettles(rules, o, commands);
  }

  lemma OnlyFailRollsBack(rules: Rules, o: Operation, c: Command)
    requires Lawful(rules) && Settled(rules, o) && Apply(rules, o, c).Ok?
    requires o.status != RolledBack && Apply(rules, o, c).value.status == RolledBack
    ensures c.Fail? && c.rollbackSucceeded == Some(true) && o.mutated && !o.irreversible
  {
    if c.Fail? { FailDecides(rules, o, c); } else { TransitionEffects(rules, o, c); }
  }

  /** The `k`-th command failed a changed, reversible operation and reported that it was rolled back. */
  predicate RollsBackAt(rules: Rules, o: Operation, commands: seq<Command>, k: nat)
    requires k < |commands|
  {
    var before, c := Run(rules, o, commands[..k]), commands[k];
    && Apply(rules, before, c).Ok? && c.Fail? && c.rollbackSucceeded == Some(true)
    && before.mutated && !before.irreversible
  }

  lemma RollsBackLast(rules: Rules, o: Operation, commands: seq<Command>)
    requires Lawful(rules) && commands != []
    requires var before := Run(rules, o, commands[..|commands| - 1]); Settled(rules, before) && before.status != RolledBack
    requires Run(rules, o, commands).status == RolledBack
    ensures RollsBackAt(rules, o, commands, |commands| - 1)
  {
    OnlyFailRollsBack(rules, Run(rules, o, commands[..|commands| - 1]), commands[|commands| - 1]);
  }

  lemma RollsBackEarlier(rules: Rules, o: Operation, commands: seq<Command>, k: nat)
    requires k < |commands| - 1 && RollsBackAt(rules, o, commands[..|commands| - 1], k)
    ensures RollsBackAt(rules, o, commands, k)
  {
    assert commands[..|commands| - 1][..k] == commands[..k];
  }

  lemma {:induction false} RunRolledBack(rules: Rules, o: Operation, commands: seq<Command>) returns (k: nat)
    requires Lawful(rules) && Settled(rules, o) && o.status != RolledBack
    requires Run(rules, o, commands).status == RolledBack
    ensures k < |commands| && RollsBackAt(rules, o, commands, k)
    decreases |commands|
  {
    var front := commands[..|commands| - 1];
    RunSettles(rules, o, front);
    if Run(rules, o, front).status == RolledBack {
      k := RunRolledBack(rules, o, front);
      RollsBackEarlier(rules, o, commands, k);
    } else {
      k := |front|;
      RollsBackLast(rules, o, commands);
    }
  }

  /** A created operation is rolled back only when an executed failure reported a successful rollback. */
  lemma RolledBackMeans(rules: Rules, identity: Identity, at: string, commands: seq<Command>) returns (k: nat)
    requires Lawful(rules) && Create(rules, identity, at).Ok?
    requires Run(rules, Create(rules, identity, at).value, commands).status == RolledBack
    ensures k < |commands| && RollsBackAt(rules, Create(rules, identity, at).value, commands, k)
  {
    CreateSettles(rules, identity, at);
    CreatedAtStart(rules, identity, at);
    k := RunRolledBack(rules, Create(rules, identity, at).value, commands);
  }

  function EveryStep(rules: Rules): seq<string> {
    [
      rules.phaseName(PreflightVerified), rules.phaseName(RootsPreparing), rules.phaseName(ConfigStaging),
      rules.phaseName(MaterialStaging), rules.phaseName(ServicesPreparing), rules.phaseName(DatabaseMigrating),
      rules.phaseName(Bootstrapping), rules.phaseName(RuntimeStarting), rules.phaseName(Validating),
      rules.phaseName(UpdaterAdopting), rules.phaseName(DoctorRunning)]
  }

  lemma SucceededSteps(rules: Rules, o: Operation)
    requires Settled(rules, o) && o.status == Succeeded
    ensures o.completedSteps == PhasesBefore(rules, 11)
  {
  }

  /** After a success every phase before the last was completed, in this order. */
  lemma SuccessCompletesAll(rules: Rules, identity: Identity, at: string, commands: seq<Command>)
    requires Lawful(rules) && Create(rules, identity, at).Ok?
    requires Run(rules, Create(rules, identity, at).value, commands).status == Succeeded
    ensures Run(rules, Create(rules, identity, at).value, commands).completedSteps == EveryStep(rules)
  {
    CreateSettles(rules, identity, at);
    RunSettles(rules, Create(rules, identity, at).value, commands);
    SucceededSteps(rules, Run(rules, Create(rules, identity, at).value, commands));
    AllPhases(rules);
  }

  lemma AllPhases(rules: Rules)
    ensures PhasesBefore(rules, 11) == EveryStep(rules)
  {
    assert PhasesBefore(rules, 4) == PhasesBefore(rules, 2) + [rules.phaseName(ConfigStaging), rules.phaseName(MaterialStaging)];
    assert PhasesBefore(rules, 6) == PhasesBefore(rules, 4)
      + [rules.phaseName(ServicesPreparing), rules.phaseName(DatabaseMigrating)];
    assert PhasesBefore(rules, 8) == PhasesBefore(rules, 6)
      + [rules.phaseName(Bootstrapping), rules.phaseName(RuntimeStarting)];
    assert PhasesBefore(rules, 10) == PhasesBefore(rules, 8)
      + [rules.phaseName(Validating), rules.phaseName(UpdaterAdopting)];
  }

  /** The last phase is meant to be entered by succeeding: a running operation that enters it can only fail. */
  lemma {:induction false} CompleteWhileRunningNeverSucceeds(rules: Rules, o: Operation, commands: seq<Command>)
    requires Lawful(rules) && Settled(rules, o) && o.phase == Complete && o.status != Succeeded
    ensures Run(rules, o, commands).status != Succeeded
    decreases |commands|
  {
    if commands != [] {
      var front, last := commands[..|commands| - 1], commands[|commands| - 1];
      CompleteWhileRunningNeverSucceeds(rules, o, front);
      RunContinues(rules, o, front);
      RunSettles(rules, o, front);
      var before := Run(rules, o, front);
      LastPhase(before.phase);
      ApplySettles(rules, before, last);
      if Permitted(rules, before, last) { NotBySucceeding(rules, before, last); }
    }
  }

  lemma LastPhase(p: Phase)
    requires Index(p) >= Index(Complete)
    ensures p == Complete
  {
  }

  lemma NotBySucceeding(rules: Rules, o: Operation, c: Command)
    requires Permitted(rules, o, c) && o.phase == Complete && o.status != Succeeded
    ensures Replaced(rules, o, c).status != Succeeded
  {
  }

  /** The next `n` phases after the `from`-th, entered one by one. */
  function Entering(from: nat, n: nat, at: string): (r: seq<Command>)
    ensures |r| == n
  {
    if n == 0 then [] else Entering(from, n - 1, at) + [Enter(PhaseAt(from + n), at)]
  }

  predicate RunsAt(rules: Rules, o: Operation, i: nat) {
    Settled(rules, o) && o.status == Running && Index(o.phase) == i
  }

  lemma EntersNext(rules: Rules, o: Operation, commands: seq<Command>, i: nat, at: string)
    requires Lawful(rules) && RunsAt(rules, Run(rules, o, commands), i) && i + 1 < PHASES && rules.timestamp(at)
    ensures RunsAt(rules, Run(rules, o, commands + [Enter(PhaseAt(i + 1), at)]), i + 1)
  {
    IndexOfPhaseAt(i + 1);
    ApplySettles(rules, Run(rules, o, commands), Enter(PhaseAt(i + 1), at));
    RunOneMore(rules, o, commands, Enter(PhaseAt(i + 1), at));
  }

  /** A running operation can be taken on to every later phase, the last one included. */
  lemma {:induction false} LaterPhasesReachable(rules: Rules, o: Operation, n: nat, at: string)
    requires Lawful(rules) && RunsAt(rules, o, Index(o.phase)) && Index(o.phase) + n < PHASES && rules.timestamp(at)
    ensures RunsAt(rules, Run(rules, o, Entering(Index(o.phase), n, at)), Index(o.phase) + n)
  {
    if n > 0 {
      LaterPhasesReachable(rules, o, n - 1, at);
      EntersNext(rules, o, Entering(Index(o.phase), n - 1, at), Index(o.phase) + n - 1, at);
    }
  }

  lemma RunOneMore(rules: Rules, o: Operation, commands: seq<Command>, c: Command)
    ensures Run(rules, o, commands + [c]) ==
      var before := Run(rules, o, commands);
      if Apply(rules, before, c).Ok? then Apply(rules, before, c).value else before
  {
    assert (commands + [c])[..|commands + [c]| - 1] == commands;
  }

  lemma PresentIsTimestamp(rules: Rules, o: Operation)
    requires Settled(rules, o)
    ensures rules.timestamp(o.updatedAt)
  {
    assert rules.timestamp(o.events[|o.events| - 1].at);
  }

  /** Every created operation can be taken to the state from which it can only fail. */
  lemma CompleteWhileRunningReached(rules: Rules, identity: Identity, at: string) returns (commands: seq<Command>)
    requires Lawful(rules) && Create(rules, identity, at).Ok?
    ensures var v := Run(rules, Create(rules, identity, at).value, commands); v.status == Running && v.phase == Complete
  {
    CreateSettles(rules, identity, at);
    var o := Create(rules, identity, at).value;
    CreatedAtStart(rules, identity, at);
    PresentIsTimestamp(rules, o);
    LaterPhasesReachable(rules, o, PHASES - 1, o.updatedAt);
    commands := Entering(0, PHASES - 1, o.updatedAt);
    LastPhase(Run(rules, o, commands).phase);
  }

  lemma CreatedAtStart(rules: Rules, identity: Identity, at: string)
    requires Lawful(rules) && Create(rules, identity, at).Ok?
    ensures var o := Create(rules, identity, at).value;
      && o.identity == identity && o.status == Running && Index(o.phase) == 0 && o.phase == PreflightVerified
      && !o.mutated && !o.irreversible && o.completedSteps == [] && o.targetActive == Some(false)
      && o.createdAt == at && o.events == [Event(Running, PreflightVerified, at, "FRESH_INSTALL_CREATED")]
  {
    ParseOfPrint(rules, Operation(
      identity, Running, PreflightVerified, false, false, [], None, None, Some(false), at, at,
      [Event(Running, PreflightVerified, at, CREATED)]));
  }

  lemma SucceedsAtDoctor(rules: Rules, o: Operation, commands: seq<Command>, at: string)
    requires Lawful(rules) && RunsAt(rules, Run(rules, o, commands), Index(DoctorRunning)) && rules.timestamp(at)
    ensures Run(rules, o, commands + [Succeed(at)]).status == Succeeded
  {
    AtDoctor(Run(rules, o, commands).phase);
    ApplySettles(rules, Run(rules, o, commands), Succeed(at));
    RunOneMore(rules, o, commands, Succeed(at));
  }

  lemma AtDoctor(p: Phase)
    requires Index(p) == Index(DoctorRunning)
    ensures p == DoctorRunning
  {
  }

  lemma BeforeLast(p: Phase)
    requires p != Complete
    ensures Index(p) <= Index(DoctorRunning)
  {
  }

  /** From any running operation that has not entered the last phase, some run succeeds. */
  lemma SucceedsFrom(rules: Rules, o: Operation) returns (commands: seq<Command>)
    requires Lawful(rules) && RunsAt(rules, o, Index(o.phase)) && o.phase != Complete
    ensures Run(rules, o, commands).status == Succeeded
  {
    BeforeLast(o.phase);
    var n := Index(DoctorRunning) - Index(o.phase);
    PresentIsTimestamp(rules, o);
    LaterPhasesReachable(rules, o, n, o.updatedAt);
    commands := Entering(Index(o.phase), n, o.updatedAt);
    SucceedsAtDoctor(rules, o, commands, o.updatedAt);
    commands := commands + [Succeed(o.updatedAt)];
  }

  /** Exactly which operations can still end in success. */
  lemma SuccessReachable(rules: Rules, o: Operation)
    requires Lawful(rules) && Settled(rules, o)
    ensures (exists commands: seq<Command> :: Run(rules, o, commands).status == Succeeded)
      <==> o.status == Succeeded || (o.status == Running && o.phase != Complete)
  {
    if o.status == Succeeded {
      var none: seq<Command> := [];
      assert Run(rules, o, none).status == Succeeded;
    } else if o.status == Running && o.phase != Complete {
      var commands := SucceedsFrom(rules, o);
      assert Run(rules, o, commands).status == Succeeded;
    } else {
      forall commands: seq<Command> ensures Run(rules, o, commands).status != Succeeded {
        if o.status == Running {
          CompleteWhileRunningNeverSucceeds(rules, o, commands);
        } else {
          RunContinues(rules, o, commands);
        }
      }
    }
  }

  // ----- The texts of the enumerations

  function PhaseText(p: Phase): string {
    match p
    case PreflightVerified => "preflight_verified"
    case RootsPreparing => "roots_preparing"
    case ConfigStaging => "config_staging"
    case MaterialStaging => "material_staging"
    case ServicesPreparing => "services_preparing"
    case DatabaseMigrating => "database_migrating"
    case Bootstrapping => "bootstrapping"
    case RuntimeStarting => "runtime_starting"
    case Validating => "validating"
    case UpdaterAdopting => "updater_adopting"
    case DoctorRunning => "doctor"
    case Complete => "complete"
  }

  function StatusText(s: Status): string {
    match s
    case Running => "running"
    case Succeeded => "succeeded"
    case FailedNoMutation => "failed_no_mutation"
    case RolledBack => "rolled_back"
    case ManualRecoveryRequired => "manual_recovery_required"
    case Reconciled => "reconciled"
  }

  /** The first phase, from `from` on, with this text. */
  function PhaseFrom(t: string, from: nat): Option<Phase>
    decreases PHASES - from
  {
    if from >= PHASES then None
    else if PhaseText(PhaseAt(from)) == t then Some(PhaseAt(from))
    else PhaseFrom(t, from + 1)
  }

  /** The texts of the phases are pairwise different. */
  lemma PhaseTextsDiffer(p: Phase, q: Phase)
    requires PhaseText(p) == PhaseText(q)
    ensures p == q
  {
    var a, b := PhaseText(p), PhaseText(q);
    assert |a| == |b| && a[0] == b[0] && a[3] == b[3];
  }

  lemma {:induction false} PhaseReadsBack(p: Phase, from: nat)
    requires from <= Index(p)
    ensures PhaseFrom(PhaseText(p), from) == Some(p)
    decreases PHASES - from
  {
    if from < Index(p) {
      PhaseReadsBack(p, from + 1);
      if PhaseText(PhaseAt(from)) == PhaseText(p) {
        PhaseTextsDiffer(PhaseAt(from), p);
      }
    }
  }

  lemma {:induction false} PhaseFromIsText(t: string, from: nat)
    ensures PhaseFrom(t, from).Some? ==> PhaseText(PhaseFrom(t, from).value) == t
    decreases PHASES - from
  {
    if from < PHASES && PhaseText(PhaseAt(from)) != t { PhaseFromIsText(t, from + 1); }
  }

  function StatusFrom(t: string): Option<Status> {
    if t == StatusText(Running) then Some(Running)
    else if t == StatusText(Succeeded) then Some(Succeeded)
    else if t == StatusText(FailedNoMutation) then Some(FailedNoMutation)
    else if t == StatusText(RolledBack) then Some(RolledBack)
    else if t == StatusText(ManualRecoveryRequired) then Some(ManualRecoveryRequired)
    else if t == StatusText(Reconciled) then Some(Reconciled)
    else None
  }

  /** The texts of the statuses are pairwise different. */
  lemma StatusReadsBack(s: Status)
    ensures StatusFrom(StatusText(s)) == Some(s)
  {
    assert |StatusText(Running)| == 7 && |StatusText(Succeeded)| == 9 && |StatusText(FailedNoMutation)| == 18;
    assert |StatusText(RolledBack)| == 11 && |StatusText(ManualRecoveryRequired)| == 24 && |StatusText(Reconciled)| == 10;
  }

  function TextRules(
    id: string -> bool, uuid: string -> bool, digest: string -> bool, instanceName: string -> bool,
    timestamp: string -> bool, code: string -> bool): Rules {
    Rules(
      PhaseText, (t: string) => PhaseFrom(t, 0), StatusText, StatusFrom, id, uuid, digest, instanceName, timestamp,
      code)
  }

  lemma TextRulesLawful(
    id: string -> bool, uuid: string -> bool, digest: string -> bool, instanceName: string -> bool,
    timestamp: string -> bool, code: string -> bool)
    requires code(CREATED) && code(PHASE_ENTERED) && code(MUTATION_STARTED) && code(IRREVERSIBLE_STARTED)
    requires code(SUCCEEDED) && code(RECONCILED)
    ensures Lawful(TextRules(id, uuid, digest, instanceName, timestamp, code))
  {
    forall p ensures PhaseFrom(PhaseText(p), 0) == Some(p) { PhaseReadsBack(p, 0); }
    forall s ensures StatusFrom(StatusText(s)) == Some(s) { StatusReadsBack(s); }
    forall t: string ensures PhaseFrom(t, 0).Some? ==> PhaseText(PhaseFrom(t, 0).value) == t {
      PhaseFromIsText(t, 0);
    }
  }
}
