/**
  The Compatibility Matrix v1 decision engine and the migration gate that re-evaluates its decisions.

  Records are typed here, so the run-time type checks of the host code have no counterpart; the
  evidence inside them is not typed and is normalised by the walk of module Evidence.
 */
module Compatibility {
  import opened Wrappers
  import opened Evidence

  datatype Outcome = Compatible | RequiresUpgrade | Unsupported | Corrupt

  datatype Operation = Install | Update | Backup | Restore | Migration | Doctor

  datatype Dimension =
    | Format | IntegrityAuthentication | DeploymentContract | SchemaContracts
    | ExactReleaseIdentity | PlatformRuntime | SupportedPath

  datatype Reason =
    | AllDimensionsCompatible
    | FormatSupported | FormatConversionRequired | FormatIdentityUnsupported | FormatVersionUnsupported
    | FormatBoundsExceeded | FormatStructureCorrupt
    | IntegrityAuthenticated | IntegritySchemeUnsupported | ChecksumMismatch | AuthenticationFailed
    | CrossMemberBindingFailed
    | EnvelopeCompatible | EnvelopeUpgradeRequired | EnvelopeVersionUnsupported | EnvelopeSuiteUnsupported
    | EnvelopeAuthenticationFailed | EnvelopeStructureCorrupt
    | DeploymentContractSupported | DeploymentCutoverRequired | DeploymentContractUnsupported
    | DeploymentContractInvalid
    | SchemaContractsSupported | SchemaMigrationRequired | SchemaContractUnsupported | SchemaContractInvalid
    | ReleaseIdentityVerified | ReleaseHopRequired | ReleaseIdentityUnsupported | ReleaseIdentityInvalid
    | PlatformRuntimeSupported | PlatformRuntimeUpgradeRequired | PlatformRuntimeUnsupported
    | PlatformRuntimeEvidenceInvalid
    | DirectPathSupported | OrderedPathRequired | SupportedPathUnavailable | SupportedPathInvalid

  datatype Artifact = Artifact(formatIdentity: string, formatVersion: int, artifactId: string, manifestDigest: string)

  datatype Assessment = Assessment(name: Dimension, outcome: Outcome, reason: Reason, source: Value, target: Value)

  datatype Action = Action(order: int, kind: string, input: Value, output: Value, release: Value)

  datatype Decision = Decision(
    operation: Operation, outcome: Outcome, reason: Reason, summary: string, blocking: Option<Dimension>,
    artifact: Artifact, dimensions: seq<Assessment>, actions: seq<Action>)

  /** The operation arrives as an enumeration member or as its text. */
  datatype OperationInput = Member(operation: Operation) | Text(text: string)

  /** The rules of a matrix: its dimensions in order, its reason table and the tests on single strings. */
  datatype Matrix = Matrix(
    order: seq<Dimension>, context: Reason -> Option<(Dimension, Outcome)>, heuristics: Heuristics,
    formatIdentity: string -> bool, digest: string -> bool, actionKind: string -> bool)

  /** Matrix v1, for given string tests. */
  function MatrixV1(
    heuristics: Heuristics, formatIdentity: string -> bool, digest: string -> bool, actionKind: string -> bool)
    : (m: Matrix)
    ensures m.order != []
  {
    Matrix(
      [Format, IntegrityAuthentication, DeploymentContract, SchemaContracts, ExactReleaseIdentity, PlatformRuntime,
       SupportedPath],
      Context, heuristics, formatIdentity, digest, actionKind)
  }

  const MAX_VERSION := 2147483647
  const MAX_ARTIFACT_ID := 512

  /** The only dimension and outcome a reason may accompany. */
  function Context(r: Reason): Option<(Dimension, Outcome)> {
    match r
    case AllDimensionsCompatible => None
    case FormatSupported => Some((Format, Compatible))
    case FormatConversionRequired => Some((Format, RequiresUpgrade))
    case FormatIdentityUnsupported => Some((Format, Unsupported))
    case FormatVersionUnsupported => Some((Format, Unsupported))
    case FormatBoundsExceeded => Some((Format, Corrupt))
    case FormatStructureCorrupt => Some((Format, Corrupt))
    case IntegrityAuthenticated => Some((IntegrityAuthentication, Compatible))
    case IntegritySchemeUnsupported => Some((IntegrityAuthentication, Unsupported))
    case ChecksumMismatch => Some((IntegrityAuthentication, Corrupt))
    case AuthenticationFailed => Some((IntegrityAuthentication, Corrupt))
    case CrossMemberBindingFailed => Some((IntegrityAuthentication, Corrupt))
    case EnvelopeCompatible => Some((Format, Compatible))
    case EnvelopeUpgradeRequired => Some((Format, RequiresUpgrade))
    case EnvelopeVersionUnsupported => Some((Format, Unsupported))
    case EnvelopeSuiteUnsupported => Some((IntegrityAuthentication, Unsupported))
    case EnvelopeAuthenticationFailed => Some((IntegrityAuthentication, Corrupt))
    case EnvelopeStructureCorrupt => Some((Format, Corrupt))
    case DeploymentContractSupported => Some((DeploymentContract, Compatible))
    case DeploymentCutoverRequired => Some((DeploymentContract, RequiresUpgrade))
    case DeploymentContractUnsupported => Some((DeploymentContract, Unsupported))
    case DeploymentContractInvalid => Some((DeploymentContract, Corrupt))
    case SchemaContractsSupported => Some((SchemaContracts, Compatible))
    case SchemaMigrationRequired => Some((SchemaContracts, RequiresUpgrade))
    case SchemaContractUnsupported => Some((SchemaContracts, Unsupported))
    case SchemaContractInvalid => Some((SchemaContracts, Corrupt))
    case ReleaseIdentityVerified => Some((ExactReleaseIdentity, Compatible))
    case ReleaseHopRequired => Some((ExactReleaseIdentity, RequiresUpgrade))
    case ReleaseIdentityUnsupported => Some((ExactReleaseIdentity, Unsupported))
    case ReleaseIdentityInvalid => Some((ExactReleaseIdentity, Corrupt))
    case PlatformRuntimeSupported => Some((PlatformRuntime, Compatible))
    case PlatformRuntimeUpgradeRequired => Some((PlatformRuntime, RequiresUpgrade))
    case PlatformRuntimeUnsupported => Some((PlatformRuntime, Unsupported))
    case PlatformRuntimeEvidenceInvalid => Some((PlatformRuntime, Corrupt))
    case DirectPathSupported => Some((SupportedPath, Compatible))
    case OrderedPathRequired => Some((SupportedPath, RequiresUpgrade))
    case SupportedPathUnavailable => Some((SupportedPath, Unsupported))
    case SupportedPathInvalid => Some((SupportedPath, Corrupt))
  }

  function Rank(o: Outcome): nat {
    match o
    case Compatible => 0
    case RequiresUpgrade => 1
    case Unsupported => 2
    case Corrupt => 3
  }

  function Summary(o: Outcome): string {
    match o
    case Compatible => "All required compatibility dimensions are compatible."
    case RequiresUpgrade => "A complete, ordered and supported upgrade path is required."
    case Unsupported => "At least one required compatibility dimension is unsupported."
    case Corrupt => "Artifact structure or authenticated integrity is corrupt."
  }

  function OperationOf(input: OperationInput): Option<Operation> {
    match input
    case Member(operation) => Some(operation)
    case Text(text) =>
      if text == "install" then Some(Install)
      else if text == "update" then Some(Update)
      else if text == "backup" then Some(Backup)
      else if text == "restore" then Some(Restore)
      else if text == "migration" then Some(Migration)
      else if text == "doctor" then Some(Doctor)
      else None
  }

  function OperationText(o: Operation): string {
    match o
    case Install => "install"
    case Update => "update"
    case Backup => "backup"
    case Restore => "restore"
    case Migration => "migration"
    case Doctor => "doctor"
  }

  /** Every operation reads back from its own text, and from no other. */
  lemma OperationReadsBack(text: string, o: Operation)
    ensures OperationOf(Text(text)) == Some(o) <==> text == OperationText(o)
  {
    assert |OperationText(Backup)| == |OperationText(Update)| == |OperationText(Doctor)| == 6;
    assert OperationText(Backup)[0] == 'b' && OperationText(Update)[0] == 'u' && OperationText(Doctor)[0] == 'd';
    assert |OperationText(Install)| == |OperationText(Restore)| == 7;
    assert OperationText(Install)[0] == 'i' && OperationText(Restore)[0] == 'r';
    assert |OperationText(Migration)| == 9;
  }

  // ----- The reference: which inputs are facts, and what they amount to

  predicate ArtifactAllowed(m: Matrix, a: Artifact) {
    && m.formatIdentity(a.formatIdentity)
    && 1 <= a.formatVersion <= MAX_VERSION
    && 0 < |a.artifactId| <= MAX_ARTIFACT_ID && !m.heuristics.sensitiveString(a.artifactId)
    && m.digest(a.manifestDigest)
  }

  ghost predicate Known(m: Matrix, v: Value) {
    NormalEvidence(m.heuristics, v).Some?
  }

  ghost predicate AssessmentAllowed(m: Matrix, a: Assessment, expected: Dimension) {
    && a.name == expected
    && m.context(a.reason) == Some((a.name, a.outcome))
    && Known(m, a.source) && Known(m, a.target)
  }

  ghost predicate ActionAllowed(m: Matrix, a: Action) {
    m.actionKind(a.kind) && Known(m, a.input) && Known(m, a.output) && Known(m, a.release)
  }

  /** The assessments answer the dimensions one by one, in order. */
  ghost predicate Answers(m: Matrix, dims: seq<Assessment>, order: seq<Dimension>)
    requires |dims| <= |order|
  {
    dims == []
    || (Answers(m, dims[..|dims| - 1], order) && AssessmentAllowed(m, dims[|dims| - 1], order[|dims| - 1]))
  }

  ghost predicate DimensionsAllowed(m: Matrix, dims: seq<Assessment>) {
    |dims| == |m.order| && Answers(m, dims, m.order)
  }

  ghost predicate AllActions(m: Matrix, actions: seq<Action>) {
    actions == [] || (AllActions(m, actions[..|actions| - 1]) && ActionAllowed(m, actions[|actions| - 1]))
  }

  predicate Numbered(actions: seq<Action>) {
    forall k :: 0 <= k < |actions| ==> actions[k].order == k + 1
  }

  ghost predicate ActionsAllowed(m: Matrix, actions: seq<Action>) {
    |actions| <= MAX_MEMBERS && AllActions(m, actions) && Numbered(actions)
  }

  function NormalAssessment(a: Assessment): Assessment {
    a.(source := Normal(a.source), target := Normal(a.target))
  }

  function NormalAction(a: Action): Action {
    a.(input := Normal(a.input), output := Normal(a.output), release := Normal(a.release))
  }

  function NormalDimensions(dims: seq<Assessment>): (r: seq<Assessment>)
    ensures |r| == |dims|
  {
    if dims == [] then [] else NormalDimensions(dims[..|dims| - 1]) + [NormalAssessment(dims[|dims| - 1])]
  }

  function NormalActions(actions: seq<Action>): (r: seq<Action>)
    ensures |r| == |actions|
  {
    if actions == [] then [] else NormalActions(actions[..|actions| - 1]) + [NormalAction(actions[|actions| - 1])]
  }

  /** Normalising evidence moves no outcome, reason or name. */
  lemma {:induction false} NormalDimensionAt(dims: seq<Assessment>, k: nat)
    requires k < |dims|
    ensures NormalDimensions(dims)[k] == NormalAssessment(dims[k])
    decreases |dims|
  {
    if k < |dims| - 1 { NormalDimensionAt(dims[..|dims| - 1], k); }
  }

  lemma {:induction false} NormalActionAt(actions: seq<Action>, k: nat)
    requires k < |actions|
    ensures NormalActions(actions)[k] == NormalAction(actions[k])
    decreases |actions|
  {
    if k < |actions| - 1 { NormalActionAt(actions[..|actions| - 1], k); }
  }

  lemma {:induction false} AnswersAt(m: Matrix, dims: seq<Assessment>, order: seq<Dimension>, k: nat)
    requires k < |dims| <= |order| && Answers(m, dims, order)
    ensures AssessmentAllowed(m, dims[k], order[k])
    decreases |dims|
  {
    if k < |dims| - 1 { AnswersAt(m, dims[..|dims| - 1], order, k); }
  }

  lemma {:induction false} ActionAt(m: Matrix, actions: seq<Action>, k: nat)
    requires k < |actions| && AllActions(m, actions)
    ensures ActionAllowed(m, actions[k])
    decreases |actions|
  {
    if k < |actions| - 1 { ActionAt(m, actions[..|actions| - 1], k); }
  }

  /** The checks on the first `n + 1` assessments, from those on the first `n`. */
  lemma OneMoreAssessment(m: Matrix, dims: seq<Assessment>, order: seq<Dimension>, n: nat)
    requires n < |dims| <= |order|
    ensures Answers(m, dims[..n + 1], order)
      <==> Answers(m, dims[..n], order) && AssessmentAllowed(m, dims[n], order[n])
    ensures Answers(m, dims, order) ==> AssessmentAllowed(m, dims[n], order[n])
  {
    assert dims[..n + 1][..n] == dims[..n];
    if Answers(m, dims, order) { AnswersAt(m, dims, order, n); }
  }

  lemma OneMoreAction(m: Matrix, actions: seq<Action>, n: nat)
    requires n < |actions|
    ensures AllActions(m, actions[..n + 1]) <==> AllActions(m, actions[..n]) && ActionAllowed(m, actions[n])
    ensures AllActions(m, actions) ==> ActionAllowed(m, actions[n])
  {
    assert actions[..n + 1][..n] == actions[..n];
    if AllActions(m, actions) { ActionAt(m, actions, n); }
  }

  lemma NormalOneMore(dims: seq<Assessment>, n: nat)
    requires n < |dims|
    ensures NormalDimensions(dims[..n + 1]) == NormalDimensions(dims[..n]) + [NormalAssessment(dims[n])]
  {
    assert dims[..n + 1][..n] == dims[..n];
  }

  lemma NormalActionsOneMore(actions: seq<Action>, n: nat)
    requires n < |actions|
    ensures NormalActions(actions[..n + 1]) == NormalActions(actions[..n]) + [NormalAction(actions[n])]
  {
    assert actions[..n + 1][..n] == actions[..n];
  }

  /** The outcome that no dimension exceeds and some dimension has. */
  ghost predicate IsWorst(o: Outcome, dims: seq<Assessment>) {
    && (exists k :: 0 <= k < |dims| && dims[k].outcome == o)
    && (forall k :: 0 <= k < |dims| ==> Rank(dims[k].outcome) <= Rank(o))
  }

  ghost predicate IsFirst(k: int, o: Outcome, dims: seq<Assessment>) {
    && 0 <= k < |dims| && dims[k].outcome == o
    && (forall j :: 0 <= j < k ==> dims[j].outcome != o)
  }

  /** An upgrade needs an upgradable path and a plan; any other outcome allows no plan. */
  ghost predicate PlanFits(o: Outcome, dims: seq<Assessment>, actions: seq<Action>) {
    if o == RequiresUpgrade then dims != [] && dims[|dims| - 1].outcome == RequiresUpgrade && actions != []
    else actions == []
  }

  /** A decision whose outcome, reason, summary and blocker are what its own dimensions amount to. */
  ghost predicate Coherent(d: Decision) {
    && IsWorst(d.outcome, d.dimensions) && PlanFits(d.outcome, d.dimensions, d.actions)
    && d.summary == Summary(d.outcome)
    && (if d.outcome == Compatible then d.reason == AllDimensionsCompatible && d.blocking == None
        else exists k :: IsFirst(k, d.outcome, d.dimensions) && Blames(d, k))
  }

  predicate Blames(d: Decision, k: int) {
    0 <= k < |d.dimensions| && d.reason == d.dimensions[k].reason && d.blocking == Some(d.dimensions[k].name)
  }

  /** The inputs are facts the matrix can weigh. */
  ghost predicate FactsAllowed(
    m: Matrix, operation: OperationInput, artifact: Artifact, dims: seq<Assessment>, actions: seq<Action>) {
    && OperationOf(operation).Some? && ArtifactAllowed(m, artifact)
    && DimensionsAllowed(m, dims) && ActionsAllowed(m, actions)
  }

  /** The upgrade plan suits the worst outcome. */
  ghost predicate Plannable(dims: seq<Assessment>, actions: seq<Action>) {
    exists o :: IsWorst(o, dims) && PlanFits(o, dims, actions)
  }

  /** The decision is about these facts, normalised. */
  predicate About(
    d: Decision, operation: OperationInput, artifact: Artifact, dims: seq<Assessment>, actions: seq<Action>) {
    && OperationOf(operation) == Some(d.operation) && d.artifact == artifact
    && d.dimensions == NormalDimensions(dims) && d.actions == NormalActions(actions)
  }

  /** `d` is what the matrix says of these facts. */
  ghost predicate Judges(
    m: Matrix, d: Decision, operation: OperationInput, artifact: Artifact, dims: seq<Assessment>,
    actions: seq<Action>) {
    FactsAllowed(m, operation, artifact, dims, actions) && About(d, operation, artifact, dims, actions) && Coherent(d)
  }

  lemma WorstUnique(a: Outcome, b: Outcome, dims: seq<Assessment>)
    requires IsWorst(a, dims) && IsWorst(b, dims)
    ensures a == b
  {
  }

  lemma FirstUnique(i: int, j: int, o: Outcome, dims: seq<Assessment>)
    requires IsFirst(i, o, dims) && IsFirst(j, o, dims)
    ensures i == j
  {
  }

  /** A coherent decision is determined by what it is about. */
  lemma CoherentUnique(a: Decision, b: Decision)
    requires Coherent(a) && Coherent(b)
    requires a.operation == b.operation && a.artifact == b.artifact
    requires a.dimensions == b.dimensions && a.actions == b.actions
    ensures a == b
  {
    WorstUnique(a.outcome, b.outcome, a.dimensions);
    if a.outcome != Compatible {
      var i :| IsFirst(i, a.outcome, a.dimensions) && Blames(a, i);
      var j :| IsFirst(j, b.outcome, b.dimensions) && Blames(b, j);
      FirstUnique(i, j, a.outcome, a.dimensions);
    }
  }

  /** The matrix never answers in two ways. */
  lemma JudgementUnique(
    m: Matrix, a: Decision, b: Decision, operation: OperationInput, artifact: Artifact, dims: seq<Assessment>,
    actions: seq<Action>)
    requires Judges(m, a, operation, artifact, dims, actions)
    requires Judges(m, b, operation, artifact, dims, actions)
    ensures a == b
  {
    CoherentUnique(a, b);
  }

  // ----- The evaluator

  method NormalizeAssessment(m: Matrix, a: Assessment, expected: Dimension) returns (r: Result<Assessment, string>)
    ensures r.Ok? <==> AssessmentAllowed(m, a, expected)
    ensures r.Ok? ==> r.value == NormalAssessment(a)
  {
    if a.name != expected {
      return Err("DIMENSIONS_INVALID");
    }
    if m.context(a.reason) != Some((a.name, a.outcome)) {
      return Err("REASON_CODE_INVALID");
    }
    var source := NormalizeEvidence(m.heuristics, a.source);
    if source.Err? {
      return Err(source.error);
    }
    var target := NormalizeEvidence(m.heuristics, a.target);
    if target.Err? {
      return Err(target.error);
    }
    return Ok(Assessment(a.name, a.outcome, a.reason, source.value, target.value));
  }

  method NormalizeDimensions(m: Matrix, dims: seq<Assessment>) returns (r: Result<seq<Assessment>, string>)
    ensures r.Ok? <==> DimensionsAllowed(m, dims)
    ensures r.Ok? ==> r.value == NormalDimensions(dims)
  {
    if |dims| != |m.order| {
      return Err("DIMENSIONS_INVALID");
    }
    var normalized: seq<Assessment> := [];
    for k := 0 to |dims|
      invariant Answers(m, dims[..k], m.order) && normalized == NormalDimensions(dims[..k])
    {
      OneMoreAssessment(m, dims, m.order, k);
      NormalOneMore(dims, k);
      var one := NormalizeAssessment(m, dims[k], m.order[k]);
      if one.Err? {
        return Err(one.error);
      }
      normalized := normalized + [one.value];
    }
    assert dims[..|dims|] == dims;
    return Ok(normalized);
  }

  method NormalizeActions(m: Matrix, actions: seq<Action>) returns (r: Result<seq<Action>, string>)
    ensures r.Ok? <==> ActionsAllowed(m, actions)
    ensures r.Ok? ==> r.value == NormalActions(actions)
  {
    if |actions| > MAX_MEMBERS {
      return Err("ACTIONS_INVALID");
    }
    var normalized: seq<Action> := [];
    for k := 0 to |actions|
      invariant AllActions(m, actions[..k]) && normalized == NormalActions(actions[..k])
    {
      OneMoreAction(m, actions, k);
      NormalActionsOneMore(actions, k);
      var one := NormalizeAction(m, actions[k]);
      if one.Err? {
        return Err(one.error);
      }
      normalized := normalized + [one.value];
    }
    assert actions[..|actions|] == actions;
    NumberedNormal(actions);
    if !Numbered(normalized) {
      return Err("ACTION_ORDER_INVALID");
    }
    return Ok(normalized);
  }

  lemma NumberedNormal(actions: seq<Action>)
    ensures Numbered(NormalActions(actions)) <==> Numbered(actions)
  {
    forall k | 0 <= k < |actions| ensures NormalActions(actions)[k].order == actions[k].order {
      NormalActionAt(actions, k);
    }
  }

  method NormalizeAction(m: Matrix, action: Action) returns (r: Result<Action, string>)
    ensures r.Ok? <==> ActionAllowed(m, action)
    ensures r.Ok? ==> r.value == NormalAction(action)
  {
    if !m.actionKind(action.kind) {
      return Err("ACTION_KIND_INVALID");
    }
    var input := NormalizeEvidence(m.heuristics, action.input);
    if input.Err? {
      return Err(input.error);
    }
    var output := NormalizeEvidence(m.heuristics, action.output);
    if output.Err? {
      return Err(output.error);
    }
    var release := NormalizeEvidence(m.heuristics, action.release);
    if release.Err? {
      return Err(release.error);
    }
    return Ok(Action(action.order, action.kind, input.value, output.value, release.value));
  }

  method ValidateArtifact(m: Matrix, a: Artifact) returns (r: Result<Artifact, string>)
    ensures r.ToOption() == if ArtifactAllowed(m, a) then Some(a) else None
  {
    if !m.formatIdentity(a.formatIdentity) {
      return Err("ARTIFACT_IDENTITY_INVALID");
    }
    if !(1 <= a.formatVersion <= MAX_VERSION) {
      return Err("ARTIFACT_IDENTITY_INVALID");
    }
    if a.artifactId == "" || |a.artifactId| > MAX_ARTIFACT_ID {
      return Err("ARTIFACT_IDENTITY_INVALID");
    }
    if m.heuristics.sensitiveString(a.artifactId) {
      return Err("SENSITIVE_EVIDENCE_FORBIDDEN");
    }
    if !m.digest(a.manifestDigest) {
      return Err("ARTIFACT_IDENTITY_INVALID");
    }
    return Ok(a);
  }

  /** The highest rank, the outcome that has it, and the first dimension with that outcome. */
  method Aggregate(dims: seq<Assessment>) returns (outcome: Outcome, blocker: nat)
    requires dims != []
    ensures IsWorst(outcome, dims) && IsFirst(blocker, outcome, dims)
  {
    var highest, at := Rank(dims[0].outcome), 0;
    for k := 1 to |dims|
      invariant 0 <= at < k && highest == Rank(dims[at].outcome)
      invariant forall i :: 0 <= i < k ==> Rank(dims[i].outcome) <= highest
    {
      if Rank(dims[k].outcome) > highest {
        highest, at := Rank(dims[k].outcome), k;
      }
    }
    outcome := if highest == 0 then Compatible
               else if highest == 1 then RequiresUpgrade
               else if highest == 2 then Unsupported else Corrupt;
    assert dims[at].outcome == outcome;
    blocker := 0;
    while dims[blocker].outcome != outcome
      invariant 0 <= blocker <= at
      invariant forall j :: 0 <= j < blocker ==> dims[j].outcome != outcome
      decreases at - blocker
    {
      blocker := blocker + 1;
    }
  }

  /** The plan test at the end of the evaluation. */
  method CheckPlan(outcome: Outcome, dims: seq<Assessment>, actions: seq<Action>) returns (r: Result<(), string>)
    requires dims != []
    ensures r.Ok? <==> PlanFits(outcome, dims, actions)
  {
    if outcome == RequiresUpgrade {
      if dims[|dims| - 1].outcome != RequiresUpgrade {
        return Err("SUPPORTED_PATH_REQUIRED");
      }
      if actions == [] {
        return Err("UPGRADE_ACTIONS_REQUIRED");
      }
    } else if actions != [] {
      return Err("ACTIONS_FORBIDDEN");
    }
    return Ok(());
  }

  /** Weighs facts that are already normalised. */
  method Decide(operation: Operation, artifact: Artifact, dims: seq<Assessment>, actions: seq<Action>)
    returns (r: Result<Decision, string>)
    requires dims != []
    ensures r.Ok? <==> Plannable(dims, actions)
    ensures r.Ok? ==> Coherent(r.value) && r.value.operation == operation && r.value.artifact == artifact
    ensures r.Ok? ==> r.value.dimensions == dims && r.value.actions == actions
  {
    var outcome, blocker := Aggregate(dims);
    var fits := CheckPlan(outcome, dims, actions);
    if fits.Err? {
      forall o | IsWorst(o, dims) ensures !PlanFits(o, dims, actions) {
        WorstUnique(o, outcome, dims);
      }
      return Err(fits.error);
    }
    var reason, blocking := AllDimensionsCompatible, None;
    if outcome != Compatible {
      reason, blocking := dims[blocker].reason, Some(dims[blocker].name);
    }
    var d := Decision(operation, outcome, reason, Summary(outcome), blocking, artifact, dims, actions);
    assert outcome != Compatible ==> IsFirst(blocker, d.outcome, d.dimensions) && Blames(d, blocker);
    return Ok(d);
  }

  /** The evaluator answers exactly when the facts are allowed and planned for, with the matrix's answer. */
  method EvaluateCompatibility(
    m: Matrix, operation: OperationInput, artifact: Artifact, dims: seq<Assessment>, actions: seq<Action>)
    returns (r: Result<Decision, string>)
    requires m.order != []
    ensures r.Ok? <==>
      && FactsAllowed(m, operation, artifact, dims, actions)
      && Plannable(NormalDimensions(dims), NormalActions(actions))
    ensures r.Ok? ==> Judges(m, r.value, operation, artifact, dims, actions)
  {
    var op := OperationOf(operation);
    if op.None? {
      return Err("OPERATION_INVALID");
    }
    var identity := ValidateArtifact(m, artifact);
    if identity.Err? {
      return Err(identity.error);
    }
    var dimensions := NormalizeDimensions(m, dims);
    if dimensions.Err? {
      return Err(dimensions.error);
    }
    var plan := NormalizeActions(m, actions);
    if plan.Err? {
      return Err(plan.error);
    }
    r := Decide(op.value, identity.value, dimensions.value, plan.value);
  }

  // ----- Decisions are fixed points

  lemma AssessmentStable(m: Matrix, a: Assessment, expected: Dimension)
    requires AssessmentAllowed(m, a, expected)
    ensures AssessmentAllowed(m, NormalAssessment(a), expected)
  {
    NormalEvidenceStable(m.heuristics, a.source);
    NormalEvidenceStable(m.heuristics, a.target);
  }

  lemma ActionStable(m: Matrix, a: Action)
    requires ActionAllowed(m, a)
    ensures ActionAllowed(m, NormalAction(a))
  {
    NormalEvidenceStable(m.heuristics, a.input);
    NormalEvidenceStable(m.heuristics, a.output);
    NormalEvidenceStable(m.heuristics, a.release);
  }

  lemma {:induction false} AnswersStable(m: Matrix, dims: seq<Assessment>, order: seq<Dimension>)
    requires |dims| <= |order| && Answers(m, dims, order)
    ensures Answers(m, NormalDimensions(dims), order)
    decreases |dims|
  {
    if dims != [] {
      var last := |dims| - 1;
      var normal := NormalDimensions(dims);
      AnswersStable(m, dims[..last], order);
      AssessmentStable(m, dims[last], order[last]);
      assert normal[..last] == NormalDimensions(dims[..last]) && normal[last] == NormalAssessment(dims[last]);
    }
  }

  lemma {:induction false} AllActionsStable(m: Matrix, actions: seq<Action>)
    requires AllActions(m, actions)
    ensures AllActions(m, NormalActions(actions))
    decreases |actions|
  {
    if actions != [] {
      var last := |actions| - 1;
      var normal := NormalActions(actions);
      AllActionsStable(m, actions[..last]);
      ActionStable(m, actions[last]);
      assert normal[..last] == NormalActions(actions[..last]) && normal[last] == NormalAction(actions[last]);
    }
  }

  lemma NormalAssessmentTwice(a: Assessment)
    ensures NormalAssessment(NormalAssessment(a)) == NormalAssessment(a)
  {
    NormalIdempotent(a.source);
    NormalIdempotent(a.target);
  }

  lemma NormalActionTwice(a: Action)
    ensures NormalAction(NormalAction(a)) == NormalAction(a)
  {
    NormalIdempotent(a.input);
    NormalIdempotent(a.output);
    NormalIdempotent(a.release);
  }

  lemma NormalDimensionsTwice(dims: seq<Assessment>)
    ensures NormalDimensions(NormalDimensions(dims)) == NormalDimensions(dims)
  {
    var once := NormalDimensions(dims);
    forall k | 0 <= k < |dims| ensures NormalDimensions(once)[k] == once[k] {
      NormalDimensionAt(once, k);
      NormalDimensionAt(dims, k);
      NormalAssessmentTwice(dims[k]);
    }
  }

  lemma NormalActionsTwice(actions: seq<Action>)
    ensures NormalActions(NormalActions(actions)) == NormalActions(actions)
  {
    var once := NormalActions(actions);
    forall k | 0 <= k < |actions| ensures NormalActions(once)[k] == once[k] {
      NormalActionAt(once, k);
      NormalActionAt(actions, k);
      NormalActionTwice(actions[k]);
    }
  }

  /** Re-evaluating a decision's own facts returns the decision. */
  lemma DecisionIsFixedPoint(
    m: Matrix, d: Decision, operation: OperationInput, artifact: Artifact, dims: seq<Assessment>,
    actions: seq<Action>)
    requires Judges(m, d, operation, artifact, dims, actions)
    ensures Judges(m, d, Member(d.operation), d.artifact, d.dimensions, d.actions)
  {
    AnswersStable(m, dims, m.order);
    AllActionsStable(m, actions);
    NumberedNormal(actions);
    NormalDimensionsTwice(dims);
    NormalActionsTwice(actions);
  }

  /** The outcome is compatible exactly when every dimension is, and only then nothing blocks. */
  lemma CompatibleMeansAll(d: Decision)
    requires Coherent(d)
    ensures d.outcome == Compatible <==> forall k :: 0 <= k < |d.dimensions| ==> d.dimensions[k].outcome == Compatible
    ensures d.outcome == Compatible <==> d.blocking == None
  {
    if d.outcome == Compatible {
      forall k | 0 <= k < |d.dimensions| ensures d.dimensions[k].outcome == Compatible {
        assert Rank(d.dimensions[k].outcome) == 0;
      }
    }
  }

  /** What a reader may conclude from a decision alone. */
  lemma DecisionMeaning(m: Matrix, d: Decision)
    requires FactsAllowed(m, Member(d.operation), d.artifact, d.dimensions, d.actions) && Coherent(d)
    ensures d.actions != [] <==> d.outcome == RequiresUpgrade
    ensures Numbered(d.actions)
    ensures d.outcome != Compatible ==>
      d.blocking.Some? && m.context(d.reason) == Some((d.blocking.value, d.outcome))
  {
    if d.outcome != Compatible {
      var k :| IsFirst(k, d.outcome, d.dimensions) && Blames(d, k);
      AnswersAt(m, d.dimensions, m.order, k);
    }
  }

  predicate Has(dims: seq<Assessment>, o: Outcome) {
    exists k :: 0 <= k < |dims| && dims[k].outcome == o
  }

  lemma NormalHas(dims: seq<Assessment>, o: Outcome)
    ensures Has(NormalDimensions(dims), o) <==> Has(dims, o)
  {
    var normal := NormalDimensions(dims);
    forall k | 0 <= k < |dims| ensures normal[k].outcome == dims[k].outcome { NormalDimensionAt(dims, k); }
    if Has(dims, o) {
      var k :| 0 <= k < |dims| && dims[k].outcome == o;
      assert normal[k].outcome == o;
    }
    if Has(normal, o) {
      var k :| 0 <= k < |normal| && normal[k].outcome == o;
      assert dims[k].outcome == o;
    }
  }

  lemma WorstPrecedes(o: Outcome, dims: seq<Assessment>)
    requires IsWorst(o, dims)
    ensures o == Corrupt <==> Has(dims, Corrupt)
    ensures o == Unsupported <==> Has(dims, Unsupported) && !Has(dims, Corrupt)
    ensures o == RequiresUpgrade <==> Has(dims, RequiresUpgrade) && !Has(dims, Unsupported) && !Has(dims, Corrupt)
    ensures o == Compatible <==> !Has(dims, RequiresUpgrade) && !Has(dims, Unsupported) && !Has(dims, Corrupt)
  {
  }

  lemma WorstOfGiven(o: Outcome, dims: seq<Assessment>)
    requires IsWorst(o, NormalDimensions(dims))
    ensures o == Corrupt <==> Has(dims, Corrupt)
    ensures o == Unsupported <==> Has(dims, Unsupported) && !Has(dims, Corrupt)
    ensures o == RequiresUpgrade <==> Has(dims, RequiresUpgrade) && !Has(dims, Unsupported) && !Has(dims, Corrupt)
    ensures o == Compatible <==> !Has(dims, RequiresUpgrade) && !Has(dims, Unsupported) && !Has(dims, Corrupt)
  {
    WorstPrecedes(o, NormalDimensions(dims));
    NormalHas(dims, Corrupt);
    NormalHas(dims, Unsupported);
    NormalHas(dims, RequiresUpgrade);
  }

  lemma JudgedWorst(
    m: Matrix, d: Decision, operation: OperationInput, artifact: Artifact, dims: seq<Assessment>, actions: seq<Action>)
    requires Judges(m, d, operation, artifact, dims, actions)
    ensures IsWorst(d.outcome, NormalDimensions(dims))
    ensures PlanFits(d.outcome, NormalDimensions(dims), NormalActions(actions))
  {
  }

  /** Corruption outweighs what is unsupported, which outweighs an upgrade. */
  lemma OutcomePrecedence(
    m: Matrix, d: Decision, operation: OperationInput, artifact: Artifact, dims: seq<Assessment>, actions: seq<Action>)
    requires Judges(m, d, operation, artifact, dims, actions)
    ensures d.outcome == Corrupt <==> Has(dims, Corrupt)
    ensures d.outcome == Unsupported <==> Has(dims, Unsupported) && !Has(dims, Corrupt)
    ensures d.outcome == RequiresUpgrade <==> Has(dims, RequiresUpgrade) && !Has(dims, Unsupported) && !Has(dims, Corrupt)
    ensures d.outcome == Compatible <==> !Has(dims, RequiresUpgrade) && !Has(dims, Unsupported) && !Has(dims, Corrupt)
  {
    JudgedWorst(m, d, operation, artifact, dims, actions);
    WorstOfGiven(d.outcome, dims);
  }

  /** Only an upgrade has a plan, and it is decided only when the last dimension asks for one. */
  lemma OnlyUpgradesArePlanned(
    m: Matrix, d: Decision, operation: OperationInput, artifact: Artifact, dims: seq<Assessment>, actions: seq<Action>)
    requires Judges(m, d, operation, artifact, dims, actions)
    ensures actions != [] <==> d.outcome == RequiresUpgrade
    ensures d.outcome == RequiresUpgrade ==> dims != [] && dims[|dims| - 1].outcome == RequiresUpgrade
  {
    JudgedWorst(m, d, operation, artifact, dims, actions);
    if dims != [] { NormalDimensionAt(dims, |dims| - 1); }
  }

  /** The first dimension with the worst outcome is blamed, with its own reason; a compatible decision blames none. */
  lemma BlamesFirst(
    m: Matrix, d: Decision, operation: OperationInput, artifact: Artifact, dims: seq<Assessment>, actions: seq<Action>)
    returns (k: nat)
    requires Judges(m, d, operation, artifact, dims, actions)
    ensures d.outcome == Compatible ==> d.blocking == None && d.reason == AllDimensionsCompatible
    ensures d.outcome != Compatible ==>
      && k < |dims| && dims[k].outcome == d.outcome && (forall j :: 0 <= j < k ==> dims[j].outcome != d.outcome)
      && d.blocking == Some(dims[k].name) && d.reason == dims[k].reason
  {
    k := 0;
    if d.outcome != Compatible {
      var first :| IsFirst(first, d.outcome, d.dimensions) && Blames(d, first);
      k := first;
      forall j | 0 <= j <= k ensures d.dimensions[j] == NormalAssessment(dims[j]) { NormalDimensionAt(dims, j); }
    }
  }

  /** A decision reports the facts it was given: nothing but the order of names within evidence changes. */
  lemma DecisionKeepsFacts(
    m: Matrix, d: Decision, operation: OperationInput, artifact: Artifact, dims: seq<Assessment>, actions: seq<Action>,
    k: nat)
    requires Judges(m, d, operation, artifact, dims, actions)
    ensures |d.dimensions| == |dims| && |d.actions| == |actions| && d.artifact == artifact
    ensures k < |dims| ==>
      && d.dimensions[k].name == dims[k].name && d.dimensions[k].outcome == dims[k].outcome
      && d.dimensions[k].reason == dims[k].reason
      && SameData(dims[k].source, d.dimensions[k].source) && SameData(dims[k].target, d.dimensions[k].target)
    ensures k < |actions| ==>
      && d.actions[k].order == k + 1 && d.actions[k].kind == actions[k].kind
      && SameData(actions[k].input, d.actions[k].input) && SameData(actions[k].output, d.actions[k].output)
      && SameData(actions[k].release, d.actions[k].release)
  {
    if k < |dims| {
      NormalDimensionAt(dims, k);
      NormalSameData(dims[k].source);
      NormalSameData(dims[k].target);
    }
    if k < |actions| {
      NormalActionAt(actions, k);
      NormalSameData(actions[k].input);
      NormalSameData(actions[k].output);
      NormalSameData(actions[k].release);
    }
  }

  // ----- Matrix v1

  /** A reason for a dimension and an outcome, where matrix v1 has one. */
  function Example(dimension: Dimension, o: Outcome): Reason {
    match dimension
    case Format =>
      (match o
       case Compatible => FormatSupported
       case RequiresUpgrade => FormatConversionRequired
       case Unsupported => FormatVersionUnsupported
       case Corrupt => FormatStructureCorrupt)
    case IntegrityAuthentication =>
      (match o
       case Unsupported => IntegritySchemeUnsupported
       case Corrupt => AuthenticationFailed
       case _ => IntegrityAuthenticated)
    case DeploymentContract =>
      (match o
       case Compatible => DeploymentContractSupported
       case RequiresUpgrade => DeploymentCutoverRequired
       case Unsupported => DeploymentContractUnsupported
       case Corrupt => DeploymentContractInvalid)
    case SchemaContracts =>
      (match o
       case Compatible => SchemaContractsSupported
       case RequiresUpgrade => SchemaMigrationRequired
       case Unsupported => SchemaContractUnsupported
       case Corrupt => SchemaContractInvalid)
    case ExactReleaseIdentity =>
      (match o
       case Compatible => ReleaseIdentityVerified
       case RequiresUpgrade => ReleaseHopRequired
       case Unsupported => ReleaseIdentityUnsupported
       case Corrupt => ReleaseIdentityInvalid)
    case PlatformRuntime =>
      (match o
       case Compatible => PlatformRuntimeSupported
       case RequiresUpgrade => PlatformRuntimeUpgradeRequired
       case Unsupported => PlatformRuntimeUnsupported
       case Corrupt => PlatformRuntimeEvidenceInvalid)
    case SupportedPath =>
      (match o
       case Compatible => DirectPathSupported
       case RequiresUpgrade => OrderedPathRequired
       case Unsupported => SupportedPathUnavailable
       case Corrupt => SupportedPathInvalid)
  }

  /** Every dimension can be answered with every outcome, except that integrity never asks for an upgrade. */
  lemma ContextCovers(dimension: Dimension, o: Outcome)
    ensures (exists r :: Context(r) == Some((dimension, o)))
      <==> !(dimension == IntegrityAuthentication && o == RequiresUpgrade)
  {
    if dimension == IntegrityAuthentication && o == RequiresUpgrade {
      forall r ensures Context(r) != Some((dimension, o)) { ContextV1(r, o); }
    } else {
      assert Context(Example(dimension, o)) == Some((dimension, o));
    }
  }

  lemma ContextV1(r: Reason, o: Outcome)
    ensures Context(r) == Some((SupportedPath, RequiresUpgrade)) ==> r == OrderedPathRequired
    ensures Context(r) == Some((IntegrityAuthentication, o)) ==> o != RequiresUpgrade
  {
  }

  /** What of matrix v1 the next lemma needs. */
  predicate OrdersIntegrityAndPath(order: seq<Dimension>) {
    |order| == 7 && order[1] == IntegrityAuthentication && order[6] == SupportedPath
  }

  lemma OrderOfV1(
    heuristics: Heuristics, formatIdentity: string -> bool, digest: string -> bool, actionKind: string -> bool)
    ensures var m := MatrixV1(heuristics, formatIdentity, digest, actionKind);
      OrdersIntegrityAndPath(m.order) && m.context == Context
  {
  }

  lemma AnswerV1(m: Matrix, dims: seq<Assessment>, k: nat)
    requires m.context == Context && k < |dims| && DimensionsAllowed(m, dims)
    ensures dims[k].name == m.order[k] && Context(dims[k].reason) == Some((m.order[k], dims[k].outcome))
  {
    AnswersAt(m, dims, m.order, k);
  }

  /**
    Decisions under the dimensions and reasons of matrix v1: an upgrade is decided only over an ordered
    path, for an artifact whose integrity is authenticated, and integrity is never what asks for it.
   */
  lemma UpgradesOfV1(m: Matrix, d: Decision)
    requires OrdersIntegrityAndPath(m.order) && m.context == Context
    requires FactsAllowed(m, Member(d.operation), d.artifact, d.dimensions, d.actions) && Coherent(d)
    requires d.outcome == RequiresUpgrade
    ensures |d.dimensions| == 7
    ensures d.dimensions[6].name == SupportedPath && d.dimensions[6].reason == OrderedPathRequired
    ensures d.dimensions[1].name == IntegrityAuthentication && d.dimensions[1].outcome == Compatible
    ensures d.blocking != Some(IntegrityAuthentication)
  {
    AnswerV1(m, d.dimensions, 1);
    AnswerV1(m, d.dimensions, 6);
    ContextV1(d.dimensions[6].reason, d.outcome);
    ContextV1(d.dimensions[1].reason, d.dimensions[1].outcome);
    DecisionMeaning(m, d);
    ContextV1(d.reason, d.outcome);
    assert Rank(d.dimensions[1].outcome) <= 1;
  }

  // ----- The migration gate

  datatype Rejection = Operational(code: string) | CorruptArtifact | UnsupportedArtifact

  /** Host equality of decisions: mappings compare whatever the order of their keys. */
  predicate SameDecision(a: Decision, b: Decision) {
    && a.(dimensions := [], actions := []) == b.(dimensions := [], actions := [])
    && NormalDimensions(a.dimensions) == NormalDimensions(b.dimensions)
    && SameActions(a.actions, b.actions)
  }

  predicate SameActions(a: seq<Action>, b: seq<Action>) {
    NormalActions(a) == NormalActions(b)
  }

  /** The evaluator says of the decision's own facts what the decision says. */
  ghost predicate SelfConsistent(m: Matrix, d: Decision) {
    exists c :: Judges(m, c, Member(d.operation), d.artifact, d.dimensions, d.actions) && SameDecision(c, d)
  }

  /** Two plans agree exactly when they have the same steps in order, with the same data in each. */
  lemma SameActionsMeans(a: seq<Action>, b: seq<Action>)
    ensures SameActions(a, b) <==> |a| == |b| && forall k :: 0 <= k < |a| ==> SameStep(a[k], b[k])
  {
    if SameActions(a, b) {
      assert |NormalActions(a)| == |NormalActions(b)|;
      forall k | 0 <= k < |a| ensures SameStep(a[k], b[k]) {
        NormalActionAt(a, k);
        NormalActionAt(b, k);
      }
    }
    if |a| == |b| && forall k :: 0 <= k < |a| ==> SameStep(a[k], b[k]) {
      forall k | 0 <= k < |a| ensures NormalActions(a)[k] == NormalActions(b)[k] {
        NormalActionAt(a, k);
        NormalActionAt(b, k);
        assert SameStep(a[k], b[k]);
      }
      assert NormalActions(a) == NormalActions(b);
    }
  }

  predicate SameStep(a: Action, b: Action) {
    && a.order == b.order && a.kind == b.kind
    && Normal(a.input) == Normal(b.input) && Normal(a.output) == Normal(b.output)
    && Normal(a.release) == Normal(b.release)
  }

  /** What the gate asks beyond consistency. */
  predicate Approved(d: Decision, expected: Artifact, approved: seq<Action>) {
    && d.operation == Migration && d.artifact == expected
    && (d.outcome == Compatible || d.outcome == RequiresUpgrade)
    && SameActions(approved, d.actions)
  }

  method Canonical(m: Matrix, d: Decision) returns (ok: bool)
    requires m.order != []
    ensures ok <==> SelfConsistent(m, d)
    ensures ok ==> (d.actions != [] <==> d.outcome == RequiresUpgrade)
  {
    var canonical := EvaluateCompatibility(m, Member(d.operation), d.artifact, d.dimensions, d.actions);
    if canonical.Err? {
      if SelfConsistent(m, d) { PlannableIfJudged(m, d); }
      return false;
    }
    OneCanonical(m, d, canonical.value);
    return SameDecision(canonical.value, d);
  }

  lemma OneCanonical(m: Matrix, d: Decision, c: Decision)
    requires Judges(m, c, Member(d.operation), d.artifact, d.dimensions, d.actions)
    ensures SelfConsistent(m, d) <==> SameDecision(c, d)
    ensures c.actions != [] <==> c.outcome == RequiresUpgrade
    ensures c.actions != [] <==> d.actions != []
  {
    if SelfConsistent(m, d) {
      var e :| Judges(m, e, Member(d.operation), d.artifact, d.dimensions, d.actions) && SameDecision(e, d);
      JudgementUnique(m, c, e, Member(d.operation), d.artifact, d.dimensions, d.actions);
    }
  }

  lemma PlannableIfJudged(m: Matrix, d: Decision)
    requires SelfConsistent(m, d)
    ensures FactsAllowed(m, Member(d.operation), d.artifact, d.dimensions, d.actions)
    ensures Plannable(NormalDimensions(d.dimensions), NormalActions(d.actions))
  {
    var e :| Judges(m, e, Member(d.operation), d.artifact, d.dimensions, d.actions) && SameDecision(e, d);
    assert IsWorst(e.outcome, e.dimensions) && PlanFits(e.outcome, e.dimensions, e.actions);
  }

  /** The gate returns the approved actions exactly for a consistent, approved migration decision. */
  method RequireCompatible(m: Matrix, d: Decision, expected: Artifact, approved: seq<Action>)
    returns (r: Result<seq<Action>, Rejection>)
    requires m.order != []
    ensures r.Ok? <==> SelfConsistent(m, d) && Approved(d, expected, approved)
    ensures r.Ok? ==> r.value == approved
  {
    var canonical := Canonical(m, d);
    if !canonical {
      return Err(Operational("MIGRATION_COMPATIBILITY_DECISION_INVALID"));
    }
    r := CheckApproval(d, expected, approved);
  }

  method CheckApproval(d: Decision, expected: Artifact, approved: seq<Action>)
    returns (r: Result<seq<Action>, Rejection>)
    requires d.actions != [] <==> d.outcome == RequiresUpgrade
    ensures r.Ok? <==> Approved(d, expected, approved)
    ensures r.Ok? ==> r.value == approved
  {
    assert SameActions(approved, d.actions) ==> |NormalActions(approved)| == |NormalActions(d.actions)|;
    if d.operation != Migration {
      return Err(Operational("MIGRATION_COMPATIBILITY_OPERATION_MISMATCH"));
    }
    if d.artifact != expected {
      return Err(Operational("MIGRATION_COMPATIBILITY_ARTIFACT_MISMATCH"));
    }
    if d.outcome == Corrupt {
      return Err(CorruptArtifact);
    }
    if d.outcome == Unsupported {
      return Err(UnsupportedArtifact);
    }
    if d.outcome == RequiresUpgrade {
      if approved == [] {
        return Err(Operational("MIGRATION_UPGRADE_APPROVAL_REQUIRED"));
      }
      if !SameActions(approved, d.actions) {
        return Err(Operational("MIGRATION_UPGRADE_APPROVAL_MISMATCH"));
      }
      return Ok(approved);
    }
    if d.actions != [] || approved != [] {
      return Err(Operational("MIGRATION_UPGRADE_APPROVAL_INVALID"));
    }
    return Ok([]);
  }

  /**
    A decision of the evaluator passes the gate for its own artifact exactly when it is a migration
    decision, compatible or upgradable, and the approved actions are its own.
   */
  lemma GateAgreesWithEvaluator(
    m: Matrix, d: Decision, operation: OperationInput, artifact: Artifact, dims: seq<Assessment>,
    actions: seq<Action>, approved: seq<Action>)
    requires Judges(m, d, operation, artifact, dims, actions)
    ensures SelfConsistent(m, d)
    ensures Approved(d, artifact, approved)
      <==> d.operation == Migration && Rank(d.outcome) <= 1 && SameActions(approved, d.actions)
  {
    DecisionIsFixedPoint(m, d, operation, artifact, dims, actions);
    FixedPointConsistent(m, d);
  }

  lemma FixedPointConsistent(m: Matrix, d: Decision)
    requires Judges(m, d, Member(d.operation), d.artifact, d.dimensions, d.actions)
    ensures SelfConsistent(m, d)
  {
    assert SameDecision(d, d);
  }

  /** A consistent decision cannot understate its dimensions or name the wrong blocker. */
  lemma ConsistentIsHonest(m: Matrix, d: Decision)
    requires SelfConsistent(m, d)
    ensures IsWorst(d.outcome, d.dimensions)
    ensures d.outcome == Compatible <==> d.blocking == None
    ensures d.blocking.Some? ==>
      exists k :: IsFirst(k, d.outcome, d.dimensions) && Blames(d, k)
    ensures d.outcome == Compatible ==> d.reason == AllDimensionsCompatible
    ensures d.summary == Summary(d.outcome)
    ensures Numbered(d.actions) && (d.actions != [] <==> d.outcome == RequiresUpgrade)
  {
    var c :| Judges(m, c, Member(d.operation), d.artifact, d.dimensions, d.actions) && SameDecision(c, d);
    assert c.outcome == d.outcome && c.blocking == d.blocking && c.dimensions == NormalDimensions(d.dimensions);
    NormalSameOutcomes(d.dimensions, d.outcome);
    if c.outcome != Compatible {
      var k :| IsFirst(k, c.outcome, c.dimensions) && Blames(c, k);
      NormalDimensionAt(d.dimensions, k);
      assert IsFirst(k, d.outcome, d.dimensions);
    }
  }

  lemma NormalSameOutcomes(dims: seq<Assessment>, o: Outcome)
    ensures IsWorst(o, NormalDimensions(dims)) <==> IsWorst(o, dims)
    ensures forall k :: IsFirst(k, o, NormalDimensions(dims)) <==> IsFirst(k, o, dims)
  {
    forall i | 0 <= i < |dims| ensures NormalDimensions(dims)[i].outcome == dims[i].outcome {
      NormalDimensionAt(dims, i);
    }
  }
}
