/**
  Publication and replacement of one instance locator by any number of processes.

  A process takes one file operation per step and may fail or die at every step; a run is any
  sequence of steps.  A file's bytes never change under its name (a new inode is linked or renamed
  over it), so a read is one step.  SHA-256 is injective.
 */
module LocatorStore {
  import opened Wrappers

  type Pid = nat
  type Bytes = string
  type Locator = string

  datatype Digest = Sha256(preimage: Bytes)

  /** The locator serialisation, its parser, and the read limit. */
  datatype Codec = Codec(encode: Locator -> Bytes, parse: Bytes -> Option<Locator>, limit: nat)

  /** The inode under the locator path; `linked` while the publisher's temporary name still shares it. */
  datatype File = File(content: Bytes, linked: bool)

  /** `Mismatched` is the error LOCATOR_PUBLICATION_MISMATCH, which only the read-back raises. */
  datatype Outcome = Returned | Mismatched | Raised(code: string) | Died

  datatype PublisherAt =
    | PublishStart | PublishLocked | PublishTemporary | PublishLinked | PublishUnlinked | PublishReleased
    | PublishDone(outcome: Outcome)

  /** From the unlocked read on, a replacer carries the storage digest it has seen. */
  datatype ReplacerAt =
    | ReplaceStart | ReplaceSeen(seen: Digest) | ReplaceLocked(seen: Digest) | ReplaceMatched(seen: Digest)
    | ReplaceTemporary(seen: Digest) | ReplaceConfirmed(seen: Digest) | ReplaceRenamed | ReplaceReleased
    | ReplaceDone(outcome: Outcome)

  datatype Process =
    | Publisher(locator: Locator, publisher: PublisherAt)
    | Replacer(locator: Locator, expected: Digest, replacer: ReplacerAt)

  /** A change of the file under the locator path. */
  datatype Effect =
    | Initial(pid: Pid, content: Bytes)
    | Swap(pid: Pid, before: Option<Bytes>, content: Bytes, expected: Digest)

  datatype World = World(file: Option<File>, lock: Option<Pid>, procs: map<Pid, Process>, log: seq<Effect>)

  /** `Stop` is an exception or a crash; `cleaned` says whether a leftover temporary name was removed. */
  datatype Action = Go | Stop(outcome: Outcome, cleaned: bool)

  datatype Step = Step(pid: Pid, action: Action)

  // ----- The steps

  predicate Linked(f: Option<File>) {
    f.Some? && f.value.linked
  }

  predicate Readable(c: Codec, f: Option<File>) {
    f.Some? && !f.value.linked && |f.value.content| <= c.limit
  }

  /** The file holds the canonical form of, or any spelling that parses to, this locator. */
  predicate Holds(c: Codec, f: Option<File>, locator: Locator) {
    Readable(c, f) && c.parse(f.value.content) == Some(locator)
  }

  predicate HoldsDigest(c: Codec, f: Option<File>, d: Digest) {
    Readable(c, f) && Sha256(f.value.content) == d
  }

  /** What a caller gets when it loads the locator it has just written. */
  function ReadBack(c: Codec, f: Option<File>, locator: Locator): Outcome {
    if !Readable(c, f) then Raised("LOCATOR_UNREADABLE")
    else
      var parsed := c.parse(f.value.content);
      if parsed.None? then Raised("LOCATOR_INVALID") else if parsed.value == locator then Returned else Mismatched
  }

  function CanonicalDigest(c: Codec, content: Bytes): Option<Digest> {
    var parsed := c.parse(content);
    if parsed.Some? then Some(Sha256(c.encode(parsed.value))) else None
  }

  function Set(w: World, p: Pid, proc: Process): World {
    w.(procs := w.procs[p := proc])
  }

  function Acquire(w: World, p: Pid, proc: Process): World {
    if w.lock == None then Set(w, p, proc).(lock := Some(p)) else w
  }

  function Release(w: World, p: Pid, proc: Process): World {
    Set(w, p, proc).(lock := None)
  }

  function PublisherGo(c: Codec, w: World, p: Pid): World
    requires p in w.procs && w.procs[p].Publisher?
  {
    var proc := w.procs[p];
    match proc.publisher
    case PublishStart => Acquire(w, p, proc.(publisher := PublishLocked))
    case PublishLocked => Set(w, p, proc.(publisher := PublishTemporary))
    case PublishTemporary =>
      if w.file.Some? then Release(w, p, proc.(publisher := PublishDone(Raised("LOCATOR_ALREADY_EXISTS"))))
      else
        var content := c.encode(proc.locator);
        Set(w, p, proc.(publisher := PublishLinked))
          .(file := Some(File(content, true)), log := w.log + [Initial(p, content)])
    case PublishLinked => Set(w, p, proc.(publisher := PublishUnlinked)).(file := Unlinked(w.file))
    case PublishUnlinked => Release(w, p, proc.(publisher := PublishReleased))
    case PublishReleased =>
      Set(w, p, proc.(publisher := PublishDone(ReadBack(c, w.file, proc.locator))))
    case PublishDone(_) => w
  }

  function Unlinked(f: Option<File>): Option<File> {
    if f.Some? then Some(f.value.(linked := false)) else None
  }

  function ReplacerGo(c: Codec, w: World, p: Pid): World
    requires p in w.procs && w.procs[p].Replacer?
  {
    var proc := w.procs[p];
    match proc.replacer
    case ReplaceStart =>
      if Readable(c, w.file) && CanonicalDigest(c, w.file.value.content) == Some(proc.expected) then
        Set(w, p, proc.(replacer := ReplaceSeen(Sha256(w.file.value.content))))
      else Set(w, p, proc.(replacer := ReplaceDone(Raised("LOCATOR_CONCURRENT_MODIFICATION"))))
    case ReplaceSeen(d) => Acquire(w, p, proc.(replacer := ReplaceLocked(d)))
    case ReplaceLocked(d) =>
      if HoldsDigest(c, w.file, d) then Set(w, p, proc.(replacer := ReplaceMatched(d)))
      else Release(w, p, proc.(replacer := ReplaceDone(Raised("LOCATOR_CONCURRENT_MODIFICATION"))))
    case ReplaceMatched(d) => Set(w, p, proc.(replacer := ReplaceTemporary(d)))
    case ReplaceTemporary(d) =>
      if HoldsDigest(c, w.file, d) then Set(w, p, proc.(replacer := ReplaceConfirmed(d)))
      else Release(w, p, proc.(replacer := ReplaceDone(Raised("LOCATOR_CONCURRENT_MODIFICATION"))))
    case ReplaceConfirmed(d) =>
      var content := c.encode(proc.locator);
      Set(w, p, proc.(replacer := ReplaceRenamed))
        .(file := Some(File(content, false)), log := w.log + [Swap(p, Content(w.file), content, d)])
    case ReplaceRenamed => Release(w, p, proc.(replacer := ReplaceReleased))
    case ReplaceReleased =>
      Set(w, p, proc.(replacer := ReplaceDone(ReadBack(c, w.file, proc.locator))))
    case ReplaceDone(_) => w
  }

  function Content(f: Option<File>): Option<Bytes> {
    if f.Some? then Some(f.value.content) else None
  }

  predicate Done(proc: Process) {
    match proc
    case Publisher(_, at) => at.PublishDone?
    case Replacer(_, _, at) => at.ReplaceDone?
  }

  predicate InSection(proc: Process) {
    match proc
    case Publisher(_, at) => at.PublishLocked? || at.PublishTemporary? || at.PublishLinked? || at.PublishUnlinked?
    case Replacer(_, _, at) =>
      at.ReplaceLocked? || at.ReplaceMatched? || at.ReplaceTemporary? || at.ReplaceConfirmed? || at.ReplaceRenamed?
  }

  function Stopped(proc: Process, outcome: Outcome): Process {
    match proc
    case Publisher(l, _) => Publisher(l, PublishDone(outcome))
    case Replacer(l, e, _) => Replacer(l, e, ReplaceDone(outcome))
  }

  /** An exception or a crash: the lock goes with the process, the leftover temporary name perhaps not. */
  function Halt(w: World, p: Pid, outcome: Outcome, cleaned: bool): World
    requires p in w.procs
  {
    var proc := w.procs[p];
    if Done(proc) || outcome == Returned || outcome == Mismatched then w
    else
      var file := if proc == Publisher(proc.locator, PublishLinked) && cleaned then Unlinked(w.file) else w.file;
      Set(w, p, Stopped(proc, outcome)).(file := file, lock := if InSection(proc) then None else w.lock)
  }

  function Next(c: Codec, w: World, s: Step): World {
    if s.pid !in w.procs then w
    else match s.action
      case Stop(outcome, cleaned) => Halt(w, s.pid, outcome, cleaned)
      case Go => if w.procs[s.pid].Publisher? then PublisherGo(c, w, s.pid) else ReplacerGo(c, w, s.pid)
  }

  function Run(c: Codec, w: World, steps: seq<Step>): World {
    if steps == [] then w else Next(c, Run(c, w, steps[..|steps| - 1]), steps[|steps| - 1])
  }

  /** Nobody has started and nothing is recorded; the file may or may not exist. */
  predicate Fresh(w: World) {
    && w.lock == None && w.log == []
    && forall p :: p in w.procs ==>
         (w.procs[p].Publisher? && w.procs[p].publisher == PublishStart)
         || (w.procs[p].Replacer? && w.procs[p].replacer == ReplaceStart)
  }

  // ----- Mutual exclusion

  ghost predicate Exclusive(w: World) {
    && (w.lock.Some? ==> w.lock.value in w.procs)
    && forall p :: p in w.procs ==> (InSection(w.procs[p]) <==> w.lock == Some(p))
  }

  /** A step leaves the section alone, enters it when it is free, or leaves it. */
  predicate SectionMoves(w: World, v: World, p: Pid)
    requires p in w.procs && p in v.procs
  {
    || (v.lock == w.lock && InSection(v.procs[p]) == InSection(w.procs[p]))
    || (w.lock == None && v.lock == Some(p) && InSection(v.procs[p]))
    || (InSection(w.procs[p]) && v.lock == None && !InSection(v.procs[p]))
  }

  lemma PublisherMoves(c: Codec, w: World, p: Pid)
    requires p in w.procs && w.procs[p].Publisher?
    ensures var v := PublisherGo(c, w, p);
      p in v.procs && v.procs == w.procs[p := v.procs[p]] && SectionMoves(w, v, p)
  {
  }

  lemma ReplacerMoves(c: Codec, w: World, p: Pid)
    requires p in w.procs && w.procs[p].Replacer?
    ensures var v := ReplacerGo(c, w, p);
      p in v.procs && v.procs == w.procs[p := v.procs[p]] && SectionMoves(w, v, p)
  {
  }

  lemma ExclusiveStep(c: Codec, w: World, s: Step)
    requires Exclusive(w)
    ensures Exclusive(Next(c, w, s))
  {
    if s.pid in w.procs && s.action.Go? {
      if w.procs[s.pid].Publisher? { PublisherMoves(c, w, s.pid); } else { ReplacerMoves(c, w, s.pid); }
    }
  }

  // ----- What the log says

  /** The content after the first `n` effects. */
  function After(start: Option<Bytes>, log: seq<Effect>): Option<Bytes> {
    if log == [] then start else Some(log[|log| - 1].content)
  }

  /** A publication finds nothing; a replacement overwrites the very bytes its digest names. */
  predicate EffectFits(before: Option<Bytes>, e: Effect) {
    match e
    case Initial(_, _) => before == None
    case Swap(_, b, _, expected) => b == before && before == Some(expected.preimage)
  }

  ghost predicate Chained(start: Option<Bytes>, log: seq<Effect>) {
    forall i :: 0 <= i < |log| ==> EffectFits(After(start, log[..i]), log[i])
  }

  /** Inside the section a replacer's checks stay true until it renames. */
  predicate Checked(w: World, proc: Process) {
    match proc
    case Publisher(_, at) => at.PublishLinked? ==> Linked(w.file)
    case Replacer(_, _, at) =>
      && ((at.ReplaceMatched? || at.ReplaceTemporary? || at.ReplaceConfirmed?) ==>
           Content(w.file) == Some(at.seen.preimage))
      && (at.ReplaceConfirmed? ==> !Linked(w.file))
  }

  ghost predicate Recorded(start: Option<Bytes>, w: World) {
    && Content(w.file) == After(start, w.log)
    && Chained(start, w.log)
    && forall p :: p in w.procs ==> Checked(w, w.procs[p])
  }

  lemma ChainedOneMore(start: Option<Bytes>, log: seq<Effect>, e: Effect)
    requires Chained(start, log) && EffectFits(After(start, log), e)
    ensures Chained(start, log + [e])
  {
    var longer := log + [e];
    forall i | 0 <= i < |longer| ensures EffectFits(After(start, longer[..i]), longer[i]) {
      assert longer[..i] == if i < |log| then log[..i] else log;
    }
  }

  /** Nobody else is past its checks while `p` holds the lock. */
  lemma OthersUnchecked(w: World, p: Pid, q: Pid)
    requires Exclusive(w) && w.lock == Some(p) && q in w.procs && q != p
    ensures !InSection(w.procs[q])
  {
  }

  lemma RecordedQuietStep(c: Codec, start: Option<Bytes>, w: World, s: Step)
    requires Exclusive(w) && Recorded(start, w) && Next(c, w, s).log == w.log
    ensures Recorded(start, Next(c, w, s))
  {
    if s.pid in w.procs {
      var v := Next(c, w, s);
      QuietStep(c, w, s);
      forall q | q in v.procs ensures Checked(v, v.procs[q]) {
        assert Checked(w, w.procs[q]);
        if q == s.pid { StepChecked(c, w, s); } else if v.file != w.file { OthersUnchecked(w, s.pid, q); }
      }
    }
  }

  /** A step that has no effect keeps the content, and touches the file only inside the section. */
  predicate QuietMove(w: World, v: World, p: Pid)
    requires p in w.procs
  {
    && Content(v.file) == Content(w.file)
    && (v.file != w.file ==> InSection(w.procs[p]))
    && p in v.procs && v.procs == w.procs[p := v.procs[p]]
  }

  lemma PublisherQuiet(c: Codec, w: World, p: Pid)
    requires p in w.procs && w.procs[p].Publisher? && PublisherGo(c, w, p).log == w.log
    ensures QuietMove(w, PublisherGo(c, w, p), p)
  {
  }

  lemma ReplacerQuiet(c: Codec, w: World, p: Pid)
    requires p in w.procs && w.procs[p].Replacer? && ReplacerGo(c, w, p).log == w.log
    ensures QuietMove(w, ReplacerGo(c, w, p), p)
  {
  }

  lemma HaltQuiet(w: World, p: Pid, outcome: Outcome, cleaned: bool)
    requires p in w.procs
    ensures QuietMove(w, Halt(w, p, outcome, cleaned), p)
  {
  }

  lemma QuietStep(c: Codec, w: World, s: Step)
    requires s.pid in w.procs && Next(c, w, s).log == w.log
    ensures QuietMove(w, Next(c, w, s), s.pid)
  {
    if s.action.Stop? {
      HaltQuiet(w, s.pid, s.action.outcome, s.action.cleaned);
    } else if w.procs[s.pid].Publisher? {
      PublisherQuiet(c, w, s.pid);
    } else {
      ReplacerQuiet(c, w, s.pid);
    }
  }

  lemma StepChecked(c: Codec, w: World, s: Step)
    requires s.pid in w.procs && Checked(w, w.procs[s.pid]) && Next(c, w, s).log == w.log
    ensures s.pid in Next(c, w, s).procs && Checked(Next(c, w, s), Next(c, w, s).procs[s.pid])
  {
  }

  /** What an effective step does to the state, and that its effect fits what was there. */
  lemma EffectForm(c: Codec, w: World, s: Step)
    requires s.pid in w.procs ==> Checked(w, w.procs[s.pid])
    requires Next(c, w, s).log != w.log
    ensures var v := Next(c, w, s);
      && s.pid in w.procs && InSection(w.procs[s.pid])
      && |v.log| == |w.log| + 1 && v.log == w.log + [v.log[|w.log|]]
      && EffectFits(Content(w.file), v.log[|w.log|]) && Content(v.file) == Some(v.log[|w.log|].content)
      && s.pid in v.procs && v.procs == w.procs[s.pid := v.procs[s.pid]] && Checked(v, v.procs[s.pid])
  {
  }

  lemma RecordedEffectStep(c: Codec, start: Option<Bytes>, w: World, s: Step)
    requires Exclusive(w) && Recorded(start, w) && Next(c, w, s).log != w.log
    ensures Recorded(start, Next(c, w, s))
  {
    EffectForm(c, w, s);
    var v := Next(c, w, s);
    ChainedOneMore(start, w.log, v.log[|w.log|]);
    forall q | q in v.procs ensures Checked(v, v.procs[q]) {
      if q != s.pid { OthersUnchecked(w, s.pid, q); }
    }
  }

  lemma RecordedStep(c: Codec, start: Option<Bytes>, w: World, s: Step)
    requires Exclusive(w) && Recorded(start, w)
    ensures Recorded(start, Next(c, w, s))
  {
    if Next(c, w, s).log == w.log {
      RecordedQuietStep(c, start, w, s);
    } else {
      RecordedEffectStep(c, start, w, s);
    }
  }

  // ----- Who did what

  predicate Performed(log: seq<Effect>, p: Pid) {
    exists i :: 0 <= i < |log| && log[i].pid == p
  }

  /** A process has no effect before its write, and has had one once it is past it. */
  predicate Accounted(proc: Process, performed: bool) {
    match proc
    case Publisher(_, at) =>
      && (at.PublishStart? || at.PublishLocked? || at.PublishTemporary? ==> !performed)
      && (at.PublishLinked? || at.PublishUnlinked? || at.PublishReleased? ==> performed)
      && (at == PublishDone(Returned) || at == PublishDone(Mismatched) ==> performed)
    case Replacer(_, _, at) =>
      && (at.ReplaceStart? || Seen(at) ==> !performed)
      && (at.ReplaceRenamed? || at.ReplaceReleased? ==> performed)
      && (at == ReplaceDone(Returned) || at == ReplaceDone(Mismatched) ==> performed)
  }

  predicate Seen(at: ReplacerAt) {
    at.ReplaceSeen? || at.ReplaceLocked? || at.ReplaceMatched? || at.ReplaceTemporary? || at.ReplaceConfirmed?
  }

  /** What a replacer has seen is a file whose locator is the one its caller expects. */
  predicate SawExpected(c: Codec, proc: Process) {
    proc.Replacer? && Seen(proc.replacer) ==> CanonicalDigest(c, proc.replacer.seen.preimage) == Some(proc.expected)
  }

  /** An effect is the work of a process of the right kind, for its own locator and expectation. */
  predicate Attributed(c: Codec, procs: map<Pid, Process>, e: Effect) {
    && e.pid in procs && e.content == c.encode(procs[e.pid].locator)
    && match e
       case Initial(_, _) => procs[e.pid].Publisher?
       case Swap(p, _, _, d) => procs[p].Replacer? && CanonicalDigest(c, d.preimage) == Some(procs[p].expected)
  }

  ghost predicate Owned(c: Codec, w: World) {
    && (forall p :: p in w.procs ==> Accounted(w.procs[p], Performed(w.log, p)) && SawExpected(c, w.procs[p]))
    && (forall i :: 0 <= i < |w.log| ==> Attributed(c, w.procs, w.log[i]))
    && (forall i, j :: 0 <= i < j < |w.log| ==> w.log[i].pid != w.log[j].pid)
  }

  lemma PerformedOneMore(log: seq<Effect>, e: Effect, p: Pid)
    ensures Performed(log + [e], p) <==> Performed(log, p) || e.pid == p
  {
    var longer := log + [e];
    if Performed(log, p) {
      var i :| 0 <= i < |log| && log[i].pid == p;
      assert longer[i].pid == p;
    }
    if e.pid == p { assert longer[|log|].pid == p; }
  }

  /** A process keeps its kind, its locator and its expectation. */
  predicate SameTask(a: Process, b: Process) {
    && a.Publisher? == b.Publisher? && a.locator == b.locator
    && (a.Replacer? ==> a.expected == b.expected)
  }

  lemma PublisherKeepsTask(c: Codec, w: World, p: Pid)
    requires p in w.procs && w.procs[p].Publisher?
    ensures var v := PublisherGo(c, w, p);
      p in v.procs && SameTask(w.procs[p], v.procs[p]) && v.procs == w.procs[p := v.procs[p]]
  {
  }

  lemma ReplacerKeepsTask(c: Codec, w: World, p: Pid)
    requires p in w.procs && w.procs[p].Replacer?
    ensures var v := ReplacerGo(c, w, p);
      p in v.procs && SameTask(w.procs[p], v.procs[p]) && v.procs == w.procs[p := v.procs[p]]
  {
  }

  lemma TasksKept(c: Codec, w: World, s: Step)
    ensures Next(c, w, s).procs.Keys == w.procs.Keys
    ensures forall p :: p in w.procs ==> SameTask(w.procs[p], Next(c, w, s).procs[p])
    ensures forall p :: p in w.procs && p != s.pid ==> Next(c, w, s).procs[p] == w.procs[p]
  {
    if s.pid in w.procs {
      if w.procs[s.pid].Publisher? { PublisherKeepsTask(c, w, s.pid); } else { ReplacerKeepsTask(c, w, s.pid); }
    }
  }

  lemma OwnedQuietStep(c: Codec, w: World, s: Step)
    requires Owned(c, w) && Next(c, w, s).log == w.log
    ensures Owned(c, Next(c, w, s))
  {
    var v := Next(c, w, s);
    TasksKept(c, w, s);
    forall p | p in v.procs ensures Accounted(v.procs[p], Performed(v.log, p)) && SawExpected(c, v.procs[p]) {
      assert Accounted(w.procs[p], Performed(w.log, p)) && SawExpected(c, w.procs[p]);
    }
    forall i | 0 <= i < |v.log| ensures Attributed(c, v.procs, v.log[i]) {
      assert Attributed(c, w.procs, w.log[i]);
    }
  }

  lemma OwnedEffectStep(c: Codec, w: World, s: Step)
    requires Owned(c, w) && Next(c, w, s).log != w.log
    ensures Owned(c, Next(c, w, s))
  {
    var v := Next(c, w, s);
    var e := v.log[|w.log|];
    assert v.log == w.log + [e] && e.pid == s.pid;
    TasksKept(c, w, s);
    assert Accounted(w.procs[s.pid], Performed(w.log, s.pid)) && SawExpected(c, w.procs[s.pid]);
    forall p | p in v.procs ensures Accounted(v.procs[p], Performed(v.log, p)) && SawExpected(c, v.procs[p]) {
      PerformedOneMore(w.log, e, p);
      assert Accounted(w.procs[p], Performed(w.log, p)) && SawExpected(c, w.procs[p]);
    }
    forall i | 0 <= i < |v.log| ensures Attributed(c, v.procs, v.log[i]) {
      if i < |w.log| { assert Attributed(c, w.procs, w.log[i]); }
    }
    forall i, j | 0 <= i < j < |v.log| ensures v.log[i].pid != v.log[j].pid {
      if j == |w.log| { assert !Performed(w.log, s.pid); }
    }
  }

  // ----- Every run

  ghost predicate Sound(c: Codec, start: Option<Bytes>, w: World) {
    Exclusive(w) && Recorded(start, w) && Owned(c, w)
  }

  lemma FreshIsSound(c: Codec, w: World)
    requires Fresh(w)
    ensures Sound(c, Content(w.file), w)
  {
  }

  lemma SoundStep(c: Codec, start: Option<Bytes>, w: World, s: Step)
    requires Sound(c, start, w)
    ensures Sound(c, start, Next(c, w, s))
  {
    ExclusiveStep(c, w, s);
    RecordedStep(c, start, w, s);
    if Next(c, w, s).log == w.log { OwnedQuietStep(c, w, s); } else { OwnedEffectStep(c, w, s); }
  }

  /** Every reachable state of every interleaving is sound. */
  lemma {:induction false} RunsAreSound(c: Codec, w: World, steps: seq<Step>)
    requires Fresh(w)
    ensures Sound(c, Content(w.file), Run(c, w, steps))
    decreases |steps|
  {
    if steps == [] {
      FreshIsSound(c, w);
    } else {
      RunsAreSound(c, w, steps[..|steps| - 1]);
      SoundStep(c, Content(w.file), Run(c, w, steps[..|steps| - 1]), steps[|steps| - 1]);
    }
  }

  /** Initial publication takes effect at most once, and only where no locator was. */
  lemma PublishedAtMostOnce(c: Codec, w: World, steps: seq<Step>, i: nat)
    requires Fresh(w) && i < |Run(c, w, steps).log| && Run(c, w, steps).log[i].Initial?
    ensures i == 0 && w.file == None
    ensures forall j :: 0 < j < |Run(c, w, steps).log| ==> Run(c, w, steps).log[j].Swap?
  {
    RunsAreSound(c, w, steps);
    var start, log := Content(w.file), Run(c, w, steps).log;
    forall j | 0 < j < |log| ensures log[j].Swap? {
      assert EffectFits(After(start, log[..j]), log[j]);
    }
    assert EffectFits(After(start, log[..0]), log[0]);
  }

  /**
    A replacement that takes effect overwrites exactly the bytes its storage digest names, and the
    locator in those bytes is the one its caller expected.
   */
  lemma ReplacesWhatItExpects(c: Codec, w: World, steps: seq<Step>, i: nat)
    requires Fresh(w) && i < |Run(c, w, steps).log| && Run(c, w, steps).log[i].Swap?
    ensures var v := Run(c, w, steps); var e := v.log[i];
      && After(Content(w.file), v.log[..i]) == e.before == Some(e.expected.preimage)
      && e.pid in v.procs && v.procs[e.pid].Replacer? && e.content == c.encode(v.procs[e.pid].locator)
      && c.parse(e.expected.preimage).Some?
      && v.procs[e.pid].expected == Sha256(c.encode(c.parse(e.expected.preimage).value))
  {
    RunsAreSound(c, w, steps);
    var v := Run(c, w, steps);
    assert EffectFits(After(Content(w.file), v.log[..i]), v.log[i]);
    assert Attributed(c, v.procs, v.log[i]);
  }

  lemma ChainedRestores(start: Option<Bytes>, log: seq<Effect>, i: nat, j: nat)
    requires Chained(start, log) && i < j < |log|
    requires log[i].Swap? && log[j].Swap? && log[i].expected == log[j].expected
    ensures log[i].before == Some(log[j - 1].content)
  {
    assert EffectFits(After(start, log[..i]), log[i]);
    assert EffectFits(After(start, log[..j]), log[j]);
    assert log[..j][j - 1] == log[j - 1];
  }

  /**
    Of two replacements from one snapshot, the second takes effect only if the snapshot's content was
    put back in between (or the first wrote the content it found).
   */
  lemma NoLostUpdate(c: Codec, w: World, steps: seq<Step>, i: nat, j: nat)
    requires Fresh(w) && i < j < |Run(c, w, steps).log|
    requires Run(c, w, steps).log[i].Swap? && Run(c, w, steps).log[j].Swap?
    requires Run(c, w, steps).log[i].expected == Run(c, w, steps).log[j].expected
    ensures exists k :: i <= k < j && Some(Run(c, w, steps).log[k].content) == Run(c, w, steps).log[i].before
  {
    RunsAreSound(c, w, steps);
    ChainedRestores(Content(w.file), Run(c, w, steps).log, i, j);
  }

  /** A call that returns or raises the mismatch has taken effect exactly once; no call takes effect twice. */
  lemma ReadBackMeansEffective(c: Codec, w: World, steps: seq<Step>, p: Pid)
    requires Fresh(w) && p in Run(c, w, steps).procs
    requires EndedWith(Run(c, w, steps).procs[p], Returned) || EndedWith(Run(c, w, steps).procs[p], Mismatched)
    ensures exists i :: 0 <= i < |Run(c, w, steps).log| && Run(c, w, steps).log[i].pid == p
    ensures forall i, j :: 0 <= i < j < |Run(c, w, steps).log| ==> Run(c, w, steps).log[i].pid != Run(c, w, steps).log[j].pid
  {
    RunsAreSound(c, w, steps);
    var v := Run(c, w, steps);
    assert Accounted(v.procs[p], Performed(v.log, p));
  }

  predicate EndedWith(proc: Process, outcome: Outcome) {
    proc == Stopped(proc, outcome)
  }

  // ----- The read-back is outside the lock

  predicate RoundTrips(c: Codec, l: Locator) {
    c.parse(c.encode(l)) == Some(l) && |c.encode(l)| <= c.limit
  }

  ghost predicate AllRoundTrip(c: Codec, w: World) {
    forall p :: p in w.procs ==> RoundTrips(c, w.procs[p].locator)
  }

  predicate AtReadBack(proc: Process) {
    (proc.Publisher? && proc.publisher.PublishReleased?) || (proc.Replacer? && proc.replacer.ReplaceReleased?)
  }

  predicate Written(at: Process) {
    match at
    case Publisher(_, p) => p.PublishUnlinked? || p.PublishReleased?
    case Replacer(_, _, r) => r.ReplaceRenamed? || r.ReplaceReleased?
  }

  /** While the file has two links, nobody is between its write and its read-back. */
  ghost predicate LinkedIsEarly(w: World) {
    Linked(w.file) ==> forall p :: p in w.procs ==> !Written(w.procs[p])
  }

  lemma LinkedIsEarlyStep(c: Codec, start: Option<Bytes>, w: World, s: Step)
    requires Sound(c, start, w) && LinkedIsEarly(w)
    ensures LinkedIsEarly(Next(c, w, s))
  {
    var v := Next(c, w, s);
    if s.pid in w.procs && Linked(v.file) {
      TasksKept(c, w, s);
      if v.log == w.log {
        QuietWritten(c, w, s);
      } else {
        EffectForm(c, w, s);
        NewlyLinked(c, w, s);
        forall p | p in w.procs ensures !Written(w.procs[p]) {
          assert Accounted(w.procs[p], Performed(w.log, p));
        }
      }
    }
  }

  lemma QuietWritten(c: Codec, w: World, s: Step)
    requires s.pid in w.procs && Next(c, w, s).log == w.log && Linked(Next(c, w, s).file)
    requires !Written(w.procs[s.pid])
    ensures Linked(w.file) && s.pid in Next(c, w, s).procs && !Written(Next(c, w, s).procs[s.pid])
  {
  }

  /** A file that an effect leaves linked was the first. */
  lemma NewlyLinked(c: Codec, w: World, s: Step)
    requires s.pid in w.procs && Next(c, w, s).log != w.log && Linked(Next(c, w, s).file)
    ensures w.file == None && s.pid in Next(c, w, s).procs && !Written(Next(c, w, s).procs[s.pid])
  {
  }

  lemma {:induction false} RunsLinkEarly(c: Codec, w: World, steps: seq<Step>)
    requires Fresh(w)
    ensures LinkedIsEarly(Run(c, w, steps))
    decreases |steps|
  {
    if steps != [] {
      var front := steps[..|steps| - 1];
      RunsLinkEarly(c, w, front);
      RunsAreSound(c, w, front);
      LinkedIsEarlyStep(c, Content(w.file), Run(c, w, front), steps[|steps| - 1]);
    }
  }

  lemma {:induction false} RunKeepsTasks(c: Codec, w: World, steps: seq<Step>)
    ensures Run(c, w, steps).procs.Keys == w.procs.Keys
    ensures forall p :: p in w.procs ==> SameTask(w.procs[p], Run(c, w, steps).procs[p])
    decreases |steps|
  {
    if steps != [] {
      RunKeepsTasks(c, w, steps[..|steps| - 1]);
      TasksKept(c, Run(c, w, steps[..|steps| - 1]), steps[|steps| - 1]);
    }
  }

  /** The `j`th effect put another locator in the place of the one `p` had written before. */
  predicate WrittenOver(w: World, p: Pid, j: nat)
    requires p in w.procs
  {
    && j < |w.log| && Performed(w.log[..j], p)
    && w.log[j].pid in w.procs && w.procs[w.log[j].pid].locator != w.procs[p].locator
  }

  lemma PerformedBefore(log: seq<Effect>, p: Pid)
    requires Performed(log, p)
    ensures log != [] && (log[|log| - 1].pid == p || Performed(log[..|log| - 1], p))
  {
    var i :| 0 <= i < |log| && log[i].pid == p;
    if i < |log| - 1 { assert log[..|log| - 1][i].pid == p; }
  }

  lemma PerformedOnce(c: Codec, w: World, p: Pid, j: nat)
    requires Owned(c, w) && j < |w.log| && Performed(w.log[..j], p)
    ensures w.log[j].pid != p
  {
    var i :| 0 <= i < j && w.log[..j][i].pid == p;
    assert w.log[i].pid == p;
  }

  /** Loading what was written last: the caller's own locator, or that of the later writer. */
  lemma LastWriterReadsBack(c: Codec, w: World, p: Pid)
    requires Owned(c, w) && AllRoundTrip(c, w) && p in w.procs && Performed(w.log, p)
    requires !Linked(w.file) && Content(w.file) == After(None, w.log)
    ensures w.log != []
    ensures ReadBack(c, w.file, w.procs[p].locator) == if WrittenOver(w, p, |w.log| - 1) then Mismatched else Returned
  {
    PerformedBefore(w.log, p);
    var last := |w.log| - 1;
    assert Attributed(c, w.procs, w.log[last]);
    var q := w.log[last].pid;
    assert RoundTrips(c, w.procs[q].locator);
    if Performed(w.log[..last], p) { PerformedOnce(c, w, p, last); }
  }

  /** What a caller finds when it reads back, in a state every run keeps to. */
  lemma ReadBackAt(c: Codec, start: Option<Bytes>, v: World, p: Pid)
    requires Sound(c, start, v) && LinkedIsEarly(v) && AllRoundTrip(c, v) && p in v.procs && AtReadBack(v.procs[p])
    ensures v.log != [] && Performed(v.log, p)
    ensures WrittenOver(v, p, |v.log| - 1) <==> !Holds(c, v.file, v.procs[p].locator)
    ensures ReadBack(c, v.file, v.procs[p].locator) == if WrittenOver(v, p, |v.log| - 1) then Mismatched else Returned
  {
    assert Accounted(v.procs[p], Performed(v.log, p));
    assert Written(v.procs[p]);
    PerformedBefore(v.log, p);
    LastWriterReadsBack(c, v, p);
  }

  lemma RunRoundTrips(c: Codec, w: World, steps: seq<Step>)
    requires AllRoundTrip(c, w)
    ensures AllRoundTrip(c, Run(c, w, steps))
  {
    RunKeepsTasks(c, w, steps);
    var v := Run(c, w, steps);
    forall q | q in v.procs ensures RoundTrips(c, v.procs[q].locator) {
      assert SameTask(w.procs[q], v.procs[q]);
    }
  }

  /**
    The condition of the mismatch error, in every reachable world: the read-back raises it exactly when
    the last effect is a later one that wrote another locator, and returns otherwise.
   */
  lemma MismatchExactly(c: Codec, w: World, steps: seq<Step>, p: Pid)
    requires Fresh(w) && AllRoundTrip(c, w) && p in Run(c, w, steps).procs && AtReadBack(Run(c, w, steps).procs[p])
    ensures var v := Run(c, w, steps);
      && v.log != [] && Performed(v.log, p)
      && (WrittenOver(v, p, |v.log| - 1) <==> !Holds(c, v.file, v.procs[p].locator))
      && Next(c, v, Step(p, Go)).procs
         == v.procs[p := Stopped(v.procs[p], if WrittenOver(v, p, |v.log| - 1) then Mismatched else Returned)]
  {
    RunsAreSound(c, w, steps);
    RunsLinkEarly(c, w, steps);
    RunRoundTrips(c, w, steps);
    ReadBackAt(c, Content(w.file), Run(c, w, steps), p);
    ReadBackStep(c, Run(c, w, steps), p);
  }

  lemma ReadBackStep(c: Codec, w: World, p: Pid)
    requires p in w.procs && AtReadBack(w.procs[p])
    ensures Next(c, w, Step(p, Go)).procs
      == w.procs[p := Stopped(w.procs[p], ReadBack(c, w.file, w.procs[p].locator))]
  {
  }

  /** No other step raises the mismatch. */
  lemma MismatchOnlyAtReadBack(c: Codec, w: World, s: Step, p: Pid)
    requires p in w.procs && p in Next(c, w, s).procs
    requires EndedWith(Next(c, w, s).procs[p], Mismatched) && !EndedWith(w.procs[p], Mismatched)
    ensures s == Step(p, Go) && AtReadBack(w.procs[p])
  {
  }

  lemma LogGrows(c: Codec, w: World, s: Step)
    ensures w.log <= Next(c, w, s).log
  {
  }

  lemma WrittenOverStays(c: Codec, u: World, s: Step, p: Pid, j: nat)
    requires p in u.procs && WrittenOver(u, p, j)
    ensures p in Next(c, u, s).procs && WrittenOver(Next(c, u, s), p, j)
  {
    TasksKept(c, u, s);
    LogGrows(c, u, s);
    assert Next(c, u, s).log[..j] == u.log[..j];
  }

  /** Whoever got the mismatch error had written its locator, and a later effect wrote another over it. */
  lemma {:induction false} MismatchMeansWrittenOver(c: Codec, w: World, steps: seq<Step>, p: Pid) returns (j: nat)
    requires Fresh(w) && AllRoundTrip(c, w) && p in Run(c, w, steps).procs
    requires EndedWith(Run(c, w, steps).procs[p], Mismatched)
    ensures WrittenOver(Run(c, w, steps), p, j)
    decreases |steps|
  {
    if steps == [] {
      assert false;
    } else {
      var front, last := steps[..|steps| - 1], steps[|steps| - 1];
      var u := Run(c, w, front);
      TasksKept(c, u, last);
      if EndedWith(u.procs[p], Mismatched) {
        j := MismatchMeansWrittenOver(c, w, front, p);
      } else {
        j := JustMismatched(c, w, front, last, p);
      }
      WrittenOverStays(c, u, last, p, j);
    }
  }

  lemma JustMismatched(c: Codec, w: World, front: seq<Step>, last: Step, p: Pid) returns (j: nat)
    requires Fresh(w) && AllRoundTrip(c, w) && p in Run(c, w, front).procs
    requires p in Next(c, Run(c, w, front), last).procs
    requires EndedWith(Next(c, Run(c, w, front), last).procs[p], Mismatched)
    requires !EndedWith(Run(c, w, front).procs[p], Mismatched)
    ensures WrittenOver(Run(c, w, front), p, j)
  {
    MismatchOnlyAtReadBack(c, Run(c, w, front), last, p);
    MismatchExactly(c, w, front, p);
    j := |Run(c, w, front).log| - 1;
  }

  /** The publisher runs up to its read-back, the replacer to the end of its section, then the read-back. */
  function Turn(k: nat): Step {
    Step(if k < 5 || k >= 12 then 0 else 1, Go)
  }

  function Turns(n: nat): seq<Step> {
    if n == 0 then [] else Turns(n - 1) + [Turn(n - 1)]
  }

  function PublisherStage(k: nat): PublisherAt {
    if k == 0 then PublishStart
    else if k == 1 then PublishLocked
    else if k == 2 then PublishTemporary
    else if k == 3 then PublishLinked
    else if k == 4 then PublishUnlinked
    else if k <= 12 then PublishReleased
    else PublishDone(Mismatched)
  }

  function ReplacerStage(k: nat, d: Digest): ReplacerAt {
    if k <= 5 then ReplaceStart
    else if k == 6 then ReplaceSeen(d)
    else if k == 7 then ReplaceLocked(d)
    else if k == 8 then ReplaceMatched(d)
    else if k == 9 then ReplaceTemporary(d)
    else if k == 10 then ReplaceConfirmed(d)
    else if k == 11 then ReplaceRenamed
    else ReplaceReleased
  }

  /** The world after `k` turns when the publisher writes `a` and the replacer `b`. */
  function Stage(a: Bytes, b: Bytes, la: Locator, lb: Locator, k: nat): World {
    World(
      if k < 3 then None else if k < 11 then Some(File(a, k == 3)) else Some(File(b, false)),
      if 1 <= k < 5 then Some(0) else if 7 <= k < 12 then Some(1) else None,
      map[0 := Publisher(la, PublisherStage(k)), 1 := Replacer(lb, Sha256(a), ReplacerStage(k, Sha256(a)))],
      if k < 3 then [] else if k < 11 then [Initial(0, a)] else [Initial(0, a), Swap(1, Some(a), b, Sha256(a))])
  }

  lemma PublisherTurn(c: Codec, la: Locator, lb: Locator, k: nat)
    requires k < 5
    ensures Next(c, Stage(c.encode(la), c.encode(lb), la, lb, k), Turn(k)) == Stage(c.encode(la), c.encode(lb), la, lb, k + 1)
  {
    var v := Next(c, Stage(c.encode(la), c.encode(lb), la, lb, k), Turn(k));
    var u := Stage(c.encode(la), c.encode(lb), la, lb, k + 1);
    assert v.file == u.file && v.lock == u.lock && v.log == u.log;
    assert v.procs == u.procs;
  }

  lemma ReplacerTurn(c: Codec, la: Locator, lb: Locator, k: nat)
    requires 5 <= k < 12 && RoundTrips(c, la) && RoundTrips(c, lb)
    ensures Next(c, Stage(c.encode(la), c.encode(lb), la, lb, k), Turn(k)) == Stage(c.encode(la), c.encode(lb), la, lb, k + 1)
  {
    var v := Next(c, Stage(c.encode(la), c.encode(lb), la, lb, k), Turn(k));
    var u := Stage(c.encode(la), c.encode(lb), la, lb, k + 1);
    assert v.file == u.file && v.lock == u.lock && v.log == u.log;
    assert v.procs == u.procs;
  }

  lemma {:induction false} AfterTurns(c: Codec, la: Locator, lb: Locator, k: nat)
    requires k <= 12 && RoundTrips(c, la) && RoundTrips(c, lb)
    ensures Run(c, Stage(c.encode(la), c.encode(lb), la, lb, 0), Turns(k)) == Stage(c.encode(la), c.encode(lb), la, lb, k)
  {
    if k > 0 {
      AfterTurns(c, la, lb, k - 1);
      assert Turns(k)[..|Turns(k)| - 1] == Turns(k - 1);
      if k <= 5 { PublisherTurn(c, la, lb, k - 1); } else { ReplacerTurn(c, la, lb, k - 1); }
    }
  }

  /**
    A mismatch error does not mean that nothing was written: a replacement that slips in between a
    publisher's release and its read-back makes the publisher raise after its write took effect.
   */
  lemma MismatchAfterEffect(c: Codec, la: Locator, lb: Locator)
    requires la != lb && RoundTrips(c, la) && RoundTrips(c, lb)
    ensures exists w, steps :: Fresh(w) && RaisedAfterEffect(Run(c, w, steps), 0)
  {
    var w := Stage(c.encode(la), c.encode(lb), la, lb, 0);
    var before := Stage(c.encode(la), c.encode(lb), la, lb, 12);
    AfterTurns(c, la, lb, 12);
    assert Turns(13)[..|Turns(13)| - 1] == Turns(12);
    assert Run(c, w, Turns(13)) == Next(c, before, Turn(12));
    assert before.log[0].pid == 0;
    assert Fresh(w) && RaisedAfterEffect(Run(c, w, Turns(13)), 0);
  }

  predicate RaisedAfterEffect(w: World, p: Pid) {
    && p in w.procs && w.procs[p] == Stopped(w.procs[p], Mismatched)
    && Performed(w.log, p)
  }

  // ----- A publisher that dies between linking and unlinking

  /** The locator is linked twice and no live publisher is about to unlink the other name. */
  ghost predicate Stranded(w: World) {
    && w.file.Some? && w.file.value.linked
    && (forall p :: p in w.procs ==> w.procs[p] != Publisher(w.procs[p].locator, PublishLinked))
    && (forall p :: p in w.procs ==> !(w.procs[p].Replacer? && w.procs[p].replacer.ReplaceConfirmed?))
  }

  lemma StrandedStep(c: Codec, w: World, s: Step)
    requires Stranded(w)
    ensures Stranded(Next(c, w, s)) && Next(c, w, s).file == w.file && Next(c, w, s).log == w.log
  {
  }

  /** From there on no publication or replacement ever takes effect. */
  lemma {:induction false} StrandedForever(c: Codec, w: World, steps: seq<Step>)
    requires Stranded(w)
    ensures Stranded(Run(c, w, steps)) && Run(c, w, steps).file == w.file && Run(c, w, steps).log == w.log
    decreases |steps|
  {
    if steps != [] {
      StrandedForever(c, w, steps[..|steps| - 1]);
      StrandedStep(c, Run(c, w, steps[..|steps| - 1]), steps[|steps| - 1]);
    }
  }

  /** The one kind of step that strands: an exception or a crash after the link, with no clean-up. */
  predicate Strands(w: World, s: Step) {
    && s.pid in w.procs && w.procs[s.pid] == Publisher(w.procs[s.pid].locator, PublishLinked)
    && s.action.Stop? && s.action.outcome != Returned && s.action.outcome != Mismatched && !s.action.cleaned
  }

  lemma StrandingStep(c: Codec, start: Option<Bytes>, w: World, s: Step)
    requires Sound(c, start, w) && Strands(w, s)
    ensures Stranded(Next(c, w, s))
  {
    assert Checked(w, w.procs[s.pid]);
    forall q | q in w.procs && q != s.pid ensures !InSection(w.procs[q]) {
      OthersUnchecked(w, s.pid, q);
    }
  }

  /** A linked file belongs to the publisher about to unlink it, unless it is stranded. */
  lemma LinkedBy(c: Codec, start: Option<Bytes>, w: World) returns (p: Pid)
    requires Sound(c, start, w) && Linked(w.file) && !Stranded(w)
    ensures p in w.procs && w.procs[p] == Publisher(w.procs[p].locator, PublishLinked)
  {
    assert forall q :: q in w.procs ==> Checked(w, w.procs[q]);
    p :| p in w.procs && w.procs[p] == Publisher(w.procs[p].locator, PublishLinked);
  }

  lemma LinkedByPublisher(c: Codec, w: World, s: Step)
    requires s.pid in w.procs && !Linked(w.file) && Linked(Next(c, w, s).file)
    ensures s.pid in Next(c, w, s).procs
    ensures Next(c, w, s).procs[s.pid] == Publisher(Next(c, w, s).procs[s.pid].locator, PublishLinked)
  {
  }

  lemma OnlyStrandingStrands(c: Codec, start: Option<Bytes>, w: World, s: Step)
    requires Sound(c, start, w) && !Stranded(w) && Stranded(Next(c, w, s))
    ensures Strands(w, s)
  {
    var v := Next(c, w, s);
    if Linked(w.file) {
      var p := LinkedBy(c, start, w);
      TasksKept(c, w, s);
      assert s.pid == p;
    } else if s.pid in w.procs {
      LinkedByPublisher(c, w, s);
    }
  }

  lemma {:induction false} RunSplit(c: Codec, w: World, a: seq<Step>, b: seq<Step>)
    ensures Run(c, w, a + b) == Run(c, Run(c, w, a), b)
    decreases |b|
  {
    if b == [] {
      assert a + b == a;
    } else {
      RunSplit(c, w, a, b[..|b| - 1]);
      assert (a + b)[..|a + b| - 1] == a + b[..|b| - 1];
    }
  }

  /**
    When the locator is lost for good: when it was found with two links, and otherwise exactly in the
    runs in which some publisher is stopped between link and unlink without removing its temporary name.
   */
  lemma {:induction false} StrandedExactly(c: Codec, w: World, steps: seq<Step>)
    requires Fresh(w)
    ensures Stranded(Run(c, w, steps)) <==>
      Linked(w.file) || exists k :: 0 <= k < |steps| && Strands(Run(c, w, steps[..k]), steps[k])
    decreases |steps|
  {
    if Linked(w.file) {
      StrandedForever(c, w, steps);
    } else if Stranded(Run(c, w, steps)) {
      var k := WhenStranded(c, w, steps);
      assert Strands(Run(c, w, steps[..k]), steps[k]);
    }
    forall k | 0 <= k < |steps| && Strands(Run(c, w, steps[..k]), steps[k]) ensures Stranded(Run(c, w, steps)) {
      RunsAreSound(c, w, steps[..k]);
      StrandingStep(c, Content(w.file), Run(c, w, steps[..k]), steps[k]);
      assert steps[..k + 1][..k] == steps[..k] && steps[..k + 1] + steps[k + 1..] == steps;
      StrandedForever(c, Run(c, w, steps[..k + 1]), steps[k + 1..]);
      RunSplit(c, w, steps[..k + 1], steps[k + 1..]);
    }
  }

  lemma {:induction false} WhenStranded(c: Codec, w: World, steps: seq<Step>) returns (k: nat)
    requires Fresh(w) && !Linked(w.file) && Stranded(Run(c, w, steps))
    ensures k < |steps| && Strands(Run(c, w, steps[..k]), steps[k])
    decreases |steps|
  {
    var n := |steps| - 1;
    if Stranded(Run(c, w, steps[..n])) {
      k := WhenStranded(c, w, steps[..n]);
      assert steps[..n][..k] == steps[..k];
    } else {
      k := n;
      RunsAreSound(c, w, steps[..n]);
      OnlyStrandingStrands(c, Content(w.file), Run(c, w, steps[..n]), steps[n]);
    }
  }

  // ----- A process that runs alone

  /** Steps of one process, none of which fails. */
  function Alone(p: Pid, n: nat): (r: seq<Step>)
    ensures |r| == n
  {
    if n == 0 then [] else Alone(p, n - 1) + [Step(p, Go)]
  }

  lemma AloneOneMore(c: Codec, w: World, p: Pid, n: nat)
    ensures Run(c, w, Alone(p, n + 1)) == Next(c, Run(c, w, Alone(p, n)), Step(p, Go))
  {
    assert Alone(p, n + 1)[..n] == Alone(p, n);
  }

  /** Nothing but this process and what it has written differs between the worlds. */
  predicate Alike(w: World, v: World, p: Pid, proc: Process, file: Option<File>, log: seq<Effect>, lock: Option<Pid>)
  {
    v == World(file, lock, w.procs[p := proc], log)
  }

  lemma PublishesFirst(c: Codec, w: World, p: Pid, l: Locator)
    requires p in w.procs && w.procs[p] == Publisher(l, PublishStart) && w.lock == None && w.file == None
    ensures Alike(
      w, Run(c, w, Alone(p, 3)), p, Publisher(l, PublishLinked), Some(File(c.encode(l), true)),
      w.log + [Initial(p, c.encode(l))], Some(p))
  {
    assert Run(c, w, Alone(p, 0)) == w;
    AloneOneMore(c, w, p, 0);
    AloneOneMore(c, w, p, 1);
    AloneOneMore(c, w, p, 2);
  }

  /**
    Alone, a publisher succeeds exactly when there is no locator yet and its own can be read back; it
    then leaves its locator under one name, and the lock free.
   */
  lemma PublishesAlone(c: Codec, w: World, p: Pid, l: Locator)
    requires p in w.procs && w.procs[p] == Publisher(l, PublishStart) && w.lock == None && w.file == None
    ensures var v := Run(c, w, Alone(p, 6)); var content := c.encode(l);
      && v.file == Some(File(content, false)) && v.log == w.log + [Initial(p, content)] && v.lock == None
      && p in v.procs && Done(v.procs[p]) && v.procs[p].Publisher?
      && (v.procs[p].publisher == PublishDone(Returned) <==> |content| <= c.limit && c.parse(content) == Some(l))
  {
    PublishesFirst(c, w, p, l);
    AloneOneMore(c, w, p, 3);
    AloneOneMore(c, w, p, 4);
    AloneOneMore(c, w, p, 5);
  }

  /** Where there is a locator, a publisher changes nothing. */
  lemma PublishesNothing(c: Codec, w: World, p: Pid, l: Locator)
    requires p in w.procs && w.procs[p] == Publisher(l, PublishStart) && w.lock == None && w.file.Some?
    ensures Alike(
      w, Run(c, w, Alone(p, 3)), p, Publisher(l, PublishDone(Raised("LOCATOR_ALREADY_EXISTS"))), w.file, w.log, None)
  {
    assert Run(c, w, Alone(p, 0)) == w;
    AloneOneMore(c, w, p, 0);
    AloneOneMore(c, w, p, 1);
    AloneOneMore(c, w, p, 2);
  }

  /** The locator under the path is the one the caller expects, in whatever spelling. */
  predicate ExpectedThere(c: Codec, f: Option<File>, expected: Digest) {
    && f.Some? && !f.value.linked && |f.value.content| <= c.limit
    && c.parse(f.value.content).Some? && expected == Sha256(c.encode(c.parse(f.value.content).value))
  }

  lemma ReplacesFirst(c: Codec, w: World, p: Pid, l: Locator, expected: Digest)
    requires p in w.procs && w.procs[p] == Replacer(l, expected, ReplaceStart) && w.lock == None
    requires ExpectedThere(c, w.file, expected)
    ensures Alike(
      w, Run(c, w, Alone(p, 3)), p, Replacer(l, expected, ReplaceMatched(Sha256(w.file.value.content))), w.file, w.log,
      Some(p))
  {
    assert Run(c, w, Alone(p, 0)) == w;
    AloneOneMore(c, w, p, 0);
    AloneOneMore(c, w, p, 1);
    AloneOneMore(c, w, p, 2);
  }

  lemma ReplacesNext(c: Codec, w: World, p: Pid, l: Locator, expected: Digest)
    requires p in w.procs && w.procs[p] == Replacer(l, expected, ReplaceStart) && w.lock == None
    requires ExpectedThere(c, w.file, expected)
    ensures var found := w.file.value.content;
      Alike(
        w, Run(c, w, Alone(p, 6)), p, Replacer(l, expected, ReplaceRenamed), Some(File(c.encode(l), false)),
        w.log + [Swap(p, Some(found), c.encode(l), Sha256(found))], Some(p))
  {
    ReplacesFirst(c, w, p, l, expected);
    AloneOneMore(c, w, p, 3);
    AloneOneMore(c, w, p, 4);
    AloneOneMore(c, w, p, 5);
  }

  /** Alone, a replacer whose expected locator is there puts its own in its place, and reports whether it reads back. */
  lemma ReplacesAlone(c: Codec, w: World, p: Pid, l: Locator, expected: Digest)
    requires p in w.procs && w.procs[p] == Replacer(l, expected, ReplaceStart) && w.lock == None
    requires ExpectedThere(c, w.file, expected)
    ensures var v := Run(c, w, Alone(p, 8)); var content := c.encode(l); var found := w.file.value.content;
      && v.file == Some(File(content, false)) && v.lock == None
      && v.log == w.log + [Swap(p, Some(found), content, Sha256(found))]
      && p in v.procs && Done(v.procs[p]) && v.procs[p].Replacer?
      && (v.procs[p].replacer == ReplaceDone(Returned) <==> |content| <= c.limit && c.parse(content) == Some(l))
  {
    ReplacesNext(c, w, p, l, expected);
    AloneOneMore(c, w, p, 6);
    AloneOneMore(c, w, p, 7);
  }

  /** With any other locator, or none that can be read, it changes nothing. */
  lemma ReplacesNothing(c: Codec, w: World, p: Pid, l: Locator, expected: Digest)
    requires p in w.procs && w.procs[p] == Replacer(l, expected, ReplaceStart)
    requires !ExpectedThere(c, w.file, expected)
    ensures Alike(
      w, Run(c, w, Alone(p, 1)), p,
      Replacer(l, expected, ReplaceDone(Raised("LOCATOR_CONCURRENT_MODIFICATION"))), w.file, w.log, w.lock)
  {
    assert Run(c, w, Alone(p, 0)) == w;
    AloneOneMore(c, w, p, 0);
  }
}
