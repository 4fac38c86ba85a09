/**
  A production backup run over a host that may fail at any call and may leave the writers in any state
  when it is asked to stop or start them.

  Failures are ordinary exceptions, and only the host's own calls change the writers.
 */
module ProductionBackup {
  import opened Wrappers

  datatype WriterState = Absent | Stopped | Running

  type States = map<string, WriterState>

  datatype Call =
    | Rebind | Replan | AcquireLock | CheckOperations | CaptureStates | DigestStates
    | StopWriters | CheckBarrier | ReadInventory | ListMembers | EnterProjection | PrepareSecret | BuildRequest
    | CreateBackup | VerifyBackup | Authenticate | LeaveProjection
    | RestoreWriters | CheckHealth | DiscardKey | CloseKey | ReleaseLock

  datatype Event = Event(call: Call, ok: bool)

  /**
    How a run leaves.  `NotStarted` and `Early` come before the writers are touched; the last two are
    raised by the key's own cleanup.
   */
  datatype Exit =
    | Receipt | NoRuntimeDamage | RecoveryRequired | NotStarted | Early
    | DiscardRaised(restored: bool) | CloseRaised(inner: Exit)

  /** The one-time key of a run: none, held by the run, or written by a preparation that then failed. */
  datatype Key = NoKey | Held | Lost

  function Observed(writers: States, services: set<string>): States {
    map s | s in services :: if s in writers then writers[s] else Absent
  }

  /**
    The outside: whether the `n`-th call returns, the writers after they were told to stop and after
    they were told to start, and whether a preparation that fails has written the key by then.
   */
  datatype Script = Script(answers: nat -> bool, afterStop: States, afterRestore: States, keyWritten: bool)

  class Host {
    const script: Script
    var writers: States
    var log: seq<Event>

    /** Every call but the lock's own release was answered by the script. */
    ghost predicate Valid()
      reads this
    {
      Scripted(script, log)
    }

    constructor (script: Script, writers: States)
      ensures Valid() && this.script == script && this.writers == writers && log == []
    {
      this.script, this.writers := script, writers;
      log := [];
    }

    /** A call that returns or raises and leaves the writers alone. */
    method Try(call: Call) returns (ok: bool)
      requires Valid()
      modifies this`log
      ensures Valid() && log == old(log) + [Event(call, ok)]
    {
      ok := script.answers(|log|);
      log := log + [Event(call, ok)];
    }

    method Release()
      requires Valid()
      modifies this`log
      ensures Valid() && log == old(log) + [Event(ReleaseLock, true)]
    {
      log := log + [Event(ReleaseLock, true)];
    }

    /** Whatever the host does to the writers, and whether or not it says that it worked. */
    method Stop() returns (ok: bool)
      requires Valid()
      modifies this
      ensures Valid() && log == old(log) + [Event(StopWriters, ok)] && writers == script.afterStop
    {
      writers := script.afterStop;
      ok := Try(StopWriters);
    }

    /** Starts what was running and observes the result. */
    method Restore(services: set<string>) returns (ok: bool, restored: States)
      requires Valid()
      modifies this
      ensures Valid() && log == old(log) + [Event(RestoreWriters, ok)] && writers == script.afterRestore
      ensures restored == Observed(script.afterRestore, services)
    {
      writers := script.afterRestore;
      ok := Try(RestoreWriters);
      restored := Observed(writers, services);
    }
  }

  ghost predicate Scripted(script: Script, log: seq<Event>) {
    forall n :: 0 <= n < |log| && log[n].call != ReleaseLock ==> log[n].ok == script.answers(n)
  }

  // ----- The log of a list of calls

  predicate AllReturned(log: seq<Event>) {
    forall k :: 0 <= k < |log| ==> log[k].ok
  }

  lemma AllReturnedConcat(a: seq<Event>, b: seq<Event>)
    ensures AllReturned(a + b) <==> AllReturned(a) && AllReturned(b)
  {
    if AllReturned(a + b) {
      forall k | 0 <= k < |a| ensures a[k].ok { assert (a + b)[k] == a[k]; }
      forall k | 0 <= k < |b| ensures b[k].ok { assert (a + b)[|a| + k] == b[k]; }
    }
  }

  /** Stopping short leaves a call that raised. */
  lemma UpToReturned(calls: seq<Call>, n: nat)
    requires n <= |calls|
    ensures AllReturned(UpTo(calls, n)) <==> n == |calls|
  {
    AllReturnedConcat(AllOk(calls[..n]), if n < |calls| then [Event(calls[n], false)] else []);
    if n < |calls| { assert ![Event(calls[n], false)][0].ok; }
  }

  function AllOk(calls: seq<Call>): (r: seq<Event>)
    ensures |r| == |calls| && forall k :: 0 <= k < |r| ==> r[k] == Event(calls[k], true)
  {
    seq(|calls|, k requires 0 <= k < |calls| => Event(calls[k], true))
  }

  /** The first `n` calls returned and the next, if there is one, raised. */
  function UpTo(calls: seq<Call>, n: nat): seq<Event>
    requires n <= |calls|
  {
    AllOk(calls[..n]) + if n < |calls| then [Event(calls[n], false)] else []
  }

  lemma UpToOneMore(calls: seq<Call>, n: nat)
    requires n < |calls|
    ensures AllOk(calls[..n + 1]) == AllOk(calls[..n]) + [Event(calls[n], true)]
  {
  }

  /** Calls that touch nothing, in order, up to the first that raises. */
  method TryEach(host: Host, calls: seq<Call>) returns (n: nat)
    requires host.Valid()
    modifies host`log
    ensures host.Valid() && n <= |calls| && host.log == old(host.log) + UpTo(calls, n)
  {
    n := 0;
    while n < |calls|
      invariant host.Valid() && n <= |calls| && host.log == old(host.log) + AllOk(calls[..n])
    {
      var ok := host.Try(calls[n]);
      if !ok {
        return;
      }
      UpToOneMore(calls, n);
      n := n + 1;
    }
  }

  // ----- Behind the write barrier

  const CHECKS: seq<Call> := [CheckBarrier, ReadInventory, ListMembers, EnterProjection]
  const INSIDE: seq<Call> := [PrepareSecret, BuildRequest, CreateBackup, VerifyBackup, Authenticate]

  /** Where the barrier stopped: at the stop call, at a check, or inside the projection after some calls. */
  datatype Progress = AtStop | AtCheck(checks: nat) | InProjection(calls: nat)
  {
    predicate Valid() {
      (AtCheck? ==> checks < |CHECKS|) && (InProjection? ==> calls <= |INSIDE|)
    }

    /** The backup was created, so the key now opens it. */
    predicate Bound() {
      InProjection? && calls >= 3
    }

    predicate Complete() {
      this == InProjection(|INSIDE|)
    }
  }

  /** A projection that was entered is always left. */
  function BarrierLog(p: Progress, left: bool): seq<Event>
    requires p.Valid()
  {
    match p
    case AtStop => [Event(StopWriters, false)]
    case AtCheck(checks) => [Event(StopWriters, true)] + UpTo(CHECKS, checks)
    case InProjection(calls) =>
      [Event(StopWriters, true)] + AllOk(CHECKS) + UpTo(INSIDE, calls) + [Event(LeaveProjection, left)]
  }

  /** A barrier all of whose calls returned is complete. */
  lemma BarrierReturned(p: Progress, left: bool)
    requires p.Valid()
    ensures AllReturned(BarrierLog(p, left)) ==> p.Complete() && left
  {
    var log := BarrierLog(p, left);
    match p
    case AtStop => assert !log[0].ok;
    case AtCheck(checks) =>
      UpToReturned(CHECKS, checks);
      AllReturnedConcat([Event(StopWriters, true)], UpTo(CHECKS, checks));
    case InProjection(calls) =>
      UpToReturned(INSIDE, calls);
      AllReturnedConcat([Event(StopWriters, true)] + AllOk(CHECKS) + UpTo(INSIDE, calls), [Event(LeaveProjection, left)]);
      AllReturnedConcat([Event(StopWriters, true)] + AllOk(CHECKS), UpTo(INSIDE, calls));
      assert log[|log| - 1] == Event(LeaveProjection, left);
  }

  /** The key, if the request asks for one, is written before the secret entries are read. */
  function KeyAfter(oneTimeKey: bool, keyWritten: bool, p: Progress): Key {
    if !oneTimeKey || !p.InProjection? then NoKey
    else if p.calls >= 1 then Held
    else if keyWritten then Lost else NoKey
  }

  lemma Assoc(a: seq<Event>, b: seq<Event>, c: seq<Event>)
    ensures a + b + c == a + (b + c)
  {
  }

  /** The writers are stopped and checked to be, and the sources are projected. */
  method Enter(host: Host) returns (ghost p: Progress, ok: bool)
    requires host.Valid()
    modifies host
    ensures host.Valid() && p.Valid() && (ok <==> p == InProjection(0))
    ensures host.log == old(host.log)
      + if ok then [Event(StopWriters, true)] + AllOk(CHECKS) else BarrierLog(p, false)
    ensures !ok ==> !p.InProjection?
  {
    ghost var start := host.log;
    var stopped := host.Stop();
    if !stopped {
      return AtStop, false;
    }
    var checks := TryEach(host, CHECKS);
    Assoc(start, [Event(StopWriters, true)], UpTo(CHECKS, checks));
    AllUpTo(CHECKS);
    ok := checks == |CHECKS|;
    p := if ok then InProjection(0) else AtCheck(checks);
  }

  method Barrier(host: Host, oneTimeKey: bool)
    returns (ok: bool, key: Key, bound: bool, left: bool, ghost p: Progress)
    requires host.Valid()
    modifies host
    ensures host.Valid() && p.Valid() && host.log == old(host.log) + BarrierLog(p, left)
    ensures ok <==> p.Complete() && left
    ensures bound <==> p.Bound()
    ensures key == KeyAfter(oneTimeKey, host.script.keyWritten, p)
  {
    ghost var start := host.log;
    key, bound, left := NoKey, false, false;
    p, ok := Enter(host);
    if !ok {
      return;
    }
    var calls;
    calls, left := Project(host);
    Entered(start, UpTo(INSIDE, calls), [Event(LeaveProjection, left)]);
    key := if !oneTimeKey then NoKey else if calls >= 1 then Held else if host.script.keyWritten then Lost else NoKey;
    bound := calls >= 3;
    ok, p := calls == |INSIDE| && left, InProjection(calls);
  }

  lemma Entered(start: seq<Event>, b: seq<Event>, c: seq<Event>)
    ensures start + ([Event(StopWriters, true)] + AllOk(CHECKS)) + (b + c)
      == start + ([Event(StopWriters, true)] + AllOk(CHECKS) + b + c)
  {
  }

  /** Inside the source projection, which is left on every path. */
  method Project(host: Host) returns (calls: nat, left: bool)
    requires host.Valid()
    modifies host`log
    ensures host.Valid() && calls <= |INSIDE|
    ensures host.log == old(host.log) + (UpTo(INSIDE, calls) + [Event(LeaveProjection, left)])
  {
    calls := TryEach(host, INSIDE);
    left := host.Try(LeaveProjection);
    Assoc(old(host.log), UpTo(INSIDE, calls), [Event(LeaveProjection, left)]);
  }

  lemma AllUpTo(calls: seq<Call>)
    ensures UpTo(calls, |calls|) == AllOk(calls)
  {
    assert calls[..|calls|] == calls;
  }

  // ----- The whole run

  const BEFORE_LOCK: seq<Call> := [Rebind, Replan, AcquireLock]
  const EARLY: seq<Call> := [Rebind, Replan, CheckOperations, CaptureStates, DigestStates]

  /** What a run leaves: its exit, the captured states, its key and the lock. */
  datatype Run = Run(exit: Exit, captured: Option<States>, key: Key, bound: bool, discarded: bool, released: bool)

  /**
    Where a run went: refused before the lock was held, ended early under the lock, or on through the
    barrier.  In the last case `returned` and `healthy` answer the restore call and the health check,
    and `discard` and `close` the key's cleanup, where it was asked for.
   */
  datatype Trail =
    | NoLock(calls: nat)
    | Cut(calls: nat)
    | Through(p: Progress, left: bool, returned: bool, healthy: bool, discard: Option<bool>, close: Option<bool>)
  {
    predicate Valid(oneTimeKey: bool) {
      match this
      case NoLock(calls) => calls < |BEFORE_LOCK|
      case Cut(calls) => calls < |EARLY|
      case Through(p, _, _, _, discard, close) =>
        && p.Valid()
        && (discard.Some? <==> Holds(oneTimeKey, p) && !p.Bound())
        && (close.Some? <==> Holds(oneTimeKey, p) && p.Bound())
    }
  }

  /** The run holds a key: one was asked for, and its preparation returned. */
  predicate Holds(oneTimeKey: bool, p: Progress) {
    oneTimeKey && p.InProjection? && p.calls >= 1
  }

  function ResumeLog(returned: bool, healthy: bool, discard: Option<bool>): seq<Event> {
    [Event(RestoreWriters, returned)]
    + (if returned then [Event(CheckHealth, healthy)] else [])
    + if discard.Some? then [Event(DiscardKey, discard.value)] else []
  }

  function FinishLog(close: Option<bool>): seq<Event> {
    (if close.Some? then [Event(CloseKey, close.value)] else [])
    + if close == Some(false) then [] else [Event(ReleaseLock, true)]
  }

  function PrepareLog(t: Trail): seq<Event>
    requires t.NoLock? ==> t.calls < |BEFORE_LOCK|
    requires t.Cut? ==> t.calls < |EARLY|
  {
    match t
    case NoLock(calls) => UpTo(BEFORE_LOCK, calls)
    case Cut(calls) => AllOk(BEFORE_LOCK) + UpTo(EARLY, calls)
    case Through(_, _, _, _, _, _) => AllOk(BEFORE_LOCK) + AllOk(EARLY)
  }

  function BackupLog(t: Trail): seq<Event>
    requires t.Through? ==> t.p.Valid()
  {
    if t.Through? then BarrierLog(t.p, t.left) else []
  }

  function AfterLog(t: Trail): seq<Event> {
    if t.Through? then ResumeLog(t.returned, t.healthy, t.discard) else []
  }

  function EndLog(t: Trail): seq<Event> {
    match t
    case NoLock(_) => []
    case Cut(_) => FinishLog(None)
    case Through(_, _, _, _, _, close) => FinishLog(close)
  }

  function LogOf(t: Trail, oneTimeKey: bool): seq<Event>
    requires t.Valid(oneTimeKey)
  {
    PrepareLog(t) + BackupLog(t) + AfterLog(t) + EndLog(t)
  }

  /** How a run decides to end once it knows about the writers, the backup and the discarded key. */
  function Decided(restored: bool, made: bool, discardRaised: bool): Exit {
    if restored && made then Receipt
    else if discardRaised then DiscardRaised(restored)
    else if restored then NoRuntimeDamage else RecoveryRequired
  }

  /** The exit before the closing of the key, which may raise over it. */
  function Inner(exit: Exit): Exit {
    if exit.CloseRaised? then exit.inner else exit
  }

  function Over(exit: Exit, close: Option<bool>): Exit {
    if close == Some(false) then CloseRaised(exit) else exit
  }

  /** The run at the end of a trail, with these captured states. */
  function RunOf(t: Trail, oneTimeKey: bool, script: Script, states: States): Run {
    match t
    case NoLock(_) => Run(NotStarted, None, NoKey, false, false, false)
    case Cut(_) => Run(Early, None, NoKey, false, false, true)
    case Through(p, left, returned, healthy, discard, close) =>
      var restored := returned && healthy && Observed(script.afterRestore, states.Keys) == states;
      Run(
        Over(Decided(restored, p.Complete() && left, discard == Some(false)), close), Some(states),
        KeyAfter(oneTimeKey, script.keyWritten, p), p.Bound(), discard.Some?, close != Some(false))
  }

  /** Everything before the writers are touched. */
  method Prepare(host: Host, services: set<string>) returns (t: Option<Trail>, states: States)
    requires host.Valid()
    modifies host`log
    ensures host.Valid() && states == Observed(host.writers, services)
    ensures t.Some? ==> t.value.Valid(false) && !t.value.Through? && host.log == old(host.log) + PrepareLog(t.value)
    ensures t.None? ==> host.log == old(host.log) + (AllOk(BEFORE_LOCK) + AllOk(EARLY))
  {
    states := Observed(host.writers, services);
    var calls := TryEach(host, BEFORE_LOCK);
    if calls < |BEFORE_LOCK| {
      return Some(NoLock(calls)), states;
    }
    AllUpTo(BEFORE_LOCK);
    ghost var start := old(host.log);
    calls := TryEach(host, EARLY);
    Assoc(start, AllOk(BEFORE_LOCK), UpTo(EARLY, calls));
    if calls < |EARLY| {
      return Some(Cut(calls)), states;
    }
    AllUpTo(EARLY);
    return None, states;
  }

  /** The writers are brought back, and only then does the run decide how it ends. */
  method Resume(host: Host, states: States, made: bool, key: Key, bound: bool)
    returns (exit: Exit, returned: bool, healthy: bool, discard: Option<bool>)
    requires host.Valid() && (made ==> bound)
    modifies host
    ensures host.Valid() && host.log == old(host.log) + ResumeLog(returned, healthy, discard)
    ensures host.writers == host.script.afterRestore
    ensures discard.Some? <==> key == Held && !bound
    ensures exit == Decided(
      returned && healthy && Observed(host.script.afterRestore, states.Keys) == states, made, discard == Some(false))
  {
    healthy, discard := false, None;
    var after;
    returned, after := host.Restore(states.Keys);
    if returned {
      healthy := host.Try(CheckHealth);
    }
    var restored := returned && healthy && after == states;
    if restored && made {
      return Receipt, returned, healthy, discard;
    }
    if key == Held && !bound {
      var quiet := host.Try(DiscardKey);
      discard := Some(quiet);
      if !quiet {
        return DiscardRaised(restored), returned, healthy, discard;
      }
    }
    return if restored then NoRuntimeDamage else RecoveryRequired, returned, healthy, discard;
  }

  /** Closing the key may raise, and then the lock is never given back. */
  method Finish(host: Host, key: Key, discarded: bool) returns (close: Option<bool>)
    requires host.Valid()
    modifies host`log
    ensures host.Valid() && host.log == old(host.log) + FinishLog(close)
    ensures close.Some? <==> key == Held && !discarded
  {
    close := None;
    if key == Held && !discarded {
      var closed := host.Try(CloseKey);
      close := Some(closed);
      if !closed {
        return;
      }
    }
    host.Release();
  }

  /** From the stop call on: the barrier, the writers' return, and the key's end. */
  method Guarded(host: Host, states: States, oneTimeKey: bool) returns (run: Run, ghost t: Trail)
    requires host.Valid()
    modifies host
    ensures host.Valid() && host.writers == host.script.afterRestore
    ensures t.Through? && t.Valid(oneTimeKey) && run == RunOf(t, oneTimeKey, host.script, states)
    ensures host.log == old(host.log) + BackupLog(t) + AfterLog(t) + EndLog(t)
  {
    var made, key, bound, left;
    ghost var p;
    made, key, bound, left, p := Barrier(host, oneTimeKey);
    var exit, returned, healthy, discard := Resume(host, states, made, key, bound);
    var close := Finish(host, key, discard.Some?);
    t := Through(p, left, returned, healthy, discard, close);
    run := Run(Over(exit, close), Some(states), key, bound, discard.Some?, close != Some(false));
  }

  /** A run follows one trail. */
  method Follow(host: Host, services: set<string>, oneTimeKey: bool) returns (run: Run, ghost t: Trail)
    requires host.Valid()
    modifies host
    ensures host.Valid() && t.Valid(oneTimeKey) && host.log == old(host.log) + LogOf(t, oneTimeKey)
    ensures run == RunOf(t, oneTimeKey, host.script, Observed(old(host.writers), services))
    ensures host.writers == if run.captured.Some? then host.script.afterRestore else old(host.writers)
  {
    ghost var start := host.log;
    var cut, states := Prepare(host, services);
    if cut.Some? {
      EndCut(host, cut.value);
      t, run := cut.value, RunOf(cut.value, oneTimeKey, host.script, states);
    } else {
      run, t := Guarded(host, states, oneTimeKey);
    }
    Regrouped(start, PrepareLog(t), BackupLog(t), AfterLog(t), EndLog(t));
  }

  /** A run that ends early gives back the lock it holds. */
  method EndCut(host: Host, t: Trail)
    requires host.Valid() && !t.Through?
    modifies host`log
    ensures host.Valid() && host.log == old(host.log) + BackupLog(t) + AfterLog(t) + EndLog(t)
  {
    if t.Cut? {
      host.Release();
    }
  }

  /**
    The exit, the key and the lock of a run are told by what its log says of the calls; the writers are
    touched only on runs that captured their states first.
   */
  method Execute(host: Host, services: set<string>, oneTimeKey: bool)
    returns (run: Run, ghost log: seq<Event>, ghost t: Trail)
    requires host.Valid()
    modifies host
    ensures host.Valid() && host.log == old(host.log) + log
    ensures t.Valid(oneTimeKey) && log == LogOf(t, oneTimeKey)
    ensures run == RunOf(t, oneTimeKey, host.script, Observed(old(host.writers), services))
    ensures host.writers == if run.captured.Some? then host.script.afterRestore else old(host.writers)
    ensures run.captured.Some? ==> run.captured.value == Observed(old(host.writers), services)
    ensures KeyAccount(run, log, oneTimeKey, host.script.keyWritten)
    ensures ExitAccount(run, log, host.script.afterRestore)
    ensures Inner(run.exit) == Receipt ==> MadeBeforeResume(log)
  {
    var states := Observed(host.writers, services);
    run, t := Follow(host, services, oneTimeKey);
    log := LogOf(t, oneTimeKey);
    KeyAccounts(t, oneTimeKey, host.script, states);
    ExitAccounts(t, oneTimeKey, host.script, states);
    if Inner(run.exit) == Receipt { ReceiptOrder(t, oneTimeKey); }
  }

  lemma Regrouped(start: seq<Event>, a: seq<Event>, b: seq<Event>, c: seq<Event>, d: seq<Event>)
    ensures start + (a + b + c + d) == start + a + b + c + d
  {
  }

  // ----- What the log says of a call

  predicate Happened(log: seq<Event>, call: Call) {
    Event(call, true) in log
  }

  predicate Raised(log: seq<Event>, call: Call) {
    Event(call, false) in log
  }

  /** The key and the lock, told by the calls. */
  predicate KeyAccount(run: Run, log: seq<Event>, oneTimeKey: bool, keyWritten: bool) {
    && (run.key == Held <==> oneTimeKey && Happened(log, PrepareSecret))
    && (run.key == Lost <==> oneTimeKey && keyWritten && Raised(log, PrepareSecret))
    && (run.bound <==> Happened(log, CreateBackup))
    && (run.discarded <==> run.key == Held && !run.bound)
    && (run.discarded <==> Happened(log, DiscardKey) || Raised(log, DiscardKey))
    && (run.key == Held && run.bound <==> Happened(log, CloseKey) || Raised(log, CloseKey))
    && (run.released <==> Happened(log, ReleaseLock))
    && (run.released <==> Happened(log, AcquireLock) && !Raised(log, CloseKey))
  }

  /** The writers were started, observed as captured, and found healthy. */
  predicate Restored(log: seq<Event>, captured: States, after: States) {
    Happened(log, RestoreWriters) && Happened(log, CheckHealth) && Observed(after, captured.Keys) == captured
  }

  predicate Made(log: seq<Event>) {
    Happened(log, Authenticate) && Happened(log, LeaveProjection)
  }

  /** The exit, told by the calls and the writers. */
  predicate ExitAccount(run: Run, log: seq<Event>, after: States) {
    && (run.exit == NotStarted <==> !Happened(log, AcquireLock))
    && (run.exit == Early <==> Happened(log, AcquireLock) && !Happened(log, DigestStates))
    && (run.captured.Some? <==> Happened(log, AcquireLock) && Happened(log, DigestStates))
    && (run.exit.CloseRaised? <==> Raised(log, CloseKey))
    && (run.captured.Some? ==>
          Inner(run.exit) == Decided(Restored(log, run.captured.value, after), Made(log), Raised(log, DiscardKey)))
  }

  function Stage(call: Call): nat {
    match call
    case Rebind => 0
    case Replan => 0
    case AcquireLock => 0
    case CheckOperations => 0
    case CaptureStates => 0
    case DigestStates => 0
    case RestoreWriters => 2
    case CheckHealth => 2
    case DiscardKey => 2
    case CloseKey => 3
    case ReleaseLock => 3
    case _ => 1
  }

  predicate InStage(log: seq<Event>, stage: nat) {
    forall e :: e in log ==> Stage(e.call) == stage
  }

  predicate SameAnswers(a: seq<Event>, b: seq<Event>, call: Call) {
    (Happened(a, call) <==> Happened(b, call)) && (Raised(a, call) <==> Raised(b, call))
  }

  /** A call is looked up in its own stage. */
  lemma Segments(a: seq<Event>, b: seq<Event>, c: seq<Event>, d: seq<Event>, call: Call)
    requires InStage(a, 0) && InStage(b, 1) && InStage(c, 2) && InStage(d, 3)
    ensures var own := if Stage(call) == 0 then a else if Stage(call) == 1 then b else if Stage(call) == 2 then c else d;
      SameAnswers(own, a + b + c + d, call)
  {
  }

  lemma InUpTo(calls: seq<Call>, n: nat, k: nat)
    requires n <= |calls| && k < |calls| && forall i :: 0 <= i < |calls| && i != k ==> calls[i] != calls[k]
    ensures Happened(UpTo(calls, n), calls[k]) <==> k < n
    ensures Raised(UpTo(calls, n), calls[k]) <==> k == n
  {
    var log := UpTo(calls, n);
    assert forall i :: 0 <= i < |log| ==> log[i] == Event(calls[i], i < n);
    if k < n { assert log[k] == Event(calls[k], true); }
    if k == n { assert log[k] == Event(calls[k], false); }
  }

  lemma StageUpTo(calls: seq<Call>, n: nat, stage: nat)
    requires n <= |calls| && forall i :: 0 <= i < |calls| ==> Stage(calls[i]) == stage
    ensures InStage(UpTo(calls, n), stage)
  {
    var log := UpTo(calls, n);
    assert forall i :: 0 <= i < |log| ==> log[i] == Event(calls[i], i < n);
  }

  lemma NotCalled(calls: seq<Call>, n: nat, call: Call)
    requires n <= |calls| && call !in calls
    ensures !Happened(UpTo(calls, n), call) && !Raised(UpTo(calls, n), call)
  {
    var log := UpTo(calls, n);
    assert forall i :: 0 <= i < |log| ==> log[i] == Event(calls[i], i < n);
  }

  lemma PrepareFacts(t: Trail, oneTimeKey: bool)
    requires t.Valid(oneTimeKey)
    ensures InStage(PrepareLog(t), 0)
    ensures Happened(PrepareLog(t), AcquireLock) <==> !t.NoLock?
    ensures Happened(PrepareLog(t), DigestStates) <==> t.Through?
  {
    var before := if t.NoLock? then t.calls else |BEFORE_LOCK|;
    StageUpTo(BEFORE_LOCK, before, 0);
    InUpTo(BEFORE_LOCK, before, 2);
    NotCalled(BEFORE_LOCK, before, DigestStates);
    AllUpTo(BEFORE_LOCK);
    if !t.NoLock? {
      var early := if t.Cut? then t.calls else |EARLY|;
      StageUpTo(EARLY, early, 0);
      InUpTo(EARLY, early, 4);
      NotCalled(EARLY, early, AcquireLock);
      AllUpTo(EARLY);
    }
  }

  /** None of the calls whose return decides about the key or the backup. */
  predicate Undecided(log: seq<Event>) {
    && !Happened(log, PrepareSecret) && !Raised(log, PrepareSecret) && !Happened(log, CreateBackup)
    && !Happened(log, Authenticate) && !Happened(log, LeaveProjection)
  }

  lemma ChecksFacts(n: nat)
    requires n <= |CHECKS|
    ensures Undecided([Event(StopWriters, true)] + UpTo(CHECKS, n))
  {
    NotCalled(CHECKS, n, PrepareSecret);
    NotCalled(CHECKS, n, CreateBackup);
    NotCalled(CHECKS, n, Authenticate);
    NotCalled(CHECKS, n, LeaveProjection);
  }

  lemma InsideFacts(n: nat)
    requires n <= |INSIDE|
    ensures Happened(UpTo(INSIDE, n), PrepareSecret) <==> n >= 1
    ensures Raised(UpTo(INSIDE, n), PrepareSecret) <==> n == 0
    ensures Happened(UpTo(INSIDE, n), CreateBackup) <==> n >= 3
    ensures Happened(UpTo(INSIDE, n), Authenticate) <==> n == |INSIDE|
    ensures !Happened(UpTo(INSIDE, n), LeaveProjection)
  {
    InUpTo(INSIDE, n, 0);
    InUpTo(INSIDE, n, 2);
    InUpTo(INSIDE, n, 4);
    NotCalled(INSIDE, n, LeaveProjection);
  }

  lemma BarrierStage(p: Progress, left: bool)
    requires p.Valid()
    ensures InStage(BarrierLog(p, left), 1)
  {
    match p
    case AtStop =>
    case AtCheck(checks) => StageUpTo(CHECKS, checks, 1);
    case InProjection(calls) =>
      StageUpTo(CHECKS, |CHECKS|, 1);
      AllUpTo(CHECKS);
      StageUpTo(INSIDE, calls, 1);
  }

  /** A log that only the middle of which decides. */
  lemma DecidedInside(a: seq<Event>, b: seq<Event>, left: bool)
    requires Undecided(a) && !Happened(b, LeaveProjection)
    ensures var log := a + b + [Event(LeaveProjection, left)];
      && (Happened(log, PrepareSecret) <==> Happened(b, PrepareSecret))
      && (Raised(log, PrepareSecret) <==> Raised(b, PrepareSecret))
      && (Happened(log, CreateBackup) <==> Happened(b, CreateBackup))
      && (Made(log) <==> Happened(b, Authenticate) && left)
  {
  }

  lemma BarrierFacts(p: Progress, left: bool)
    requires p.Valid()
    ensures Happened(BarrierLog(p, left), PrepareSecret) <==> p.InProjection? && p.calls >= 1
    ensures Raised(BarrierLog(p, left), PrepareSecret) <==> p == InProjection(0)
    ensures Happened(BarrierLog(p, left), CreateBackup) <==> p.Bound()
    ensures Made(BarrierLog(p, left)) <==> p.Complete() && left
  {
    match p
    case AtStop =>
    case AtCheck(checks) => ChecksFacts(checks);
    case InProjection(calls) =>
      ChecksFacts(|CHECKS|);
      AllUpTo(CHECKS);
      InsideFacts(calls);
      DecidedInside([Event(StopWriters, true)] + AllOk(CHECKS), UpTo(INSIDE, calls), left);
  }

  /** The whole log says of the calls of one stage what its own part says. */
  ghost predicate Agrees(part: seq<Event>, log: seq<Event>, stage: nat) {
    forall call :: Stage(call) == stage ==> SameAnswers(part, log, call)
  }

  lemma AfterStage(returned: bool, healthy: bool, discard: Option<bool>)
    ensures InStage(ResumeLog(returned, healthy, discard), 2)
  {
  }

  lemma EndStage(close: Option<bool>)
    ensures InStage(FinishLog(close), 3)
  {
  }

  lemma PartsAgree(a: seq<Event>, b: seq<Event>, c: seq<Event>, d: seq<Event>)
    requires InStage(a, 0) && InStage(b, 1) && InStage(c, 2) && InStage(d, 3)
    ensures var log := a + b + c + d; Agrees(a, log, 0) && Agrees(b, log, 1) && Agrees(c, log, 2) && Agrees(d, log, 3)
  {
    var log := a + b + c + d;
    forall call ensures
      SameAnswers(
        if Stage(call) == 0 then a else if Stage(call) == 1 then b else if Stage(call) == 2 then c else d, log, call)
    {
      Segments(a, b, c, d, call);
    }
  }

  predicate TellsPrepared(t: Trail, log: seq<Event>) {
    (Happened(log, AcquireLock) <==> !t.NoLock?) && (Happened(log, DigestStates) <==> t.Through?)
  }

  predicate TellsBackup(t: Trail, log: seq<Event>) {
    && (Happened(log, PrepareSecret) <==> t.Through? && t.p.InProjection? && t.p.calls >= 1)
    && (Raised(log, PrepareSecret) <==> t.Through? && t.p == InProjection(0))
    && (Happened(log, CreateBackup) <==> t.Through? && t.p.Bound())
    && (Made(log) <==> t.Through? && t.p.Complete() && t.left)
  }

  predicate TellsAfter(t: Trail, log: seq<Event>) {
    && (Happened(log, RestoreWriters) <==> t.Through? && t.returned)
    && (t.Through? && t.returned ==> (Happened(log, CheckHealth) <==> t.healthy))
    && (Happened(log, DiscardKey) <==> t.Through? && t.discard == Some(true))
    && (Raised(log, DiscardKey) <==> t.Through? && t.discard == Some(false))
  }

  predicate TellsEnd(t: Trail, log: seq<Event>) {
    && (Happened(log, CloseKey) <==> t.Through? && t.close == Some(true))
    && (Raised(log, CloseKey) <==> t.Through? && t.close == Some(false))
    && (Happened(log, ReleaseLock) <==> t.Cut? || (t.Through? && t.close != Some(false)))
  }

  /** The log tells the trail. */
  lemma LogTells(t: Trail, oneTimeKey: bool)
    requires t.Valid(oneTimeKey)
    ensures var log := LogOf(t, oneTimeKey);
      TellsPrepared(t, log) && TellsBackup(t, log) && TellsAfter(t, log) && TellsEnd(t, log)
  {
    PrepareFacts(t, oneTimeKey);
    BackupFacts(t, oneTimeKey);
    if t.Through? { AfterStage(t.returned, t.healthy, t.discard); }
    EndStage(if t.Through? then t.close else None);
    AfterFacts(t);
    EndFacts(t);
    PartsAgree(PrepareLog(t), BackupLog(t), AfterLog(t), EndLog(t));
    PartsTell(t, PrepareLog(t), BackupLog(t), AfterLog(t), EndLog(t), LogOf(t, oneTimeKey));
  }

  lemma PartsTell(t: Trail, a: seq<Event>, b: seq<Event>, c: seq<Event>, d: seq<Event>, log: seq<Event>)
    requires TellsPrepared(t, a) && TellsBackup(t, b) && TellsAfter(t, c) && TellsEnd(t, d)
    requires Agrees(a, log, 0) && Agrees(b, log, 1) && Agrees(c, log, 2) && Agrees(d, log, 3)
    ensures TellsPrepared(t, log) && TellsBackup(t, log) && TellsAfter(t, log) && TellsEnd(t, log)
  {
    assert SameAnswers(a, log, AcquireLock) && SameAnswers(a, log, DigestStates);
    assert SameAnswers(b, log, PrepareSecret) && SameAnswers(b, log, CreateBackup);
    assert SameAnswers(b, log, Authenticate) && SameAnswers(b, log, LeaveProjection);
    assert SameAnswers(c, log, RestoreWriters) && SameAnswers(c, log, CheckHealth) && SameAnswers(c, log, DiscardKey);
    assert SameAnswers(d, log, CloseKey) && SameAnswers(d, log, ReleaseLock);
  }

  lemma BackupFacts(t: Trail, oneTimeKey: bool)
    requires t.Valid(oneTimeKey)
    ensures InStage(BackupLog(t), 1) && TellsBackup(t, BackupLog(t))
  {
    if t.Through? {
      BarrierStage(t.p, t.left);
      BarrierFacts(t.p, t.left);
    }
  }

  lemma AfterFacts(t: Trail)
    ensures TellsAfter(t, AfterLog(t))
  {
  }

  lemma EndFacts(t: Trail)
    ensures TellsEnd(t, EndLog(t))
  {
  }

  lemma KeyAccounts(t: Trail, oneTimeKey: bool, script: Script, states: States)
    requires t.Valid(oneTimeKey)
    ensures KeyAccount(RunOf(t, oneTimeKey, script, states), LogOf(t, oneTimeKey), oneTimeKey, script.keyWritten)
  {
    LogTells(t, oneTimeKey);
  }

  lemma ExitAccounts(t: Trail, oneTimeKey: bool, script: Script, states: States)
    requires t.Valid(oneTimeKey)
    ensures ExitAccount(RunOf(t, oneTimeKey, script, states), LogOf(t, oneTimeKey), script.afterRestore)
  {
    LogTells(t, oneTimeKey);
  }

  // ----- What callers may rely on

  /** The exits after which the writers are known to be as they were. */
  predicate WritersKept(exit: Exit) {
    exit == Receipt || exit == NoRuntimeDamage || exit == DiscardRaised(true)
  }

  /**
    The writers are back as captured and healthy exactly after those exits.  The one exit besides
    RecoveryRequired after which they are not is a discard that raised: a one-time key was asked for and
    prepared, no backup was created, and discarding the key failed.
   */
  lemma WritersKeptExactly(run: Run, log: seq<Event>, oneTimeKey: bool, keyWritten: bool, after: States)
    requires KeyAccount(run, log, oneTimeKey, keyWritten) && ExitAccount(run, log, after) && run.captured.Some?
    ensures WritersKept(Inner(run.exit)) <==> Restored(log, run.captured.value, after)
    ensures !WritersKept(Inner(run.exit)) && Inner(run.exit) != RecoveryRequired <==>
      Raised(log, DiscardKey) && !Restored(log, run.captured.value, after)
    ensures Raised(log, DiscardKey) ==>
      oneTimeKey && Happened(log, PrepareSecret) && !Happened(log, CreateBackup)
  {
  }

  /** Without a one-time key there is no exception: the promise holds, and the lock comes back whenever it was taken. */
  lemma WithoutOneTimeKey(run: Run, log: seq<Event>, keyWritten: bool, after: States)
    requires KeyAccount(run, log, false, keyWritten) && ExitAccount(run, log, after)
    ensures run.key == NoKey && !run.discarded && !run.exit.CloseRaised? && !run.exit.DiscardRaised?
    ensures run.released <==> Happened(log, AcquireLock)
    ensures run.captured.Some? && run.exit != RecoveryRequired ==>
      WritersKept(run.exit) && Observed(after, run.captured.value.Keys) == run.captured.value
  {
  }

  /** A run in which nothing raised and the writers came back as they were hands out a receipt. */
  lemma AllReturnedGivesReceipt(t: Trail, oneTimeKey: bool, script: Script, states: States)
    requires t.Valid(oneTimeKey) && AllReturned(LogOf(t, oneTimeKey))
    requires Observed(script.afterRestore, states.Keys) == states
    ensures RunOf(t, oneTimeKey, script, states).exit == Receipt
  {
    var a, b, c, d := PrepareLog(t), BackupLog(t), AfterLog(t), EndLog(t);
    AllReturnedConcat(a + b + c, d);
    AllReturnedConcat(a + b, c);
    AllReturnedConcat(a, b);
    PrepareReturned(t, oneTimeKey);
    BarrierReturned(t.p, t.left);
    AfterReturned(t);
  }

  lemma PrepareReturned(t: Trail, oneTimeKey: bool)
    requires t.Valid(oneTimeKey) && AllReturned(PrepareLog(t))
    ensures t.Through?
  {
    if t.NoLock? {
      UpToReturned(BEFORE_LOCK, t.calls);
    } else if t.Cut? {
      UpToReturned(EARLY, t.calls);
      AllReturnedConcat(AllOk(BEFORE_LOCK), UpTo(EARLY, t.calls));
    }
  }

  lemma AfterReturned(t: Trail)
    requires t.Through? && AllReturned(AfterLog(t)) && AllReturned(EndLog(t))
    ensures t.returned && t.healthy && t.discard != Some(false) && t.close != Some(false)
  {
    var after, end := AfterLog(t), EndLog(t);
    assert after[0] == Event(RestoreWriters, t.returned);
    assert t.returned ==> after[1] == Event(CheckHealth, t.healthy);
    assert t.discard.Some? ==> after[|after| - 1] == Event(DiscardKey, t.discard.value);
    assert t.close.Some? ==> end[0] == Event(CloseKey, t.close.value);
  }

  // ----- The discard that raises

  /** The one service of the example, running before and stopped after. */
  const API: States := map["api" := Running]

  /** Everything returns but the creation, the return of the writers, and the discard. */
  const FAILING := Script((n: nat) => n != 15 && n != 17 && n != 18, map["api" := Stopped], map["api" := Stopped], true)

  /** The part of a log that starts at its `start`-th call. */
  ghost predicate ScriptedFrom(answers: nat -> bool, start: nat, log: seq<Event>) {
    forall n :: 0 <= n < |log| && log[n].call != ReleaseLock ==> log[n].ok == answers(start + n)
  }

  lemma ScriptedPart(script: Script, a: seq<Event>, b: seq<Event>, c: seq<Event>)
    requires Scripted(script, a + b + c)
    ensures ScriptedFrom(script.answers, |a|, b)
  {
    forall n | 0 <= n < |b| && b[n].call != ReleaseLock ensures b[n].ok == script.answers(|a| + n) {
      assert (a + b + c)[|a| + n] == b[n];
    }
  }

  lemma ScriptedParts(script: Script, a: seq<Event>, b: seq<Event>, c: seq<Event>, d: seq<Event>)
    requires Scripted(script, a + b + c + d)
    ensures ScriptedFrom(script.answers, 0, a)
    ensures ScriptedFrom(script.answers, |a|, b)
    ensures ScriptedFrom(script.answers, |a| + |b|, c)
  {
    assert a + b + c + d == [] + a + (b + c + d);
    ScriptedPart(script, [], a, b + c + d);
    assert a + b + c + d == a + b + (c + d);
    ScriptedPart(script, a, b, c + d);
    ScriptedPart(script, a + b, c, d);
  }

  /** A run that does not get through the preparation ends at a call that raised. */
  lemma CutShort(t: Trail)
    requires t.Valid(true) && !t.Through?
    ensures var n := if t.NoLock? then t.calls else 3 + t.calls;
      n < 8 && |PrepareLog(t)| == n + 1 && !PrepareLog(t)[n].ok && PrepareLog(t)[n].call != ReleaseLock
  {
  }

  lemma PrepareThrough(t: Trail)
    requires t.Valid(true) && ScriptedFrom(FAILING.answers, 0, PrepareLog(t))
    ensures t.Through? && |PrepareLog(t)| == 8
  {
    if !t.Through? { CutShort(t); }
  }

  /** Where a barrier ended early a call raised, and where it went on its creation returned. */
  lemma BarrierShows(p: Progress, left: bool)
    requires p.Valid()
    ensures var log := BarrierLog(p, left);
      && (p.AtStop? ==> |log| == 1 && log[0] == Event(StopWriters, false))
      && (p.AtCheck? ==> |log| == 2 + p.checks && log[1 + p.checks] == Event(CHECKS[p.checks], false))
      && (p.InProjection? && p.calls <= 2 ==>
            |log| == 7 + p.calls && log[5 + p.calls] == Event(INSIDE[p.calls], false))
      && (p.InProjection? && p.calls > 2 ==> |log| > 7 && log[7] == Event(CreateBackup, true))
  {
  }

  lemma BarrierFails(p: Progress, left: bool)
    requires p.Valid() && ScriptedFrom(FAILING.answers, 8, BarrierLog(p, left))
    ensures p == InProjection(2) && |BarrierLog(p, left)| == 9
  {
    BarrierShows(p, left);
  }

  lemma AfterFails(returned: bool, healthy: bool, discard: Option<bool>)
    requires ScriptedFrom(FAILING.answers, 17, ResumeLog(returned, healthy, discard)) && discard.Some?
    ensures !returned && discard == Some(false)
  {
    var log := ResumeLog(returned, healthy, discard);
    assert log[0] == Event(RestoreWriters, returned);
    assert !returned ==> log[1] == Event(DiscardKey, discard.value);
  }

  lemma FailingTrail(t: Trail)
    requires t.Valid(true) && Scripted(FAILING, LogOf(t, true))
    ensures t.Through? && t.p == InProjection(2) && !t.returned && t.discard == Some(false)
  {
    var a, b, c, d := PrepareLog(t), BackupLog(t), AfterLog(t), EndLog(t);
    ScriptedParts(FAILING, a, b, c, d);
    PrepareThrough(t);
    BarrierFails(t.p, t.left);
    AfterFails(t.returned, t.healthy, t.discard);
  }

  /**
    A run that breaks the promise: no backup is created, the writers do not come back, and discarding the
    one-time key raises, so that the caller sees that error instead of RecoveryRequired.
   */
  method DiscardHidesRecovery() returns (host: Host, run: Run)
    ensures run.captured == Some(API) && run.exit == DiscardRaised(false)
    ensures Observed(host.writers, {"api"}) != API
  {
    host := new Host(FAILING, API);
    ghost var log, t;
    assert Observed(API, {"api"}) == API && Observed(FAILING.afterRestore, {"api"})["api"] == Stopped;
    run, log, t := Execute(host, {"api"}, true);
    assert host.log == log;
    FailingTrail(t);
  }

  // ----- A receipt means the backup was good before the writers ran again

  /** Creation, verification and authentication returned one after the other, and then the writers were restored. */
  predicate MadeAt(log: seq<Event>, k: nat) {
    && k + 4 < |log|
    && log[k] == Event(CreateBackup, true) && log[k + 1] == Event(VerifyBackup, true)
    && log[k + 2] == Event(Authenticate, true) && log[k + 3] == Event(LeaveProjection, true)
    && log[k + 4] == Event(RestoreWriters, true)
  }

  ghost predicate MadeBeforeResume(log: seq<Event>) {
    exists k: nat :: MadeAt(log, k)
  }

  lemma CompleteLog(left: bool)
    ensures var log := BarrierLog(InProjection(|INSIDE|), left);
      && |log| == 11 && log[7] == Event(CreateBackup, true) && log[8] == Event(VerifyBackup, true)
      && log[9] == Event(Authenticate, true) && log[10] == Event(LeaveProjection, left)
  {
    assert INSIDE[..|INSIDE|] == INSIDE && UpTo(INSIDE, |INSIDE|) == AllOk(INSIDE);
  }

  lemma MadeLater(a: seq<Event>, b: seq<Event>, c: seq<Event>, d: seq<Event>)
    requires |b| == 11 && c != [] && c[0] == Event(RestoreWriters, true)
    requires b[7] == Event(CreateBackup, true) && b[8] == Event(VerifyBackup, true)
    requires b[9] == Event(Authenticate, true) && b[10] == Event(LeaveProjection, true)
    ensures MadeBeforeResume(a + b + c + d)
  {
    assert MadeAt(a + b + c + d, |a| + 7);
  }

  lemma ReceiptOrder(t: Trail, oneTimeKey: bool)
    requires t.Valid(oneTimeKey) && t.Through? && t.p.Complete() && t.left && t.returned
    ensures MadeBeforeResume(LogOf(t, oneTimeKey))
  {
    CompleteLog(true);
    MadeLater(PrepareLog(t), BackupLog(t), AfterLog(t), EndLog(t));
  }

  // ----- The order of the calls

  const BARRIER: seq<Call> := [StopWriters] + (CHECKS + INSIDE)

  /** Every call up to the authentication of the backup, in the order in which they are made. */
  const SPINE: seq<Call> := BEFORE_LOCK + (EARLY + BARRIER)

  /** Planned twice, before and under the lock; nothing is stopped before it has been captured. */
  lemma SpineSpelled()
    ensures SPINE == [
      Rebind, Replan, AcquireLock, Rebind, Replan, CheckOperations, CaptureStates, DigestStates, StopWriters,
      CheckBarrier, ReadInventory, ListMembers, EnterProjection, PrepareSecret, BuildRequest, CreateBackup,
      VerifyBackup, Authenticate]
  {
  }

  lemma UpToPrefix(a: seq<Call>, b: seq<Call>, n: nat)
    requires n < |a|
    ensures UpTo(a + b, n) == UpTo(a, n)
  {
    assert (a + b)[..n] == a[..n];
  }

  lemma UpToConcat(a: seq<Call>, b: seq<Call>, n: nat)
    requires n <= |b|
    ensures UpTo(a + b, |a| + n) == AllOk(a) + UpTo(b, n)
  {
    assert (a + b)[..|a| + n] == a + b[..n];
    AllOkConcat(a, b[..n]);
  }

  lemma AllOkConcat(a: seq<Call>, b: seq<Call>)
    ensures AllOk(a + b) == AllOk(a) + AllOk(b)
  {
  }

  /** How many calls of the spine return on this trail. */
  function SpineCalls(t: Trail): nat {
    match t
    case NoLock(calls) => calls
    case Cut(calls) => 3 + calls
    case Through(p, _, _, _, _, _) =>
      match p
      case AtStop => 8
      case AtCheck(checks) => 9 + checks
      case InProjection(calls) => 13 + calls
  }

  /** What follows the spine. */
  function ClosingLog(t: Trail): seq<Event> {
    LeaveLog(t) + AfterLog(t) + EndLog(t)
  }

  function LeaveLog(t: Trail): seq<Event> {
    if t.Through? && t.p.InProjection? then [Event(LeaveProjection, t.left)] else []
  }

  /** How many of the calls from the stop on return. */
  function BarrierCalls(p: Progress): nat {
    match p
    case AtStop => 0
    case AtCheck(checks) => 1 + checks
    case InProjection(calls) => 5 + calls
  }

  lemma SpineAtBarrier(p: Progress, left: bool)
    requires p.Valid()
    ensures BarrierCalls(p) <= |BARRIER|
    ensures BarrierLog(p, left)
      == UpTo(BARRIER, BarrierCalls(p)) + if p.InProjection? then [Event(LeaveProjection, left)] else []
  {
    var rest := CHECKS + INSIDE;
    assert AllOk([StopWriters]) == [Event(StopWriters, true)];
    match p
    case AtStop => UpToPrefix([StopWriters], rest, 0);
    case AtCheck(checks) =>
      UpToConcat([StopWriters], rest, checks);
      UpToPrefix(CHECKS, INSIDE, checks);
    case InProjection(calls) =>
      UpToConcat([StopWriters], rest, 4 + calls);
      UpToConcat(CHECKS, INSIDE, calls);
      Assoc([Event(StopWriters, true)], AllOk(CHECKS), UpTo(INSIDE, calls));
  }

  lemma SpineThrough(n: nat)
    requires n <= |BARRIER|
    ensures 8 + n <= |SPINE| && UpTo(SPINE, 8 + n) == AllOk(BEFORE_LOCK) + AllOk(EARLY) + UpTo(BARRIER, n)
  {
    UpToConcat(BEFORE_LOCK, EARLY + BARRIER, 5 + n);
    UpToConcat(EARLY, BARRIER, n);
    Assoc(AllOk(BEFORE_LOCK), AllOk(EARLY), UpTo(BARRIER, n));
  }

  lemma Rejoined(
    a: seq<Event>, b: seq<Event>, u: seq<Event>, l: seq<Event>, x: seq<Event>, y: seq<Event>, spine: seq<Event>)
    requires b == u + l && spine == a + u
    ensures a + b + x + y == spine + (l + x + y)
  {
  }

  lemma LogThrough(t: Trail, oneTimeKey: bool)
    requires t.Valid(oneTimeKey) && t.Through?
    ensures LogOf(t, oneTimeKey)
      == (AllOk(BEFORE_LOCK) + AllOk(EARLY)) + BarrierLog(t.p, t.left) + AfterLog(t) + EndLog(t)
    ensures SpineCalls(t) == 8 + BarrierCalls(t.p)
  {
  }

  lemma SpineLogThrough(t: Trail, oneTimeKey: bool)
    requires t.Valid(oneTimeKey) && t.Through?
    ensures SpineCalls(t) <= |SPINE| && LogOf(t, oneTimeKey) == UpTo(SPINE, SpineCalls(t)) + ClosingLog(t)
  {
    LogThrough(t, oneTimeKey);
    SpineAtBarrier(t.p, t.left);
    SpineThrough(BarrierCalls(t.p));
    Rejoined(
      AllOk(BEFORE_LOCK) + AllOk(EARLY), BarrierLog(t.p, t.left), UpTo(BARRIER, BarrierCalls(t.p)), LeaveLog(t),
      AfterLog(t), EndLog(t), UpTo(SPINE, SpineCalls(t)));
  }

  lemma SpineLogCut(t: Trail, oneTimeKey: bool)
    requires t.Valid(oneTimeKey) && !t.Through?
    ensures SpineCalls(t) <= |SPINE| && PrepareLog(t) == UpTo(SPINE, SpineCalls(t))
  {
    if t.NoLock? {
      UpToPrefix(BEFORE_LOCK, EARLY + BARRIER, t.calls);
    } else {
      UpToConcat(BEFORE_LOCK, EARLY + BARRIER, t.calls);
      UpToPrefix(EARLY, BARRIER, t.calls);
    }
  }

  lemma CutLog(t: Trail, oneTimeKey: bool)
    requires t.Valid(oneTimeKey) && !t.Through?
    ensures LogOf(t, oneTimeKey) == PrepareLog(t) + ClosingLog(t)
  {
    assert PrepareLog(t) + [] + [] == PrepareLog(t);
    assert [] + [] + EndLog(t) == EndLog(t);
  }

  lemma SpineLog(t: Trail, oneTimeKey: bool)
    requires t.Valid(oneTimeKey)
    ensures SpineCalls(t) <= |SPINE| && LogOf(t, oneTimeKey) == UpTo(SPINE, SpineCalls(t)) + ClosingLog(t)
  {
    if t.Through? {
      SpineLogThrough(t, oneTimeKey);
    } else {
      SpineLogCut(t, oneTimeKey);
      CutLog(t, oneTimeKey);
    }
  }

  /** The calls that follow the spine, in the order in which they follow it. */
  function ClosingRank(call: Call): nat {
    match call
    case LeaveProjection => 1
    case RestoreWriters => 2
    case CheckHealth => 3
    case DiscardKey => 4
    case CloseKey => 5
    case ReleaseLock => 6
    case _ => 0
  }

  /** Closing calls in their order, all of them with ranks within these bounds. */
  ghost predicate Ranked(log: seq<Event>, low: nat, high: nat) {
    && (forall i :: 0 <= i < |log| ==> low <= ClosingRank(log[i].call) <= high)
    && (forall i, j :: 0 <= i < j < |log| ==> ClosingRank(log[i].call) < ClosingRank(log[j].call))
  }

  ghost predicate Closing(log: seq<Event>) {
    Ranked(log, 1, 6)
  }

  lemma RankedConcat(a: seq<Event>, b: seq<Event>, low: nat, middle: nat, high: nat)
    requires low <= middle <= high && Ranked(a, low, middle) && Ranked(b, middle + 1, high)
    ensures Ranked(a + b, low, high)
  {
  }

  lemma RankedMaybe(c: bool, call: Call, ok: bool)
    ensures Ranked(if c then [Event(call, ok)] else [], ClosingRank(call), ClosingRank(call))
  {
  }

  lemma ResumeRanked(returned: bool, healthy: bool, discard: Option<bool>)
    ensures Ranked(ResumeLog(returned, healthy, discard), 2, 4)
  {
    RankedMaybe(true, RestoreWriters, returned);
    RankedMaybe(returned, CheckHealth, healthy);
    RankedConcat([Event(RestoreWriters, returned)], if returned then [Event(CheckHealth, healthy)] else [], 2, 2, 3);
    RankedMaybe(discard.Some?, DiscardKey, discard == Some(true));
    RankedConcat(
      [Event(RestoreWriters, returned)] + if returned then [Event(CheckHealth, healthy)] else [],
      if discard.Some? then [Event(DiscardKey, discard.value)] else [], 2, 3, 4);
  }

  lemma FinishRanked(close: Option<bool>)
    ensures Ranked(FinishLog(close), 5, 6)
  {
    RankedMaybe(close.Some?, CloseKey, close == Some(true));
    RankedMaybe(close != Some(false), ReleaseLock, true);
    RankedConcat(
      if close.Some? then [Event(CloseKey, close.value)] else [],
      if close == Some(false) then [] else [Event(ReleaseLock, true)], 5, 5, 6);
  }

  predicate Attempted(log: seq<Event>, call: Call) {
    Happened(log, call) || Raised(log, call)
  }

  lemma RankedAfter(t: Trail)
    ensures Ranked(AfterLog(t), 2, 4) && Ranked(EndLog(t), 5, 6)
  {
    if t.Through? {
      ResumeRanked(t.returned, t.healthy, t.discard);
      FinishRanked(t.close);
    } else {
      FinishRanked(None);
    }
  }

  lemma ClosingOrder(t: Trail)
    ensures Closing(ClosingLog(t))
  {
    RankedAfter(t);
    LeaveTried(t);
    RankedConcat(LeaveLog(t), AfterLog(t), 1, 1, 4);
    RankedConcat(LeaveLog(t) + AfterLog(t), EndLog(t), 1, 4, 6);
  }

  lemma AttemptedConcat(a: seq<Event>, b: seq<Event>, call: Call)
    ensures Attempted(a + b, call) <==> Attempted(a, call) || Attempted(b, call)
  {
  }

  lemma RankExcludes(log: seq<Event>, low: nat, high: nat, call: Call)
    requires Ranked(log, low, high) && !(low <= ClosingRank(call) <= high)
    ensures !Attempted(log, call)
  {
  }

  lemma AttemptedParts(a: seq<Event>, b: seq<Event>, c: seq<Event>, call: Call)
    requires Ranked(a, 1, 1) && Ranked(b, 2, 4) && Ranked(c, 5, 6)
    ensures ClosingRank(call) == 1 ==> (Attempted(a + b + c, call) <==> Attempted(a, call))
    ensures 2 <= ClosingRank(call) <= 4 ==> (Attempted(a + b + c, call) <==> Attempted(b, call))
  {
    AttemptedConcat(a, b, call);
    AttemptedConcat(a + b, c, call);
    if ClosingRank(call) == 1 {
      RankExcludes(b, 2, 4, call);
      RankExcludes(c, 5, 6, call);
    } else if 2 <= ClosingRank(call) <= 4 {
      RankExcludes(a, 1, 1, call);
      RankExcludes(c, 5, 6, call);
    }
  }

  lemma RestoreTried(t: Trail)
    ensures Attempted(AfterLog(t), RestoreWriters) <==> t.Through?
  {
    if t.Through? { assert AfterLog(t)[0] == Event(RestoreWriters, t.returned); }
  }

  lemma LeaveTried(t: Trail)
    ensures Attempted(LeaveLog(t), LeaveProjection) <==> t.Through? && t.p.InProjection?
    ensures Ranked(LeaveLog(t), 1, 1)
  {
    if t.Through? && t.p.InProjection? { assert LeaveLog(t)[0] == Event(LeaveProjection, t.left); }
  }

  lemma ThroughBySpine(t: Trail, oneTimeKey: bool)
    requires t.Valid(oneTimeKey)
    ensures t.Through? <==> SpineCalls(t) >= 8
    ensures t.Through? && t.p.InProjection? <==> SpineCalls(t) >= 13
  {
  }

  lemma ClosingFacts(t: Trail, oneTimeKey: bool)
    requires t.Valid(oneTimeKey)
    ensures Attempted(ClosingLog(t), RestoreWriters) <==> SpineCalls(t) >= 8
    ensures Attempted(ClosingLog(t), LeaveProjection) <==> SpineCalls(t) >= 13
  {
    RankedAfter(t);
    RestoreTried(t);
    LeaveTried(t);
    AttemptedParts(LeaveLog(t), AfterLog(t), EndLog(t), RestoreWriters);
    AttemptedParts(LeaveLog(t), AfterLog(t), EndLog(t), LeaveProjection);
    ThroughBySpine(t, oneTimeKey);
  }

  /**
    Every run makes the calls of the spine one after the other up to one that raises, and then only closes:
    it leaves the projection exactly when that was entered, brings the writers back exactly when the stop
    was attempted, and ends with the key and the lock, in this order.
   */
  lemma CallsInOrder(t: Trail, oneTimeKey: bool) returns (n: nat, closing: seq<Event>)
    requires t.Valid(oneTimeKey)
    ensures n <= 18 && |SPINE| == 18 && LogOf(t, oneTimeKey) == UpTo(SPINE, n) + closing
    ensures Closing(closing)
    ensures Attempted(closing, RestoreWriters) <==> n >= 8
    ensures Attempted(closing, LeaveProjection) <==> n >= 13
  {
    SpineLog(t, oneTimeKey);
    ClosingOrder(t);
    ClosingFacts(t, oneTimeKey);
    return SpineCalls(t), ClosingLog(t);
  }
}
