/**
  The two operation journals: the fresh-install records, replaced by compare-and-write, and the restore
  records, whose interrupted runs are turned into recovery records at the next start.

  The stores are used sequentially; a write either replaces the record or fails.
 */
module OperationJournals {
  import opened Wrappers
  import opened Ordering
  import Collections
  import FreshInstall

  // ----- Fresh-install records

  class FreshInstallJournal {
    const rules: FreshInstall.Rules
    var records: map<string, FreshInstall.Payload>

    constructor (rules: FreshInstall.Rules, records: map<string, FreshInstall.Payload>)
      ensures this.rules == rules && this.records == records
    {
      this.rules, this.records := rules, records;
    }

    /** Reads and parses a record, unless the store fails. */
    method Load(id: string, readable: bool) returns (r: Result<FreshInstall.Operation, string>)
      ensures r.Ok? <==> readable && id in records && FreshInstall.Parse(rules, records[id]).Ok?
      ensures r.Ok? ==> r == FreshInstall.Parse(rules, records[id])
    {
      if id !in records || !readable {
        return Err("FRESH_OPERATION_UNREADABLE");
      }
      r := FreshInstall.Parse(rules, records[id]);
    }

    method Create(o: FreshInstall.Operation, writable: bool) returns (ok: bool)
      modifies this`records
      ensures ok <==> writable && o.identity.operationId !in old(records)
      ensures records == if ok
        then old(records)[o.identity.operationId := FreshInstall.Printed(rules, o)] else old(records)
    {
      if !writable || o.identity.operationId in records {
        return false;
      }
      records := records[o.identity.operationId := FreshInstall.Printed(rules, o)];
      return true;
    }

    /** Replaces the record of an operation exactly when the store holds the record the caller last saw. */
    method Persist(previous: FreshInstall.Operation, updated: FreshInstall.Operation, readable: bool, writable: bool)
      returns (ok: bool)
      requires FreshInstall.Lawful(rules)
      modifies this`records
      ensures ok <==>
        && readable && writable && previous.identity.operationId == updated.identity.operationId
        && previous.identity.operationId in old(records)
        && old(records)[previous.identity.operationId] == FreshInstall.Printed(rules, previous)
        && FreshInstall.Parse(rules, FreshInstall.Printed(rules, previous)).Ok?
      ensures records == if ok
        then old(records)[updated.identity.operationId := FreshInstall.Printed(rules, updated)] else old(records)
    {
      var id := previous.identity.operationId;
      if id != updated.identity.operationId {
        return false;
      }
      var current := Load(id, readable);
      if current.Err? {
        return false;
      }
      FreshInstall.PrintOfParse(rules, records[id]);
      if FreshInstall.Printed(rules, current.value) != FreshInstall.Printed(rules, previous) || !writable {
        return false;
      }
      records := records[id := FreshInstall.Printed(rules, updated)];
      return true;
    }
  }

  // ----- Restore records

  datatype RestoreStatus = Running | RuntimePublished | ManualRecoveryRequired | Succeeded

  datatype RestoreRecord = RestoreRecord(
    id: string, backupId: string, planDigest: string, status: RestoreStatus, completedSteps: seq<string>,
    failedStep: Option<string>, errorCode: Option<string>, targetActive: Option<bool>)

  /** A run that was still going when the process stopped. */
  function Interrupted(r: RestoreRecord): RestoreRecord {
    r.(status := ManualRecoveryRequired, failedStep := Some("process.interrupted"),
       errorCode := Some("RESTORE_INTERRUPTED"), targetActive := None)
  }

  function Recovered(r: RestoreRecord): RestoreRecord {
    if r.status == Running then Interrupted(r) else r
  }

  /** How the store answers for one record. */
  datatype Access = Works | Unreadable | Unwritable

  /** A record that is not running is only read. */
  predicate Reachable(access: Access, r: RestoreRecord) {
    access == Works || (access == Unwritable && r.status != Running)
  }

  /** The record whose turn it is cannot be read, or cannot be rewritten although it must be. */
  predicate StopsAt(records: map<string, RestoreRecord>, access: string -> Access, names: seq<string>, done: nat) {
    done < |names| && (names[done] !in records || !Reachable(access(names[done]), records[names[done]]))
  }

  function NameKey(name: string): Key {
    [name]
  }

  /** The names whose record was still running, in the order given. */
  function RunningAmong(records: map<string, RestoreRecord>, names: seq<string>): seq<string> {
    if names == [] then []
    else
      var last := names[|names| - 1];
      RunningAmong(records, names[..|names| - 1])
        + (if last in records && records[last].status == Running then [last] else [])
  }

  /** The records after a pass over these names, and the names that were still running. */
  datatype Pass = Pass(records: map<string, RestoreRecord>, recovered: seq<string>)

  function PassedOne(p: Pass, name: string): Pass {
    if name in p.records && p.records[name].status == Running then
      Pass(p.records[name := Interrupted(p.records[name])], p.recovered + [name])
    else p
  }

  function PassedOver(records: map<string, RestoreRecord>, names: seq<string>): Pass {
    if names == [] then Pass(records, [])
    else PassedOne(PassedOver(records, names[..|names| - 1]), names[|names| - 1])
  }

  lemma PassedOneMore(records: map<string, RestoreRecord>, names: seq<string>, k: nat)
    requires k < |names|
    ensures PassedOver(records, names[..k + 1]) == PassedOne(PassedOver(records, names[..k]), names[k])
  {
    assert names[..k + 1][..k] == names[..k];
  }

  /** None of the first `n` records stops the pass when its turn comes. */
  ghost predicate NeverStops(records: map<string, RestoreRecord>, access: string -> Access, names: seq<string>, n: nat)
    requires n <= |names|
  {
    n == 0
    || (NeverStops(records, access, names, n - 1)
        && !StopsAt(PassedOver(records, names[..n - 1]).records, access, names, n - 1))
  }

  lemma StopsNext(records: map<string, RestoreRecord>, access: string -> Access, names: seq<string>, n: nat)
    requires n < |names| && NeverStops(records, access, names, n)
    ensures NeverStops(records, access, names, n + 1)
      <==> !StopsAt(PassedOver(records, names[..n]).records, access, names, n)
  {
  }

  class RestoreOperationJournal {
    var records: map<string, RestoreRecord>

    constructor (records: map<string, RestoreRecord>)
      ensures this.records == records
    {
      this.records := records;
    }

    method RecoverOne(name: string, recovered: seq<string>, access: Access) returns (r: Result<seq<string>, string>)
      modifies this`records
      ensures r.Ok? <==> name in old(records) && Reachable(access, old(records)[name])
      ensures r.Err? ==> records == old(records)
      ensures r.Ok? ==> Pass(records, r.value) == PassedOne(Pass(old(records), recovered), name)
    {
      if name !in records || access == Unreadable {
        return Err("RESTORE_OPERATION_EVIDENCE_INVALID");
      }
      if records[name].status != Running {
        return Ok(recovered);
      }
      if access == Unwritable {
        return Err("RESTORE_OPERATION_EVIDENCE_FAILED");
      }
      records := records[name := Interrupted(records[name])];
      return Ok(recovered + [name]);
    }

    /**
      Passes over the named records in order.  A read or write that fails stops the pass, and the
      records before it stay recovered.
     */
    method RecoverIncomplete(names: seq<string>, access: string -> Access)
      returns (r: Result<seq<string>, string>, ghost done: nat)
      modifies this`records
      ensures done <= |SortBy(names, NameKey)|
      ensures records == PassedOver(old(records), SortBy(names, NameKey)[..done]).records
      ensures r.Ok? ==> Pass(records, r.value) == PassedOver(old(records), SortBy(names, NameKey))
      ensures r.Err? ==> StopsAt(records, access, SortBy(names, NameKey), done)
      ensures r.Ok? ==> NeverStops(old(records), access, SortBy(names, NameKey), |SortBy(names, NameKey)|)
    {
      var sorted := SortBy(names, NameKey);
      var recovered: seq<string> := [];
      done := 0;
      for k := 0 to |sorted|
        invariant done == k && Pass(records, recovered) == PassedOver(old(records), sorted[..k])
        invariant NeverStops(old(records), access, sorted, k)
      {
        PassedOneMore(old(records), sorted, k);
        StopsNext(old(records), access, sorted, k);
        var one := RecoverOne(sorted[k], recovered, access(sorted[k]));
        if one.Err? {
          return Err(one.error), done;
        }
        recovered := one.value;
        done := done + 1;
      }
      assert sorted[..|sorted|] == sorted;
      return Ok(recovered), done;
    }
  }

  /** The names are the keys, each once. */
  ghost predicate Names(names: seq<string>, records: map<string, RestoreRecord>) {
    (forall n :: n in names <==> n in records) && Collections.Distinct(Self, names)
  }

  lemma SortedNames(names: seq<string>, records: map<string, RestoreRecord>)
    requires Names(names, records)
    ensures Names(SortBy(names, NameKey), records)
  {
    var sorted := SortBy(names, NameKey);
    Collections.DistinctAlong(Self, names, sorted);
    forall n ensures n in sorted <==> n in records {
      Collections.SameMembers(sorted, names, n);
    }
  }

  lemma NextName(names: seq<string>, records: map<string, RestoreRecord>, k: nat)
    requires Names(names, records) && k < |names|
    ensures names[k] in records && names[k] !in names[..k]
  {
    assert names[k] in names;
    forall i | 0 <= i < k ensures names[..k][i] != names[k] {
      assert Self(names[i]) != Self(names[k]);
    }
  }

  /** A pass recovers exactly the named running records, and reports them. */
  lemma {:induction false} PassedOverAt(records: map<string, RestoreRecord>, names: seq<string>, n: string)
    requires n in records
    ensures n in PassedOver(records, names).records
    ensures PassedOver(records, names).records[n] == if n in names then Recovered(records[n]) else records[n]
    decreases |names|
  {
    if names != [] {
      PassedOverAt(records, names[..|names| - 1], n);
      assert n in names <==> n in names[..|names| - 1] || n == names[|names| - 1];
    }
  }

  lemma {:induction false} PassedOverKeys(records: map<string, RestoreRecord>, names: seq<string>)
    ensures PassedOver(records, names).records.Keys == records.Keys
    decreases |names|
  {
    if names != [] { PassedOverKeys(records, names[..|names| - 1]); }
  }

  lemma {:induction false} PassReports(records: map<string, RestoreRecord>, names: seq<string>, k: nat)
    requires Names(names, records) && k <= |names|
    ensures PassedOver(records, names[..k]).recovered == RunningAmong(records, names[..k])
    decreases k
  {
    if k > 0 {
      PassReports(records, names, k - 1);
      NextName(names, records, k - 1);
      PassedOneMore(records, names, k - 1);
      PassedOverAt(records, names[..k - 1], names[k - 1]);
      assert names[..k][..k - 1] == names[..k - 1];
    }
  }

  function AllRecovered(records: map<string, RestoreRecord>): map<string, RestoreRecord> {
    map n | n in records :: Recovered(records[n])
  }

  lemma PassRecovers(records: map<string, RestoreRecord>, names: seq<string>)
    requires Names(names, records)
    ensures PassedOver(records, names).records == AllRecovered(records)
  {
    PassedOverKeys(records, names);
    forall n | n in records ensures PassedOver(records, names).records[n] == Recovered(records[n]) {
      PassedOverAt(records, names, n);
    }
  }

  /** A pass over all names leaves no record running, changes no other, and reports the ones it changed. */
  lemma FullPass(records: map<string, RestoreRecord>, names: seq<string>)
    requires Names(names, records)
    ensures var sorted := SortBy(names, NameKey);
      PassedOver(records, sorted) == Pass(AllRecovered(records), RunningAmong(records, sorted))
  {
    var sorted := SortBy(names, NameKey);
    SortedNames(names, records);
    PassRecovers(records, sorted);
    PassReports(records, sorted, |sorted|);
    assert sorted[..|sorted|] == sorted;
  }

  /** What a complete pass makes of one record: a run that was going needs recovery by hand, all else stays. */
  lemma PassLeavesNoneRunning(records: map<string, RestoreRecord>, names: seq<string>, n: string)
    requires Names(names, records) && n in records
    ensures var after := PassedOver(records, SortBy(names, NameKey)).records;
      && n in after && after[n].status != Running
      && (records[n].status != Running ==> after[n] == records[n])
      && (records[n].status == Running ==>
            && after[n].status == ManualRecoveryRequired && after[n].targetActive == None
            && after[n].failedStep == Some("process.interrupted") && after[n].errorCode == Some("RESTORE_INTERRUPTED")
            && after[n].id == records[n].id && after[n].backupId == records[n].backupId
            && after[n].planDigest == records[n].planDigest && after[n].completedSteps == records[n].completedSteps)
  {
    FullPass(records, names);
  }

  function Self(name: string): string {
    name
  }

  lemma {:induction false} RecoveredOnce(records: map<string, RestoreRecord>, names: seq<string>)
    requires forall n :: n in records ==> records[n] == Recovered(records[n])
    ensures RunningAmong(records, names) == []
    decreases |names|
  {
    if names != [] { RecoveredOnce(records, names[..|names| - 1]); }
  }

  lemma AllRecoveredTwice(records: map<string, RestoreRecord>)
    ensures AllRecovered(AllRecovered(records)) == AllRecovered(records)
    ensures forall n :: n in AllRecovered(records) ==>
      AllRecovered(records)[n] == Recovered(AllRecovered(records)[n])
  {
  }

  lemma NamesKept(names: seq<string>, records: map<string, RestoreRecord>)
    requires Names(names, records)
    ensures Names(names, AllRecovered(records))
  {
  }

  /** A second pass over what the first has left changes no record and reports none. */
  lemma SecondPass(records: map<string, RestoreRecord>, names: seq<string>)
    requires Names(names, records)
    ensures var sorted := SortBy(names, NameKey);
      PassedOver(PassedOver(records, sorted).records, sorted) == Pass(AllRecovered(records), [])
  {
    FullPass(records, names);
    NamesKept(names, records);
    FullPass(AllRecovered(records), names);
    AllRecoveredTwice(records);
    RecoveredOnce(AllRecovered(records), SortBy(names, NameKey));
  }
}
