/** The runtime storage as the processor uses it: scalar entries read and
    written by key, a record table written in batches through a merge
    policy, and the two calls that hand data over to the store
    (apply_corrections, active_pids). */
module Storage {
  import opened Values
  import opened Merge

  /** The merge handler passed to set_records (utils.merge_records when
      none is given). */
  datatype Policy =
    | MergeWith(handler: (Record, Record) -> (bool, Record))   // e.g. utils.merge_records: (changed, merged)
    | MergeCommitBranches                                     // _merge_commits

  /** Whether a set_records call raises, and at which record of the batch. */
  datatype Fault = Healthy | FailsAt(index: nat)

  /** The record table after a batch, and whether set_records returned. */
  datatype Written = Written(table: map<string, Record>, completed: bool)

  /** One record written under its key: inserted when the key is new,
      otherwise combined with the stored record by the policy; None when
      the merge raises. */
  function WriteOne(table: map<string, Record>, record: Record, policy: Policy,
                    keyOf: Record -> string): Option<map<string, Record>>
  {
    var key := keyOf(record);
    if key !in table then Some(table[key := record])
    else match policy
      case MergeWith(handler) =>
        var result := handler(table[key], record);
        Some(if result.0 then table[key := result.1] else table)
      case MergeCommitBranches =>
        match CommitMerge(table[key], record)
        case Accepted(merged) => Some(table[key := merged])
        case Rejected => Some(table)
        case Raised => None
  }

  /** The records of `batch` from position `i` on, written in order; writing
      stops at the first record that raises. */
  function WriteFrom(table: map<string, Record>, batch: seq<Record>, i: nat, policy: Policy,
                     keyOf: Record -> string, fault: Fault): Written
    requires i <= |batch|
    decreases |batch| - i
  {
    if i == |batch| then Written(table, true)
    else if fault == FailsAt(i) then Written(table, false)
    else match WriteOne(table, batch[i], policy, keyOf)
      case None => Written(table, false)
      case Some(next) => WriteFrom(next, batch, i + 1, policy, keyOf, fault)
  }

  function WriteBatch(table: map<string, Record>, batch: seq<Record>, policy: Policy,
                      keyOf: Record -> string, fault: Fault): Written
  {
    WriteFrom(table, batch, 0, policy, keyOf, fault)
  }

  class Store {
    var scalars: map<string, Value>
    var records: map<string, Record>
    var corrections: seq<seq<Record>>   // every list handed to apply_corrections, in call order
    var activePids: seq<set<int>>       // every set handed to active_pids, in call order
    const keyOf: Record -> string       // how the store derives a record's key

    constructor (keyOf: Record -> string)
      ensures scalars == map[] && records == map[]
      ensures corrections == [] && activePids == [] && this.keyOf == keyOf
    {
      scalars, records := map[], map[];
      corrections, activePids := [], [];
      this.keyOf := keyOf;
    }

    /** get_by_key: None for an absent key. */
    method GetByKey(key: string) returns (v: Option<Value>)
      ensures v == Get(scalars, key)
    {
      v := if key in scalars then Some(scalars[key]) else None;
    }

    /** set_by_key */
    method SetByKey(key: string, v: Value)
      modifies this`scalars
      ensures scalars == old(scalars)[key := v]
    {
      scalars := scalars[key := v];
    }

    /** set_records: writes the batch record by record; returns false when
        the call raises, leaving the records written before that point. */
    method SetRecords(batch: seq<Record>, policy: Policy, fault: Fault) returns (ok: bool)
      modifies this`records
      ensures var w := WriteBatch(old(records), batch, policy, keyOf, fault);
              records == w.table && ok == w.completed
    {
      var i := 0;
      while i < |batch|
        invariant 0 <= i <= |batch|
        invariant WriteFrom(records, batch, i, policy, keyOf, fault)
               == WriteFrom(old(records), batch, 0, policy, keyOf, fault)
      {
        if fault == FailsAt(i) {
          return false;
        }
        var record := batch[i];
        var key := keyOf(record);
        if key !in records {
          records := records[key := record];
        } else if policy.MergeWith? {
          var result := policy.handler(records[key], record);
          if result.0 {
            records := records[key := result.1];
          }
        } else {
          var original := new RecordRef(records[key]);
          var incoming := new RecordRef(record);
          var merged := MergeCommits(original, incoming);
          if merged.Raises? {
            return false;
          }
          if merged.value {
            records := records[key := original.fields];
          }
        }
        i := i + 1;
      }
      return true;
    }

    /** apply_corrections: the store receives the list. */
    method ApplyCorrections(valid: seq<Record>)
      modifies this`corrections
      ensures corrections == old(corrections) + [valid]
    {
      corrections := corrections + [valid];
    }

    /** active_pids: the store receives the set. */
    method ActivePids(pids: set<int>)
      modifies this`activePids
      ensures activePids == old(activePids) + [pids]
    {
      activePids := activePids + [pids];
    }
  }

  /** Under the commit policy no stored commit loses a branch: a batch only
      inserts new keys or widens stored branch sets, even when it stops
      part-way. */
  lemma {:induction false} CommitBatchKeepsCoverage(table: map<string, Record>, batch: seq<Record>, i: nat,
                                                    keyOf: Record -> string, fault: Fault, key: string)
    requires i <= |batch|
    requires key in table && BranchSetOf(table[key]).Some?
    ensures var w := WriteFrom(table, batch, i, MergeCommitBranches, keyOf, fault);
            key in w.table && BranchSetOf(w.table[key]).Some?
            && BranchSetOf(table[key]).value <= BranchSetOf(w.table[key]).value
    decreases |batch| - i
  {
    if i < |batch| && fault != FailsAt(i) {
      match WriteOne(table, batch[i], MergeCommitBranches, keyOf)
      case None =>
      case Some(next) =>
        var k := keyOf(batch[i]);
        if k == key {
          if CommitMerge(table[key], batch[i]).Accepted? {
            AcceptedIsUnion(table[key], batch[i]);
          }
        }
        assert key in next && BranchSetOf(table[key]).value <= BranchSetOf(next[key]).value;
        CommitBatchKeepsCoverage(next, batch, i + 1, keyOf, fault, key);
    }
  }

  /** Writing a batch never drops a stored key, whatever the policy. */
  lemma {:induction false} BatchKeepsKeys(table: map<string, Record>, batch: seq<Record>, i: nat,
                                          policy: Policy, keyOf: Record -> string, fault: Fault)
    requires i <= |batch|
    ensures table.Keys <= WriteFrom(table, batch, i, policy, keyOf, fault).table.Keys
    decreases |batch| - i
  {
    if i < |batch| && fault != FailsAt(i) {
      match WriteOne(table, batch[i], policy, keyOf)
      case None =>
      case Some(next) => BatchKeepsKeys(next, batch, i + 1, policy, keyOf, fault);
    }
  }

  /** A store fault inside the batch always stops it ... */
  lemma {:induction false} FaultStopsBatch(table: map<string, Record>, batch: seq<Record>, i: nat,
                                           policy: Policy, keyOf: Record -> string, n: nat)
    requires i <= n < |batch|
    ensures !WriteFrom(table, batch, i, policy, keyOf, FailsAt(n)).completed
    decreases |batch| - i
  {
    if i < n {
      match WriteOne(table, batch[i], policy, keyOf)
      case None =>
      case Some(next) => FaultStopsBatch(next, batch, i + 1, policy, keyOf, n);
    }
  }

  /** ... and, conversely, a batch with no store fault, written through a
      merge handler (which never raises), always completes. */
  lemma {:induction false} HealthyBatchCompletes(table: map<string, Record>, batch: seq<Record>, i: nat,
                                                 handler: (Record, Record) -> (bool, Record),
                                                 keyOf: Record -> string)
    requires i <= |batch|
    ensures WriteFrom(table, batch, i, MergeWith(handler), keyOf, Healthy).completed
    decreases |batch| - i
  {
    if i < |batch| {
      var next := WriteOne(table, batch[i], MergeWith(handler), keyOf);
      HealthyBatchCompletes(next.value, batch, i + 1, handler, keyOf);
    }
  }
}
