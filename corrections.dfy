/** `apply_corrections`: the corrections document is read, the entries that
    carry a 'primary_key' are kept in their order, and that list is handed
    to the store; entries without a key are skipped, not fatal. */
module Corrections {
  import opened Values
  import opened Storage

  const PrimaryKeyField := "primary_key"
  const CorrectionsField := "corrections"

  /** The corrections that carry a primary key, in their original order. */
  function WithPrimaryKey(corrections: seq<Record>): seq<Record>
  {
    if corrections == [] then []
    else
      var last := corrections[|corrections| - 1];
      WithPrimaryKey(corrections[..|corrections| - 1]) + (if PrimaryKeyField in last then [last] else [])
  }

  /** Lines 240-245: the loop that appends every keyed correction. */
  method CollectValid(corrections: seq<Record>) returns (valid: seq<Record>)
    ensures valid == WithPrimaryKey(corrections)
  {
    valid := [];
    var i := 0;
    while i < |corrections|
      invariant 0 <= i <= |corrections|
      invariant valid == WithPrimaryKey(corrections[..i])
    {
      var c := corrections[i];
      if PrimaryKeyField in c {
        valid := valid + [c];
      }
      assert corrections[..i + 1][..i] == corrections[..i];
      i := i + 1;
    }
    assert corrections[..i] == corrections;
  }

  /** Filtering distributes over concatenation: the kept entries of a list
      are the kept entries of its first part followed by those of the rest,
      so the original order is preserved. */
  lemma {:induction false} FilterAppend(a: seq<Record>, b: seq<Record>)
    ensures WithPrimaryKey(a + b) == WithPrimaryKey(a) + WithPrimaryKey(b)
    decreases |b|
  {
    if b == [] {
      assert a + b == a;
    } else {
      var init := b[..|b| - 1];
      assert (a + b)[..|a + b| - 1] == a + init;
      assert (a + b)[|a + b| - 1] == b[|b| - 1];
      FilterAppend(a, init);
    }
  }

  /** A correction is kept exactly when it has a primary key, and it is kept
      as many times as it occurs. */
  lemma {:induction false} FilterCounts(corrections: seq<Record>, c: Record)
    ensures multiset(WithPrimaryKey(corrections))[c]
         == if PrimaryKeyField in c then multiset(corrections)[c] else 0
  {
    if corrections != [] {
      var init := corrections[..|corrections| - 1];
      FilterCounts(init, c);
      assert corrections == init + [corrections[|corrections| - 1]];
    }
  }

  /** Every kept entry has a primary key, and none is invented. */
  lemma {:induction false} FilterKeeps(corrections: seq<Record>)
    ensures forall c :: c in WithPrimaryKey(corrections) <==> c in corrections && PrimaryKeyField in c
  {
    forall c ensures c in WithPrimaryKey(corrections) <==> c in corrections && PrimaryKeyField in c {
      FilterCounts(corrections, c);
    }
  }

  /** A list in which every entry is keyed passes unchanged; filtering twice
      is filtering once. */
  lemma {:induction false} AllKeyedUnchanged(corrections: seq<Record>)
    requires forall i :: 0 <= i < |corrections| ==> PrimaryKeyField in corrections[i]
    ensures WithPrimaryKey(corrections) == corrections
  {
    if corrections != [] {
      var init := corrections[..|corrections| - 1];
      AllKeyedUnchanged(init);
      assert corrections == init + [corrections[|corrections| - 1]];
    }
  }

  lemma {:induction false} FilterIdempotent(corrections: seq<Record>)
    ensures WithPrimaryKey(WithPrimaryKey(corrections)) == WithPrimaryKey(corrections)
  {
    if corrections != [] {
      var init := corrections[..|corrections| - 1];
      var last := corrections[|corrections| - 1];
      FilterIdempotent(init);
      FilterAppend(WithPrimaryKey(init), if PrimaryKeyField in last then [last] else []);
      assert WithPrimaryKey([last]) == if PrimaryKeyField in last then [last] else [] by {
        assert [last][..0] == [];
      }
    }
  }

  /** `apply_corrections`. `document` is what utils.read_json_from_uri
      returned: None when the document could not be read. An unreadable or
      empty document is logged and the store is left alone; a document
      without a 'corrections' list raises KeyError; otherwise the store
      receives the keyed corrections. */
  method ApplyCorrections(store: Store, document: Option<map<string, seq<Record>>>) returns (r: Outcome<()>)
    modifies store`corrections
    ensures document.None? || document.value == map[] ==>
              r == Returns(()) && store.corrections == old(store.corrections)
    ensures document.Some? && document.value != map[] && CorrectionsField !in document.value ==>
              r == Raises(KeyError(CorrectionsField)) && store.corrections == old(store.corrections)
    ensures document.Some? && CorrectionsField in document.value ==>
              r == Returns(())
              && store.corrections == old(store.corrections) + [WithPrimaryKey(document.value[CorrectionsField])]
  {
    if document.None? || document.value == map[] {
      return Returns(());
    }
    if CorrectionsField !in document.value {
      return Raises(KeyError(CorrectionsField));
    }
    var valid := CollectValid(document.value[CorrectionsField]);
    store.ApplyCorrections(valid);
    return Returns(());
  }
}
