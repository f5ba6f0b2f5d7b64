/** The commit merge policy `_merge_commits`: a re-harvested commit whose
    branch set is a strict subset of the stored one is stale and rejected;
    any other one widens the stored branch set, in place, to the union. */
module Merge {
  import opened Values

  const BranchesField := "branches"

  /** The record's 'branches' set, when it has one. */
  function BranchSetOf(r: Record): Option<set<string>>
  {
    if BranchesField in r && r[BranchesField].Names? then Some(r[BranchesField].names) else None
  }

  /** What `_merge_commits(original, incoming)` does, as a value. */
  datatype Verdict = Accepted(merged: Record) | Rejected | Raised

  function CommitMerge(original: Record, incoming: Record): (v: Verdict)
    ensures v.Raised? <==> BranchSetOf(original).None? || BranchSetOf(incoming).None?
    ensures v.Accepted? ==> v.merged.Keys == original.Keys
  {
    match (BranchSetOf(incoming), BranchSetOf(original))
    case (Some(arriving), Some(stored)) =>
      if arriving < stored then Rejected
      else Accepted(original[BranchesField := Names(stored + arriving)])
    case _ => Raised
  }

  /** A dictionary object that can be updated in place. */
  class RecordRef {
    var fields: Record

    constructor (fields: Record)
      ensures this.fields == fields
    {
      this.fields := fields;
    }
  }

  /** `_merge_commits`: returns whether the merge was accepted and, if so,
      has widened `original`'s branches. Raises when either record has no
      'branches' entry (KeyError); an entry that is not a set is treated as
      raising too, which Python does not always do. */
  method MergeCommits(original: RecordRef, incoming: RecordRef) returns (r: Outcome<bool>)
    modifies original
    ensures match CommitMerge(old(original.fields), old(incoming.fields))
            case Accepted(merged) => r == Returns(true) && original.fields == merged
            case Rejected => r == Returns(false) && original.fields == old(original.fields)
            case Raised => r.Raises? && original.fields == old(original.fields)
  {
    var arriving := BranchSetOf(incoming.fields);
    var stored := BranchSetOf(original.fields);
    if arriving.None? || stored.None? {
      return Raises(if BranchesField in incoming.fields && BranchesField in original.fields
                    then TypeError("branches is not a set") else KeyError(BranchesField));
    }
    if arriving.value < stored.value {
      return Returns(false);
    }
    original.fields := original.fields[BranchesField := Names(stored.value + arriving.value)];
    return Returns(true);
  }

  /** Rejection happens exactly for a strict subset; everything else is accepted. */
  lemma RejectsExactlyStrictSubsets(original: Record, incoming: Record)
    requires BranchSetOf(original).Some? && BranchSetOf(incoming).Some?
    ensures CommitMerge(original, incoming).Rejected?
            <==> BranchSetOf(incoming).value < BranchSetOf(original).value
    ensures CommitMerge(original, incoming).Accepted?
            <==> !(BranchSetOf(incoming).value < BranchSetOf(original).value)
  {
  }

  /** An accepted merge stores the union of the two branch sets and changes
      no other field: the stored coverage never shrinks. */
  lemma AcceptedIsUnion(original: Record, incoming: Record)
    requires CommitMerge(original, incoming).Accepted?
    ensures var merged := CommitMerge(original, incoming).merged;
            && BranchSetOf(merged) == Some(BranchSetOf(original).value + BranchSetOf(incoming).value)
            && BranchSetOf(original).value <= BranchSetOf(merged).value
            && merged.Keys == original.Keys
            && forall k :: k in original && k != BranchesField ==> merged[k] == original[k]
  {
  }

  /** Merging the same commit again leaves the merged record as it is:
      the repeat is rejected as stale when the stored record already had
      branches the incoming one lacks, and is accepted as a no-op otherwise. */
  lemma MergeIdempotent(original: Record, incoming: Record)
    requires CommitMerge(original, incoming).Accepted?
    ensures var merged := CommitMerge(original, incoming).merged;
            var again := CommitMerge(merged, incoming);
            && (again.Rejected? <==> !(BranchSetOf(original).value <= BranchSetOf(incoming).value))
            && (again.Accepted? ==> again.merged == merged)
  {
    var merged := CommitMerge(original, incoming).merged;
    var union := BranchSetOf(original).value + BranchSetOf(incoming).value;
    assert union + BranchSetOf(incoming).value == union;
    assert merged[BranchesField := Names(union)] == merged;
  }

  /** An incoming commit with exactly the stored branches is accepted as a no-op. */
  lemma EqualBranchesUnchanged(original: Record, incoming: Record)
    requires BranchSetOf(original).Some? && BranchSetOf(incoming) == BranchSetOf(original)
    ensures CommitMerge(original, incoming) == Accepted(original)
  {
    var stored := BranchSetOf(original).value;
    assert stored + stored == stored;
    assert original[BranchesField := Names(stored)] == original;
  }
}
