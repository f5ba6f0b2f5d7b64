/** The record streams built in main.py before the record processor sees
    them: `_record_typer` stamps the record type on every record, and
    `_process_reviews` follows every review with the CI votes derived from
    it. Python generators become finite sequences here. */
module Streams {
  import opened Values
  import opened Text

  /** The stream `_record_typer(records, recordType)` yields. */
  function Typed(records: seq<Record>, recordType: string): (typed: seq<Record>)
    ensures |typed| == |records|
    ensures forall i :: 0 <= i < |typed| ==>
              typed[i].Keys == records[i].Keys + {RecordTypeField}
              && typed[i][RecordTypeField] == Text(recordType)
    ensures forall i, k :: 0 <= i < |typed| && k in records[i] && k != RecordTypeField ==>
              typed[i][k] == records[i][k]
  {
    seq(|records|, i requires 0 <= i < |records| => records[i][RecordTypeField := Text(recordType)])
  }

  /** `_record_typer`: the same records, in the same order, each with
      'record_type' set and no other field changed. */
  method RecordTyper(records: seq<Record>, recordType: string) returns (typed: seq<Record>)
    ensures typed == Typed(records, recordType)
  {
    typed := [];
    var i := 0;
    while i < |records|
      invariant 0 <= i <= |records|
      invariant |typed| == i
      invariant forall j :: 0 <= j < i ==> typed[j] == records[j][RecordTypeField := Text(recordType)]
    {
      var record := records[i];
      record := record[RecordTypeField := Text(recordType)];
      typed := typed + [record];
      i := i + 1;
    }
  }

  /** The release a CI vote on `branch` belongs to: the second '/'-separated
      piece of the lower-cased branch, when the first '/' is not at index 0. */
  function ReleaseOf(branch: string): (release: Option<string>)
    ensures release.Some? ==> '/' !in release.value && |release.value| < |branch|
  {
    var lowered := Lower(branch);
    if Find(lowered, '/') > 0 then
      SecondPiece(lowered, '/');
      Some(Split(lowered, '/')[1])
    else None
  }

  /** A release is derived exactly when the branch has a '/' and does not
      start with one ... */
  lemma ReleaseOfDefined(branch: string)
    ensures ReleaseOf(branch).Some? <==> '/' in branch && branch[0] != '/'
  {
    var lowered := Lower(branch);
    assert '/' in lowered <==> '/' in branch by {
      if '/' in branch {
        var i :| 0 <= i < |branch| && branch[i] == '/';
        assert lowered[i] == '/';
      }
      if '/' in lowered {
        var i :| 0 <= i < |lowered| && lowered[i] == '/';
        assert branch[i] == '/';
      }
    }
  }

  /** ... and it is the lower-cased text after the first '/', up to the
      next '/' or the end. */
  lemma ReleaseOfSegment(branch: string)
    requires ReleaseOf(branch).Some?
    ensures var lowered := Lower(branch);
            var rest := lowered[Find(lowered, '/') + 1..];
            var release := ReleaseOf(branch).value;
            && |release| <= |rest|
            && release == rest[..|release|]
            && '/' !in release
            && (|release| == |rest| || rest[|release|] == '/')
  {
    SecondPiece(Lower(branch), '/');
  }

  /** Concrete cases: a stable branch, a branch without '/', a branch that
      starts with '/', and one with two '/' (the second piece wins, not the
      last one). */
  lemma ReleaseOfStableBranch()
    ensures ReleaseOf("s/K") == Some("k")
  {
    assert Lower("s/K") == "s/k";
    assert Find("s/k", '/') == 1;
    assert Split("k", '/') == ["k"];
    SplitAtFirst("s/k", '/');
    assert "s/k"[2..] == "k";
  }

  lemma ReleaseOfPlainBranch()
    ensures ReleaseOf("m") == None
  {
    assert Lower("m") == "m";
  }

  lemma ReleaseOfLeadingSlash()
    ensures ReleaseOf("/k") == None
  {
    assert Lower("/k") == "/k";
  }

  lemma ReleaseOfTwoSlashes()
    ensures ReleaseOf("a/b/c") == Some("b")
  {
    assert Lower("a/b/c") == "a/b/c";
    assert Find("a/b/c", '/') == 1;
    SplitAtFirst("a/b/c", '/');
    assert "a/b/c"[2..] == "b/c";
    assert Find("b/c", '/') == 1;
    SplitAtFirst("b/c", '/');
    assert "b/c"[..1] == "b";
    assert Split("a/b/c", '/')[1] == Split("b/c", '/')[0] == "b";
  }

  const CiVoteType := "ci_vote"

  /** One CI result turned into a vote record: typed 'ci_vote', stamped with
      the module and branch, and with the release when the branch names one. */
  function StampVote(info: Record, moduleName: string, branch: string): (vote: Record)
    ensures vote.Keys == info.Keys + {RecordTypeField, "module", "branch"}
                         + (if ReleaseOf(branch).Some? then {"release"} else {})
  {
    var stamped := info[RecordTypeField := Text(CiVoteType)]["module" := Text(moduleName)]["branch" := Text(branch)];
    match ReleaseOf(branch)
    case Some(release) => stamped["release" := Text(release)]
    case None => stamped
  }

  function CiVotes(infos: seq<Record>, moduleName: string, branch: string): (votes: seq<Record>)
    ensures |votes| == |infos|
  {
    seq(|infos|, j requires 0 <= j < |infos| => StampVote(infos[j], moduleName, branch))
  }

  /** Each review followed by the records `derive` gives for it. */
  function Interleave(reviews: seq<Record>, derive: Record -> seq<Record>): seq<Record>
  {
    if reviews == [] then []
    else
      var last := reviews[|reviews| - 1];
      Interleave(reviews[..|reviews| - 1], derive) + [last] + derive(last)
  }

  /** The votes derived for one review. */
  function VotesOf(ciMap: Record, moduleName: string, branch: string,
                   findCiResult: (Record, Record) -> seq<Record>): Record -> seq<Record>
  {
    review => CiVotes(findCiResult(review, ciMap), moduleName, branch)
  }

  /** The stream `_process_reviews` yields. */
  function WithCiVotes(reviews: seq<Record>, ciMap: Record, moduleName: string, branch: string,
                       findCiResult: (Record, Record) -> seq<Record>): seq<Record>
  {
    Interleave(reviews, VotesOf(ciMap, moduleName, branch, findCiResult))
  }

  /** A derived vote is typed 'ci_vote' and carries the module and the
      branch; its release is the one parsed from the branch, and when the
      branch names none the driver's own 'release' entry (if any) is left
      as it was. No other field of the driver's result changes. */
  lemma VoteStamped(info: Record, moduleName: string, branch: string)
    ensures var vote := StampVote(info, moduleName, branch);
            && vote[RecordTypeField] == Text(CiVoteType)
            && vote["module"] == Text(moduleName)
            && vote["branch"] == Text(branch)
            && (ReleaseOf(branch).Some? ==> vote["release"] == Text(ReleaseOf(branch).value))
            && (ReleaseOf(branch).None? ==>
                  ("release" in vote <==> "release" in info)
                  && ("release" in info ==> vote["release"] == info["release"]))
            && (forall k :: k in info && k != RecordTypeField && k != "module" && k != "branch" && k != "release" ==>
                  k in vote && vote[k] == info[k])
  {
  }

  lemma {:induction false} InterleaveFront(review: Record, rest: seq<Record>, derive: Record -> seq<Record>)
    ensures Interleave([review] + rest, derive) == [review] + derive(review) + Interleave(rest, derive)
    decreases |rest|
  {
    var all := [review] + rest;
    if rest == [] {
      assert all[..|all| - 1] == [];
    } else {
      var init := rest[..|rest| - 1];
      assert all[..|all| - 1] == [review] + init;
      InterleaveFront(review, init, derive);
    }
  }

  /** Each review comes out first, followed at once by its own votes, and then
      the rest of the stream. */
  lemma WithCiVotesFront(review: Record, rest: seq<Record>, ciMap: Record,
                         moduleName: string, branch: string,
                         findCiResult: (Record, Record) -> seq<Record>)
    ensures WithCiVotes([review] + rest, ciMap, moduleName, branch, findCiResult)
         == [review] + CiVotes(findCiResult(review, ciMap), moduleName, branch)
            + WithCiVotes(rest, ciMap, moduleName, branch, findCiResult)
  {
    InterleaveFront(review, rest, VotesOf(ciMap, moduleName, branch, findCiResult));
  }

  /** The stream holds every review and every vote and nothing else:
      its length is the number of reviews plus the number of CI results. */
  function VoteCount(reviews: seq<Record>, ciMap: Record, findCiResult: (Record, Record) -> seq<Record>): nat
  {
    if reviews == [] then 0
    else VoteCount(reviews[..|reviews| - 1], ciMap, findCiResult) + |findCiResult(reviews[|reviews| - 1], ciMap)|
  }

  lemma {:induction false} WithCiVotesLength(reviews: seq<Record>, ciMap: Record, moduleName: string, branch: string,
                                             findCiResult: (Record, Record) -> seq<Record>)
    ensures |WithCiVotes(reviews, ciMap, moduleName, branch, findCiResult)|
         == |reviews| + VoteCount(reviews, ciMap, findCiResult)
  {
    if reviews != [] {
      WithCiVotesLength(reviews[..|reviews| - 1], ciMap, moduleName, branch, findCiResult);
    }
  }

  /** StampVote written as the field assignments the loop performs. */
  lemma StampVoteSteps(info: Record, moduleName: string, branch: string)
    ensures var stamped := info[RecordTypeField := Text(CiVoteType)]["module" := Text(moduleName)]["branch" := Text(branch)];
            var lowered := Lower(branch);
            StampVote(info, moduleName, branch)
              == if Find(lowered, '/') > 0 then stamped["release" := Text(Split(lowered, '/')[1])] else stamped
  {
    var lowered := Lower(branch);
    if Find(lowered, '/') > 0 {
      assert ReleaseOf(branch) == Some(Split(lowered, '/')[1]);
    } else {
      assert ReleaseOf(branch) == None;
    }
  }

  /** One more driver result adds one more vote at the end. */
  lemma CiVotesSnoc(infos: seq<Record>, j: nat, moduleName: string, branch: string)
    requires j < |infos|
    ensures CiVotes(infos[..j + 1], moduleName, branch)
         == CiVotes(infos[..j], moduleName, branch) + [StampVote(infos[j], moduleName, branch)]
  {
  }

  /** One more review adds that review and its votes at the end. */
  lemma WithCiVotesSnoc(reviews: seq<Record>, i: nat, ciMap: Record, moduleName: string, branch: string,
                        findCiResult: (Record, Record) -> seq<Record>)
    requires i < |reviews|
    ensures WithCiVotes(reviews[..i + 1], ciMap, moduleName, branch, findCiResult)
         == WithCiVotes(reviews[..i], ciMap, moduleName, branch, findCiResult)
            + [reviews[i]] + CiVotes(findCiResult(reviews[i], ciMap), moduleName, branch)
  {
    assert reviews[..i + 1][..i] == reviews[..i];
  }

  /** The inner loop of `_process_reviews`: every CI result driverlog
      reports for one review becomes a vote record, in order. */
  method StampCiResults(infos: seq<Record>, moduleName: string, branch: string) returns (votes: seq<Record>)
    ensures votes == CiVotes(infos, moduleName, branch)
  {
    votes := [];
    var j := 0;
    while j < |infos|
      invariant 0 <= j <= |infos|
      invariant votes == CiVotes(infos[..j], moduleName, branch)
    {
      var info := infos[j];
      info := info[RecordTypeField := Text(CiVoteType)];
      info := info["module" := Text(moduleName)];
      info := info["branch" := Text(branch)];
      var release := Lower(branch);
      if Find(release, '/') > 0 {
        info := info["release" := Text(Split(release, '/')[1])];
      }
      StampVoteSteps(infos[j], moduleName, branch);
      CiVotesSnoc(infos, j, moduleName, branch);
      votes := votes + [info];
      j := j + 1;
    }
    assert infos[..j] == infos;
  }

  /** `_process_reviews`: yields each review, then one vote per CI result
      driverlog finds for it. */
  method ProcessReviews(reviews: seq<Record>, ciMap: Record, moduleName: string, branch: string,
                        findCiResult: (Record, Record) -> seq<Record>) returns (out: seq<Record>)
    ensures out == WithCiVotes(reviews, ciMap, moduleName, branch, findCiResult)
  {
    out := [];
    var i := 0;
    while i < |reviews|
      invariant 0 <= i <= |reviews|
      invariant out == WithCiVotes(reviews[..i], ciMap, moduleName, branch, findCiResult)
    {
      var record := reviews[i];
      out := out + [record];
      var votes := StampCiResults(findCiResult(record, ciMap), moduleName, branch);
      out := out + votes;
      WithCiVotesSnoc(reviews, i, ciMap, moduleName, branch, findCiResult);
      i := i + 1;
    }
    assert reviews[..i] == reviews;
  }
}
