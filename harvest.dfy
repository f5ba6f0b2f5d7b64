/** `_process_repo`: one repository's harvest. Blueprints, then bugs (with
    the per-module bug cursor), then, for every branch, commits and reviews,
    each read from its own cursor and each cursor written only after the
    batch read from it has been stored. */
module Harvest {
  import opened Values
  import opened Storage
  import opened Streams

  /** The batches handed to set_records, named by where they come from. */
  datatype Batch =
    | Blueprints(uri: string)
    | Bugs(uri: string)
    | Commits(uri: string, branch: string)
    | Reviews(uri: string, branch: string)
    | MailList(uri: string)
    | MemberList(uri: string)

  /** The collaborators main.py calls but whose code is not part of this
      model: the source connectors, the record processor, the default
      merge function, URL quoting, and whether each set_records call raises. */
  datatype Env = Env(
    bpLog: Repo -> seq<Record>,                                  // lp.log(repo)
    bugLog: (Repo, Option<Value>) -> seq<Record>,                // bps.log(repo, modified_since)
    vcsLog: (Repo, string, Option<Value>) -> seq<Record>,        // vcs_inst.log(branch, last_id)
    vcsLastId: (Repo, string) -> Value,                          // vcs_inst.get_last_id(branch)
    rcsLog: (Repo, string, Option<Value>, bool) -> seq<Record>,  // rcs_inst.log(repo, branch, last_id, grab_comments)
    rcsLastId: (Repo, string) -> Value,                          // rcs_inst.get_last_id(repo, branch)
    findCiResult: (Record, Record) -> seq<Record>,               // driverlog.find_ci_result(review, ci_map)
    mailLog: string -> seq<Record>,                              // mls.log(uri, ...)
    memberLog: string -> seq<Record>,                            // mps.log(uri, ...)
    process: seq<Record> -> seq<Record>,                         // record_processor_inst.process
    mergeRecords: (Record, Record) -> (bool, Record),            // utils.merge_records
    quotePlus: string -> string,                                 // parse.quote_plus
    faults: Batch -> Fault)                                      // where each set_records call raises

  /** The part of the store a repository harvest reads and writes. */
  datatype State = State(scalars: map<string, Value>, table: map<string, Record>)

  /** A connector call and the cursor it was given. */
  datatype Fetch =
    | BugFetch(since: Option<Value>)
    | CommitFetch(branch: string, since: Option<Value>)
    | ReviewFetch(branch: string, since: Option<Value>)

  /** Why a harvest stopped: a set_records call raised, or the descriptor has
      no 'releases' list to iterate. */
  datatype Failure = WriteFailed(batch: Batch) | NoReleases

  /** The outcome of a harvest: the state, the fetches made, the batches whose
      set_records returned, and the failure that stopped it, if any. */
  datatype Run = Run(state: State, fetches: seq<Fetch>, written: seq<Batch>, failure: Option<Failure>)

  /** A branch cursor key (lines 132 and 147): the cursor kind's tag, then
      the quoted URI, then ':' and the branch. */
  function CursorKey(tag: string, quote: string -> string, uri: string, branch: string): (key: string)
    ensures |key| == |tag| + |quote(uri)| + 1 + |branch|
    ensures key[..|tag|] == tag && key[|key| - |branch| - 1] == ':' && key[|key| - |branch|..] == branch
  {
    tag + quote(uri) + ":" + branch
  }

  /** The commit cursor of a branch (line 132). */
  function VcsKey(quote: string -> string, uri: string, branch: string): string
  {
    CursorKey("vcs:", quote, uri, branch)
  }

  /** The review cursor of a branch (line 147). */
  function RcsKey(quote: string -> string, uri: string, branch: string): string
  {
    CursorKey("rcs:", quote, uri, branch)
  }

  /** The bug cursor of a module (lines 109 and 119): a fixed prefix
      followed by the module name. */
  function BugKey(moduleName: string): (key: string)
    ensures |key| == 19 + |moduleName|
    ensures key[..19] == "bug_modified_since-" && key[19..] == moduleName
  {
    "bug_modified_since-" + moduleName
  }

  /** repo.get('default_branch', 'master') */
  function DefaultBranch(repo: Repo): (b: string)
    ensures repo.defaultBranch.Some? ==> b == repo.defaultBranch.value
    ensures repo.defaultBranch.None? ==> b == "master"
  {
    match repo.defaultBranch
    case Some(b) => b
    case None => "master"
  }

  /** The branches harvested for a repository: its default branch and every
      branch a release declares. */
  function BranchSet(defaultBranch: string, releases: seq<Release>): set<string>
  {
    {defaultBranch} + set i | 0 <= i < |releases| && releases[i].branch.Some? :: releases[i].branch.value
  }

  /** Lines 124-127: the branch set built by adding each release's branch. */
  method CollectBranches(repo: Repo, releases: seq<Release>) returns (branches: set<string>)
    ensures branches == BranchSet(DefaultBranch(repo), releases)
  {
    branches := {DefaultBranch(repo)};
    var i := 0;
    while i < |releases|
      invariant 0 <= i <= |releases|
      invariant branches == BranchSet(DefaultBranch(repo), releases[..i])
    {
      if releases[i].branch.Some? {
        branches := branches + {releases[i].branch.value};
      }
      assert forall k :: 0 <= k < i ==> releases[..i + 1][k] == releases[..i][k];
      i := i + 1;
    }
    assert releases[..i] == releases;
  }

  /** A branch is harvested exactly when it is the default branch or some
      release declares it. */
  lemma BranchSetMembers(defaultBranch: string, releases: seq<Release>, b: string)
    ensures b in BranchSet(defaultBranch, releases)
            <==> b == defaultBranch || exists i :: 0 <= i < |releases| && releases[i].branch == Some(b)
  {
    if exists i :: 0 <= i < |releases| && releases[i].branch == Some(b) {
      var i :| 0 <= i < |releases| && releases[i].branch == Some(b);
      assert releases[i].branch.value == b;
    }
  }

  /** Commits, then reviews, of one branch (lines 130-164). */
  function RunBranch(run: Run, repo: Repo, env: Env, keyOf: Record -> string, branch: string): Run
  {
    var st := run.state;
    var vcsKey := VcsKey(env.quotePlus, repo.uri, branch);
    var commitSince := Get(st.scalars, vcsKey);
    var commits := env.process(Typed(env.vcsLog(repo, branch, commitSince), "commit"));
    var w := WriteBatch(st.table, commits, MergeCommitBranches, keyOf, env.faults(Commits(repo.uri, branch)));
    var fetched := run.fetches + [CommitFetch(branch, commitSince)];
    if !w.completed then
      Run(State(st.scalars, w.table), fetched, run.written, Some(WriteFailed(Commits(repo.uri, branch))))
    else
      var scalars := st.scalars[vcsKey := env.vcsLastId(repo, branch)];
      var written := run.written + [Commits(repo.uri, branch)];
      var rcsKey := RcsKey(env.quotePlus, repo.uri, branch);
      var reviewSince := Get(scalars, rcsKey);
      var reviews := Typed(env.rcsLog(repo, branch, reviewSince, repo.ci.Some?), "review");
      var stream := if repo.ci.Some? then WithCiVotes(reviews, repo.ci.value, repo.moduleName, branch, env.findCiResult)
                    else reviews;
      var w2 := WriteBatch(w.table, env.process(stream), MergeWith(env.mergeRecords), keyOf,
                           env.faults(Reviews(repo.uri, branch)));
      var fetched2 := fetched + [ReviewFetch(branch, reviewSince)];
      if !w2.completed then
        Run(State(scalars, w2.table), fetched2, written, Some(WriteFailed(Reviews(repo.uri, branch))))
      else
        Run(State(scalars[rcsKey := env.rcsLastId(repo, branch)], w2.table), fetched2,
            written + [Reviews(repo.uri, branch)], None)
  }

  /** The branches in the order they were visited, stopping at the first failure. */
  function RunBranches(start: Run, repo: Repo, env: Env, keyOf: Record -> string, order: seq<string>): Run
  {
    if order == [] then start
    else
      var prev := RunBranches(start, repo, env, keyOf, order[..|order| - 1]);
      if prev.failure.Some? then prev
      else RunBranch(prev, repo, env, keyOf, order[|order| - 1])
  }

  /** Blueprints and bugs (lines 98-119), before any branch. */
  function RunRepoStart(st: State, repo: Repo, env: Env, keyOf: Record -> string, now: int): Run
  {
    var bp := WriteBatch(st.table, env.process(Typed(env.bpLog(repo), "bp")),
                         MergeWith(env.mergeRecords), keyOf, env.faults(Blueprints(repo.uri)));
    if !bp.completed then
      Run(State(st.scalars, bp.table), [], [], Some(WriteFailed(Blueprints(repo.uri))))
    else
      var bugKey := BugKey(repo.moduleName);
      var since := Get(st.scalars, bugKey);
      var bugs := WriteBatch(bp.table, env.process(Typed(env.bugLog(repo, since), "bug")),
                             MergeWith(env.mergeRecords), keyOf, env.faults(Bugs(repo.uri)));
      if !bugs.completed then
        Run(State(st.scalars, bugs.table), [BugFetch(since)], [Blueprints(repo.uri)], Some(WriteFailed(Bugs(repo.uri))))
      else
        Run(State(st.scalars[bugKey := Number(now)], bugs.table), [BugFetch(since)],
            [Blueprints(repo.uri), Bugs(repo.uri)], None)
  }

  /** The whole of `_process_repo`, given the order the branch set is
      iterated in and the clock reading `now` taken before the bug fetch. */
  function RunRepo(st: State, repo: Repo, env: Env, keyOf: Record -> string, now: int, order: seq<string>): Run
  {
    var start := RunRepoStart(st, repo, env, keyOf, now);
    if start.failure.Some? then start
    else if repo.releases.None? then start.(failure := Some(NoReleases))
    else RunBranches(start, repo, env, keyOf, order)
  }

  /** The body of the branch loop (lines 130-164): commits of one branch
      under the commit merge policy and its cursor, then its reviews (with
      CI votes when the repository has a CI map) and their cursor. `prior`
      is the harvest so far, whose state the store holds. */
  method ProcessBranch(store: Store, repo: Repo, env: Env, branch: string, ghost prior: Run) returns (ok: bool)
    requires prior.state == State(store.scalars, store.records)
    modifies store`scalars, store`records
    ensures var run := RunBranch(prior, repo, env, store.keyOf, branch);
            store.scalars == run.state.scalars && store.records == run.state.table && ok == run.failure.None?
  {
    var uri := repo.uri;
    var vcsKey := VcsKey(env.quotePlus, uri, branch);
    var lastId := store.GetByKey(vcsKey);
    var commits := RecordTyper(env.vcsLog(repo, branch, lastId), "commit");
    ok := store.SetRecords(env.process(commits), MergeCommitBranches, env.faults(Commits(uri, branch)));
    if !ok {
      return;
    }
    store.SetByKey(vcsKey, env.vcsLastId(repo, branch));

    var rcsKey := RcsKey(env.quotePlus, uri, branch);
    lastId := store.GetByKey(rcsKey);
    var reviews := RecordTyper(env.rcsLog(repo, branch, lastId, repo.ci.Some?), "review");
    if repo.ci.Some? {
      reviews := ProcessReviews(reviews, repo.ci.value, repo.moduleName, branch, env.findCiResult);
    }
    ok := store.SetRecords(env.process(reviews), MergeWith(env.mergeRecords), env.faults(Reviews(uri, branch)));
    if !ok {
      return;
    }
    store.SetByKey(rcsKey, env.rcsLastId(repo, branch));
  }

  /** Lines 98-119: blueprints, then bugs read from the module's bug cursor,
      then that cursor set to the clock reading taken before the fetch. */
  method ProcessTrackers(store: Store, repo: Repo, env: Env, now: int) returns (ok: bool)
    modifies store`scalars, store`records
    ensures var run := RunRepoStart(State(old(store.scalars), old(store.records)), repo, env, store.keyOf, now);
            store.scalars == run.state.scalars && store.records == run.state.table && ok == run.failure.None?
  {
    var uri := repo.uri;
    var bps := RecordTyper(env.bpLog(repo), "bp");
    ok := store.SetRecords(env.process(bps), MergeWith(env.mergeRecords), env.faults(Blueprints(uri)));
    if !ok {
      return;
    }

    var currentDate := now;
    var bugKey := BugKey(repo.moduleName);
    var bugSince := store.GetByKey(bugKey);
    var bugs := RecordTyper(env.bugLog(repo, bugSince), "bug");
    ok := store.SetRecords(env.process(bugs), MergeWith(env.mergeRecords), env.faults(Bugs(uri)));
    if !ok {
      return;
    }
    store.SetByKey(bugKey, Number(currentDate));
  }

  /** Where a harvest that raised stopped: before any branch (at the
      blueprints, at the bugs, or for want of a 'releases' list), or at the
      commits or the reviews of the last branch it visited. */
  predicate StoppedAt(f: Failure, repo: Repo, order: seq<string>)
  {
    if order == [] then
      f == NoReleases || f == WriteFailed(Blueprints(repo.uri)) || f == WriteFailed(Bugs(repo.uri))
    else
      var last := order[|order| - 1];
      f == WriteFailed(Commits(repo.uri, last)) || f == WriteFailed(Reviews(repo.uri, last))
  }

  /** A branch order `_process_repo` can have used: no branch twice, and
      (when the repository declares releases) only branches of its set. */
  predicate OrderFits(repo: Repo, order: seq<string>)
  {
    && Distinct(order)
    && (repo.releases.Some? ==> forall b :: b in order ==> b in BranchSet(DefaultBranch(repo), repo.releases.value))
  }

  /** A branch order that reached every branch of the repository's set. */
  predicate OrderCovers(repo: Repo, order: seq<string>)
  {
    repo.releases.Some? && forall b :: b in BranchSet(DefaultBranch(repo), repo.releases.value) ==> b in order
  }

  /** What `ProcessRepo` ensures about its order, as the two predicates. */
  lemma OrderFacts(repo: Repo, order: seq<string>, ok: bool)
    requires Distinct(order)
    requires repo.releases.Some? ==>
               (forall b :: b in order ==> b in BranchSet(DefaultBranch(repo), repo.releases.value))
    requires ok ==> (repo.releases.Some? &&
                     forall b :: b in BranchSet(DefaultBranch(repo), repo.releases.value) ==> b in order)
    ensures OrderFits(repo, order) && (ok ==> OrderCovers(repo, order))
  {
  }

  /** `_process_repo`. `now` is the clock reading of line 107; `order` is the
      order in which the branch set was iterated (Python leaves it
      unspecified; here it is an arbitrary choice); `ok` is false when the
      call raises. */
  method ProcessRepo(store: Store, repo: Repo, env: Env, now: int) returns (ok: bool, order: seq<string>)
    modifies store`scalars, store`records
    ensures var run := RunRepo(State(old(store.scalars), old(store.records)), repo, env, store.keyOf, now, order);
            && store.scalars == run.state.scalars && store.records == run.state.table && ok == run.failure.None?
            && (!ok ==> StoppedAt(run.failure.value, repo, order))
    ensures Distinct(order)
    ensures repo.releases.Some? ==>
              (forall b :: b in order ==> b in BranchSet(DefaultBranch(repo), repo.releases.value))
    ensures ok ==> (repo.releases.Some? &&
                    forall b :: b in BranchSet(DefaultBranch(repo), repo.releases.value) ==> b in order)
  {
    order := [];

    ok := ProcessTrackers(store, repo, env, now);
    if !ok {
      return;
    }

    if repo.releases.None? {
      // iterating repo.get('releases') == None raises TypeError
      ok := false;
      return;
    }
    var branches := CollectBranches(repo, repo.releases.value);

    ghost var start := RunRepoStart(State(old(store.scalars), old(store.records)), repo, env, store.keyOf, now);
    var remaining := branches;
    while remaining != {}
      invariant remaining <= branches
      invariant Distinct(order)
      invariant forall b :: b in order <==> b in branches && b !in remaining
      invariant RunBranches(start, repo, env, store.keyOf, order).failure.None?
      invariant store.scalars == RunBranches(start, repo, env, store.keyOf, order).state.scalars
      invariant store.records == RunBranches(start, repo, env, store.keyOf, order).state.table
      decreases remaining
    {
      var branch :| branch in remaining;
      remaining := remaining - {branch};
      ghost var previous := order;
      order := order + [branch];
      assert order[..|order| - 1] == previous;

      ok := ProcessBranch(store, repo, env, branch, RunBranches(start, repo, env, store.keyOf, previous));
      if !ok {
        return;
      }
    }
  }

  /** One branch never removes a stored record. */
  lemma BranchKeepsRecords(run: Run, repo: Repo, env: Env, keyOf: Record -> string, branch: string)
    ensures run.state.table.Keys <= RunBranch(run, repo, env, keyOf, branch).state.table.Keys
  {
    var st := run.state;
    var commitSince := Get(st.scalars, VcsKey(env.quotePlus, repo.uri, branch));
    var commits := env.process(Typed(env.vcsLog(repo, branch, commitSince), "commit"));
    var fault := env.faults(Commits(repo.uri, branch));
    BatchKeepsKeys(st.table, commits, 0, MergeCommitBranches, keyOf, fault);
    var w := WriteBatch(st.table, commits, MergeCommitBranches, keyOf, fault);
    if w.completed {
      var scalars := st.scalars[VcsKey(env.quotePlus, repo.uri, branch) := env.vcsLastId(repo, branch)];
      var reviewSince := Get(scalars, RcsKey(env.quotePlus, repo.uri, branch));
      var reviews := Typed(env.rcsLog(repo, branch, reviewSince, repo.ci.Some?), "review");
      var stream := if repo.ci.Some? then WithCiVotes(reviews, repo.ci.value, repo.moduleName, branch, env.findCiResult)
                    else reviews;
      BatchKeepsKeys(w.table, env.process(stream), 0, MergeWith(env.mergeRecords), keyOf,
                     env.faults(Reviews(repo.uri, branch)));
    }
  }

  lemma {:induction false} BranchesKeepRecords(start: Run, repo: Repo, env: Env, keyOf: Record -> string,
                                               order: seq<string>)
    ensures start.state.table.Keys <= RunBranches(start, repo, env, keyOf, order).state.table.Keys
  {
    if order != [] {
      var init := order[..|order| - 1];
      BranchesKeepRecords(start, repo, env, keyOf, init);
      BranchKeepsRecords(RunBranches(start, repo, env, keyOf, init), repo, env, keyOf, order[|order| - 1]);
    }
  }

  /** A harvest never removes a stored record, whether it returns or raises. */
  lemma RunRepoKeepsRecords(st: State, repo: Repo, env: Env, keyOf: Record -> string, now: int,
                            order: seq<string>)
    ensures st.table.Keys <= RunRepo(st, repo, env, keyOf, now, order).state.table.Keys
  {
    var bps := env.process(Typed(env.bpLog(repo), "bp"));
    BatchKeepsKeys(st.table, bps, 0, MergeWith(env.mergeRecords), keyOf, env.faults(Blueprints(repo.uri)));
    var bp := WriteBatch(st.table, bps, MergeWith(env.mergeRecords), keyOf, env.faults(Blueprints(repo.uri)));
    var bugs := env.process(Typed(env.bugLog(repo, Get(st.scalars, BugKey(repo.moduleName))), "bug"));
    BatchKeepsKeys(bp.table, bugs, 0, MergeWith(env.mergeRecords), keyOf, env.faults(Bugs(repo.uri)));
    var start := RunRepoStart(st, repo, env, keyOf, now);
    if start.failure.None? && repo.releases.Some? {
      BranchesKeepRecords(start, repo, env, keyOf, order);
    }
  }
}
