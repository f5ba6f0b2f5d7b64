/** The top-level runs: `process` harvests every repository in turn and then
    the mailing lists; `update_pids` hands the found worker pids to the store. */
module Orchestration {
  import opened Values
  import opened Storage
  import opened Harvest
  import opened Lists

  /** Where a sequence of harvests got to, and whether none of them raised. */
  datatype Stage = Stage(state: State, completed: bool)

  /** The repositories harvested in order, each with its own clock reading
      and branch order, stopping at the first that raises. */
  function RunRepos(st: State, repos: seq<Repo>, env: Env, keyOf: Record -> string, nowOf: nat -> int,
                    orders: seq<seq<string>>): Stage
    requires |orders| == |repos|
  {
    if repos == [] then Stage(st, true)
    else
      var n := |repos| - 1;
      var prev := RunRepos(st, repos[..n], env, keyOf, nowOf, orders[..n]);
      if !prev.completed then prev
      else
        var run := RunRepo(prev.state, repos[n], env, keyOf, nowOf(n), orders[n]);
        Stage(run.state, run.failure.None?)
  }

  /** No stored record is removed by a sequence of harvests. */
  lemma {:induction false} RunReposKeepRecords(st: State, repos: seq<Repo>, env: Env, keyOf: Record -> string,
                                               nowOf: nat -> int, orders: seq<seq<string>>)
    requires |orders| == |repos|
    ensures st.table.Keys <= RunRepos(st, repos, env, keyOf, nowOf, orders).state.table.Keys
  {
    if repos != [] {
      var n := |repos| - 1;
      RunReposKeepRecords(st, repos[..n], env, keyOf, nowOf, orders[..n]);
      var prev := RunRepos(st, repos[..n], env, keyOf, nowOf, orders[..n]);
      RunRepoKeepsRecords(prev.state, repos[n], env, keyOf, nowOf(n), orders[n]);
    }
  }

  lemma RunReposSnoc(st: State, repos: seq<Repo>, env: Env, keyOf: Record -> string, nowOf: nat -> int,
                     orders: seq<seq<string>>, order: seq<string>)
    requires |orders| < |repos|
    ensures var n := |orders|;
            var prev := RunRepos(st, repos[..n], env, keyOf, nowOf, orders);
            var run := RunRepo(prev.state, repos[n], env, keyOf, nowOf(n), order);
            RunRepos(st, repos[..n + 1], env, keyOf, nowOf, orders + [order])
              == if prev.completed then Stage(run.state, run.failure.None?) else prev
  {
    var n := |orders|;
    assert repos[..n + 1][..n] == repos[..n];
    assert (orders + [order])[..n] == orders;
  }

  /** The branch orders of the harvests so far: each fits its repository,
      and each covers its repository's branch set except perhaps the last,
      whose harvest may have raised. */
  ghost predicate OrdersFit(repos: seq<Repo>, orders: seq<seq<string>>, lastCovers: bool)
    requires |orders| <= |repos|
  {
    && (forall k :: 0 <= k < |orders| ==> OrderFits(repos[k], orders[k]))
    && (forall k :: 0 <= k < |orders| ==> (k < |orders| - 1 || lastCovers) ==> OrderCovers(repos[k], orders[k]))
  }

  lemma OrdersFitSnoc(repos: seq<Repo>, orders: seq<seq<string>>, order: seq<string>, ok: bool)
    requires |orders| < |repos|
    requires OrdersFit(repos, orders, true)
    requires OrderFits(repos[|orders|], order) && (ok ==> OrderCovers(repos[|orders|], order))
    ensures OrdersFit(repos, orders + [order], ok)
  {
    var next := orders + [order];
    forall k | 0 <= k < |orders|
      ensures OrderFits(repos[k], next[k]) && OrderCovers(repos[k], next[k])
    {
      assert next[k] == orders[k];
    }
  }

  /** The repository loop of `process` (lines 215-217). `repos` is what
      utils.load_repos returned; `nowOf(i)` is the clock reading taken while
      harvesting the i-th repository. `orders` holds the branch order used
      for each repository harvested; the loop stops at the first repository
      whose harvest raises. */
  method HarvestRepos(store: Store, env: Env, repos: seq<Repo>, nowOf: nat -> int)
    returns (ok: bool, orders: seq<seq<string>>)
    modifies store`scalars, store`records
    ensures |orders| <= |repos| && (ok ==> |orders| == |repos|)
    ensures RunRepos(State(old(store.scalars), old(store.records)), repos[..|orders|], env, store.keyOf, nowOf, orders)
            == Stage(State(store.scalars, store.records), ok)
    ensures OrdersFit(repos, orders, ok)
  {
    ghost var st := State(store.scalars, store.records);
    orders := [];
    var i := 0;
    while i < |repos|
      invariant 0 <= i <= |repos| && |orders| == i
      invariant RunRepos(st, repos[..i], env, store.keyOf, nowOf, orders) == Stage(State(store.scalars, store.records), true)
      invariant OrdersFit(repos, orders, true)
    {
      var order;
      ghost var previous := orders;
      ok, order := ProcessRepo(store, repos[i], env, nowOf(i));
      OrderFacts(repos[i], order, ok);
      OrdersFitSnoc(repos, previous, order, ok);
      RunReposSnoc(st, repos, env, store.keyOf, nowOf, previous, order);
      orders := orders + [order];
      if !ok {
        return;
      }
      i := i + 1;
    }
    assert repos[..i] == repos;
    ok := true;
  }

  /** `process` up to the mailing lists (lines 208-225): the repositories are
      harvested in order, stopping at the first that raises, and then the
      mailing lists under 'mail_lists' are stored. */
  method Process(store: Store, env: Env, repos: seq<Repo>, nowOf: nat -> int) returns (ok: bool, orders: seq<seq<string>>)
    modifies store`scalars, store`records
    ensures |orders| <= |repos|
    ensures var harvested := RunRepos(State(old(store.scalars), old(store.records)), repos[..|orders|],
                                      env, store.keyOf, nowOf, orders);
            store.scalars == harvested.state.scalars
            && if !harvested.completed then !ok && store.records == harvested.state.table
               else
                 var lists := RunLists(harvested.state.table, MailLists,
                                       UrisOrEmpty(Get(harvested.state.scalars, MailListsKey)), env, store.keyOf);
                 |orders| == |repos| && store.records == lists.table && ok == lists.completed
    ensures OrdersFit(repos, orders, RunRepos(State(old(store.scalars), old(store.records)), repos[..|orders|],
                                              env, store.keyOf, nowOf, orders).completed)
  {
    var harvested;
    harvested, orders := HarvestRepos(store, env, repos, nowOf);
    if !harvested {
      ok := false;
      return;
    }
    assert repos[..|orders|] == repos;
    var mailLists := store.GetByKey(MailListsKey);
    ok := ProcessLists(store, env, MailLists, UrisOrEmpty(mailLists));
  }

  /** `update_pids`: the store is told the active pids only when there are
      some. `pids` is what get_pids found. */
  method UpdatePids(store: Store, pids: set<int>)
    modifies store`activePids
    ensures store.activePids == if pids == {} then old(store.activePids) else old(store.activePids) + [pids]
  {
    if pids == {} {
      return;
    }
    store.ActivePids(pids);
  }
}
