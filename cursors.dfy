/** What `_process_repo` promises about its cursors: every cursor has a key
    of its own, the value read from a cursor is the one handed to the
    connector, and a cursor moves only once the batch read from it has been
    stored, so a batch whose set_records raises is fetched again from the
    same cursor next time. */
module Cursors {
  import opened Values
  import opened Text
  import opened Harvest

  /** The three kinds of cursor key never collide: they start with
      different letters. */
  lemma CursorKindsDistinct(quote: string -> string, uri: string, b1: string, b2: string, moduleName: string)
    ensures VcsKey(quote, uri, b1) != RcsKey(quote, uri, b2)
    ensures VcsKey(quote, uri, b1) != BugKey(moduleName)
    ensures RcsKey(quote, uri, b1) != BugKey(moduleName)
  {
    assert VcsKey(quote, uri, b1)[0] == 'v';
    assert RcsKey(quote, uri, b2)[0] == 'r';
    assert RcsKey(quote, uri, b1)[0] == 'r';
    assert BugKey(moduleName)[0] == 'b';
  }

  lemma CancelPrefix(p: string, a: string, b: string)
    requires p + a == p + b
    ensures a == b
  {
    assert a == (p + a)[|p|..];
    assert b == (p + b)[|p|..];
  }

  /** Within one repository, every branch has its own commit cursor and its
      own review cursor. */
  lemma BranchKeysInjective(quote: string -> string, uri: string, b1: string, b2: string)
    ensures VcsKey(quote, uri, b1) == VcsKey(quote, uri, b2) <==> b1 == b2
    ensures RcsKey(quote, uri, b1) == RcsKey(quote, uri, b2) <==> b1 == b2
  {
    if VcsKey(quote, uri, b1) == VcsKey(quote, uri, b2) {
      CancelPrefix("vcs:" + quote(uri) + ":", b1, b2);
    }
    if RcsKey(quote, uri, b1) == RcsKey(quote, uri, b2) {
      CancelPrefix("rcs:" + quote(uri) + ":", b1, b2);
    }
  }

  /** The first ':' of `x + ":" + a` is the one after `x` when `x` has none. */
  lemma FirstColon(x: string, a: string)
    requires ':' !in x
    ensures Find(x + ":" + a, ':') == |x|
  {
    var s := x + ":" + a;
    assert s[|x|] == ':';
    assert s[..|x|] == x;
  }

  lemma SplitAtColon(x: string, y: string, a: string, b: string)
    requires ':' !in x && ':' !in y
    requires x + ":" + a == y + ":" + b
    ensures x == y && a == b
  {
    var s := x + ":" + a;
    var t := y + ":" + b;
    FirstColon(x, a);
    FirstColon(y, b);
    assert x == s[..|x|] == t[..|y|] == y;
    CancelPrefix(x + ":", a, b);
  }

  /** Two keys `tag + x + ":" + a` with no ':' in `x` or `y` agree only when
      their middles and their ends do. */
  lemma TaggedKeysSplit(tag: string, x: string, y: string, a: string, b: string)
    requires ':' !in x && ':' !in y
    requires tag + x + ":" + a == tag + y + ":" + b
    ensures x == y && a == b
  {
    assert tag + x + ":" + a == tag + (x + ":" + a);
    assert tag + y + ":" + b == tag + (y + ":" + b);
    CancelPrefix(tag, x + ":" + a, y + ":" + b);
    SplitAtColon(x, y, a, b);
  }

  /** Across repositories: when URL quoting leaves no ':' (quote_plus
      encodes it), two cursors share a key only when the quoted URIs and
      the branches are the same, so an injective quoting keeps the cursors
      of different repositories apart. */
  lemma RepoKeysInjective(quote: string -> string, uri1: string, uri2: string, b1: string, b2: string)
    requires ':' !in quote(uri1) && ':' !in quote(uri2)
    ensures VcsKey(quote, uri1, b1) == VcsKey(quote, uri2, b2) <==> quote(uri1) == quote(uri2) && b1 == b2
    ensures RcsKey(quote, uri1, b1) == RcsKey(quote, uri2, b2) <==> quote(uri1) == quote(uri2) && b1 == b2
  {
    if VcsKey(quote, uri1, b1) == VcsKey(quote, uri2, b2) {
      TaggedKeysSplit("vcs:", quote(uri1), quote(uri2), b1, b2);
    }
    if RcsKey(quote, uri1, b1) == RcsKey(quote, uri2, b2) {
      TaggedKeysSplit("rcs:", quote(uri1), quote(uri2), b1, b2);
    }
  }

  /** The bug cursor is per module. */
  lemma BugKeyInjective(m1: string, m2: string)
    ensures BugKey(m1) == BugKey(m2) <==> m1 == m2
  {
    if BugKey(m1) == BugKey(m2) {
      CancelPrefix("bug_modified_since-", m1, m2);
    }
  }

  /** The cursors of branch `c` and the bug cursor, relative to the scalars
      `s0` the harvest started from: each holds its new value exactly when
      the batch read from it is among the batches stored, and its old value
      otherwise. */
  ghost predicate Follows(r: Run, s0: map<string, Value>, repo: Repo, env: Env, now: int, c: string)
  {
    && Get(r.state.scalars, VcsKey(env.quotePlus, repo.uri, c))
       == (if Commits(repo.uri, c) in r.written then Some(env.vcsLastId(repo, c))
           else Get(s0, VcsKey(env.quotePlus, repo.uri, c)))
    && Get(r.state.scalars, RcsKey(env.quotePlus, repo.uri, c))
       == (if Reviews(repo.uri, c) in r.written then Some(env.rcsLastId(repo, c))
           else Get(s0, RcsKey(env.quotePlus, repo.uri, c)))
    && Get(r.state.scalars, BugKey(repo.moduleName))
       == (if Bugs(repo.uri) in r.written then Some(Number(now)) else Get(s0, BugKey(repo.moduleName)))
  }

  /** The three ways a branch can end: its commits fail, its reviews fail,
      or both are stored; each cursor is written right after its batch. */
  lemma RunBranchCases(run: Run, repo: Repo, env: Env, keyOf: Record -> string, b: string)
    ensures var next := RunBranch(run, repo, env, keyOf, b);
            var s := run.state.scalars;
            var vcsKey := VcsKey(env.quotePlus, repo.uri, b);
            var rcsKey := RcsKey(env.quotePlus, repo.uri, b);
            || (next.written == run.written && next.state.scalars == s)
            || (next.written == run.written + [Commits(repo.uri, b)]
                && next.state.scalars == s[vcsKey := env.vcsLastId(repo, b)])
            || (next.written == run.written + [Commits(repo.uri, b), Reviews(repo.uri, b)]
                && next.state.scalars == s[vcsKey := env.vcsLastId(repo, b)][rcsKey := env.rcsLastId(repo, b)])
  {
  }

  lemma BranchStepFollows(run: Run, s0: map<string, Value>, repo: Repo, env: Env, keyOf: Record -> string,
                          now: int, b: string, c: string)
    requires Follows(run, s0, repo, env, now, c)
    ensures Follows(RunBranch(run, repo, env, keyOf, b), s0, repo, env, now, c)
  {
    CursorKindsDistinct(env.quotePlus, repo.uri, b, c, repo.moduleName);
    CursorKindsDistinct(env.quotePlus, repo.uri, c, b, repo.moduleName);
    CursorKindsDistinct(env.quotePlus, repo.uri, b, b, repo.moduleName);
    CursorKindsDistinct(env.quotePlus, repo.uri, c, c, repo.moduleName);
    BranchKeysInjective(env.quotePlus, repo.uri, b, c);
    RunBranchCases(run, repo, env, keyOf, b);
  }

  lemma {:induction false} BranchesFollow(start: Run, s0: map<string, Value>, repo: Repo, env: Env,
                                          keyOf: Record -> string, now: int, order: seq<string>, c: string)
    requires Follows(start, s0, repo, env, now, c)
    ensures Follows(RunBranches(start, repo, env, keyOf, order), s0, repo, env, now, c)
  {
    if order != [] {
      BranchesFollow(start, s0, repo, env, keyOf, now, order[..|order| - 1], c);
      var prev := RunBranches(start, repo, env, keyOf, order[..|order| - 1]);
      BranchStepFollows(prev, s0, repo, env, keyOf, now, order[|order| - 1], c);
    }
  }

  lemma StartFollows(st: State, repo: Repo, env: Env, keyOf: Record -> string, now: int, c: string)
    ensures Follows(RunRepoStart(st, repo, env, keyOf, now), st.scalars, repo, env, now, c)
  {
    CursorKindsDistinct(env.quotePlus, repo.uri, c, c, repo.moduleName);
  }

  /** Write-after-store ordering, for every branch `c` and for the bug
      cursor: after `_process_repo`, a cursor holds the connector's last id
      (for the bug cursor, the clock reading taken before the bug fetch)
      exactly when the batch read from it was stored, and otherwise still
      holds what it held before. */
  lemma CursorsFollowWrites(st: State, repo: Repo, env: Env, keyOf: Record -> string, now: int,
                            order: seq<string>, c: string)
    ensures var run := RunRepo(st, repo, env, keyOf, now, order);
            var after := run.state.scalars;
            && Get(after, VcsKey(env.quotePlus, repo.uri, c))
               == (if Commits(repo.uri, c) in run.written then Some(env.vcsLastId(repo, c))
                   else Get(st.scalars, VcsKey(env.quotePlus, repo.uri, c)))
            && Get(after, RcsKey(env.quotePlus, repo.uri, c))
               == (if Reviews(repo.uri, c) in run.written then Some(env.rcsLastId(repo, c))
                   else Get(st.scalars, RcsKey(env.quotePlus, repo.uri, c)))
            && Get(after, BugKey(repo.moduleName))
               == (if Bugs(repo.uri) in run.written then Some(Number(now))
                   else Get(st.scalars, BugKey(repo.moduleName)))
  {
    var start := RunRepoStart(st, repo, env, keyOf, now);
    StartFollows(st, repo, env, keyOf, now, c);
    if start.failure.None? && repo.releases.Some? {
      BranchesFollow(start, st.scalars, repo, env, keyOf, now, order, c);
    }
  }

  /** Cursors other than the ones of the harvested repository are untouched. */
  lemma {:induction false} BranchesKeepOtherKeys(start: Run, repo: Repo, env: Env, keyOf: Record -> string,
                                                 order: seq<string>, k: string)
    requires forall b :: k != VcsKey(env.quotePlus, repo.uri, b) && k != RcsKey(env.quotePlus, repo.uri, b)
    ensures Get(RunBranches(start, repo, env, keyOf, order).state.scalars, k) == Get(start.state.scalars, k)
  {
    if order != [] {
      BranchesKeepOtherKeys(start, repo, env, keyOf, order[..|order| - 1], k);
    }
  }

  /** A harvest writes no scalar but its repository's branch cursors and its
      module's bug cursor. */
  lemma OnlyOwnCursorsChange(st: State, repo: Repo, env: Env, keyOf: Record -> string, now: int,
                             order: seq<string>, k: string)
    requires k != BugKey(repo.moduleName)
    requires forall b :: k != VcsKey(env.quotePlus, repo.uri, b) && k != RcsKey(env.quotePlus, repo.uri, b)
    ensures Get(RunRepo(st, repo, env, keyOf, now, order).state.scalars, k) == Get(st.scalars, k)
  {
    var start := RunRepoStart(st, repo, env, keyOf, now);
    if start.failure.None? && repo.releases.Some? {
      BranchesKeepOtherKeys(start, repo, env, keyOf, order, k);
    }
  }

  /** Only visited branches have batches stored. */
  lemma {:induction false} WrittenBranchesVisited(start: Run, repo: Repo, env: Env, keyOf: Record -> string,
                                                  order: seq<string>, c: string)
    requires Commits(repo.uri, c) !in start.written && Reviews(repo.uri, c) !in start.written
    ensures var run := RunBranches(start, repo, env, keyOf, order);
            (Commits(repo.uri, c) in run.written || Reviews(repo.uri, c) in run.written) ==> c in order
  {
    if order != [] {
      var init := order[..|order| - 1];
      WrittenBranchesVisited(start, repo, env, keyOf, init, c);
      assert forall b :: b in init ==> b in order;
    }
  }

  /** Connector calls and the cursors they were given, relative to the
      scalars `s0` the harvest started from. */
  ghost predicate ReadsStartCursors(r: Run, s0: map<string, Value>, repo: Repo, env: Env)
  {
    forall i :: 0 <= i < |r.fetches| ==>
      match r.fetches[i]
      case BugFetch(since) => since == Get(s0, BugKey(repo.moduleName))
      case CommitFetch(b, since) => since == Get(s0, VcsKey(env.quotePlus, repo.uri, b))
      case ReviewFetch(b, since) => since == Get(s0, RcsKey(env.quotePlus, repo.uri, b))
  }

  /** The fetches one branch adds: its commit fetch, then its review fetch
      when the commits were stored. */
  lemma RunBranchFetches(run: Run, repo: Repo, env: Env, keyOf: Record -> string, b: string)
    ensures var next := RunBranch(run, repo, env, keyOf, b);
            var s := run.state.scalars;
            var vcsKey := VcsKey(env.quotePlus, repo.uri, b);
            var commitFetch := CommitFetch(b, Get(s, vcsKey));
            var reviewFetch := ReviewFetch(b, Get(s[vcsKey := env.vcsLastId(repo, b)], RcsKey(env.quotePlus, repo.uri, b)));
            next.fetches == run.fetches + [commitFetch] || next.fetches == run.fetches + [commitFetch, reviewFetch]
  {
  }

  lemma BranchStepReads(prev: Run, s0: map<string, Value>, repo: Repo, env: Env, keyOf: Record -> string,
                        now: int, b: string)
    requires ReadsStartCursors(prev, s0, repo, env)
    requires Follows(prev, s0, repo, env, now, b)
    requires Commits(repo.uri, b) !in prev.written && Reviews(repo.uri, b) !in prev.written
    ensures ReadsStartCursors(RunBranch(prev, repo, env, keyOf, b), s0, repo, env)
  {
    CursorKindsDistinct(env.quotePlus, repo.uri, b, b, repo.moduleName);
    RunBranchFetches(prev, repo, env, keyOf, b);
    var next := RunBranch(prev, repo, env, keyOf, b);
    assert forall i :: 0 <= i < |prev.fetches| ==> next.fetches[i] == prev.fetches[i];
  }

  lemma {:induction false} BranchesReadStartCursors(start: Run, s0: map<string, Value>, repo: Repo, env: Env,
                                                    keyOf: Record -> string, now: int, order: seq<string>)
    requires Distinct(order)
    requires ReadsStartCursors(start, s0, repo, env)
    requires forall c :: Follows(start, s0, repo, env, now, c)
    requires forall c :: Commits(repo.uri, c) !in start.written && Reviews(repo.uri, c) !in start.written
    ensures ReadsStartCursors(RunBranches(start, repo, env, keyOf, order), s0, repo, env)
  {
    if order != [] {
      var init := order[..|order| - 1];
      var b := order[|order| - 1];
      assert Distinct(init);
      BranchesReadStartCursors(start, s0, repo, env, keyOf, now, init);
      var prev := RunBranches(start, repo, env, keyOf, init);
      if prev.failure.None? {
        assert b !in init;
        WrittenBranchesVisited(start, repo, env, keyOf, init, b);
        BranchesFollow(start, s0, repo, env, keyOf, now, init, b);
        BranchStepReads(prev, s0, repo, env, keyOf, now, b);
      }
    }
  }

  /** The cursor value handed to each connector call is the value the
      cursor held when the harvest began: the bug cursor for the bug fetch,
      and each branch's own commit and review cursors for its fetches
      (branches are visited once each). */
  lemma CursorReadIsPassedToLog(st: State, repo: Repo, env: Env, keyOf: Record -> string, now: int,
                                order: seq<string>)
    requires Distinct(order)
    ensures var run := RunRepo(st, repo, env, keyOf, now, order);
            forall i :: 0 <= i < |run.fetches| ==>
              match run.fetches[i]
              case BugFetch(since) => since == Get(st.scalars, BugKey(repo.moduleName))
              case CommitFetch(b, since) => since == Get(st.scalars, VcsKey(env.quotePlus, repo.uri, b))
              case ReviewFetch(b, since) => since == Get(st.scalars, RcsKey(env.quotePlus, repo.uri, b))
  {
    var start := RunRepoStart(st, repo, env, keyOf, now);
    if start.failure.None? && repo.releases.Some? {
      forall c ensures Follows(start, st.scalars, repo, env, now, c) {
        StartFollows(st, repo, env, keyOf, now, c);
      }
      BranchesReadStartCursors(start, st.scalars, repo, env, keyOf, now, order);
    }
  }

  /** A failing batch is never counted as stored. */
  lemma {:induction false} BranchesFailedNotWritten(start: Run, repo: Repo, env: Env, keyOf: Record -> string,
                                                    order: seq<string>)
    requires Distinct(order)
    requires start.failure.None?
    requires forall c :: Commits(repo.uri, c) !in start.written && Reviews(repo.uri, c) !in start.written
    ensures var run := RunBranches(start, repo, env, keyOf, order);
            run.failure.Some? && run.failure.value.WriteFailed? ==> run.failure.value.batch !in run.written
  {
    if order != [] {
      var init := order[..|order| - 1];
      var b := order[|order| - 1];
      assert Distinct(init);
      BranchesFailedNotWritten(start, repo, env, keyOf, init);
      var prev := RunBranches(start, repo, env, keyOf, init);
      if prev.failure.None? {
        assert b !in init;
        WrittenBranchesVisited(start, repo, env, keyOf, init, b);
      }
    }
  }

  /** When a set_records call raises, the cursor its batch was read from
      keeps its old value: the batch is fetched again from there. */
  lemma FailedBatchKeepsCursor(st: State, repo: Repo, env: Env, keyOf: Record -> string, now: int,
                               order: seq<string>)
    requires Distinct(order)
    ensures var run := RunRepo(st, repo, env, keyOf, now, order);
            var after := run.state.scalars;
            && (forall c :: run.failure == Some(WriteFailed(Commits(repo.uri, c))) ==>
                  Get(after, VcsKey(env.quotePlus, repo.uri, c)) == Get(st.scalars, VcsKey(env.quotePlus, repo.uri, c)))
            && (forall c :: run.failure == Some(WriteFailed(Reviews(repo.uri, c))) ==>
                  Get(after, RcsKey(env.quotePlus, repo.uri, c)) == Get(st.scalars, RcsKey(env.quotePlus, repo.uri, c)))
            && (run.failure == Some(WriteFailed(Bugs(repo.uri))) ==>
                  Get(after, BugKey(repo.moduleName)) == Get(st.scalars, BugKey(repo.moduleName)))
  {
    var run := RunRepo(st, repo, env, keyOf, now, order);
    var start := RunRepoStart(st, repo, env, keyOf, now);
    if start.failure.None? && repo.releases.Some? {
      BranchesFailedNotWritten(start, repo, env, keyOf, order);
    }
    forall c {
      CursorsFollowWrites(st, repo, env, keyOf, now, order, c);
    }
  }

  /** A harvest that returns has stored the blueprints, the bugs and, for
      every branch it visited, the commits and the reviews. */
  lemma {:induction false} BranchesWriteAll(start: Run, repo: Repo, env: Env, keyOf: Record -> string,
                                            order: seq<string>)
    ensures var run := RunBranches(start, repo, env, keyOf, order);
            && (forall x :: x in start.written ==> x in run.written)
            && (run.failure.None? ==>
                  forall b :: b in order ==> Commits(repo.uri, b) in run.written && Reviews(repo.uri, b) in run.written)
  {
    if order != [] {
      var init := order[..|order| - 1];
      BranchesWriteAll(start, repo, env, keyOf, init);
      assert forall b :: b in order ==> b in init || b == order[|order| - 1];
    }
  }

  lemma SuccessfulRunWritesAll(st: State, repo: Repo, env: Env, keyOf: Record -> string, now: int,
                               order: seq<string>)
    ensures var run := RunRepo(st, repo, env, keyOf, now, order);
            run.failure.None? ==>
              && repo.releases.Some?
              && Blueprints(repo.uri) in run.written && Bugs(repo.uri) in run.written
              && forall b :: b in order ==> Commits(repo.uri, b) in run.written && Reviews(repo.uri, b) in run.written
  {
    var start := RunRepoStart(st, repo, env, keyOf, now);
    if start.failure.None? && repo.releases.Some? {
      BranchesWriteAll(start, repo, env, keyOf, order);
    }
  }
}
