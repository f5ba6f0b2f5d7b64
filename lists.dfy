/** Mailing lists and member lists: each list URI is read from its
    connector, typed, run through the record processor and stored with the
    default merge; a failing list stops the ones after it. */
module Lists {
  import opened Values
  import opened Storage
  import opened Streams
  import opened Harvest

  const MailListsKey := "mail_lists"
  const MemberListsKey := "member_lists"

  datatype ListKind = MailLists | MemberLists

  /** What one list contributes to the store: its typed records, processed. */
  function ListRecords(kind: ListKind, env: Env, uri: string): seq<Record>
  {
    match kind
    case MailLists => env.process(Typed(env.mailLog(uri), "email"))
    case MemberLists => env.process(Typed(env.memberLog(uri), "member"))
  }

  function ListBatch(kind: ListKind, uri: string): Batch
  {
    match kind
    case MailLists => MailList(uri)
    case MemberLists => MemberList(uri)
  }

  /** One list stored over `table`. */
  function RunList(table: map<string, Record>, kind: ListKind, uri: string, env: Env,
                   keyOf: Record -> string): Written
  {
    WriteBatch(table, ListRecords(kind, env, uri), MergeWith(env.mergeRecords), keyOf, env.faults(ListBatch(kind, uri)))
  }

  /** The lists of `uris` stored in order, stopping at the first that raises. */
  function RunLists(table: map<string, Record>, kind: ListKind, uris: seq<string>, env: Env,
                    keyOf: Record -> string): Written
  {
    if uris == [] then Written(table, true)
    else
      var prev := RunLists(table, kind, uris[..|uris| - 1], env, keyOf);
      if !prev.completed then prev
      else RunList(prev.table, kind, uris[|uris| - 1], env, keyOf)
  }

  /** `_process_mail_list` (lines 167-172). */
  method ProcessMailList(store: Store, env: Env, uri: string) returns (ok: bool)
    modifies store`records
    ensures var w := RunList(old(store.records), MailLists, uri, env, store.keyOf);
            store.records == w.table && ok == w.completed
  {
    var mails := RecordTyper(env.mailLog(uri), "email");
    ok := store.SetRecords(env.process(mails), MergeWith(env.mergeRecords), env.faults(MailList(uri)));
  }

  /** `_process_member_list` (lines 180-187). */
  method ProcessMemberList(store: Store, env: Env, uri: string) returns (ok: bool)
    modifies store`records
    ensures var w := RunList(old(store.records), MemberLists, uri, env, store.keyOf);
            store.records == w.table && ok == w.completed
  {
    var members := RecordTyper(env.memberLog(uri), "member");
    ok := store.SetRecords(env.process(members), MergeWith(env.mergeRecords), env.faults(MemberList(uri)));
  }

  /** One more list at the end of the sequence. */
  lemma RunListsSnoc(table: map<string, Record>, kind: ListKind, uris: seq<string>, i: nat,
                     env: Env, keyOf: Record -> string)
    requires i < |uris|
    ensures var prev := RunLists(table, kind, uris[..i], env, keyOf);
            RunLists(table, kind, uris[..i + 1], env, keyOf)
              == if prev.completed then RunList(prev.table, kind, uris[i], env, keyOf) else prev
  {
    assert uris[..i + 1][..i] == uris[..i];
  }

  /** The loops of lines 191-194 and 221-224: one list after another. */
  method ProcessLists(store: Store, env: Env, kind: ListKind, uris: seq<string>) returns (ok: bool)
    modifies store`records
    ensures var w := RunLists(old(store.records), kind, uris, env, store.keyOf);
            store.records == w.table && ok == w.completed
  {
    ghost var table := store.records;
    var i := 0;
    while i < |uris|
      invariant 0 <= i <= |uris|
      invariant RunLists(table, kind, uris[..i], env, store.keyOf) == Written(store.records, true)
    {
      RunListsSnoc(table, kind, uris, i, env, store.keyOf);
      if kind.MailLists? {
        ok := ProcessMailList(store, env, uris[i]);
      } else {
        ok := ProcessMemberList(store, env, uris[i]);
      }
      if !ok {
        RunListsAppend(table, kind, uris[..i + 1], uris[i + 1..], env, store.keyOf);
        assert uris[..i + 1] + uris[i + 1..] == uris;
        return;
      }
      i := i + 1;
    }
    assert uris[..i] == uris;
    return true;
  }

  /** `update_members`: the member lists stored under 'member_lists', or none
      when that entry is absent. */
  method UpdateMembers(store: Store, env: Env) returns (ok: bool)
    modifies store`records
    ensures var w := RunLists(old(store.records), MemberLists,
                              UrisOrEmpty(Get(store.scalars, MemberListsKey)), env, store.keyOf);
            store.records == w.table && ok == w.completed
    ensures MemberListsKey !in store.scalars ==> store.records == old(store.records) && ok
  {
    var memberLists := store.GetByKey(MemberListsKey);
    ok := ProcessLists(store, env, MemberLists, UrisOrEmpty(memberLists));
  }

  /** Processing the lists of `a + b` is processing those of `a` and then,
      unless one of them raised, those of `b`. */
  lemma {:induction false} RunListsAppend(table: map<string, Record>, kind: ListKind, a: seq<string>,
                                          b: seq<string>, env: Env, keyOf: Record -> string)
    ensures var first := RunLists(table, kind, a, env, keyOf);
            RunLists(table, kind, a + b, env, keyOf)
              == if first.completed then RunLists(first.table, kind, b, env, keyOf) else first
    decreases |b|
  {
    if b == [] {
      assert a + b == a;
    } else {
      var init := b[..|b| - 1];
      assert (a + b)[..|a + b| - 1] == a + init;
      assert (a + b)[|a + b| - 1] == b[|b| - 1];
      RunListsAppend(table, kind, a, init, env, keyOf);
    }
  }

  /** A list that raises stops the rest: nothing after it is stored. */
  lemma FailingListStopsRest(table: map<string, Record>, kind: ListKind, a: seq<string>, uri: string,
                             b: seq<string>, env: Env, keyOf: Record -> string)
    requires RunLists(table, kind, a, env, keyOf).completed
    requires !RunList(RunLists(table, kind, a, env, keyOf).table, kind, uri, env, keyOf).completed
    ensures RunLists(table, kind, a + [uri] + b, env, keyOf)
         == RunList(RunLists(table, kind, a, env, keyOf).table, kind, uri, env, keyOf)
  {
    RunListsAppend(table, kind, a, [uri], env, keyOf);
    RunListsAppend(table, kind, a + [uri], b, env, keyOf);
    assert (a + [uri])[..|a + [uri]| - 1] == a;
  }

  /** No stored record is removed by processing lists. */
  lemma {:induction false} ListsKeepKeys(table: map<string, Record>, kind: ListKind, uris: seq<string>,
                                         env: Env, keyOf: Record -> string)
    ensures table.Keys <= RunLists(table, kind, uris, env, keyOf).table.Keys
  {
    if uris != [] {
      var init := uris[..|uris| - 1];
      ListsKeepKeys(table, kind, init, env, keyOf);
      var prev := RunLists(table, kind, init, env, keyOf);
      var uri := uris[|uris| - 1];
      BatchKeepsKeys(prev.table, ListRecords(kind, env, uri), 0, MergeWith(env.mergeRecords), keyOf,
                     env.faults(ListBatch(kind, uri)));
    }
  }
}
