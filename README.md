# Stackalytics processor: harvest orchestration and merge layer

This project models the orchestration layer of the Stackalytics processor
(`stackalytics/processor/main.py`) in Dafny and proves what that layer
promises:

- **Commit merge policy** (`_merge_commits`). A re-harvested commit whose
  branch set is a strict subset of the stored one is rejected as stale.
  Any other commit widens the stored branch set, in place, to the union.
- **Record typing** (`_record_typer`). Every record of a stream gets its
  `record_type`.
- **CI votes** (`_process_reviews`). Each review is followed by one
  `ci_vote` record per CI result. Each vote is stamped with module, branch
  and, when the branch names one, the release.
- **Repository harvest** (`_process_repo`). It stores blueprints, then bugs
  read from a per-module bug cursor. Then, for each branch (the default
  branch plus every branch a release declares), it stores commits read
  from the branch's `vcs:` cursor and reviews read from its `rcs:` cursor.
  Each cursor is written only after the batch read from it has been stored.
- **Mailing lists and member lists** (`_process_mail_list`,
  `_process_member_list`, `update_members`, the list loop of `process`).
  This includes the `or []` defaults.
- **Corrections** (`apply_corrections`). Only corrections that carry a
  `primary_key` are kept, in their order. An unreadable document never
  reaches the store.
- **Module groups** (`process_project_list`). The official groups, every
  repository's module and `unknown` are registered with the stored module
  groups.
- **Active pids** (`update_pids`). The store is told about pids only when
  the set is non-empty.

The runtime storage is the class `Storage.Store`. Its fields are:

- a map of scalar entries (cursors, `repos`, `module_groups`, the list URIs);
- a record table written in batches through a merge handler;
- a log of the calls to `apply_corrections` and `active_pids`.

Records and repository descriptors are values (`Values.Record`,
`Values.Repo`). The source mutates Python dictionaries in place in four
places:

- `_merge_commits` widens the stored commit's branches;
- `_record_typer` sets `record_type`;
- `_process_reviews` stamps each driver result;
- `process_project_list` updates the `module_groups` dictionary.

Only `_merge_commits` keeps that form: it works on `Merge.RecordRef`
objects. The other three return updated copies. The source
connectors, the record processor, `utils.merge_records`,
`parse.quote_plus` and `driverlog.find_ci_result` are function-valued
fields of `Harvest.Env`. The `Env.faults` field says where a
`set_records` call raises.

Each operation that loops or changes state is a method. The methods below
are proved equal to a specification function on values:

| method | specification function |
|---|---|
| `MergeCommits` | `CommitMerge` |
| `Store.SetRecords` | `WriteBatch` |
| `RecordTyper` | `Typed` |
| `StampCiResults` | `CiVotes` |
| `ProcessReviews` | `WithCiVotes` |
| `CollectBranches` | `BranchSet` |
| `ProcessTrackers` | `RunRepoStart` |
| `ProcessBranch` | `RunBranch` |
| `ProcessRepo` | `RunRepo` |
| `ProcessMailList`, `ProcessMemberList` | `RunList` |
| `ProcessLists`, `UpdateMembers` | `RunLists` |
| `Process` | `RunRepos`, then `RunLists` |
| `CollectValid` | `WithPrimaryKey` |
| `ApplyCorrections` | `WithPrimaryKey` |
| `RegisterRepoModules` | `RegisterModules` |
| `ProcessProjectList` | `ProjectGroups` |

The lemmas state the properties of those functions. The remaining methods
(`Store.GetByKey`, `Store.SetByKey`, `Store.ApplyCorrections`,
`Store.ActivePids`, `UpdatePids`) state their new state directly.

Python set iteration order is unspecified. `ProcessRepo` visits the
branches in an order it chooses and returns that order.

## Model

All source cells refer to `stackalytics/processor/main.py`.

| member | source | states |
|---|---|---|
| Values.UrisOrEmpty | stackalytics/processor/main.py:191 | `get_by_key(...) or []`: an absent entry reads as the empty list, a present list as itself |
| Values.ReposOrEmpty | stackalytics/processor/main.py:257 | `get_by_key('repos') or []`: an absent entry reads as no repositories |
| Values.GroupsOrEmpty | stackalytics/processor/main.py:250 | `get_by_key('module_groups') or {}`: an absent entry reads as the empty map |
| Text.Lower | stackalytics/processor/main.py:86 | lower-casing keeps the length and keeps every '/' where it was |
| Text.Find | stackalytics/processor/main.py:87 | `find('/')` is -1 exactly when there is no '/', and otherwise the index of the first '/' |
| Text.Split | stackalytics/processor/main.py:88 | `split('/')` has at least one piece, and at least two exactly when `find('/')` finds one |
| Text.SplitPiecesFree | stackalytics/processor/main.py:88 | no piece of `split(sep)` contains the separator |
| Text.JoinSplit | stackalytics/processor/main.py:88 | joining the pieces of `split` with the separator gives the string back |
| Text.SecondPiece | stackalytics/processor/main.py:88 | `split(sep)[1]` is the text after the first separator, up to the next separator or the end |
| Merge.CommitMerge | stackalytics/processor/main.py:63-68 | the merge raises exactly when one of the records has no set-valued 'branches' entry (a wider error case than Python's, see "## Left out"); an accepted merge keeps the stored record's keys |
| Merge.MergeCommits | stackalytics/processor/main.py:63-68 | returns false and leaves the stored record as it was for a strict subset; otherwise returns true and stores the union in place; raises when either record has no set-valued 'branches' entry |
| Merge.RejectsExactlyStrictSubsets | stackalytics/processor/main.py:63-65 | the merge is rejected if and only if the incoming branch set is a strict subset of the stored one, and accepted otherwise |
| Merge.AcceptedIsUnion | stackalytics/processor/main.py:66-68 | an accepted merge stores the union of the two branch sets and changes no other field, so coverage never shrinks |
| Merge.MergeIdempotent | stackalytics/processor/main.py:63-68 | merging the same commit again changes nothing: it is accepted with the same record, or rejected when the stored record had extra branches |
| Merge.EqualBranchesUnchanged | stackalytics/processor/main.py:64-68 | an incoming commit with exactly the stored branches is accepted and leaves the record unchanged |
| Storage.Store.GetByKey | stackalytics/processor/main.py:108-109 | `get_by_key` yields the stored value, or None for an absent key |
| Storage.Store.SetByKey | stackalytics/processor/main.py:118-119 | `set_by_key` replaces one scalar entry and nothing else |
| Storage.Store.SetRecords | stackalytics/processor/main.py:139-140 | `set_records` writes the batch in order through the merge handler; when it raises it keeps the writes made before that point |
| Storage.Store.ApplyCorrections | stackalytics/processor/main.py:246 | the store receives the list |
| Storage.Store.ActivePids | stackalytics/processor/main.py:60 | the store receives the set |
| Storage.CommitBatchKeepsCoverage | stackalytics/processor/main.py:139-140 | under `_merge_commits` a stored commit keeps every branch it had, whether or not the batch completes |
| Storage.BatchKeepsKeys | stackalytics/processor/main.py:103-104 | a batch never removes a stored record, whatever the merge handler |
| Storage.FaultStopsBatch | stackalytics/processor/main.py:139-140 | a batch in which some write raises does not complete |
| Storage.HealthyBatchCompletes | stackalytics/processor/main.py:103-104 | conversely, a batch with no store fault written through a merge handler always completes |
| Streams.Typed | stackalytics/processor/main.py:71-74 | the typed stream has the same records in the same order and number, each with `record_type` set and no other field changed |
| Streams.RecordTyper | stackalytics/processor/main.py:71-74 | the loop yields exactly the typed stream |
| Streams.ReleaseOf | stackalytics/processor/main.py:86-88 | a derived release contains no '/' and is shorter than the branch |
| Streams.ReleaseOfDefined | stackalytics/processor/main.py:86-88 | a release is derived if and only if the branch contains '/' and does not start with it |
| Streams.ReleaseOfSegment | stackalytics/processor/main.py:86-88 | the derived release is the lower-cased text after the first '/', up to the next '/' or the end |
| Streams.ReleaseOfStableBranch | stackalytics/processor/main.py:86-88 | "s/K" gives release "k" |
| Streams.ReleaseOfPlainBranch | stackalytics/processor/main.py:86-88 | a branch without '/' gives no release |
| Streams.ReleaseOfLeadingSlash | stackalytics/processor/main.py:87 | a branch starting with '/' gives no release (`find` returns 0) |
| Streams.ReleaseOfTwoSlashes | stackalytics/processor/main.py:88 | "a/b/c" gives "b": the second piece, not the last one |
| Streams.StampVote | stackalytics/processor/main.py:82-88 | a vote has the driver's keys plus `record_type`, `module` and `branch`, and `release` when the branch names one; no other key |
| Streams.CiVotes | stackalytics/processor/main.py:81-90 | one vote per CI result |
| Streams.VoteStamped | stackalytics/processor/main.py:81-88 | a vote has `record_type='ci_vote'`, the given module and branch, and the parsed release when there is one; otherwise the driver's own `release` is left as is; no other field changes |
| Streams.WithCiVotesFront | stackalytics/processor/main.py:77-90 | each review is yielded before its own votes, which come before the rest of the stream |
| Streams.WithCiVotesLength | stackalytics/processor/main.py:77-90 | the stream holds every review and one record per CI result, and nothing else |
| Streams.StampCiResults | stackalytics/processor/main.py:81-90 | the inner loop turns the CI results of one review into its votes, in order |
| Streams.ProcessReviews | stackalytics/processor/main.py:77-90 | the loop yields exactly the reviews, each followed by its votes |
| Harvest.CursorKey | stackalytics/processor/main.py:132 | a branch cursor key (vcs at line 132, rcs at line 147) starts with its kind's tag and ends with ':' and the branch |
| Harvest.BugKey | stackalytics/processor/main.py:109 | the bug cursor key is 'bug_modified_since-' followed by the module name |
| Harvest.DefaultBranch | stackalytics/processor/main.py:124 | the repository's default branch, or 'master' when it declares none |
| Harvest.CollectBranches | stackalytics/processor/main.py:124-127 | the branch set is the default branch (or 'master') plus every release's branch |
| Harvest.BranchSetMembers | stackalytics/processor/main.py:124-127 | a branch is harvested if and only if it is the default branch or some release declares it |
| Harvest.ProcessTrackers | stackalytics/processor/main.py:98-119 | blueprints, then bugs read from the module's bug cursor, then that cursor set to the clock reading taken before the fetch |
| Harvest.ProcessBranch | stackalytics/processor/main.py:129-164 | one branch: commits from its vcs cursor under the commit policy, then the vcs cursor, then reviews (with CI votes when 'ci' is present) from its rcs cursor, then the rcs cursor |
| Harvest.ProcessRepo | stackalytics/processor/main.py:93-164 | the whole harvest equals `RunRepo`; every branch is visited at most once and only branches of the set are visited; a harvest that returns has visited every branch of the set; no 'releases' list raises; a harvest that raises stops at the blueprints, the bugs or the missing releases when it visited no branch, and otherwise at the commits or reviews of the last branch it visited |
| Harvest.BranchKeepsRecords | stackalytics/processor/main.py:139-161 | one branch never removes a stored record |
| Harvest.RunRepoKeepsRecords | stackalytics/processor/main.py:103-161 | a harvest never removes a stored record, whether it returns or raises |
| Cursors.CursorKindsDistinct | stackalytics/processor/main.py:108-109 | vcs, rcs and bug cursor keys never collide |
| Cursors.BranchKeysInjective | stackalytics/processor/main.py:132 | within a repository, two branches share a vcs (or rcs) key if and only if they are the same branch |
| Cursors.RepoKeysInjective | stackalytics/processor/main.py:147 | across repositories, two keys are equal if and only if the quoted URIs and the branches are equal, given that quoting leaves no ':' |
| Cursors.BugKeyInjective | stackalytics/processor/main.py:109 | the bug cursor key is different for each module |
| Cursors.RunBranchCases | stackalytics/processor/main.py:139-164 | a branch ends in one of three ways: commits fail and nothing moves; reviews fail and only the vcs cursor moves; or both are stored and both cursors move |
| Cursors.CursorsFollowWrites | stackalytics/processor/main.py:107-164 | after a harvest, each branch cursor and the bug cursor holds its new value exactly when its batch was stored, and its old value otherwise |
| Cursors.OnlyOwnCursorsChange | stackalytics/processor/main.py:118-164 | the harvest's own `set_by_key` calls write no scalar except its branch cursors and its module's bug cursor (the record processor's own store writes are not modelled, see "## Left out") |
| Cursors.CursorReadIsPassedToLog | stackalytics/processor/main.py:108-111 | the value handed to each connector call is the value its cursor held before the harvest |
| Cursors.FailedBatchKeepsCursor | stackalytics/processor/main.py:139-143 | when a `set_records` call raises, the cursor of its batch keeps its old value |
| Cursors.SuccessfulRunWritesAll | stackalytics/processor/main.py:93-164 | a harvest that returns has stored blueprints, bugs, and every visited branch's commits and reviews |
| Corrections.CollectValid | stackalytics/processor/main.py:240-245 | the loop collects exactly the corrections with a primary key |
| Corrections.FilterAppend | stackalytics/processor/main.py:240-245 | filtering distributes over concatenation, so the order is kept |
| Corrections.FilterCounts | stackalytics/processor/main.py:240-245 | an entry is kept as often as it occurs if it has a primary key, and dropped otherwise |
| Corrections.FilterKeeps | stackalytics/processor/main.py:241-244 | an entry is kept if and only if it is in the input and has a primary key |
| Corrections.AllKeyedUnchanged | stackalytics/processor/main.py:241-242 | a list whose entries are all keyed passes unchanged |
| Corrections.FilterIdempotent | stackalytics/processor/main.py:240-245 | filtering twice is filtering once |
| Corrections.ApplyCorrections | stackalytics/processor/main.py:233-246 | an unreadable or empty document leaves the store untouched; a document without 'corrections' raises KeyError; otherwise the store receives the keyed corrections |
| ProjectList.RegisterRepoModules | stackalytics/processor/main.py:257-260 | the loop registers every repository's module |
| ProjectList.RegisterModulesEntries | stackalytics/processor/main.py:257-260 | registration adds exactly the repositories' modules as module-tagged groups and keeps every other entry |
| ProjectList.ProjectGroupsEntries | stackalytics/processor/main.py:249-263 | the stored map holds 'unknown', every module, every official key and every prior key; modules override official entries, official entries override prior ones, and nothing else changes |
| ProjectList.ProcessProjectList | stackalytics/processor/main.py:249-265 | `module_groups` is replaced by the registered map and no other scalar changes |
| Lists.ProcessMailList | stackalytics/processor/main.py:167-172 | one mailing list's typed, processed records are stored |
| Lists.ProcessMemberList | stackalytics/processor/main.py:180-187 | one member list's typed, processed records are stored |
| Lists.ProcessLists | stackalytics/processor/main.py:191-194 | the lists are stored in order, stopping at the first that raises |
| Lists.UpdateMembers | stackalytics/processor/main.py:190-194 | the lists under 'member_lists' are stored; with no such entry nothing changes |
| Lists.RunListsAppend | stackalytics/processor/main.py:221-224 | processing `a + b` is processing `a` and then, unless one raised, `b` |
| Lists.FailingListStopsRest | stackalytics/processor/main.py:221-224 | a list that raises stops the rest: nothing after it is stored |
| Lists.ListsKeepKeys | stackalytics/processor/main.py:221-224 | processing lists never removes a stored record |
| Orchestration.RunReposKeepRecords | stackalytics/processor/main.py:215-217 | harvesting a sequence of repositories never removes a stored record |
| Orchestration.HarvestRepos | stackalytics/processor/main.py:213-215 | the repositories are harvested in order, stopping at the first that raises; each branch order used has no repeats and stays inside its repository's branch set, and every harvest that returned covered its whole set |
| Orchestration.Process | stackalytics/processor/main.py:208-225 | repositories are harvested in order, stopping at the first that raises; then the lists under 'mail_lists' (none when the entry is absent) are stored; every branch order fits its repository, and covers its branch set unless that harvest raised |
| Orchestration.UpdatePids | stackalytics/processor/main.py:56-60 | the store is told about the pids only when the set is non-empty |

## Left out

- `get_pids` (lines 38-53) enumerates OS processes through psutil. The pid set is a parameter of `UpdatePids`.
- The source connectors `lp`, `bps`, `vcs`, `rcs`, `mls`, `mps` and `driverlog.find_ci_result` do network and VCS I/O. They are functions of `Harvest.Env`, and their code is not part of this model.
- The I/O steps are left out:
  - `vcs.get_vcs` and `vcs_inst.fetch()` (lines 121-122);
  - `rcs.get_rcs`, `setup` and `close` (lines 211-213 and 219).
- That `mls.log` and `mps.log` also receive the store object is not modelled. They are functions of the URI only.
- `mps.log` takes two configuration values, `days_to_update_members` and `members_look_ahead`. They are part of the connector function.
- The record processor (`record_processor_inst.process`) is the function `Env.process`. Its normalisation and attribution are not part of this model.
- `Cursors.OnlyOwnCursorsChange`, `Lists.ProcessMailList`, `Lists.ProcessMemberList`, `Orchestration.Process`: the record processor is built on the runtime store (lines 288-289) and writes to it itself, for example the users it updates. `Env.process` is a pure function, so those writes are not modelled. The frames of these members and "no other scalar changes" cover only the processor's callers' own `set_by_key` and `set_records` calls.
- These collaborators are not modelled. Each becomes an abstract function or a parameter:
  - `utils.merge_records` is the handler in `Env.mergeRecords`: it returns whether the stored record changed and what it became;
  - the `set_records` calls of `_process_mail_list` and `_process_member_list` (lines 172 and 187) pass no merge handler. The store's behaviour for `merge_handler=None` is not part of this model. The model chooses to give them the same `Env.mergeRecords` handler as the calls at lines 104, 116 and 161;
  - `parse.quote_plus` is `Env.quotePlus`;
  - `utils.date_to_timestamp('now')` is the `now` parameter, and `nowOf(i)` in `Process`;
  - `utils.load_repos` is the `repos` parameter of `Process`;
  - `utils.read_json_from_uri` is the `document` parameter of `ApplyCorrections`;
  - `governance.read_projects_yaml` is the `official` parameter of `ProcessProjectList`;
  - `utils.make_module_group` is `ModuleGroup(name, tag)`.
- The internals of the runtime storage are not part of this model, so the model writes them down as follows:
  - `Store.keyOf` says how a record's key is derived;
  - a record with a new key is inserted;
  - for a stored key the handler is called, and the stored record is replaced when the handler returns true;
  - a raising `set_records` is `Env.faults`, which names the write at which it raises.
- The source's generators are lazy, so a connector or the record processor can raise while `set_records` consumes it. That case is folded into `Env.faults`. Streams are finite sequences.
- `_record_typer` (line 73), `_process_reviews` (lines 82-88) and `process_project_list` (lines 254, 260 and 263) update dictionaries in place. `Streams.RecordTyper`, `Streams.StampCiResults`, `Streams.ProcessReviews`, `ProjectList.RegisterRepoModules` and `ProjectList.ProcessProjectList` return updated copies instead. The model does not capture aliasing between such a dictionary and the same dictionary held elsewhere. In particular, `driverlog.find_ci_result(record, ci_map)` (line 81) runs after the `yield record` of line 79, so in the source it sees the review after the record processor and `set_records` have consumed it, and the processor changes records in place. `Streams.ProcessReviews` computes the votes from the unprocessed typed review.
- `_process_translation` (line 174) is an empty stub. Its call at line 228 passes two arguments to a three-parameter function, which raises TypeError in Python. `Orchestration.Process` models `process` up to line 225 and does not include that call. As written, `process()` therefore always raises at line 228, so `main()` never reaches `apply_corrections` (line 293), `update_members` (line 296) or the update-time write (lines 298-299). Those operations are modelled on their own.
- `_post_process_records` (lines 197-205) is left out. It is repository I/O plus the record processor's post-processing.
- `main()` (lines 268-299), configuration (`cfg.CONF`) and logging are left out.
- `stackalytics/processor/zanata_utils.py` and `stackalytics/processor/tls.py` are not part of this model.
- `Merge.CommitMerge`, `Merge.MergeCommits`: a `branches` entry that is not a set is treated as raising. Python raises only for a missing entry (KeyError). For a number it compares and ORs the values (`5 < 2` is False, `5 | 2` is 7) and returns True. For a list or string it compares them and either returns False or fails at `|=`.
- `Cursors.CursorsFollowWrites`, `Harvest.ProcessBranch`, `Harvest.ProcessRepo`: `vcs.get_vcs`, `vcs_inst.fetch()` (lines 121-122) and the `get_last_id` calls (lines 142 and 163) never raise in the model. In the source, a raising `get_last_id` leaves a batch that is already stored with its cursor unmoved, and ends `_process_repo` and `process`. So in the source only "a cursor holds its new value ⇒ its batch was stored" holds unconditionally, and a raising harvest can also stop at those calls.
- Some dynamic typing is not modelled:
  - an `or []` or `or {}` entry that is present but of another type is read as empty;
  - a repository without 'module' is not representable, though Python raises KeyError for it;
  - a repository without 'uri' is not representable, though Python raises KeyError for it at line 95;
  - a corrections document is a map from names to lists of records, so non-dict entries are not representable;
  - a `ci` entry is one record (the CI map).
- String semantics are simplified. `str.lower()` is ASCII-only (`Text.LowerChar`), and Python strings are sequences of `char`.
- `Harvest.ProcessRepo`: only a harvest that returns is guaranteed to have visited every branch of the set. A harvest that raises has visited a distinct subset of it, ending at the branch that raised (`Harvest.StoppedAt`).
- `Cursors.RepoKeysInjective`: this assumes that quoting leaves no ':' (quote_plus encodes it). Percent-encoding itself is not modelled.
- `Cursors.CursorReadIsPassedToLog`: this holds for branch orders without repeats, which is what `ProcessRepo` produces.
- The release of a CI vote is `split('/')[1]`, the second '/'-separated piece of the lower-cased branch. For branches with two or more '/' this is not the last piece (`Streams.ReleaseOfTwoSlashes`).
