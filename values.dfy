/** The dynamically typed values the processor passes around: record
    fields, scalar store entries, repository descriptors. */
module Values {

  datatype Option<+T> = None | Some(value: T)

  /** What a call either returns or raises; the source signals failure by
      raising, the model by a `Raises` value. */
  datatype Outcome<+T> = Returns(value: T) | Raises(error: Error)

  datatype Error =
    | KeyError(key: string)          // a dictionary lookup of a missing key
    | TypeError(reason: string)      // an operation applied to the wrong kind of value
    | WriteError                     // the store (or a stream it consumes) raised during set_records

  /** A record field or a scalar store entry. */
  datatype Value =
    | Text(text: string)
    | Number(number: int)
    | Names(names: set<string>)                  // a Python set of strings, e.g. a commit's branches
    | Groups(groups: map<string, ModuleGroup>)   // the 'module_groups' entry
    | Repos(repos: seq<Repo>)                    // the 'repos' entry
    | Uris(uris: seq<string>)                    // the 'mail_lists' and 'member_lists' entries

  /** A record is a dictionary from field names to values. */
  type Record = map<string, Value>

  /** The result of utils.make_module_group(name, tag=...). */
  datatype ModuleGroup = ModuleGroup(name: string, tag: string)

  /** One entry of a repository's 'releases' list; `branch` is present only
      when the release declares one. */
  datatype Release = Release(branch: Option<string>)

  /** A repository descriptor. `releases` is None when the descriptor has no
      'releases' key; `ci` is the 'ci' entry when there is one. */
  datatype Repo = Repo(
    uri: string,
    moduleName: string,
    defaultBranch: Option<string>,
    releases: Option<seq<Release>>,
    ci: Option<Record>)

  const RecordTypeField := "record_type"

  /** dict.get: the value under `key`, or None. */
  function Get<K, V>(m: map<K, V>, key: K): (r: Option<V>)
    ensures r.Some? <==> key in m
    ensures r.Some? ==> r.value == m[key]
  {
    if key in m then Some(m[key]) else None
  }

  /** `get_by_key(key) or []` for a list of URIs: an absent entry (or one
      that is not a list) reads as the empty list. */
  function UrisOrEmpty(v: Option<Value>): (uris: seq<string>)
    ensures v.None? ==> uris == []
    ensures v.Some? && v.value.Uris? ==> uris == v.value.uris
  {
    if v.Some? && v.value.Uris? then v.value.uris else []
  }

  /** `get_by_key('repos') or []`. */
  function ReposOrEmpty(v: Option<Value>): (repos: seq<Repo>)
    ensures v.None? ==> repos == []
    ensures v.Some? && v.value.Repos? ==> repos == v.value.repos
  {
    if v.Some? && v.value.Repos? then v.value.repos else []
  }

  /** `get_by_key('module_groups') or {}`. */
  function GroupsOrEmpty(v: Option<Value>): (groups: map<string, ModuleGroup>)
    ensures v.None? ==> groups == map[]
    ensures v.Some? && v.value.Groups? ==> groups == v.value.groups
  {
    if v.Some? && v.value.Groups? then v.value.groups else map[]
  }

  /** No two positions of `s` hold the same element. */
  predicate Distinct<T(==)>(s: seq<T>)
  {
    forall i, j :: 0 <= i < j < |s| ==> s[i] != s[j]
  }
}
