/** `process_project_list`: the stored module groups are updated with the
    official ones, every repository's module and the module 'unknown' are
    registered as module-tagged groups, and the result is stored back. */
module ProjectList {
  import opened Values
  import opened Storage

  const ModuleGroupsKey := "module_groups"
  const ReposKey := "repos"
  const UnknownModule := "unknown"

  /** utils.make_module_group(name, tag='module') */
  function ModuleGroupOf(name: string): ModuleGroup
  {
    ModuleGroup(name, "module")
  }

  /** Every repository's module registered, in order, over `groups`. */
  function RegisterModules(groups: map<string, ModuleGroup>, repos: seq<Repo>): map<string, ModuleGroup>
  {
    if repos == [] then groups
    else
      var last := repos[|repos| - 1];
      RegisterModules(groups, repos[..|repos| - 1])[last.moduleName := ModuleGroupOf(last.moduleName)]
  }

  /** The map `process_project_list` stores: `prior` updated with `official`
      (dict.update: official entries win), then the repositories' modules,
      then 'unknown'. */
  function ProjectGroups(prior: map<string, ModuleGroup>, official: map<string, ModuleGroup>,
                         repos: seq<Repo>): map<string, ModuleGroup>
  {
    RegisterModules(prior + official, repos)[UnknownModule := ModuleGroupOf(UnknownModule)]
  }

  /** The modules of `repos`. */
  function Modules(repos: seq<Repo>): set<string>
  {
    set i | 0 <= i < |repos| :: repos[i].moduleName
  }

  /** Lines 258-260: each repository's module registered in turn. */
  method RegisterRepoModules(groups: map<string, ModuleGroup>, repos: seq<Repo>) returns (out: map<string, ModuleGroup>)
    ensures out == RegisterModules(groups, repos)
  {
    out := groups;
    var i := 0;
    while i < |repos|
      invariant 0 <= i <= |repos|
      invariant out == RegisterModules(groups, repos[..i])
    {
      var moduleName := repos[i].moduleName;
      out := out[moduleName := ModuleGroupOf(moduleName)];
      assert repos[..i + 1][..i] == repos[..i];
      i := i + 1;
    }
    assert repos[..i] == repos;
  }

  /** Registering modules adds exactly the repositories' modules, each as a
      module-tagged group, and keeps every other entry. */
  lemma {:induction false} RegisterModulesEntries(groups: map<string, ModuleGroup>, repos: seq<Repo>)
    ensures var out := RegisterModules(groups, repos);
            && out.Keys == groups.Keys + Modules(repos)
            && (forall m :: m in Modules(repos) ==> out[m] == ModuleGroupOf(m))
            && (forall k :: k in groups && k !in Modules(repos) ==> out[k] == groups[k])
  {
    if repos != [] {
      var init := repos[..|repos| - 1];
      RegisterModulesEntries(groups, init);
      assert Modules(repos) == Modules(init) + {repos[|repos| - 1].moduleName} by {
        forall m | m in Modules(repos) ensures m in Modules(init) + {repos[|repos| - 1].moduleName} {
          var i :| 0 <= i < |repos| && repos[i].moduleName == m;
          if i < |repos| - 1 {
            assert init[i] == repos[i];
          }
        }
        forall m | m in Modules(init) ensures m in Modules(repos) {
          var i :| 0 <= i < |init| && init[i].moduleName == m;
          assert repos[i] == init[i];
        }
      }
    }
  }

  /** The stored map holds 'unknown' and every repository's module, each as
      a module-tagged group; every official group key; every prior key.
      Repository modules override official and prior entries of the same
      name, official entries override prior ones, and nothing else is
      added or changed. */
  lemma ProjectGroupsEntries(prior: map<string, ModuleGroup>, official: map<string, ModuleGroup>, repos: seq<Repo>)
    ensures var out := ProjectGroups(prior, official, repos);
            && out.Keys == prior.Keys + official.Keys + Modules(repos) + {UnknownModule}
            && out[UnknownModule] == ModuleGroupOf(UnknownModule)
            && (forall m :: m in Modules(repos) ==> out[m] == ModuleGroupOf(m))
            && (forall k :: k in official && k !in Modules(repos) && k != UnknownModule ==> out[k] == official[k])
            && (forall k :: k in prior && k !in official && k !in Modules(repos) && k != UnknownModule ==>
                  out[k] == prior[k])
  {
    RegisterModulesEntries(prior + official, repos);
  }

  /** `process_project_list`. `official` is what
      governance.read_projects_yaml returned for the project list. */
  method ProcessProjectList(store: Store, official: map<string, ModuleGroup>)
    modifies store`scalars
    ensures store.scalars == old(store.scalars)[ModuleGroupsKey := Groups(
              ProjectGroups(GroupsOrEmpty(Get(old(store.scalars), ModuleGroupsKey)), official,
                            ReposOrEmpty(Get(old(store.scalars), ReposKey))))]
  {
    var stored := store.GetByKey(ModuleGroupsKey);
    var moduleGroups := GroupsOrEmpty(stored);
    moduleGroups := moduleGroups + official;
    var repos := store.GetByKey(ReposKey);
    moduleGroups := RegisterRepoModules(moduleGroups, ReposOrEmpty(repos));
    moduleGroups := moduleGroups[UnknownModule := ModuleGroupOf(UnknownModule)];
    store.SetByKey(ModuleGroupsKey, Groups(moduleGroups));
  }
}
