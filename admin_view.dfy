/** The older administrator screen (views/AdminView.tsx): a local copy of
    the older configuration, edited field by field and handed back to the
    caller on save. */
module AdminView {
  import opened Seqs
  import opened CoreTypes
  import opened LegacyTypes

  /** The checkbox handler: checking appends the module, unchecking removes
      every occurrence of it. */
  function SetModuleChecked(modules: seq<ExegesisModule>, m: ExegesisModule, checked: bool): (r: seq<ExegesisModule>)
    ensures checked ==> r == modules + [m]
    ensures !checked ==> m !in r && IsSubsequence(r, modules)
    ensures !checked ==> forall x :: x != m ==> (x in r <==> x in modules)
    ensures !checked ==> forall x :: multiset(r)[x] == if x != m then multiset(modules)[x] else 0
  {
    if checked then modules + [m]
    else
      FilterIsSubsequence(modules, (x: ExegesisModule) => x != m);
      assert forall x :: multiset(Filter(modules, (y: ExegesisModule) => y != m))[x]
                         == if x != m then multiset(modules)[x] else 0 by {
        forall x {
          FilterMultiset(modules, (y: ExegesisModule) => y != m, x);
        }
      }
      assert forall x :: x != m ==> (x in Filter(modules, (x: ExegesisModule) => x != m) <==> x in modules) by {
        forall x | x != m {
          FilterMembership(modules, (y: ExegesisModule) => y != m, x);
        }
      }
      Filter(modules, (x: ExegesisModule) => x != m)
  }

  /** A click on a module's box: the box shows `includes(m)`, so a click
      enables a disabled module and disables an enabled one. */
  function ToggleModule(modules: seq<ExegesisModule>, m: ExegesisModule): seq<ExegesisModule> {
    SetModuleChecked(modules, m, m !in modules)
  }

  /** Clicking flips the module and nothing else, keeps the list free of
      repeats, and clicking twice restores the enabled set. */
  lemma ToggleModuleSpec(modules: seq<ExegesisModule>, m: ExegesisModule)
    requires Distinct(modules)
    ensures m in ToggleModule(modules, m) <==> m !in modules
    ensures forall x :: x != m ==> (x in ToggleModule(modules, m) <==> x in modules)
    ensures Distinct(ToggleModule(modules, m))
    ensures forall x :: x in ToggleModule(ToggleModule(modules, m), m) <==> x in modules
  {
    var t := ToggleModule(modules, m);
    if m in modules {
      FilterDistinct(modules, (x: ExegesisModule) => x != m);
    } else {
      assert t == modules + [m];
    }
    var tt := ToggleModule(t, m);
    assert m in tt <==> m in modules;
  }

  class AdminEditor {
    var localConfig: LegacyConfig

    constructor (config: LegacyConfig)
      ensures localConfig == config
    {
      localConfig := config;
    }

    method SetCoverTitle(t: string)
      modifies this
      ensures localConfig == old(localConfig).(coverTitle := t)
    {
      localConfig := localConfig.(coverTitle := t);
    }

    method SetCoverImageUrl(u: string)
      modifies this
      ensures localConfig == old(localConfig).(coverImageUrl := u)
    {
      localConfig := localConfig.(coverImageUrl := u);
    }

    /** The lock button. */
    method ToggleMaintenance()
      modifies this
      ensures localConfig == old(localConfig).(maintenanceMode := !old(localConfig).maintenanceMode)
    {
      localConfig := localConfig.(maintenanceMode := !localConfig.maintenanceMode);
    }

    /** A module checkbox's `onChange`. */
    method OnModuleChange(m: ExegesisModule, checked: bool)
      modifies this
      ensures localConfig == old(localConfig).(activeModules := SetModuleChecked(old(localConfig).activeModules, m, checked))
    {
      localConfig := localConfig.(activeModules := SetModuleChecked(localConfig.activeModules, m, checked));
    }

    /** `handleSave`: the configuration handed to `onUpdateConfig`. */
    method HandleSave() returns (saved: LegacyConfig)
      ensures saved == localConfig
    {
      saved := localConfig;
    }
  }
}
