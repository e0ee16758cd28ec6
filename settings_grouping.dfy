/**
 * The group-by that the usergroup admin pages share
 * (server/admin/users/usergroups/add.js and server/admin/usergroups/show.js):
 * the `usergroup` setting schemas, keyed by setting name, are collected into
 * a dictionary keyed by one field of each setting (its category or its
 * group), each entry a dictionary from setting name to setting.
 */
module SettingsGrouping {
  import opened Json

  /** A setting schema: the fields the pages read, and the value shown in the form. */
  datatype Setting = Setting(category: string, group: string, value: Value)

  type Groups = map<string, map<string, Setting>>

  /** The key of add.js: the setting's category. */
  function CategoryOf(s: Setting): string {
    s.category
  }

  /** The key of show.js: the setting's group. */
  function GroupOf(s: Setting): string {
    s.group
  }

  /** The settings named in `names`, grouped by `key`. */
  function GroupedOver(settings: map<string, Setting>, names: set<string>, key: Setting -> string): Groups
    requires names <= settings.Keys
  {
    map c | c in KeysOf(settings, names, key) :: map n | n in names && key(settings[n]) == c :: settings[n]
  }

  /** The keys the named settings have. */
  function KeysOf(settings: map<string, Setting>, names: set<string>, key: Setting -> string): set<string>
    requires names <= settings.Keys
  {
    set n | n in names :: key(settings[n])
  }

  /** Every setting grouped by `key`. */
  function Grouped(settings: map<string, Setting>, key: Setting -> string): Groups {
    GroupedOver(settings, settings.Keys, key)
  }

  /**
   * One iteration of the source's `forEach`: create the key's dictionary when
   * it is missing, then store the setting under its name.
   */
  function AddTo(groups: Groups, c: string, name: string, item: Setting): Groups {
    groups[c := (if c in groups then groups[c] else map[])[name := item]]
  }

  lemma GroupStep(settings: map<string, Setting>, done: set<string>, name: string, key: Setting -> string)
    requires done <= settings.Keys && name in settings && name !in done
    ensures GroupedOver(settings, done + {name}, key) ==
      AddTo(GroupedOver(settings, done, key), key(settings[name]), name, settings[name])
  {
    var before := GroupedOver(settings, done, key);
    var after := GroupedOver(settings, done + {name}, key);
    var stepped := AddTo(before, key(settings[name]), name, settings[name]);
    assert after.Keys == stepped.Keys by {
      assert forall c :: c in after.Keys ==> exists n :: n in done + {name} && key(settings[n]) == c;
    }
    forall c | c in after.Keys
      ensures after[c] == stepped[c]
    {
      if c == key(settings[name]) && c !in before {
        assert forall n :: n in done ==> key(settings[n]) != c;
      }
    }
  }

  /**
   * Every setting appears under its own key, under no other key, and each
   * key holds at least one setting: exactly the keys some setting has.
   */
  lemma GroupedExactly(settings: map<string, Setting>, key: Setting -> string)
    ensures var g := Grouped(settings, key);
      forall n :: n in settings ==> key(settings[n]) in g && n in g[key(settings[n])] && g[key(settings[n])][n] == settings[n]
    ensures var g := Grouped(settings, key);
      forall c, n :: c in g && n in g[c] ==> n in settings && key(settings[n]) == c && g[c][n] == settings[n]
    ensures var g := Grouped(settings, key);
      forall c :: c in g ==> |g[c]| > 0
  {
    var g := Grouped(settings, key);
    forall c | c in g
      ensures |g[c]| > 0
    {
      var n :| n in settings && key(settings[n]) == c;
      assert n in g[c];
    }
  }

  /** The loop of both pages: the settings grouped by `key`. */
  method GroupBy(settings: map<string, Setting>, key: Setting -> string) returns (groups: Groups)
    ensures groups == Grouped(settings, key)
  {
    groups := map[];
    var pending := settings.Keys;
    assert GroupedOver(settings, {}, key) == map[];
    while pending != {}
      invariant pending <= settings.Keys
      invariant groups == GroupedOver(settings, settings.Keys - pending, key)
      decreases pending
    {
      var name :| name in pending;
      var item := settings[name];
      GroupStep(settings, settings.Keys - pending, name, key);
      groups := AddTo(groups, key(item), name, item);
      assert settings.Keys - (pending - {name}) == (settings.Keys - pending) + {name};
      pending := pending - {name};
    }
    assert settings.Keys - pending == settings.Keys;
  }
}
