/**
 * The usergroup page (server/admin/usergroups/show.js): the group is looked
 * up by id, its stored values are written into the shared setting schemas,
 * and the schemas are grouped by their `group` field.
 *
 * The schemas live in the application's configuration and are shared by all
 * requests; the handler changes them in place, which the `SettingSchemas`
 * class models.
 */
module UsergroupsShow {
  import opened Wrappers
  import opened Json
  import opened SettingsGrouping

  type Id = string

  /** A stored usergroup: its id and its setting values by name. */
  datatype UserGroup = UserGroup(id: Id, items: map<string, Value>)

  datatype Status = NotFound

  /** `response.data`, filled by the after filter. */
  datatype Response = Response(usergroupId: Id, itemGroups: Groups)

  /** The settings of `names` that the group stores take the stored value; the rest keep theirs. */
  function OverlayOn(settings: map<string, Setting>, items: map<string, Value>, names: set<string>)
    : map<string, Setting>
  {
    map n | n in settings :: if n in names && n in items then settings[n].(value := items[n]) else settings[n]
  }

  /** The handler's overlay over every setting. */
  function Overlay(settings: map<string, Setting>, items: map<string, Value>): map<string, Setting> {
    OverlayOn(settings, items, settings.Keys)
  }

  /**
   * After the overlay each setting the group stores shows the stored value,
   * each other setting is unchanged, and no setting is added, dropped or
   * moved to another category or group.
   */
  lemma OverlayValues(settings: map<string, Setting>, items: map<string, Value>)
    ensures Overlay(settings, items).Keys == settings.Keys
    ensures forall n :: n in settings && n in items ==>
      Overlay(settings, items)[n] == Setting(settings[n].category, settings[n].group, items[n])
    ensures forall n :: n in settings && n !in items ==> Overlay(settings, items)[n] == settings[n]
  {
  }

  /**
   * Because the schemas are shared, a value written while showing one group
   * is still there when a second group, which does not store that setting,
   * is shown.
   */
  lemma EarlierValueLeaks(settings: map<string, Setting>, first: map<string, Value>, second: map<string, Value>,
                          name: string)
    requires name in settings && name in first && name !in second
    ensures Overlay(Overlay(settings, first), second)[name].value == first[name]
  {
    OverlayValues(settings, first);
    OverlayValues(Overlay(settings, first), second);
  }

  /** The configuration's `usergroup` setting schemas. */
  class SettingSchemas {
    var settings: map<string, Setting>

    constructor (settings: map<string, Setting>)
      ensures this.settings == settings
    {
      this.settings := settings;
    }
  }

  lemma OverlayStep(settings: map<string, Setting>, items: map<string, Value>, done: set<string>, name: string)
    requires name in settings
    ensures OverlayOn(settings, items, done + {name}) ==
      OverlayOn(settings, items, done)[name := Overlay(settings, items)[name]]
  {
  }

  /**
   * The handler's `forEach` over the schemas: each setting takes the group's
   * stored value when there is one and is filed under its `group`.
   */
  method OverlayAndGroup(schemas: SettingSchemas, items: map<string, Value>) returns (groups: Groups)
    modifies schemas
    ensures schemas.settings == Overlay(old(schemas.settings), items)
    ensures groups == Grouped(schemas.settings, GroupOf)
  {
    ghost var original := schemas.settings;
    ghost var final := Overlay(original, items);
    groups := map[];
    var pending := schemas.settings.Keys;
    ghost var done: set<string> := {};
    assert OverlayOn(original, items, {}) == original;
    assert GroupedOver(final, {}, GroupOf) == map[];
    while pending != {}
      invariant done !! pending && done + pending == original.Keys && final.Keys == original.Keys
      invariant schemas.settings == OverlayOn(original, items, done)
      invariant groups == GroupedOver(final, done, GroupOf)
      decreases pending
    {
      var name :| name in pending;
      OverlayStep(original, items, done, name);
      GroupStep(final, done, name, GroupOf);
      var item := schemas.settings[name];
      if name in items {
        item := item.(value := items[name]);
      }
      schemas.settings := schemas.settings[name := item];
      assert item == final[name];
      groups := AddTo(groups, item.group, name, item);
      done := done + {name};
      pending := pending - {name};
    }
  }

  /** The request's `env`. */
  class ShowEnv {
    var itemGroups: Groups
    var usergroup: Option<UserGroup>
    var response: Option<Response>

    constructor ()
      ensures itemGroups == map[] && usergroup.None? && response.None?
    {
      itemGroups := map[];
      usergroup := None;
      response := None;
    }

    /**
     * The handler and the after filter. An unknown id answers NOT_FOUND and
     * changes nothing. Otherwise the schemas carry the group's values, the
     * settings are grouped by `group`, and the response names the group.
     */
    method Show(id: Id, usergroups: map<Id, UserGroup>, schemas: SettingSchemas) returns (r: Result<Response, Status>)
      modifies this, schemas
      ensures id !in usergroups ==>
        && r == Err(NotFound)
        && schemas.settings == old(schemas.settings)
        && itemGroups == old(itemGroups) && usergroup == old(usergroup) && response == old(response)
      ensures id in usergroups ==>
        && schemas.settings == Overlay(old(schemas.settings), usergroups[id].items)
        && itemGroups == Grouped(schemas.settings, GroupOf)
        && usergroup == Some(usergroups[id])
        && r == Ok(Response(usergroups[id].id, itemGroups))
        && response == Some(r.value)
    {
      if id !in usergroups {
        return Err(NotFound);
      }
      var group := usergroups[id];
      var groups := OverlayAndGroup(schemas, group.items);
      itemGroups := groups;
      usergroup := Some(group);
      // the after filter
      r := Ok(Response(group.id, itemGroups));
      response := Some(r.value);
    }
  }
}
