/**
 * The "add usergroup" form (server/admin/users/usergroups/add.js): the
 * setting schemas grouped by category, and the existing usergroups for the
 * "parent group" select, with their ids turned into strings.
 */
module UsergroupsAdd {
  import opened Wrappers
  import opened SettingsGrouping

  /** A Mongo ObjectId; `toString()` gives its hex form. */
  datatype ObjectId = ObjectId(hex: string)

  /** A usergroup as the query selects it: `_id` and `short_name`. */
  datatype UserGroup = UserGroup(id: ObjectId, shortName: string)

  /** A usergroup after `group._id = group._id.toString()`. */
  datatype GroupOption = GroupOption(id: string, shortName: string)

  /** `env.response.data`, filled by the `_copy_data` after hook. */
  datatype Response = Response(settingsCategories: Groups, usergroups: seq<GroupOption>)

  function ToOption(g: UserGroup): GroupOption {
    GroupOption(g.id.hex, g.shortName)
  }

  /** The request's `env`. */
  class AddEnv {
    var settingsCategories: Groups
    var usergroups: seq<GroupOption>
    var response: Option<Response>

    constructor ()
      ensures settingsCategories == map[] && usergroups == [] && response.None?
    {
      settingsCategories := map[];
      usergroups := [];
      response := None;
    }

    /**
     * The handler and `_copy_data`. `fetched` is what `UserGroup.find()`
     * answers: a database error is passed on, with the list left empty and
     * no response data; otherwise every group is listed, in order, with its
     * id as a string, and the response holds the collected data.
     */
    method Add(schemas: map<string, Setting>, fetched: Result<seq<UserGroup>, string>) returns (err: Option<string>)
      modifies this
      ensures settingsCategories == Grouped(schemas, CategoryOf)
      ensures fetched.Err? ==> err == Some(fetched.error) && usergroups == [] && response == old(response)
      ensures fetched.Ok? ==>
        && err.None?
        && |usergroups| == |fetched.value|
        && (forall i :: 0 <= i < |usergroups| ==> usergroups[i] == GroupOption(fetched.value[i].id.hex, fetched.value[i].shortName))
        && response == Some(Response(settingsCategories, usergroups))
    {
      var categories := GroupBy(schemas, CategoryOf);
      settingsCategories := categories;
      usergroups := [];
      if fetched.Err? {
        return Some(fetched.error);
      }
      var groups := fetched.value;
      for i := 0 to |groups|
        invariant settingsCategories == categories
        invariant |usergroups| == i
        invariant forall k :: 0 <= k < i ==> usergroups[k] == ToOption(groups[k])
      {
        usergroups := usergroups + [ToOption(groups[i])];
      }
      // _copy_data
      response := Some(Response(settingsCategories, usergroups));
      return None;
    }
  }
}
