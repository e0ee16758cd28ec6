/**
 * Titles, links and texts of infractions on dialog messages
 * (internal/users/infraction/info.js): a filtered join from infractions to
 * messages, to the dialogs the current user owns, to the opponents, written
 * into the `info` map keyed by message id.
 *
 * The three collections are maps from id to record; the router's `linkTo`
 * is a function parameter, and so is the content-type id of dialog messages.
 */
module InfractionInfo {
  import opened Wrappers

  type Id = string

  datatype Infraction = Infraction(srcType: string, src: Id)

  datatype DlgMessage = DlgMessage(parent: Id, md: string)

  datatype Dialog = Dialog(user: Id, to: Id)

  datatype User = User(name: string)

  /** `{ title, url, text }`; a title that is `undefined` is `None`. */
  datatype Entry = Entry(title: Option<string>, url: string, text: string)

  /** The database the handler queries. */
  datatype Db = Db(messages: map<Id, DlgMessage>, dialogs: map<Id, Dialog>, users: map<Id, User>)

  /** The `src` of every infraction on a dialog message, in order. */
  function MessageIds(infractions: seq<Infraction>, dialogMessage: string): (r: seq<Id>)
    ensures forall id :: id in r <==> exists i :: 0 <= i < |infractions| && infractions[i] == Infraction(dialogMessage, id)
  {
    if infractions == [] then []
    else
      var rest := MessageIds(infractions[1..], dialogMessage);
      assert forall i :: 0 < i < |infractions| ==> infractions[i] == infractions[1..][i - 1];
      if infractions[0].srcType == dialogMessage then [infractions[0].src] + rest else rest
  }

  /** The messages fetched by id. */
  function FoundMessages(db: Db, ids: seq<Id>): map<Id, DlgMessage> {
    map m | m in db.messages && m in ids :: db.messages[m]
  }

  /** The fetched dialogs (the parents of the fetched messages) that the current user owns, by id. */
  function OwnedDialogs(db: Db, found: map<Id, DlgMessage>, userId: Id): map<Id, Dialog> {
    map d | d in db.dialogs && (exists m :: m in found && found[m].parent == d) && db.dialogs[d].user == userId
      :: db.dialogs[d]
  }

  /** The opponents of the owned dialogs, by id. */
  function Opponents(db: Db, owned: map<Id, Dialog>): map<Id, User> {
    map u | u in db.users && (exists d :: d in owned && owned[d].to == u) :: db.users[u]
  }

  /** The entries the handler writes, one per fetched message whose dialog was kept. */
  function NewEntries(db: Db, infractions: seq<Infraction>, dialogMessage: string, userId: Id,
                      linkTo: (Id, Id) -> string): map<Id, Entry> {
    var found := FoundMessages(db, MessageIds(infractions, dialogMessage));
    var owned := OwnedDialogs(db, found, userId);
    EntriesOf(found, owned, Opponents(db, owned), linkTo)
  }

  function EntriesOf(found: map<Id, DlgMessage>, owned: map<Id, Dialog>, opponents: map<Id, User>,
                     linkTo: (Id, Id) -> string): map<Id, Entry> {
    map m | m in found && found[m].parent in owned :: EntryFor(found, owned, opponents, linkTo, m)
  }

  /** The entry of one fetched message whose dialog was kept. */
  function EntryFor(found: map<Id, DlgMessage>, owned: map<Id, Dialog>, opponents: map<Id, User>,
                    linkTo: (Id, Id) -> string, m: Id): Entry
    requires m in found && found[m].parent in owned
  {
    var dialog := owned[found[m].parent];
    Entry(if dialog.to in opponents then Some(opponents[dialog.to].name) else None,
          linkTo(found[m].parent, m),
          found[m].md)
  }

  /**
   * An entry is written for a message exactly when an infraction on a dialog
   * message points at it, it is found in the messages, and its dialog is found
   * and is owned by the current user; its text is the message's markdown and
   * its title the opponent's name, or undefined when the opponent is not found.
   */
  lemma EntriesExactly(db: Db, infractions: seq<Infraction>, dialogMessage: string, userId: Id,
                       linkTo: (Id, Id) -> string, m: Id)
    ensures var entries := NewEntries(db, infractions, dialogMessage, userId, linkTo);
      m in entries <==>
        && (exists i :: 0 <= i < |infractions| && infractions[i] == Infraction(dialogMessage, m))
        && m in db.messages
        && db.messages[m].parent in db.dialogs
        && db.dialogs[db.messages[m].parent].user == userId
    ensures var entries := NewEntries(db, infractions, dialogMessage, userId, linkTo);
      m in entries ==>
        var dialog := db.dialogs[db.messages[m].parent];
        && entries[m].text == db.messages[m].md
        && entries[m].url == linkTo(db.messages[m].parent, m)
        && entries[m].title == (if dialog.to in db.users then Some(db.users[dialog.to].name) else None)
  {
    var found := FoundMessages(db, MessageIds(infractions, dialogMessage));
    var owned := OwnedDialogs(db, found, userId);
    if m in found && db.messages[m].parent in db.dialogs && db.dialogs[db.messages[m].parent].user == userId {
      var d := db.messages[m].parent;
      assert d in owned;
      var to := owned[d].to;
      if to in db.users {
        assert to in Opponents(db, owned);
      }
    }
  }

  /** The part of `entries` outside `pending`: what the loop has written so far. */
  function Written(entries: map<Id, Entry>, pending: set<Id>): map<Id, Entry> {
    map m | m in entries && m !in pending :: entries[m]
  }

  lemma WrittenStep(entries: map<Id, Entry>, pending: set<Id>, id: Id)
    requires id in pending
    ensures Written(entries, pending - {id}) ==
      if id in entries then Written(entries, pending)[id := entries[id]] else Written(entries, pending)
  {
  }

  lemma UnionUpdate(a: map<Id, Entry>, b: map<Id, Entry>, k: Id, v: Entry)
    ensures (a + b)[k := v] == a + b[k := v]
  {
  }

  /** The handler's environment: the infractions, the current user and the `info` map it fills. */
  class InfoEnv {
    const infractions: seq<Infraction>
    const userId: Id
    var info: map<Id, Entry>

    constructor (infractions: seq<Infraction>, userId: Id, info: map<Id, Entry>)
      ensures this.infractions == infractions && this.userId == userId && this.info == info
    {
      this.infractions := infractions;
      this.userId := userId;
      this.info := info;
    }

    /**
     * `dialogs_fetch_infraction_info`: the new entries are written over
     * `info`, and the keys of every other message are left as they were.
     */
    method FetchInfractionInfo(db: Db, dialogMessage: string, linkTo: (Id, Id) -> string)
      modifies this
      ensures info == old(info) + NewEntries(db, infractions, dialogMessage, userId, linkTo)
      ensures forall k :: k in old(info) && k !in NewEntries(db, infractions, dialogMessage, userId, linkTo) ==>
        k in info && info[k] == old(info)[k]
    {
      var messageIds := MessageIds(infractions, dialogMessage);
      var messages := FoundMessages(db, messageIds);
      if |messageIds| == 0 {
        assert messages == map[];
        return;
      }
      var dialogsById := OwnedDialogs(db, messages, userId);
      var usersById := Opponents(db, dialogsById);
      ghost var entries := EntriesOf(messages, dialogsById, usersById, linkTo);
      ghost var info0 := info;
      var pending := messages.Keys;
      while pending != {}
        invariant pending <= messages.Keys
        invariant info == info0 + Written(entries, pending)
        decreases pending
      {
        var id :| id in pending;
        WrittenStep(entries, pending, id);
        if messages[id].parent in dialogsById {
          assert id in entries;
          UnionUpdate(info0, Written(entries, pending), id, entries[id]);
          info := info[id := EntryFor(messages, dialogsById, usersById, linkTo, id)];
        } else {
          assert id !in entries;
        }
        pending := pending - {id};
      }
      assert Written(entries, pending) == entries;
    }
  }
}
