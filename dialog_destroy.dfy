/**
 * Removing a dialog message (server/users/dialog/message/destroy.js): the
 * message is soft-deleted after the membership, ownership and visibility
 * checks, and its dialog is soft-deleted too when no visible message is left.
 *
 * The two collections are maps from id to record; a record's `visible` flag is
 * the `exists` field of the source.
 */
module DialogMessageDestroy {
  import opened Wrappers

  type Id = string

  datatype DlgMessage = DlgMessage(parent: Id, visible: bool)

  datatype Dialog = Dialog(user: Id, visible: bool)

  datatype Status = NotFound

  /** The handler's response: the number of visible messages left in the dialog. */
  datatype Response = Response(messageCount: nat)

  /** The message to remove and the dialog it belongs to. */
  datatype Target = Target(messageId: Id, dialogId: Id)

  /**
   * `check_permissions` and `fetch_dialog`: a member, a visible message, and
   * its visible dialog owned by the current user; NOT_FOUND otherwise.
   */
  function FetchTarget(messages: map<Id, DlgMessage>, dialogs: map<Id, Dialog>,
                       isMember: bool, userId: Id, messageId: Id): (r: Result<Target, Status>)
    ensures r.Ok? <==>
      && isMember
      && messageId in messages && messages[messageId].visible
      && messages[messageId].parent in dialogs
      && dialogs[messages[messageId].parent].user == userId
      && dialogs[messages[messageId].parent].visible
    ensures r.Ok? ==> r.value == Target(messageId, messages[messageId].parent)
    ensures r.Err? ==> r.error == NotFound
  {
    if !isMember then Err(NotFound)
    else if !(messageId in messages && messages[messageId].visible) then Err(NotFound)
    else
      var parent := messages[messageId].parent;
      if !(parent in dialogs && dialogs[parent].user == userId && dialogs[parent].visible) then Err(NotFound)
      else Ok(Target(messageId, parent))
  }

  /** The ids of the visible messages of a dialog. */
  function VisibleIn(messages: map<Id, DlgMessage>, dialogId: Id): set<Id> {
    set m | m in messages && messages[m].parent == dialogId && messages[m].visible
  }

  /** The `count()` query: visible messages whose parent is the dialog. */
  function VisibleCount(messages: map<Id, DlgMessage>, dialogId: Id): nat {
    |VisibleIn(messages, dialogId)|
  }

  /** `messages` with one message's `exists` set to false. */
  function Hide(messages: map<Id, DlgMessage>, messageId: Id): map<Id, DlgMessage>
    requires messageId in messages
  {
    messages[messageId := messages[messageId].(visible := false)]
  }

  /** Hiding a visible message of the dialog leaves one visible message fewer. */
  lemma HideCountsOneLess(messages: map<Id, DlgMessage>, messageId: Id, dialogId: Id)
    requires messageId in messages && messages[messageId].visible && messages[messageId].parent == dialogId
    ensures VisibleCount(Hide(messages, messageId), dialogId) == VisibleCount(messages, dialogId) - 1
  {
    assert VisibleIn(Hide(messages, messageId), dialogId) == VisibleIn(messages, dialogId) - {messageId};
  }

  /** The count is 0 exactly when no message of the dialog is visible. */
  lemma CountZeroIffNoneVisible(messages: map<Id, DlgMessage>, dialogId: Id)
    ensures VisibleCount(messages, dialogId) == 0 <==>
      forall m :: m in messages && messages[m].parent == dialogId ==> !messages[m].visible
  {
    if exists m :: m in messages && messages[m].parent == dialogId && messages[m].visible {
      var m :| m in messages && messages[m].parent == dialogId && messages[m].visible;
      assert m in VisibleIn(messages, dialogId);
    } else {
      assert VisibleIn(messages, dialogId) == {};
    }
  }

  /** The dialog is removed together with its last visible message. */
  lemma LastMessageRemovesDialog(messages: map<Id, DlgMessage>, messageId: Id, dialogId: Id)
    requires messageId in messages && messages[messageId].visible && messages[messageId].parent == dialogId
    ensures VisibleCount(Hide(messages, messageId), dialogId) == 0 <==>
      forall m :: m in messages && m != messageId && messages[m].parent == dialogId ==> !messages[m].visible
  {
    var hidden := Hide(messages, messageId);
    CountZeroIffNoneVisible(hidden, dialogId);
    assert forall m :: m in messages && m != messageId ==> m in hidden && hidden[m] == messages[m];
  }

  class DialogStore {
    var messages: map<Id, DlgMessage>
    var dialogs: map<Id, Dialog>

    constructor (messages: map<Id, DlgMessage>, dialogs: map<Id, Dialog>)
      ensures this.messages == messages && this.dialogs == dialogs
    {
      this.messages := messages;
      this.dialogs := dialogs;
    }

    /**
     * The whole request: the checks, `remove_message` and `fill_pagination`.
     * A failed check changes nothing; otherwise the message is hidden, the
     * response carries the visible messages left, and the dialog is hidden
     * exactly when none is left.
     */
    method Destroy(isMember: bool, userId: Id, messageId: Id) returns (r: Result<Response, Status>)
      modifies this
      ensures var t := FetchTarget(old(messages), old(dialogs), isMember, userId, messageId);
        t.Err? ==> r == Err(NotFound) && messages == old(messages) && dialogs == old(dialogs)
      ensures var t := FetchTarget(old(messages), old(dialogs), isMember, userId, messageId);
        t.Ok? ==>
          && messages == Hide(old(messages), messageId)
          && r == Ok(Response(VisibleCount(messages, t.value.dialogId)))
          && dialogs == (if VisibleCount(messages, t.value.dialogId) == 0
                         then old(dialogs)[t.value.dialogId := old(dialogs)[t.value.dialogId].(visible := false)]
                         else old(dialogs))
    {
      // check_permissions
      if !isMember {
        return Err(NotFound);
      }
      // fetch_dialog
      if !(messageId in messages && messages[messageId].visible) {
        return Err(NotFound);
      }
      var dlgMessage := messages[messageId];
      if !(dlgMessage.parent in dialogs && dialogs[dlgMessage.parent].user == userId && dialogs[dlgMessage.parent].visible) {
        return Err(NotFound);
      }
      var dialogId := dlgMessage.parent;
      // remove_message
      messages := messages[messageId := messages[messageId].(visible := false)];
      var messageCount := |set m | m in messages && messages[m].parent == dialogId && messages[m].visible|;
      if messageCount == 0 {
        dialogs := dialogs[dialogId := dialogs[dialogId].(visible := false)];
      }
      // fill_pagination
      r := Ok(Response(messageCount));
    }
  }
}
