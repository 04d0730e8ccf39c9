/** The list of a user's saved contacts: in selection mode a click reports a
    new selection with that contact flipped; otherwise a contact can be
    deleted, with the row marked while the delete is in flight. */
module ContactList {
  import opened Common

  class ContactListView {
    /** The `selectable` prop (default false). */
    const selectable: bool
    /** The caller's `selectedIds` prop (default empty); never changed here. */
    const selectedIds: set<string>
    /** Whether an `onSelectionChange` callback was given. */
    const hasCallback: bool
    /** The sets handed to `onSelectionChange`, oldest first. */
    var notified: seq<set<string>>
    var deletingId: Option<string>
    /** The `(owner, contact id)` delete requests sent, oldest first. */
    var deleteRequests: seq<(string, string)>

    constructor(selectable: bool, selectedIds: set<string>, hasCallback: bool)
      ensures this.selectable == selectable && this.selectedIds == selectedIds
      ensures this.hasCallback == hasCallback
      ensures notified == [] && deletingId.None? && deleteRequests == []
    {
      this.selectable := selectable;
      this.selectedIds := selectedIds;
      this.hasCallback := hasCallback;
      notified := [];
      deletingId := None;
      deleteRequests := [];
    }

    /** handleSelect: outside selection mode, or without a callback, nothing
        happens; otherwise the callback is called once with a copy of the
        selection in which only the clicked contact is flipped. */
    method HandleSelect(contactId: string)
      modifies this
      ensures !(selectable && hasCallback) ==> notified == old(notified)
      ensures selectable && hasCallback ==> notified == old(notified) + [Toggle(selectedIds, contactId)]
      ensures deletingId == old(deletingId) && deleteRequests == old(deleteRequests)
    {
      if !selectable || !hasCallback {
        return;
      }
      var newSelected := selectedIds;
      if contactId in newSelected {
        newSelected := newSelected - {contactId};
      } else {
        newSelected := newSelected + {contactId};
      }
      notified := notified + [newSelected];
    }

    /** handleDelete: without a signed-in user nothing happens; otherwise the
        row is marked, the delete is sent, and the mark is cleared whether
        the delete succeeds or fails, so its outcome is not a parameter. */
    method HandleDelete(user: Option<string>, contactId: string)
      modifies this
      ensures user.None? ==> deletingId == old(deletingId) && deleteRequests == old(deleteRequests)
      ensures user.Some? ==> deletingId.None? && deleteRequests == old(deleteRequests) + [(user.value, contactId)]
      ensures notified == old(notified)
    {
      if user.None? {
        return;
      }
      deletingId := Some(contactId);
      deleteRequests := deleteRequests + [(user.value, contactId)];
      deletingId := None;
    }
  }
}
