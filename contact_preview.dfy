/** The preview of imported contacts: every contact starts selected, the user
    toggles contacts by position, and confirming hands on the selected ones in
    list order. */
module ContactPreview {
  import opened Common
  import ContactImport

  /** `new Set(contacts.map((_, i) => i))`: every position of the list. */
  function AllIndices(n: nat): (s: set<nat>)
    ensures forall i: nat :: i in s <==> i < n
    ensures |s| == n
  {
    if n == 0 then {} else AllIndices(n - 1) + {n - 1}
  }

  /** `contacts.filter((_, i) => selected.has(i))`. */
  function Selected(contacts: seq<ContactImport.ParsedContact>, selected: set<nat>): seq<ContactImport.ParsedContact>
  {
    if |contacts| == 0 then []
    else Selected(contacts[..|contacts| - 1], selected)
         + if |contacts| - 1 in selected then [contacts[|contacts| - 1]] else []
  }

  /** The selected positions that fall inside a list of length n. */
  function Within(selected: set<nat>, n: nat): set<nat>
  {
    set i | i in selected && i < n
  }

  /** The filter keeps one contact per selected position, so the "Import N"
      label, which counts the selection, counts what is imported. */
  lemma {:induction false} SelectedCount(contacts: seq<ContactImport.ParsedContact>, selected: set<nat>)
    ensures |Selected(contacts, selected)| == |Within(selected, |contacts|)|
  {
    var n := |contacts|;
    if n > 0 {
      SelectedCount(contacts[..n - 1], selected);
      if n - 1 in selected {
        assert Within(selected, n) == Within(selected, n - 1) + {n - 1};
      } else {
        assert Within(selected, n) == Within(selected, n - 1);
      }
    }
  }

  /** Every kept contact stands at a selected position, and every selected
      position inside the list contributes its contact. */
  lemma {:induction false} SelectedMembers(contacts: seq<ContactImport.ParsedContact>, selected: set<nat>)
    ensures forall c :: c in Selected(contacts, selected) ==>
              exists i: nat :: i < |contacts| && i in selected && contacts[i] == c
    ensures forall i: nat :: i < |contacts| && i in selected ==> contacts[i] in Selected(contacts, selected)
  {
    var n := |contacts|;
    if n > 0 {
      var init := contacts[..n - 1];
      SelectedMembers(init, selected);
      assert forall i :: 0 <= i < n - 1 ==> init[i] == contacts[i];
    }
  }

  /** Selecting everything keeps the whole list, in order. */
  lemma {:induction false} SelectedAll(contacts: seq<ContactImport.ParsedContact>)
    ensures Selected(contacts, AllIndices(|contacts|)) == contacts
  {
    SelectedPrefix(contacts, AllIndices(|contacts|));
  }

  lemma {:induction false} SelectedPrefix(contacts: seq<ContactImport.ParsedContact>, selected: set<nat>)
    requires forall i: nat :: i < |contacts| ==> i in selected
    ensures Selected(contacts, selected) == contacts
  {
    var n := |contacts|;
    if n > 0 {
      SelectedPrefix(contacts[..n - 1], selected);
      assert contacts[..n - 1] + [contacts[n - 1]] == contacts;
    }
  }

  /** Deselecting everything keeps nothing. */
  lemma {:induction false} SelectedNone(contacts: seq<ContactImport.ParsedContact>)
    ensures Selected(contacts, {}) == []
  {
    if |contacts| > 0 {
      SelectedNone(contacts[..|contacts| - 1]);
    }
  }

  /** `!contact.email && !contact.phone`: the contact is shown with a warning. */
  predicate HasIssue(c: ContactImport.ParsedContact)
  {
    !Truthy(c.email) && !Truthy(c.phone)
  }

  /** A flagged contact is one validateContacts rejects; a named one is rejected
      for exactly this reason. */
  lemma IssueIsRejection(c: ContactImport.ParsedContact)
    ensures HasIssue(c) ==> ContactImport.Rejection(c).Some?
    ensures c.name != "" ==> (HasIssue(c) <==> ContactImport.Rejection(c) == Some(ContactImport.NoEmailOrPhone))
  {
  }

  /** The Import button is disabled while loading or with nothing selected. */
  predicate ConfirmDisabled(loading: bool, selected: set<nat>)
  {
    loading || |selected| == 0
  }

  /** As long as the selection stays inside the list, the button's condition
      and handleConfirm's own guard agree: an enabled button always confirms
      a non-empty list. */
  lemma EnabledConfirmsSomething(contacts: seq<ContactImport.ParsedContact>, selected: set<nat>)
    requires forall i :: i in selected ==> i < |contacts|
    ensures |Selected(contacts, selected)| == 0 <==> |selected| == 0
  {
    SelectedCount(contacts, selected);
    assert Within(selected, |contacts|) == selected;
  }

  class Preview {
    const contacts: seq<ContactImport.ParsedContact>
    var selectedIds: set<nat>
    var loading: bool
    /** The lists handed to `onConfirm`, oldest first. */
    var confirmed: seq<seq<ContactImport.ParsedContact>>

    /** The selection only ever holds positions of the list. */
    predicate Valid()
      reads this
    {
      forall i :: i in selectedIds ==> i < |contacts|
    }

    constructor(contacts: seq<ContactImport.ParsedContact>)
      ensures this.contacts == contacts && selectedIds == AllIndices(|contacts|)
      ensures !loading && confirmed == [] && Valid()
    {
      this.contacts := contacts;
      selectedIds := AllIndices(|contacts|);
      loading := false;
      confirmed := [];
    }

    /** toggleContact: flips the membership of one position. */
    method ToggleContact(index: nat)
      requires Valid() && index < |contacts|
      modifies this
      ensures Valid()
      ensures selectedIds == Toggle(old(selectedIds), index)
      ensures loading == old(loading) && confirmed == old(confirmed)
    {
      var newSet := selectedIds;
      if index in newSet {
        newSet := newSet - {index};
      } else {
        newSet := newSet + {index};
      }
      selectedIds := newSet;
    }

    method SelectAll()
      modifies this
      ensures Valid() && selectedIds == AllIndices(|contacts|)
      ensures loading == old(loading) && confirmed == old(confirmed)
    {
      selectedIds := AllIndices(|contacts|);
    }

    method DeselectAll()
      modifies this
      ensures Valid() && selectedIds == {}
      ensures loading == old(loading) && confirmed == old(confirmed)
    {
      selectedIds := {};
    }

    /** handleConfirm: hands the selected contacts, in list order, to
        `onConfirm`; with nothing selected it does nothing. Loading is cleared
        once the confirmation has settled. */
    method HandleConfirm()
      modifies this
      ensures selectedIds == old(selectedIds)
      ensures Selected(contacts, selectedIds) == [] ==> confirmed == old(confirmed) && loading == old(loading)
      ensures Selected(contacts, selectedIds) != [] ==>
                confirmed == old(confirmed) + [Selected(contacts, selectedIds)] && !loading
    {
      var selectedContacts := Selected(contacts, selectedIds);
      if |selectedContacts| == 0 {
        return;
      }
      loading := true;
      confirmed := confirmed + [selectedContacts];
      loading := false;
    }
  }
}
