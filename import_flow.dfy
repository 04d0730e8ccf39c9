/** The contact import screen: the user picks contacts from the device or
    drops a file, previews what was found, and confirms the import, moving
    through the steps select, preview and success. */
module ImportFlow {
  import opened Common
  import ContactImport
  import ContactPicker
  import Firestore

  datatype Step = Select | Preview | Success

  const NoneSelectedMessage := "No contacts were selected"
  const PickFailedFallback := "Failed to access contacts"
  const NoneFoundMessage := "No valid contacts found in file"
  const ParseFailedFallback := "Failed to parse file"

  /** Where a pick or a parse leads: the preview of the contacts found, or an
      error message shown on the current step. */
  datatype Loaded = ShowPreview(contacts: seq<ContactImport.ParsedContact>) | ShowError(message: string)

  /** The decision handlePickerImport and handleFileSelect share: contacts go to
      the preview, no contacts give the handler's own message, and a failure
      shows the error's message or the handler's fallback. */
  function LoadOutcome(outcome: Result<seq<ContactImport.ParsedContact>, Thrown>,
                       emptyMessage: string, fallback: string): (r: Loaded)
    ensures r.ShowPreview? <==> outcome.Ok? && |outcome.value| > 0
    ensures r.ShowPreview? ==> r.contacts == outcome.value
    ensures outcome.Ok? && |outcome.value| == 0 ==> r == ShowError(emptyMessage)
    ensures outcome.Err? ==> r == ShowError(MessageOr(outcome.error, fallback))
  {
    match outcome
    case Ok(contacts) => if |contacts| > 0 then ShowPreview(contacts) else ShowError(emptyMessage)
    case Err(e) => ShowError(MessageOr(e, fallback))
  }

  /** A file import only ever previews contacts that validateContacts accepts,
      and a file of an unsupported type never reaches the preview. */
  lemma FilePreviewIsValid(file: ContactImport.ContactFile, parseCard: string -> ContactImport.CardParse)
    ensures var l := LoadOutcome(ContactImport.ParseContactFile(file, parseCard), NoneFoundMessage, ParseFailedFallback);
            l.ShowPreview? ==>
              ContactImport.KindOf(file.name) != ContactImport.UnsupportedFile
              && forall c :: c in l.contacts ==> ContactImport.Rejection(c).None?
  {
    var l := LoadOutcome(ContactImport.ParseContactFile(file, parseCard), NoneFoundMessage, ParseFailedFallback);
    if l.ShowPreview? {
      match ContactImport.KindOf(file.name)
      case CsvFile =>
        forall c | c in l.contacts ensures ContactImport.Rejection(c).None? {
          ContactImport.CsvContactsComplete(file.csv.rows, ContactImport.NoOptions, c);
        }
      case VCardFile =>
        forall c | c in l.contacts ensures ContactImport.Rejection(c).None? {
          ContactImport.VCardContactsComplete(ContactImport.CardTexts(file.text.text), parseCard, c);
        }
    }
  }

  /** A picker import only ever previews contacts that validateContacts accepts. */
  lemma PickerPreviewIsValid(b: ContactPicker.Browser)
    ensures var l := LoadOutcome(ContactPicker.PickOutcome(b), NoneSelectedMessage, PickFailedFallback);
            l.ShowPreview? ==> forall c :: c in l.contacts ==> ContactImport.Rejection(c).None?
  {
    var l := LoadOutcome(ContactPicker.PickOutcome(b), NoneSelectedMessage, PickFailedFallback);
    if l.ShowPreview? {
      ContactPicker.PickSuccessIsConversion(b);
      var selected := b.contacts.value.select(ContactPicker.PickCalls(b)[1].request).value;
      forall c | c in l.contacts ensures ContactImport.Rejection(c).None? {
        ContactPicker.PickedContactsComplete(selected, c);
      }
    }
  }

  /** `selectedContacts.map(c => ({ name, email, phone }))`: what is saved of
      each confirmed contact. */
  function ToSave(selected: seq<ContactImport.ParsedContact>): (r: seq<Firestore.ContactFields>)
    ensures |r| == |selected|
    ensures forall i :: 0 <= i < |r| ==>
              r[i].name == selected[i].name && r[i].email == selected[i].email && r[i].phone == selected[i].phone
  {
    seq(|selected|, i requires 0 <= i < |selected| =>
      Firestore.ContactFields(selected[i].name, selected[i].email, selected[i].phone))
  }

  class ImportScreen {
    var step: Step
    var parsedContacts: seq<ContactImport.ParsedContact>
    var importedCount: nat
    var loading: bool
    var error: Option<string>
    /** The signed-in user's contacts collection. */
    const store: Firestore.ContactStore

    constructor(store: Firestore.ContactStore)
      ensures this.store == store
      ensures step == Select && parsedContacts == [] && importedCount == 0
      ensures !loading && error.None?
    {
      this.store := store;
      step := Select;
      parsedContacts := [];
      importedCount := 0;
      loading := false;
      error := None;
    }

    /** Shows the outcome of a pick or a parse. */
    method Show(l: Loaded)
      modifies this
      ensures l.ShowPreview? ==> step == Preview && parsedContacts == l.contacts && error == old(error)
      ensures l.ShowError? ==> step == old(step) && parsedContacts == old(parsedContacts) && error == Some(l.message)
      ensures importedCount == old(importedCount) && loading == old(loading)
    {
      match l
      case ShowPreview(contacts) =>
        parsedContacts := contacts;
        step := Preview;
      case ShowError(message) =>
        error := Some(message);
    }

    /** handlePickerImport: asks the device's contact picker, then shows what
        it returned; loading ends on every path. */
    method HandlePickerImport(b: ContactPicker.Browser)
      modifies this
      ensures var l := LoadOutcome(ContactPicker.PickOutcome(b), NoneSelectedMessage, PickFailedFallback);
              (l.ShowPreview? ==> step == Preview && parsedContacts == l.contacts && error.None?)
              && (l.ShowError? ==> step == old(step) && parsedContacts == old(parsedContacts)
                                   && error == Some(l.message))
      ensures !loading && importedCount == old(importedCount)
    {
      loading := true;
      error := None;
      var contacts, calls := ContactPicker.PickContacts(b);
      Show(LoadOutcome(contacts, NoneSelectedMessage, PickFailedFallback));
      loading := false;
    }

    /** handleFileSelect: parses the chosen file, then shows what it held;
        loading ends on every path. */
    method HandleFileSelect(file: ContactImport.ContactFile, parseCard: string -> ContactImport.CardParse)
      modifies this
      ensures var l := LoadOutcome(ContactImport.ParseContactFile(file, parseCard), NoneFoundMessage, ParseFailedFallback);
              (l.ShowPreview? ==> step == Preview && parsedContacts == l.contacts && error.None?)
              && (l.ShowError? ==> step == old(step) && parsedContacts == old(parsedContacts)
                                   && error == Some(l.message))
      ensures !loading && importedCount == old(importedCount)
    {
      loading := true;
      error := None;
      var contacts := ContactImport.ParseContactFile(file, parseCard);
      Show(LoadOutcome(contacts, NoneFoundMessage, ParseFailedFallback));
      loading := false;
    }

    /** handleConfirmImport: without a signed-in user nothing happens; otherwise
        the name, email and phone of each selected contact are saved under the
        user, in order, and the screen shows how many were imported. */
    method HandleConfirmImport(user: Option<string>, selected: seq<ContactImport.ParsedContact>)
      requires store.Valid()
      modifies this, store
      ensures store.Valid()
      ensures user.None? ==> unchanged(this) && unchanged(store)
      ensures user.Some? ==>
                store.docs == old(store.docs) + Firestore.Stored(user.value, ToSave(selected), |old(store.docs)|)
                && importedCount == |selected| && step == Success
      ensures parsedContacts == old(parsedContacts) && error == old(error) && loading == old(loading)
    {
      if user.None? {
        return;
      }
      var contactsToSave := ToSave(selected);
      var ids := store.AddContacts(user.value, contactsToSave);
      importedCount := |selected|;
      step := Success;
    }

    /** handleReset: back to an empty selection screen. */
    method HandleReset()
      modifies this
      ensures step == Select && parsedContacts == [] && error.None?
      ensures importedCount == old(importedCount) && loading == old(loading)
    {
      parsedContacts := [];
      error := None;
      step := Select;
    }
  }
}
