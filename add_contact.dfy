/** The form that adds one contact by hand: a name is required, then an email
    or a phone; the fields are saved trimmed, with blank ones left out. */
module AddContact {
  import opened Common
  import opened Strings
  import ContactImport
  import Firestore

  const NameRequired := "Name is required"
  const NeedEmailOrPhone := "Please enter an email or phone number"
  const AddFailedFallback := "Failed to add contact"

  /** handleSubmit's checks, in order: the name first, then the contact details. */
  function InputError(name: string, email: string, phone: string): (r: Option<string>)
    ensures r == Some(NameRequired) <==> IsBlank(name)
    ensures r == Some(NeedEmailOrPhone) <==> !IsBlank(name) && IsBlank(email) && IsBlank(phone)
    ensures r.None? <==> !IsBlank(name) && !(IsBlank(email) && IsBlank(phone))
  {
    if IsBlank(name) then Some(NameRequired)
    else if IsBlank(email) && IsBlank(phone) then Some(NeedEmailOrPhone)
    else None
  }

  /** What is saved: trimmed fields, a blank email or phone left out. */
  function ToSave(name: string, email: string, phone: string): Firestore.ContactFields
  {
    Firestore.ContactFields(Trim(name), NonEmpty(Trim(email)), NonEmpty(Trim(phone)))
  }

  /** A contact that passes the checks is saved as one the import validator
      accepts, with no surrounding white space, and with the phone as typed
      (trimmed, not normalised). */
  lemma SavedContactIsValid(name: string, email: string, phone: string)
    requires InputError(name, email, phone).None?
    ensures var c := ToSave(name, email, phone);
            ContactImport.Rejection(ContactImport.ParsedContact(c.name, c.email, c.phone)).None?
            && Trim(c.name) == c.name
            && (c.email.Some? ==> c.email.value == Trim(email) && Trim(c.email.value) == c.email.value)
            && (c.phone.Some? ==> c.phone.value == Trim(phone) && Trim(c.phone.value) == c.phone.value)
  {
    TrimTrim(name);
    TrimTrim(email);
    TrimTrim(phone);
  }

  /** The form's state. */
  datatype Form = Form(name: string, email: string, phone: string, loading: bool,
                       error: Option<string>, success: bool)

  const InitialForm := Form("", "", "", false, None, false)

  /** The submit button is disabled while saving or while the name is blank. */
  predicate SubmitDisabled(f: Form)
  {
    f.loading || IsBlank(f.name)
  }

  /** handleSubmit's effect on the form, given the signed-in user and how the
      save went (None when it succeeded). */
  function AfterSubmit(f: Form, user: Option<string>, failure: Option<Thrown>): (r: Form)
    ensures r.name == f.name && r.email == f.email && r.phone == f.phone
    ensures user.None? ==> r == f
    ensures user.Some? && InputError(f.name, f.email, f.phone).Some? ==>
              r == f.(error := InputError(f.name, f.email, f.phone))
    ensures r.success <==> f.success || (user.Some? && InputError(f.name, f.email, f.phone).None? && failure.None?)
  {
    if user.None? then f
    else match InputError(f.name, f.email, f.phone)
      case Some(message) => f.(error := Some(message))
      case None =>
        match failure
        case None => f.(loading := true, error := None, success := true)
        case Some(e) => f.(loading := false, error := Some(MessageOr(e, AddFailedFallback)))
  }

  /** handleAddAnother as written: clears the fields and the success flag but
      not `loading`, which a successful submit left set. */
  function AddAnotherAsWritten(f: Form): Form
  {
    f.(name := "", email := "", phone := "", success := false)
  }

  /** handleAddAnother, corrected: it also ends the loading state. */
  function AddAnother(f: Form): Form
  {
    f.(name := "", email := "", phone := "", success := false, loading := false)
  }

  /** As written, after a successful save and "Add another", the submit button
      stays disabled whatever the user types next. */
  lemma AddAnotherAsWrittenStaysDisabled(f: Form, uid: string, name: string, email: string, phone: string)
    requires InputError(f.name, f.email, f.phone).None?
    ensures var next := AddAnotherAsWritten(AfterSubmit(f, Some(uid), None));
            SubmitDisabled(next.(name := name, email := email, phone := phone))
  {
  }

  /** Corrected, "Add another" after a successful save is the fresh form, so a
      non-blank name enables the button again. */
  lemma AddAnotherStartsAfresh(f: Form, uid: string, name: string)
    requires InputError(f.name, f.email, f.phone).None?
    ensures AddAnother(AfterSubmit(f, Some(uid), None)) == InitialForm
    ensures !IsBlank(name) ==> !SubmitDisabled(InitialForm.(name := name))
  {
  }

  class AddContactForm {
    var name: string
    var email: string
    var phone: string
    var loading: bool
    var error: Option<string>
    var success: bool
    /** The signed-in user's contacts collection. */
    const store: Firestore.ContactStore

    function State(): Form
      reads this
    {
      Form(name, email, phone, loading, error, success)
    }

    constructor(store: Firestore.ContactStore)
      ensures State() == InitialForm && this.store == store
    {
      name, email, phone := "", "", "";
      loading, error, success := false, None, false;
      this.store := store;
    }

    /** handleSubmit: checks the input, then saves the trimmed contact under
        the user; a failed save shows its message and ends loading. */
    method HandleSubmit(user: Option<string>, failure: Option<Thrown>)
      requires store.Valid()
      modifies this, store
      ensures State() == AfterSubmit(old(State()), user, failure)
      ensures store.Valid()
      ensures user.Some? && InputError(old(name), old(email), old(phone)).None? && failure.None? ==>
                store.docs == old(store.docs)
                              + [Firestore.StoredContact(Firestore.DocId(|old(store.docs)|), user.value,
                                                         ToSave(old(name), old(email), old(phone)))]
      ensures !(user.Some? && InputError(old(name), old(email), old(phone)).None? && failure.None?) ==>
                unchanged(store)
    {
      if user.None? {
        return;
      }
      if IsBlank(name) {
        error := Some(NameRequired);
        return;
      }
      if IsBlank(email) && IsBlank(phone) {
        error := Some(NeedEmailOrPhone);
        return;
      }
      loading := true;
      error := None;
      if failure.None? {
        var id := store.AddContact(user.value, ToSave(name, email, phone));
        success := true;
      } else {
        error := Some(MessageOr(failure.value, AddFailedFallback));
        loading := false;
      }
    }

    /** handleAddAnother as written: clears the fields and the success flag,
        leaving `loading` as it was. */
    method HandleAddAnother()
      modifies this
      ensures State() == AddAnotherAsWritten(old(State()))
    {
      name, email, phone := "", "", "";
      success := false;
    }
  }
}
