/** The adapter over the browser's Contact Picker API
    (services/contactPickerService.ts): capability detection, the property
    request, the conversion of picked entries, and the mapping of the
    browser's errors to the application's messages.

    The browser is a parameter: whether `navigator` has a `contacts` key and
    `window` a `ContactsManager`, and, when `navigator.contacts` is set, what its
    `getProperties` call settles to and what `select` settles to for a given
    request. */
module ContactPicker {
  import opened Common
  import opened Strings
  import ContactImport

  /** One entry the picker returns: each property is absent or a list of values. */
  datatype ContactInfo = ContactInfo(name: Option<seq<string>>, email: Option<seq<string>>,
                                     tel: Option<seq<string>>)

  /** The arguments of one `select(properties, { multiple })` call. */
  datatype SelectRequest = SelectRequest(properties: seq<string>, multiple: bool)

  /** `navigator.contacts`: what `getProperties()` settles to, and what
      `select` settles to for each request. */
  datatype Manager = Manager(getProperties: Result<seq<string>, Thrown>,
                             select: SelectRequest -> Result<seq<ContactInfo>, Thrown>)

  datatype Browser = Browser(contactsKeyInNavigator: bool, contactsManagerInWindow: bool,
                             contacts: Option<Manager>)

  /** A call the adapter makes on `navigator.contacts`, in the order made. */
  datatype Call = GetPropertiesCall | SelectCall(request: SelectRequest)

  // ================================================================ capability

  /** `isContactPickerSupported`. */
  predicate IsContactPickerSupported(b: Browser)
  {
    b.contactsKeyInNavigator && b.contactsManagerInWindow
  }

  /** `getSupportedProperties`: the manager's list, or nothing when there is no
      manager or its call rejects. */
  function GetSupportedProperties(b: Browser): (r: seq<string>)
    ensures b.contacts.None? ==> r == []
    ensures b.contacts.Some? && b.contacts.value.getProperties.Err? ==> r == []
    ensures b.contacts.Some? && b.contacts.value.getProperties.Ok? ==> r == b.contacts.value.getProperties.value
  {
    match b.contacts
    case None => []
    case Some(m) =>
      match m.getProperties
      case Ok(ps) => ps
      case Err(_) => []
  }

  datatype ImportMethod = PickerMethod | FileMethod

  /** `getBestImportMethod`. */
  function GetBestImportMethod(b: Browser): (m: ImportMethod)
    ensures m == PickerMethod <==> IsContactPickerSupported(b)
  {
    if IsContactPickerSupported(b) then PickerMethod else FileMethod
  }

  datatype MethodDescription = MethodDescription(kind: ImportMethod, title: string, description: string)

  /** `getImportMethodDescription`: the method with its title and explanation. */
  function GetImportMethodDescription(b: Browser): (d: MethodDescription)
    ensures d.kind == GetBestImportMethod(b)
    ensures d.kind == PickerMethod ==>
              d.title == "Sync from Phone" && d.description == "Select contacts directly from your phone"
    ensures d.kind == FileMethod ==>
              d.title == "Import from File"
              && d.description == "Upload a CSV or vCard file exported from your contacts app"
  {
    if GetBestImportMethod(b) == PickerMethod then
      MethodDescription(PickerMethod, "Sync from Phone", "Select contacts directly from your phone")
    else
      MethodDescription(FileMethod, "Import from File", "Upload a CSV or vCard file exported from your contacts app")
  }

  // ================================================================ the request

  /** The properties the adapter knows how to use, in the order it asks for them. */
  const Wanted: seq<string> := ["name", "email", "tel"]

  /** The properties requested for a supported list: the wanted ones that are
      supported, in the fixed order name, email, tel. */
  function RequestedProperties(supported: seq<string>): (r: seq<string>)
    ensures forall p :: p in r <==> p in Wanted && p in supported
    ensures |r| <= 3
    ensures forall i, j :: 0 <= i < j < |r| ==> Rank(r[i]) < Rank(r[j])
  {
    (if "name" in supported then ["name"] else [])
    + (if "email" in supported then ["email"] else [])
    + (if "tel" in supported then ["tel"] else [])
  }

  /** The position of a wanted property in the fixed order. */
  function Rank(p: string): nat
  {
    if p == "name" then 0 else if p == "email" then 1 else 2
  }

  /** Nothing is requested exactly when none of name, email, tel is supported. */
  lemma NothingRequestedIff(supported: seq<string>)
    ensures RequestedProperties(supported) == [] <==>
              ("name" !in supported && "email" !in supported && "tel" !in supported)
  {
    var r := RequestedProperties(supported);
    if "name" in supported { assert "name" in r; }
    if "email" in supported { assert "email" in r; }
    if "tel" in supported { assert "tel" in r; }
  }

  // ================================================================ conversion

  /** `xs?.[0]`. */
  function FirstOf(xs: Option<seq<string>>): (r: Option<string>)
    ensures r.Some? <==> xs.Some? && |xs.value| > 0
    ensures r.Some? ==> r.value == xs.value[0]
  {
    if xs.Some? && |xs.value| > 0 then Some(xs.value[0]) else None
  }

  /** The contact one picked entry yields, if any: only the first name, email
      and phone count, the phone normalised; a nameless entry or one without
      email and phone is dropped. */
  function PickedContact(info: ContactInfo): Option<ContactImport.ParsedContact>
  {
    var name := match FirstOf(info.name) case Some(n) => n case None => "";
    var email := FirstOf(info.email);
    var phone := ContactImport.NormalizePhone(FirstOf(info.tel));
    if name != "" && (Truthy(email) || Truthy(phone)) then Some(ContactImport.ParsedContact(name, email, phone))
    else None
  }

  function PickedContacts(selected: seq<ContactInfo>): seq<ContactImport.ParsedContact>
  {
    FilterMap(selected, PickedContact)
  }

  /** Every contact the picker path emits has a name and an email or phone,
      a normalised phone, and comes from the first values of some entry. */
  lemma PickedContactsComplete(selected: seq<ContactInfo>, c: ContactImport.ParsedContact)
    requires c in PickedContacts(selected)
    ensures c.name != "" && (Truthy(c.email) || Truthy(c.phone))
    ensures c.phone.Some? ==> ContactImport.IsNormalPhone(c.phone.value)
    ensures exists info :: info in selected && FirstOf(info.name) == Some(c.name)
              && c.email == FirstOf(info.email) && c.phone == ContactImport.NormalizePhone(FirstOf(info.tel))
  {
    FilterMapMember(selected, PickedContact, c);
  }

  /** Values after the first never matter. */
  lemma OnlyFirstValues(info: ContactInfo)
    ensures PickedContact(info) == PickedContact(ContactInfo(UpToFirst(info.name), UpToFirst(info.email), UpToFirst(info.tel)))
  {
  }

  /** The list cut down to its first value. */
  function UpToFirst(xs: Option<seq<string>>): (r: Option<seq<string>>)
    ensures r.Some? <==> xs.Some?
    ensures r.Some? ==> |r.value| <= 1 && (|r.value| == 0 <==> |xs.value| == 0) && r.value == xs.value[..|r.value|]
  {
    match xs
    case None => None
    case Some(vs) => Some(if |vs| == 0 then [] else vs[..1])
  }

  // ================================================================ errors

  const NotSupportedMessage := "Contact Picker API is not supported on this device/browser"
  const NoPropertiesMessage := "No contact properties are accessible"
  const PermissionDeniedMessage := "Permission denied. Please allow access to contacts."
  const AlreadyOpenMessage := "Another contact picker is already open."
  const PickFailedMessage := "Failed to pick contacts"

  /** The `catch` of `pickContacts`. */
  function MapPickerError(e: Thrown): (r: Thrown)
    ensures e.Error? && e.name == "SecurityError" ==> r == PlainError(PermissionDeniedMessage)
    ensures e.Error? && e.name == "InvalidStateError" ==> r == PlainError(AlreadyOpenMessage)
    ensures e.Error? && e.name != "SecurityError" && e.name != "InvalidStateError" ==> r == e
    ensures e.NonError? ==> r == PlainError(PickFailedMessage)
  {
    match e
    case Error(name, _) =>
      if name == "SecurityError" then PlainError(PermissionDeniedMessage)
      else if name == "InvalidStateError" then PlainError(AlreadyOpenMessage)
      else e
    case NonError => PlainError(PickFailedMessage)
  }

  /** The adapter's own "no properties" error passes through the `catch` unchanged. */
  lemma NoPropertiesErrorSurvives()
    ensures MapPickerError(PlainError(NoPropertiesMessage)) == PlainError(NoPropertiesMessage)
  {
  }

  /** Every error leaving `pickContacts` is an `Error` instance. */
  lemma MappedErrorIsError(e: Thrown)
    ensures MapPickerError(e).Error?
  {
  }

  // ================================================================ pickContacts

  /** What `pickContacts` settles to on a browser. */
  function PickOutcome(b: Browser): Result<seq<ContactImport.ParsedContact>, Thrown>
  {
    match b.contacts
    case None => Err(PlainError(NotSupportedMessage))
    case Some(m) =>
      match m.getProperties
      case Err(e) => Err(MapPickerError(e))
      case Ok(supported) =>
        var props := RequestedProperties(supported);
        if props == [] then Err(MapPickerError(PlainError(NoPropertiesMessage)))
        else
          match m.select(SelectRequest(props, true))
          case Err(e) => Err(MapPickerError(e))
          case Ok(selected) => Ok(PickedContacts(selected))
  }

  /** The calls `pickContacts` makes on the manager, in order. */
  function PickCalls(b: Browser): seq<Call>
  {
    match b.contacts
    case None => []
    case Some(m) =>
      match m.getProperties
      case Err(_) => [GetPropertiesCall]
      case Ok(supported) =>
        var props := RequestedProperties(supported);
        if props == [] then [GetPropertiesCall]
        else [GetPropertiesCall, SelectCall(SelectRequest(props, true))]
  }

  /** `pickContacts`: asks for the supported properties, requests the wanted
      ones, opens the picker once and converts the entries. */
  method PickContacts(b: Browser) returns (r: Result<seq<ContactImport.ParsedContact>, Thrown>, calls: seq<Call>)
    ensures r == PickOutcome(b)
    ensures calls == PickCalls(b)
  {
    calls := [];
    if b.contacts.None? {
      return Err(PlainError(NotSupportedMessage)), calls;
    }
    var m := b.contacts.value;
    calls := calls + [GetPropertiesCall];
    if m.getProperties.Err? {
      return Err(MapPickerError(m.getProperties.error)), calls;
    }
    var supported := m.getProperties.value;
    var properties: seq<string> := [];
    if "name" in supported { properties := properties + ["name"]; }
    if "email" in supported { properties := properties + ["email"]; }
    if "tel" in supported { properties := properties + ["tel"]; }
    assert properties == RequestedProperties(supported);
    if |properties| == 0 {
      return Err(MapPickerError(PlainError(NoPropertiesMessage))), calls;
    }
    var request := SelectRequest(properties, true);
    calls := calls + [SelectCall(request)];
    var selection := m.select(request);
    if selection.Err? {
      return Err(MapPickerError(selection.error)), calls;
    }
    var contacts := ConvertSelected(selection.value);
    return Ok(contacts), calls;
  }

  /** The conversion loop of `pickContacts`: each picked entry, in order, adds
      its contact when it has a name and an email or phone. */
  method ConvertSelected(selected: seq<ContactInfo>) returns (contacts: seq<ContactImport.ParsedContact>)
    ensures contacts == PickedContacts(selected)
  {
    contacts := [];
    for i := 0 to |selected|
      invariant contacts == PickedContacts(selected[..i])
    {
      FilterMapSnoc(selected, i, PickedContact);
      var contact := selected[i];
      var name := "";
      if contact.name.Some? && |contact.name.value| > 0 { name := contact.name.value[0]; }
      var email := FirstOf(contact.email);
      var phone := ContactImport.NormalizePhone(FirstOf(contact.tel));
      if name != "" && (Truthy(email) || Truthy(phone)) {
        contacts := contacts + [ContactImport.ParsedContact(name, email, phone)];
      }
    }
    assert selected[..|selected|] == selected;
  }

  /** Without `navigator.contacts` the adapter fails before calling anything. */
  lemma UnsupportedFailsFirst(b: Browser)
    requires b.contacts.None?
    ensures PickOutcome(b) == Err(PlainError(NotSupportedMessage)) && PickCalls(b) == []
  {
  }

  /** The picker is opened at most once, always with `multiple: true` and the
      requested properties, and only after the properties were asked for. */
  lemma SelectOnceWithMultiple(b: Browser)
    ensures |PickCalls(b)| <= 2
    ensures forall k :: 0 <= k < |PickCalls(b)| && PickCalls(b)[k].SelectCall? ==>
              k == 1 && PickCalls(b)[0] == GetPropertiesCall
              && PickCalls(b)[k].request.multiple
              && PickCalls(b)[k].request.properties == RequestedProperties(GetSupportedProperties(b))
              && PickCalls(b)[k].request.properties != []
  {
  }

  /** A successful pick is exactly the conversion of what the picker returned,
      so it meets the same completeness guarantee as the file paths. */
  lemma PickSuccessIsConversion(b: Browser)
    requires PickOutcome(b).Ok?
    ensures b.contacts.Some? && |PickCalls(b)| == 2 && PickCalls(b)[1].SelectCall?
    ensures b.contacts.value.select(PickCalls(b)[1].request).Ok?
    ensures PickOutcome(b).value == PickedContacts(b.contacts.value.select(PickCalls(b)[1].request).value)
  {
  }
}
