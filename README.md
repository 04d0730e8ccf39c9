# Trip Mode contact import and page logic, modelled in Dafny

This project models the core of Trip Mode, a travel app in which a signed-in
user imports their contacts and invites friends to meet up during a trip.

**Contact import pipeline.**
- The phone normaliser.
- The CSV column heuristic and row filter.
- vCard splitting and per-card extraction.
- The file-type dispatcher.
- The contact validator.
- The Contact Picker adapter.

**Screens and services around it.**
- The file drop zone's validation.
- The import screen's select → preview → success steps.
- The preview's and the list's selection sets.
- The manual add-contact form.
- The batch save and the email-then-phone user matching.
- The trip page's four-step activity wizard.
- The invitation response page.
- The route guard with its one-shot profile-setup bypass.
- The authentication context.
- The profile-setup page.
- The phone and email sign-in forms.

**How the model is built.**
- Unseen libraries are inputs to the model: the CSV tokenizer, the vCard parser, the file reader, Firebase Auth and Firestore writes. Asynchronous outcomes are parameters: a `Result`, or an `Option<Thrown>` failure.
- Pure logic is written as functions with lemmas.
- Components and services that update state are classes. Their methods state the whole new state, including append-only logs of the external calls made (documents written, invitations opened, callbacks fired).

One module per source file:

| file | module |
|---|---|
| `contact_import.dfy` | `ContactImport` |
| `contact_picker.dfy` | `ContactPicker` |
| `file_drop_zone.dfy` | `FileDropZone` |
| `import_flow.dfy` | `ImportFlow` |
| `contact_preview.dfy` | `ContactPreview` |
| `contact_list.dfy` | `ContactList` |
| `add_contact.dfy` | `AddContact` |
| `firestore.dfy` | `Firestore` |
| `trip_detail.dfy` | `TripDetail` |
| `response_page.dfy` | `ResponsePage` |
| `protected_route.dfy` | `ProtectedRoute` |
| `session_storage.dfy` | `SessionStorage` |
| `auth_context.dfy` | `AuthContext` |
| `profile_setup.dfy` | `ProfileSetup` |
| `phone_auth.dfy` | `PhoneAuth` |
| `email_auth.dfy` | `EmailAuth` |
| `auth_messages.dfy` | `AuthMessages`, the shared error-message chain |

Shared definitions:
- `Common`: `Option`, `Result`, thrown values, JavaScript truthiness, an order-preserving filter-map.
- `Strings`: the JavaScript string built-ins used (`trim`, `toLowerCase` on ASCII, `includes`, `split`, `\D` removal, `startsWith`/`endsWith`).
- `Types`: the records of `types.ts`.

## Model

| member | source | states |
|---|---|---|
| ContactImport.NormalizePhone | services/contactImportService.ts:156-166 | absent exactly for a missing input or one without digits; otherwise digits only, behind a `+` exactly when the input starts with `+`, with the input's digits |
| ContactImport.NormalPhoneIsFixed | services/contactImportService.ts:156-166 | a phone already in normal form is returned unchanged |
| ContactImport.NormalizePhoneIdempotent | services/contactImportService.ts:156-166 | normalising twice is normalising once |
| ContactImport.FirstMatchIndex | services/contactImportService.ts:61-64 | the first header, in header order, whose lower-case form contains the alias; absent iff no header contains it |
| ContactImport.ColumnFor | services/contactImportService.ts:60-70 | aliases are tried in list order; the result is the original-case header found for the first alias that matches any header, and null iff none does |
| ContactImport.FindColumn | services/contactImportService.ts:60-70 | the loop with early return computes ColumnFor |
| ContactImport.FirstMatchIndexUnique | services/contactImportService.ts:64 | a matching header with no match before it is the one chosen |
| ContactImport.DropUnmatchedAlias | services/contactImportService.ts:63-67 | an alias no header matches can be removed without changing the result |
| ContactImport.SubsumedUnmatched | services/contactImportService.ts:64 | if an alias matches no header, no alias containing it does either |
| ContactImport.DropSubsumedAlias | services/contactImportService.ts:63-67 | a later alias containing an earlier one never changes the result |
| ContactImport.AliasInAlias | services/contactImportService.ts:64 | a lower-case alias occurring in another stays contained after lower-casing |
| ContactImport.FirstAliasDecides | services/contactImportService.ts:63-67 | when every later alias contains the first, the first alone decides |
| ContactImport.NameAliasesReduce | services/contactImportService.ts:33 | "full name", "fullname" and "display name" never decide the name column: "name" alone gives the same result |
| ContactImport.EmailAliasesReduce | services/contactImportService.ts:34 | "email address" never decides the email column |
| ContactImport.PhoneAliasesReduce | services/contactImportService.ts:35 | "telephone" and "phone number" never decide the phone column |
| ContactImport.TelephoneNeverDecides | services/contactImportService.ts:35 | "telephone" can be dropped from the phone aliases |
| ContactImport.PhoneNumberNeverDecides | services/contactImportService.ts:35 | "phone number" can be dropped from the phone aliases |
| ContactImport.ParseCsv | services/contactImportService.ts:20-57 | a parser error rejects with "CSV parsing error: " and the message; otherwise the loop returns the filtered rows' contacts |
| ContactImport.CsvContactsComplete | services/contactImportService.ts:37-47 | every emitted contact has a non-empty trimmed name, an email or a phone, and a normal-form phone |
| ContactImport.CsvKeepsRowOrder | services/contactImportService.ts:31-48 | output k comes from an accepted row, accepted rows appear in increasing row order, and every accepted row is emitted |
| ContactImport.ExplicitColumnsOverride | services/contactImportService.ts:33-39 | each column on its own: a truthy explicit name, email or phone column is the one used and its cell is read, otherwise the alias heuristic picks the column |
| ContactImport.ExplicitColumnsIgnoreHeaders | services/contactImportService.ts:33-39 | with all three columns given explicitly, a row's contact does not depend on its header list |
| ContactImport.ExampleColumns | services/contactImportService.ts:33-35 | the headers "Full Name", "Email Address", "Mobile" are recognised as name, email and phone |
| ContactImport.ExamplePhone | services/contactImportService.ts:156-166 | "555-000-1111" normalises to "5550001111" |
| ContactImport.SplitCardsConcat | services/contactImportService.ts:83 | splitting before each marker loses and adds nothing: the pieces concatenate back to the content |
| ContactImport.SplitCardsHeads | services/contactImportService.ts:83 | every piece after the first starts with a case-insensitive `BEGIN:VCARD` |
| ContactImport.SplitCardsNoInterior | services/contactImportService.ts:83 | no piece holds a marker anywhere but at its start |
| ContactImport.ParseVCard | services/contactImportService.ts:73-140 | a read failure rejects with "Failed to read file"; otherwise the loop returns the contacts of the cards, in order |
| ContactImport.MalformedCardSkippedAlone | services/contactImportService.ts:85-125 | a card that fails to parse is dropped without affecting the cards before or after it |
| ContactImport.FirstValuesOnly | services/contactImportService.ts:91-117 | only the first FN, N, EMAIL and TEL values are used |
| ContactImport.First | services/contactImportService.ts:91-117 | at most one value, the first, and one exactly when there is any |
| ContactImport.NameFromNOrder | services/contactImportService.ts:95-101 | without FN, the N value `family;given;...` gives "given family" |
| ContactImport.VCardContactsComplete | services/contactImportService.ts:119-121 | every emitted card contact has a name, an email or a phone, and a normal-form phone |
| ContactImport.KindOf | services/contactImportService.ts:144-149 | a lower-cased name ending `.csv` is CSV, otherwise `.vcf` or `.vcard` is vCard, anything else is unsupported |
| ContactImport.ParseContactFile | services/contactImportService.ts:143-153 | dispatches CSV names to the CSV parser and vCard names to the vCard parser, and rejects any other name with "Unsupported file type..." |
| ContactImport.UnsupportedIgnoresContent | services/contactImportService.ts:150-152 | an unsupported name is rejected whatever the file holds, without reading it |
| ContactImport.TxtIsUnsupported | services/contactImportService.ts:146-151 | "contacts.txt" is unsupported |
| ContactImport.PrepareContactsForSave | services/contactImportService.ts:169-179 | one record per contact, in order, carrying the owner id and the contact's fields unchanged |
| ContactImport.ValidateContacts | services/contactImportService.ts:182-200 | the loop's valid and invalid lists are the order-preserving filters by Accept and Reject |
| ContactImport.RejectedContacts | services/contactImportService.ts:184 | the contacts of the invalid entries, in order |
| ContactImport.ValidationPartitions | services/contactImportService.ts:189-197 | every contact lands in exactly one list: the sizes add up and the two lists together are a permutation of the input |
| ContactImport.AllAccepted | services/contactImportService.ts:189-197 | a list every contact of which has no rejection validates to itself, with nothing invalid |
| ContactImport.ValidationExample | services/contactImportService.ts:190-196 | "Missing name" is checked before "No email or phone" |
| ContactImport.CsvOutputIsValid | services/contactImportService.ts:42-47 | the CSV parser's output all passes validation |
| ContactImport.VCardOutputIsValid | services/contactImportService.ts:119-121 | the vCard parser's output all passes validation |
| ContactPicker.GetSupportedProperties | services/contactPickerService.ts:40-50 | empty without the API or when the lookup throws, else the properties reported |
| ContactPicker.GetBestImportMethod | services/contactPickerService.ts:118-127 | picker exactly when the picker is supported |
| ContactPicker.GetImportMethodDescription | services/contactPickerService.ts:130-150 | the description's method is the best method, with that method's title and text |
| ContactPicker.RequestedProperties | services/contactPickerService.ts:63-66 | exactly the supported ones among name, email, tel, in that order |
| ContactPicker.NothingRequestedIff | services/contactPickerService.ts:63-70 | nothing is requested exactly when none of name, email, tel is supported |
| ContactPicker.FirstOf | services/contactPickerService.ts:81-83 | index 0 of a property list, absent when the list is missing or empty |
| ContactPicker.UpToFirst | services/contactPickerService.ts:81-83 | a missing list stays missing; otherwise only its first value is kept, and none iff it was empty |
| ContactPicker.PickedContactsComplete | services/contactPickerService.ts:80-88 | every kept contact has a name, an email or a phone, and a normal-form phone, all drawn from the first values of one picked entry |
| ContactPicker.OnlyFirstValues | services/contactPickerService.ts:81-83 | values after the first never matter |
| ContactPicker.MapPickerError | services/contactPickerService.ts:91-102 | SecurityError gives the permission message, InvalidStateError gives "Another contact picker is already open.", other Errors pass unchanged, non-Errors give "Failed to pick contacts" |
| ContactPicker.NoPropertiesErrorSurvives | services/contactPickerService.ts:68-70 | the "No contact properties are accessible" error reaches the caller unchanged |
| ContactPicker.MappedErrorIsError | services/contactPickerService.ts:91-102 | whatever was thrown, the caller gets an Error |
| ContactPicker.PickContacts | services/contactPickerService.ts:53-103 | the method's result and the calls it makes are those of the specification functions |
| ContactPicker.UnsupportedFailsFirst | services/contactPickerService.ts:54-56 | without the API it fails with "Contact Picker API is not supported..." before any call |
| ContactPicker.SelectOnceWithMultiple | services/contactPickerService.ts:60-75 | the chooser is opened at most once, after the property lookup, with multiple set and the non-empty requested properties |
| ContactPicker.PickSuccessIsConversion | services/contactPickerService.ts:73-90 | a successful pick returns the conversion of what the chooser returned |
| ContactPicker.ConvertSelected | services/contactPickerService.ts:78-88 | the loop keeps, in order, exactly the contacts PickedContact yields for the picked entries |
| FileDropZone.AcceptedExtensionsNormal | components/contacts/FileDropZone.tsx:22 | the accepted extensions are trimmed, lower-case and comma-free |
| FileDropZone.DefaultAcceptParts | components/contacts/FileDropZone.tsx:12-22 | the default accept prop splits into ".csv", ".vcf", ".vcard" |
| FileDropZone.AcceptedExtensionsOfNormal | components/contacts/FileDropZone.tsx:22 | entries written without spaces or capitals are kept as written |
| FileDropZone.DefaultAcceptedExtensions | components/contacts/FileDropZone.tsx:12-22 | the default accepted extensions are exactly ".csv", ".vcf", ".vcard" |
| FileDropZone.Extension | components/contacts/FileDropZone.tsx:23 | corrected extension: absent exactly for a name without a dot |
| FileDropZone.ExtensionSpec | components/contacts/FileDropZone.tsx:23 | the extension is a dot and the lower-cased text after the last dot |
| FileDropZone.ExtensionOfEnding | components/contacts/FileDropZone.tsx:23 | a name whose lower-case form ends in "." and a dotless t has extension "." + t |
| FileDropZone.EndsWithExtension | components/contacts/FileDropZone.tsx:23 | the lower-cased name ends with its extension |
| FileDropZone.RoundedMegabytes | components/contacts/FileDropZone.tsx:32 | the limit in megabytes rounded to the nearest whole number |
| FileDropZone.Check | components/contacts/FileDropZone.tsx:18-37 | corrected check, with dotless names refused: passes iff the type is accepted and the size is at most the limit; a wrong type gives "Invalid file type. Please use <accept>" before size is considered; a large file gives the size message |
| FileDropZone.CheckAsWritten | components/contacts/FileDropZone.tsx:18-37 | as written: passes iff `"." + last dot-part` is accepted and the size is within the limit; a wrong type gives the type message before size is considered, a large file the size message |
| FileDropZone.CheckAgreesOnDottedNames | components/contacts/FileDropZone.tsx:23 | the correction changes nothing for names with a dot |
| FileDropZone.DotlessExtensionAsWritten | components/contacts/FileDropZone.tsx:23 | as written, the name "csv" has the extension ".csv" |
| FileDropZone.DotlessNameUnsupported | services/contactImportService.ts:144-151 | the parser dispatcher finds the name "csv" unsupported |
| FileDropZone.SizeLimitInclusive | components/contacts/FileDropZone.tsx:31 | a file of exactly the limit passes and one byte more is refused |
| FileDropZone.DefaultSizeMessage | components/contacts/FileDropZone.tsx:32 | the default limit's message is "File too large. Maximum size is 5MB" |
| FileDropZone.RoutedByEnding | components/contacts/FileDropZone.tsx:23 | a name ending in a contact-file extension is routed to a parser |
| FileDropZone.AcceptedIsRouted | components/contacts/FileDropZone.tsx:22-25 | with an accept list of contact-file extensions, an accepted type is routed to a parser |
| FileDropZone.RoutedIsAccepted | components/contacts/FileDropZone.tsx:22-25 | with the default list, every routed name is accepted |
| FileDropZone.ValidatedIffRouted | components/contacts/FileDropZone.tsx:22-25 | with the default accept prop, a file passes the corrected check iff it is routed to a parser and within the size limit |
| FileDropZone.DotlessNamePassesAsWritten | components/contacts/FileDropZone.tsx:23-25 | as written, a file named "csv" passes validation, is unsupported by the parser, and is refused by the corrected check |
| FileDropZone.DropZone.ValidateFile | components/contacts/FileDropZone.tsx:18-37 | runs the check as written: the error becomes CheckAsWritten's message and the result says whether it passed |
| FileDropZone.DropZone.HandleFile | components/contacts/FileDropZone.tsx:39-43 | the file is handed on iff it passes the check as written |
| FileDropZone.DropZone.HandleDragEnter | components/contacts/FileDropZone.tsx:45-49 | dragging starts; nothing else changes |
| FileDropZone.DropZone.HandleDragLeave | components/contacts/FileDropZone.tsx:51-55 | dragging ends; nothing else changes |
| FileDropZone.DropZone.HandleDrop | components/contacts/FileDropZone.tsx:62-71 | dragging ends; only the first dropped file goes through the check as written and is handed on if it passes; an empty drop changes nothing else |
| FileDropZone.DropZone.HandleInputChange | components/contacts/FileDropZone.tsx:73-78 | only the first chosen file goes through the check as written and is handed on if it passes; no file changes nothing |
| ImportFlow.LoadOutcome | components/contacts/ContactImport.tsx:37-68 | a non-empty result goes to the preview with those contacts; an empty one gives the empty message; a thrown Error gives its message, anything else the fallback |
| ImportFlow.FilePreviewIsValid | components/contacts/ContactImport.tsx:57-60 | a file that reaches the preview was routed to a parser, and every previewed contact passes validation |
| ImportFlow.PickerPreviewIsValid | components/contacts/ContactImport.tsx:38-41 | every contact a pick previews passes validation |
| ImportFlow.ToSave | components/contacts/ContactImport.tsx:75-79 | one record per selected contact, in order, with its name, email and phone |
| ImportFlow.ImportScreen.Show | components/contacts/ContactImport.tsx:39-63 | a preview stores the contacts and moves to the preview step; an error keeps the step and the contacts |
| ImportFlow.ImportScreen.HandlePickerImport | components/contacts/ContactImport.tsx:33-50 | the load outcome of the pick is shown, the error is cleared first, and loading ends |
| ImportFlow.ImportScreen.HandleFileSelect | components/contacts/ContactImport.tsx:52-69 | the load outcome of the parse is shown, the error is cleared first, and loading ends |
| ImportFlow.ImportScreen.HandleConfirmImport | components/contacts/ContactImport.tsx:71-86 | without a user nothing changes; otherwise the selected contacts are saved in order under the user, the count is recorded, and the success step follows |
| ImportFlow.ImportScreen.HandleReset | components/contacts/ContactImport.tsx:88-92 | back to the select step with no contacts and no error |
| ContactPreview.AllIndices | components/contacts/ContactPreview.tsx:16-18 | the set of indices 0..n-1 |
| ContactPreview.SelectedCount | components/contacts/ContactPreview.tsx:42 | as many contacts are confirmed as there are selected indices in range |
| ContactPreview.SelectedMembers | components/contacts/ContactPreview.tsx:42 | exactly the contacts at selected indices are confirmed |
| ContactPreview.SelectedAll | components/contacts/ContactPreview.tsx:16-42 | with everything selected, the whole list is confirmed in its order |
| ContactPreview.SelectedNone | components/contacts/ContactPreview.tsx:37-42 | with nothing selected, nothing is confirmed |
| ContactPreview.IssueIsRejection | components/contacts/ContactPreview.tsx:81 | a flagged contact is one validation rejects; for a named contact, flagged iff "No email or phone" |
| ContactPreview.EnabledConfirmsSomething | components/contacts/ContactPreview.tsx:41-50 | the confirmed list is empty exactly when the selection is |
| ContactPreview.Preview.constructor | components/contacts/ContactPreview.tsx:16-19 | every contact starts selected |
| ContactPreview.Preview.ToggleContact | components/contacts/ContactPreview.tsx:21-31 | flips the membership of exactly that index |
| ContactPreview.Preview.SelectAll | components/contacts/ContactPreview.tsx:33-35 | every index is selected |
| ContactPreview.Preview.DeselectAll | components/contacts/ContactPreview.tsx:37-39 | nothing is selected |
| ContactPreview.Preview.HandleConfirm | components/contacts/ContactPreview.tsx:41-51 | nothing happens for an empty selection; otherwise the selected contacts are confirmed once, in list order, and loading ends |
| ContactList.ContactListView.HandleSelect | components/contacts/ContactList.tsx:39-49 | no effect unless selectable with a callback; then the callback is called once with a copy of the caller's set in which only the clicked id is flipped |
| ContactList.ContactListView.HandleDelete | components/contacts/ContactList.tsx:51-60 | no effect without a user; otherwise one delete is requested and the row mark is cleared whatever its outcome |
| AddContact.InputError | components/contacts/AddContact.tsx:22-30 | "Name is required" iff the name is blank; "Please enter an email or phone number" iff the name is not blank and both email and phone are; otherwise no error |
| AddContact.SavedContactIsValid | components/contacts/AddContact.tsx:36-40 | a contact that passes is saved trimmed, with blank fields left out and the phone not normalised, and passes the import validator |
| AddContact.AfterSubmit | components/contacts/AddContact.tsx:17-46 | nothing changes without a user; a check failure sets only the error; success is set exactly when a user submits valid input and the save succeeds |
| AddContact.AddAnotherAsWrittenStaysDisabled | components/contacts/AddContact.tsx:41-53 | as written, after a successful save and "Add another" the submit button stays disabled whatever is typed |
| AddContact.AddAnotherStartsAfresh | components/contacts/AddContact.tsx:48-53 | corrected, "Add another" after a successful save gives the initial form, and a non-blank name enables the button |
| AddContact.AddContactForm.HandleSubmit | components/contacts/AddContact.tsx:17-46 | the form follows AfterSubmit, and exactly one contact, trimmed and owned by the user, is stored when the submit succeeds |
| AddContact.AddContactForm.HandleAddAnother | components/contacts/AddContact.tsx:48-53 | as written: the fields and the success flag are cleared and `loading` is kept, so the button stays disabled after a successful save |
| Firestore.DocIdInjective | services/firestoreService.ts:121-125 | distinct documents get distinct ids |
| Firestore.Stored | services/firestoreService.ts:121-124 | one stored document per contact, in order, each with the owner id attached |
| Firestore.NumberedIdsDistinct | services/firestoreService.ts:121-125 | the ids in the store are pairwise distinct |
| Firestore.ContactStore.AddContact | services/firestoreService.ts:119-126 | stores the contact with the owner id under a new id and returns that id |
| Firestore.ContactStore.AddContacts | services/firestoreService.ts:129-139 | stores the contacts one after another, in order, and returns one id per contact, in order |
| Firestore.FirstUserId | services/firestoreService.ts:186-205 | the id of the first user whose field equals the value; absent iff none does |
| Firestore.MatchIsSharedDetail | services/firestoreService.ts:182-211 | a matched user shares the contact's email or phone |
| Firestore.EmailTakesPrecedence | services/firestoreService.ts:185-194 | an email match decides, whatever the phone |
| Firestore.PhoneWithoutEmailMatch | services/firestoreService.ts:197-206 | without an email match the phone is tried, and only when present |
| Firestore.MatchContactsWithUsers | services/firestoreService.ts:178-215 | one contact per input, in order, equal to the input except for its matched user id |
| TripDetail.TimeSlotsAreHourly | components/TripDetail.tsx:131 | the eleven whole hours 10:00 to 20:00, in order |
| TripDetail.WithActivity | components/TripDetail.tsx:110 | exactly one activity is added, at the end, and nothing else about the trip changes |
| TripDetail.SmsNumber | components/TripDetail.tsx:120 | the phone as stored, or "" |
| TripDetail.WhatsAppNumber | components/TripDetail.tsx:123 | the phone's digits only, or "" |
| TripDetail.NormalPhoneNumbers | components/TripDetail.tsx:120-123 | for an imported phone, WhatsApp gets it without its `+` and SMS gets it unchanged |
| TripDetail.TripPage.HandleStartActivity | components/TripDetail.tsx:70-76 | opens the wizard at step 1 with contact, time and venue cleared |
| TripDetail.TripPage.HandleContactSelect | components/TripDetail.tsx:78-81 | records the contact and moves to step 2 |
| TripDetail.TripPage.HandleTimeSelect | components/TripDetail.tsx:83-86 | records the time, moves to step 3 and starts loading venues |
| TripDetail.TripPage.VenuesArrived | components/TripDetail.tsx:87-89 | stores the suggestions and stops loading |
| TripDetail.TripPage.HandleVenueSelect | components/TripDetail.tsx:92-95 | records the venue and moves to step 4 |
| TripDetail.TripPage.SendInvite | components/TripDetail.tsx:97-128 | nothing unless contact, venue and time are set; otherwise one pending activity for that contact, time and venue is appended and written; on a successful write the invitation goes to the platform's number and the wizard closes, on a failed one no invitation is opened and the wizard stays open |
| ResponsePage.Remove | components/ResponsePage.tsx:49 | every occurrence of the id is removed and the others are kept with their counts |
| ResponsePage.RemoveAppend | components/ResponsePage.tsx:49 | removal keeps the order of the ids kept |
| ResponsePage.RemoveAbsent | components/ResponsePage.tsx:49 | filtering out an id that is not there changes nothing |
| ResponsePage.ToggleWindow | components/ResponsePage.tsx:47-51 | flips the id's membership, leaves the others', and appends an absent id at the end |
| ResponsePage.ToggleWindowTwice | components/ResponsePage.tsx:47-51 | toggling twice restores the selected set, and restores the list itself when the id was absent |
| ResponsePage.Dedupe | components/ResponsePage.tsx:137 | the same values, each once |
| ResponsePage.DedupePrefix | components/ResponsePage.tsx:137 | values are listed in order of first occurrence |
| ResponsePage.WindowsGroupedByDate | components/ResponsePage.tsx:137-143 | every window appears under its own date's heading; a group holds only that date's windows; every heading is some window's date |
| ResponsePage.NewResponse | components/ResponsePage.tsx:59-68 | confirmed, for this trip and name, with the selected windows, the venue only when one was chosen, and the note |
| ResponsePage.ResponseForm.Toggle | components/ResponsePage.tsx:47-51 | the selection becomes ToggleWindow of the old one |
| ResponsePage.ResponseForm.ChooseVenue | components/ResponsePage.tsx:170 | the clicked venue replaces any earlier preference |
| ResponsePage.ResponseForm.HandleSubmit | components/ResponsePage.tsx:53-74 | nothing without a name and a window; otherwise the response is stored once and the page is marked submitted |
| ProtectedRoute.Decide | components/ProtectedRoute.tsx:14-39 | spinner while loading; /auth from the current path without a user; setup from the current path iff setup is due and no flag is set; the flag is consumed iff setup is due and it is set; children otherwise |
| ProtectedRoute.SetupPageNeverRedirectsToItself | components/ProtectedRoute.tsx:27 | on /profile/setup there is never a redirect to setup and the flag is never consumed |
| ProtectedRoute.BypassIsOneShot | components/ProtectedRoute.tsx:27-36 | while setup is due, a set flag lets one render through and is removed, and the next render redirects to setup |
| ProtectedRoute.FlagKeptWhenSetupNotDue | components/ProtectedRoute.tsx:14-39 | a render for which setup is not due leaves the flag untouched |
| ProtectedRoute.Render | components/ProtectedRoute.tsx:10-40 | renders Decide's view and removes the flag exactly when Decide consumes it |
| SessionStorage.Get | components/ProtectedRoute.tsx:29 | `getItem`: the stored value, or null |
| SessionStorage.Storage.GetItem | components/ProtectedRoute.tsx:29 | reads the stored value, or null |
| SessionStorage.Storage.SetItem | components/auth/ProfileSetup.tsx:30 | stores the value under the key and leaves every other key |
| SessionStorage.Storage.RemoveItem | components/ProtectedRoute.tsx:31 | removes the key and leaves every other key |
| AuthContext.UseAuth | contexts/AuthContext.tsx:17-23 | the context when there is one, else an error "useAuth must be used within an AuthProvider" |
| AuthContext.NeedsSetupIffBlankName | contexts/AuthContext.tsx:80 | setup is needed iff there is a user and the profile is missing or its name is empty or white space only |
| AuthContext.InitialProfile | contexts/AuthContext.tsx:46-52 | id from the uid; name the display name or ""; email and phone only when the auth user has them |
| AuthContext.NewUserWithoutNameNeedsSetup | contexts/AuthContext.tsx:46-54 | a new user without a display name needs setup |
| AuthContext.Merge | contexts/AuthContext.tsx:70 | each field given in the update overrides, each other field is kept, and a null profile stays null |
| AuthContext.MergeIdempotent | contexts/AuthContext.tsx:70 | applying an update twice is applying it once |
| AuthContext.NamedProfileNeedsNoSetup | contexts/AuthContext.tsx:66-71 | an update with a non-blank name ends the need for setup |
| AuthContext.AuthState.OnAuthChange | contexts/AuthContext.tsx:35-61 | records the user; a signed-in user gets the stored profile, or a new initial one, which is written; signing out clears the profile; loading ends, except that a rejected lookup or profile write leaves the profile and loading as they were |
| AuthContext.AuthState.UpdateProfile | contexts/AuthContext.tsx:66-71 | no effect and nothing thrown without a user; otherwise the update is written, and it is merged into the profile only if the write succeeds; a rejected write leaves the profile and is passed on to the caller |
| AuthContext.AuthState.Logout | contexts/AuthContext.tsx:73-77 | after a successful sign-out, user and profile are null, so setup is not needed; a rejected sign-out leaves both and is passed on to the caller |
| ProfileSetup.InitialName | components/auth/ProfileSetup.tsx:10 | the field starts with the profile's name, or "" |
| ProfileSetup.ReturnPath | components/auth/ProfileSetup.tsx:14 | the saved origin's path, or "/" |
| ProfileSetup.AcceptedNameEndsSetup | components/auth/ProfileSetup.tsx:19-28 | a name the form accepts is saved trimmed and ends the need for setup |
| ProfileSetup.ReturnAfterSetupIsShown | components/auth/ProfileSetup.tsx:30-31 | after the flag is written the page returned to is shown, whether or not the new profile has reached the guard yet |
| ProfileSetup.SetupPage.HandleSubmit | components/auth/ProfileSetup.tsx:16-36 | a blank name gives "Please enter your name." and nothing else; otherwise the trimmed name goes through updateProfile; if that throws, its message or "Failed to save profile" is shown, loading ends, and no flag is written; otherwise the flag is written and the page navigates to the origin |
| PhoneAuth.FormatPhone | components/auth/PhoneAuthForm.tsx:40-42 | always starts with `+`; input starting with `+` is sent unchanged |
| PhoneAuth.FormattedPhoneIsNormal | components/auth/PhoneAuthForm.tsx:40-42 | other input becomes "+1" and its digits, in the importer's normal form |
| PhoneAuth.FormatPhoneIdempotent | components/auth/PhoneAuthForm.tsx:40-42 | formatting a formatted number changes nothing |
| PhoneAuth.CodeInput | components/auth/PhoneAuthForm.tsx:160-167 | the code field holds at most six digits, and six typed digits are kept as typed |
| PhoneAuth.PhoneForm.TypeCode | components/auth/PhoneAuthForm.tsx:165-167 | the field becomes CodeInput of what was typed |
| PhoneAuth.PhoneForm.HandleSendCode | components/auth/PhoneAuthForm.tsx:33-65 | the formatted number is sent, behind the one reCAPTCHA created on first use; success moves to the code step; failure shows the send chain's text; loading ends |
| PhoneAuth.PhoneForm.HandleVerifyCode | components/auth/PhoneAuthForm.tsx:67-90 | nothing without a sent code; otherwise the code is checked, success is reported once, failure shows the verify chain's text; loading ends |
| PhoneAuth.PhoneForm.TryAgain | components/auth/PhoneAuthForm.tsx:189-193 | back to the number with the error and the code cleared |
| PhoneAuth.PhoneForm.Back | components/auth/PhoneAuthForm.tsx:95 | from the code step back to the number, from the number step out of the form |
| AuthMessages.Friendly | components/auth/EmailAuthForm.tsx:33-45 | the first rule whose code the message contains decides the text; with no match the message is shown as it is |
| AuthMessages.FirstMatchWins | components/auth/PhoneAuthForm.tsx:55-61 | a matching rule with no match before it decides, whatever later rules say |
| EmailAuth.CredentialErrorsShareText | components/auth/EmailAuthForm.tsx:39-42 | user-not-found, wrong-password and invalid-credential all show "Invalid email or password." unless an earlier code matches |
| EmailAuth.UnknownErrorShownRaw | components/auth/EmailAuthForm.tsx:43-45 | a message with none of the codes is shown as it is |
| EmailAuth.EmailForm.HandleSubmit | components/auth/EmailAuthForm.tsx:18-49 | sign-up mode signs up, otherwise signs in; success is reported once; failure shows the chain's text, or "Authentication failed" for a non-Error; loading ends |
| EmailAuth.EmailForm.ToggleMode | components/auth/EmailAuthForm.tsx:138-141 | flips the mode and clears the error |

## Left out

- The CSV tokenizer (Papa, with the syntax of RFC 4180), vCard line parsing and unfolding (section 3.2 of RFC 6350) and FileReader are not modelled. They are unseen libraries, so their outputs are inputs here: rows with their header order and cells, a per-card parse result or failure, and a read result or failure.
- Papa's `error` callback is taken as a given error message.
- The order of `Object.keys` is taken as given. JavaScript's reordering of integer-like keys is not modelled.
- The vCard library's own `parse` failure of the whole text is not modelled. The outer "vCard parsing error" rejection needs a throw outside the per-card `try`, which only the unseen library can cause.
- Firestore is not modelled beyond contact adds and user matching. Trips, responses, deletes, subscriptions and queries are network I/O. Users are an in-memory sequence in document order.
- Firestore.ContactStore.AddContacts: write failures are not modelled; every add succeeds. Document ids are stand-in counters, not Firestore's random ids.
- ImportFlow.ImportScreen.HandleConfirmImport: a failing save is not modelled. In the source it rejects before the count and step change.
- TripDetail.TripPage.SendInvite: the message text, the origin URL, `window.open` and `encodeURIComponent` are left out. The invitation is recorded by platform and number. The random activity id is a parameter.
- ResponsePage.ResponseForm.HandleSubmit: a failing save is not modelled. The random id and the clock are parameters.
- `Math.random` ids, `Date`/`toISOString`/`toLocaleDateString` and `console.warn` are not modelled: randomness and clocks are parameters.
- Floating-point fields are dropped: trip coordinates and venue rating, which no modelled logic reads.
- `toLowerCase` is modelled on ASCII letters only. Unicode case mapping is outside the model.
- Rendering, CSS, icons, drag-over visuals and the `useCallback` closure capture are not modelled. Props are fixed for a component's life, and asynchronous interleaving is not modelled.
- The Gemini venue service, the trip form, the app's static route table and the display-only pages are outside the core.
- The thin Firebase Auth and Firestore wrappers in `services/authService.ts` are not modelled. Their outcomes are the `failure` parameters of the sign-in forms and of the context's listener, `updateProfile` and `logout`.
- PhoneAuth.PhoneForm.HandleSendCode: a failure thrown by the reCAPTCHA constructor itself is folded into the request's failure. Clearing the verifier on unmount is not modelled.
- ContactPreview.Preview.ToggleContact: it requires an index inside the list. The page only toggles indices of rendered rows.
- `isContactPickerSupported` is modelled on two browser flags: the `contacts` key in `navigator` and `ContactsManager` in `window`.

## Findings

| source | as written | input that shows it | evidently intended | confidence | as-written member | corrected member |
|---|---|---|---|---|---|---|
| components/contacts/FileDropZone.tsx:23 | a name without a dot has the whole name as its "extension" | a file named `csv` passes validation as `.csv`, then `parseContactFile` rejects it as unsupported | only text after a dot is an extension, so a dotless name is refused by the drop zone | not executed | FileDropZone.DotlessNamePassesAsWritten | FileDropZone.ValidatedIffRouted |
| components/contacts/AddContact.tsx:41-53 | a successful save leaves `loading` set, and "Add another" does not clear it | save a valid contact, press "Add another", type a new name: the submit button stays disabled | "Add another" starts a fresh form | not executed | AddContact.AddAnotherAsWrittenStaysDisabled | AddContact.AddAnotherStartsAfresh |

The component classes `FileDropZone.DropZone` and `AddContact.AddContactForm` follow the code as written. The corrected functions `FileDropZone.Check` and `AddContact.AddAnother` state the intended behaviour, and the lemmas named in the last column prove it.
