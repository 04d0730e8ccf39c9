/** The trip page's activity wizard: choose a contact (step 2), a time
    (step 3, while venue suggestions load) and a venue (step 4), then send the
    invitation by SMS or WhatsApp, which appends a pending activity to the
    trip. */
module TripDetail {
  import opened Common
  import opened Strings
  import opened Types
  import ContactImport

  /** `${h}:00`. */
  function HourLabel(h: nat): string
  {
    NatString(h) + ":00"
  }

  /** The time slots offered in step 2. */
  const TimeSlots: seq<string> :=
    ["10:00", "11:00", "12:00", "13:00", "14:00", "15:00", "16:00", "17:00", "18:00", "19:00", "20:00"]

  lemma HourLabel10to14()
    ensures HourLabel(10) == "10:00" && HourLabel(11) == "11:00" && HourLabel(12) == "12:00"
    ensures HourLabel(13) == "13:00" && HourLabel(14) == "14:00"
  {
    assert NatString(10) == "10" && NatString(11) == "11" && NatString(12) == "12";
    assert NatString(13) == "13" && NatString(14) == "14";
  }

  lemma HourLabel15to20()
    ensures HourLabel(15) == "15:00" && HourLabel(16) == "16:00" && HourLabel(17) == "17:00"
    ensures HourLabel(18) == "18:00" && HourLabel(19) == "19:00" && HourLabel(20) == "20:00"
  {
    assert NatString(15) == "15" && NatString(16) == "16" && NatString(17) == "17";
    assert NatString(18) == "18" && NatString(19) == "19" && NatString(20) == "20";
  }

  /** The slots are the eleven whole hours from 10:00 to 20:00, in order. */
  lemma TimeSlotsAreHourly()
    ensures |TimeSlots| == 11
    ensures forall i :: 0 <= i < |TimeSlots| ==> TimeSlots[i] == HourLabel(10 + i)
  {
    HourLabel10to14();
    HourLabel15to20();
  }

  /** The activity an invitation creates; its id is drawn at random. */
  function NewActivity(id: string, trip: Trip, contact: Contact, time: string, venue: Venue): Activity
  {
    Activity(id, trip.id, contact.id, contact.name, time, venue, ActivityPending)
  }

  /** The trip after an invitation: one more activity, at the end. */
  function WithActivity(trip: Trip, a: Activity): (r: Trip)
    ensures |r.activities| == |trip.activities| + 1 && r.activities[|trip.activities|] == a
    ensures r.activities[..|trip.activities|] == trip.activities
    ensures r.(activities := trip.activities) == trip
  {
    trip.(activities := trip.activities + [a])
  }

  datatype Platform = Sms | WhatsApp

  /** The number an invitation is addressed to. */
  datatype Invite = Invite(platform: Platform, number: string)

  /** `contact.phone || ''`: the SMS number is the phone as stored. */
  function SmsNumber(phone: Option<string>): (r: string)
    ensures Truthy(phone) ==> r == phone.value
    ensures !Truthy(phone) ==> r == ""
  {
    if Truthy(phone) then phone.value else ""
  }

  /** `contact.phone?.replace(/\D/g, '') || ''`: the WhatsApp number is the
      phone's digits only. */
  function WhatsAppNumber(phone: Option<string>): (r: string)
    ensures AllDigits(r)
    ensures phone.Some? ==> r == Digits(phone.value)
    ensures phone.None? ==> r == ""
  {
    match phone
    case Some(p) => Digits(p)
    case None => ""
  }

  /** For a phone as the importer normalises it, the WhatsApp number is the
      phone without its leading `+`, and the SMS number the phone itself. */
  lemma NormalPhoneNumbers(p: string)
    requires ContactImport.IsNormalPhone(p)
    ensures WhatsAppNumber(Some(p)) == if StartsWith(p, "+") then p[1..] else p
    ensures SmsNumber(Some(p)) == p
  {
    if StartsWith(p, "+") {
      assert p == [p[0]] + p[1..];
      DigitsSkipNonDigit(p[0], p[1..]);
      DigitsOfDigits(p[1..]);
    } else {
      DigitsOfDigits(p);
    }
  }

  function InviteFor(platform: Platform, phone: Option<string>): Invite
  {
    match platform
    case Sms => Invite(Sms, SmsNumber(phone))
    case WhatsApp => Invite(WhatsApp, WhatsAppNumber(phone))
  }

  class TripPage {
    var trip: Trip
    var showActivityModal: bool
    var activityStep: nat
    var selectedContact: Option<Contact>
    var selectedTime: string
    var selectedVenue: Option<Venue>
    var suggestedVenues: seq<Venue>
    var loadingVenues: bool
    /** The `(trip id, activities)` updates written to the database, oldest first. */
    var saved: seq<(string, seq<Activity>)>
    /** The invitations sent, oldest first. */
    var invitations: seq<Invite>

    constructor(trip: Trip)
      ensures this.trip == trip && !showActivityModal && activityStep == 1
      ensures selectedContact.None? && selectedTime == "" && selectedVenue.None?
      ensures suggestedVenues == [] && !loadingVenues && saved == [] && invitations == []
    {
      this.trip := trip;
      showActivityModal := false;
      activityStep := 1;
      selectedContact := None;
      selectedTime := "";
      selectedVenue := None;
      suggestedVenues := [];
      loadingVenues := false;
      saved := [];
      invitations := [];
    }

    /** handleStartActivity: opens the wizard at step 1 with nothing chosen. */
    method HandleStartActivity()
      modifies this
      ensures showActivityModal && activityStep == 1
      ensures selectedContact.None? && selectedTime == "" && selectedVenue.None?
      ensures trip == old(trip) && suggestedVenues == old(suggestedVenues) && loadingVenues == old(loadingVenues)
      ensures saved == old(saved) && invitations == old(invitations)
    {
      showActivityModal := true;
      activityStep := 1;
      selectedContact := None;
      selectedTime := "";
      selectedVenue := None;
    }

    method HandleContactSelect(contact: Contact)
      modifies this
      ensures selectedContact == Some(contact) && activityStep == 2
      ensures showActivityModal == old(showActivityModal) && trip == old(trip)
      ensures selectedTime == old(selectedTime) && selectedVenue == old(selectedVenue)
      ensures suggestedVenues == old(suggestedVenues) && loadingVenues == old(loadingVenues)
      ensures saved == old(saved) && invitations == old(invitations)
    {
      selectedContact := Some(contact);
      activityStep := 2;
    }

    /** handleTimeSelect, up to its wait for venue suggestions. */
    method HandleTimeSelect(time: string)
      modifies this
      ensures selectedTime == time && activityStep == 3 && loadingVenues
      ensures showActivityModal == old(showActivityModal) && trip == old(trip)
      ensures selectedContact == old(selectedContact) && selectedVenue == old(selectedVenue)
      ensures suggestedVenues == old(suggestedVenues)
      ensures saved == old(saved) && invitations == old(invitations)
    {
      selectedTime := time;
      activityStep := 3;
      loadingVenues := true;
    }

    /** handleTimeSelect, once the suggestions have arrived. */
    method VenuesArrived(venues: seq<Venue>)
      modifies this
      ensures suggestedVenues == venues && !loadingVenues
      ensures showActivityModal == old(showActivityModal) && trip == old(trip) && activityStep == old(activityStep)
      ensures selectedContact == old(selectedContact) && selectedTime == old(selectedTime)
      ensures selectedVenue == old(selectedVenue)
      ensures saved == old(saved) && invitations == old(invitations)
    {
      suggestedVenues := venues;
      loadingVenues := false;
    }

    method HandleVenueSelect(venue: Venue)
      modifies this
      ensures selectedVenue == Some(venue) && activityStep == 4
      ensures showActivityModal == old(showActivityModal) && trip == old(trip)
      ensures selectedContact == old(selectedContact) && selectedTime == old(selectedTime)
      ensures suggestedVenues == old(suggestedVenues) && loadingVenues == old(loadingVenues)
      ensures saved == old(saved) && invitations == old(invitations)
    {
      selectedVenue := Some(venue);
      activityStep := 4;
    }

    /** sendInvite: unless a contact, a venue and a time are all chosen nothing
        happens; otherwise one pending activity is appended to the trip and its
        activities are written to the database. When the write succeeds one
        invitation is recorded for the chosen platform and number and the
        wizard closes; when it fails (`failure`) the activity stays in the
        page's trip, no invitation is opened and the wizard stays open. `id`
        stands for the random activity id. */
    method SendInvite(platform: Platform, id: string, failure: Option<Thrown>)
      modifies this
      ensures old(selectedContact.None? || selectedVenue.None? || selectedTime == "") ==>
                trip == old(trip) && showActivityModal == old(showActivityModal)
                && saved == old(saved) && invitations == old(invitations)
      ensures old(selectedContact.Some? && selectedVenue.Some? && selectedTime != "") ==>
                trip == WithActivity(old(trip), NewActivity(id, old(trip), old(selectedContact.value),
                                                            old(selectedTime), old(selectedVenue.value)))
                && saved == old(saved) + [(old(trip.id), trip.activities)]
      ensures old(selectedContact.Some? && selectedVenue.Some? && selectedTime != "") && failure.None? ==>
                invitations == old(invitations) + [InviteFor(platform, old(selectedContact.value.phone))]
                && !showActivityModal
      ensures failure.Some? ==> invitations == old(invitations) && showActivityModal == old(showActivityModal)
      ensures activityStep == old(activityStep) && selectedContact == old(selectedContact)
      ensures selectedTime == old(selectedTime) && selectedVenue == old(selectedVenue)
      ensures suggestedVenues == old(suggestedVenues) && loadingVenues == old(loadingVenues)
    {
      if selectedContact.None? || selectedVenue.None? || selectedTime == "" {
        return;
      }
      var contact := selectedContact.value;
      var newActivity := NewActivity(id, trip, contact, selectedTime, selectedVenue.value);
      trip := trip.(activities := trip.activities + [newActivity]);
      saved := saved + [(trip.id, trip.activities)];
      if failure.Some? {
        return;
      }
      match platform {
        case Sms =>
          invitations := invitations + [Invite(Sms, SmsNumber(contact.phone))];
        case WhatsApp =>
          invitations := invitations + [Invite(WhatsApp, WhatsAppNumber(contact.phone))];
      }
      showActivityModal := false;
    }
  }
}
