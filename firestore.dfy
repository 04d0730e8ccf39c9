/** The part of the Firestore service the contact features rely on: adding
    contacts under their owner, one after another, and matching contacts
    against the registered users by email, then by phone. The database is an
    in-memory store; the users collection is a sequence in query order. */
module Firestore {
  import opened Common
  import opened Strings
  import opened Types

  // ---------------------------------------------------------------- adding contacts

  /** A contact as the callers hand it over: without `id` and `ownerId`. */
  datatype ContactFields = ContactFields(name: string, email: Option<string>, phone: Option<string>)

  /** A document of a `users/{ownerId}/contacts` collection: the fields given,
      with `ownerId` attached. */
  datatype StoredContact = StoredContact(id: string, ownerId: string, fields: ContactFields)

  /** The id the store gives its n-th document. Firestore draws random ids;
      the model only relies on their being distinct. */
  function DocId(n: nat): string
  {
    NatString(n)
  }

  lemma DocIdInjective(a: nat, b: nat)
    requires DocId(a) == DocId(b)
    ensures a == b
  {
    DecimalValueOfNatString(a);
    DecimalValueOfNatString(b);
  }

  /** The documents a batch of contacts becomes when the store already holds
      `start` documents. */
  function Stored(ownerId: string, contacts: seq<ContactFields>, start: nat): (r: seq<StoredContact>)
    ensures |r| == |contacts|
    ensures forall i :: 0 <= i < |r| ==> r[i].ownerId == ownerId && r[i].fields == contacts[i]
  {
    seq(|contacts|, i requires 0 <= i < |contacts| => StoredContact(DocId(start + i), ownerId, contacts[i]))
  }

  /** Every document of the store has its own id. */
  predicate DistinctIds(docs: seq<StoredContact>)
  {
    forall i, j :: 0 <= i < j < |docs| ==> docs[i].id != docs[j].id
  }

  /** Ids numbered from zero are distinct. */
  lemma NumberedIdsDistinct(docs: seq<StoredContact>)
    requires forall i :: 0 <= i < |docs| ==> docs[i].id == DocId(i)
    ensures DistinctIds(docs)
  {
    forall i, j | 0 <= i < j < |docs| ensures docs[i].id != docs[j].id {
      if docs[i].id == docs[j].id {
        DocIdInjective(i, j);
      }
    }
  }

  class ContactStore {
    /** Every contact document, in the order it was added. */
    var docs: seq<StoredContact>

    /** The ids are the store's document numbers, hence distinct. */
    predicate Valid()
      reads this
    {
      forall i :: 0 <= i < |docs| ==> docs[i].id == DocId(i)
    }

    constructor()
      ensures docs == [] && Valid()
    {
      docs := [];
    }

    /** addContact: stores the fields with `ownerId` attached and returns the new id. */
    method AddContact(ownerId: string, contact: ContactFields) returns (id: string)
      requires Valid()
      modifies this
      ensures Valid() && DistinctIds(docs)
      ensures id == DocId(|old(docs)|)
      ensures docs == old(docs) + [StoredContact(id, ownerId, contact)]
    {
      id := DocId(|docs|);
      docs := docs + [StoredContact(id, ownerId, contact)];
      NumberedIdsDistinct(docs);
    }

    /** addContacts: adds the contacts one after another, in input order, and
        returns their ids in the same order. */
    method AddContacts(ownerId: string, contacts: seq<ContactFields>) returns (ids: seq<string>)
      requires Valid()
      modifies this
      ensures Valid() && DistinctIds(docs)
      ensures docs == old(docs) + Stored(ownerId, contacts, |old(docs)|)
      ensures |ids| == |contacts| && forall i :: 0 <= i < |ids| ==> ids[i] == docs[|old(docs)| + i].id
    {
      ids := [];
      var i := 0;
      while i < |contacts|
        invariant 0 <= i <= |contacts| && Valid()
        invariant docs == old(docs) + Stored(ownerId, contacts[..i], |old(docs)|)
        invariant |ids| == i && forall k :: 0 <= k < i ==> ids[k] == DocId(|old(docs)| + k)
      {
        var id := AddContact(ownerId, contacts[i]);
        ids := ids + [id];
        assert Stored(ownerId, contacts[..i + 1], |old(docs)|)
            == Stored(ownerId, contacts[..i], |old(docs)|) + [StoredContact(id, ownerId, contacts[i])];
        i := i + 1;
      }
      assert contacts[..i] == contacts;
      NumberedIdsDistinct(docs);
    }
  }

  // ---------------------------------------------------------------- matching

  function EmailOf(u: UserProfile): Option<string>
  {
    u.email
  }

  function PhoneOf(u: UserProfile): Option<string>
  {
    u.phone
  }

  /** The id of the first user document whose field equals `value`
      (`docs[0].id` of a `where(field, '==', value)` query), if any. */
  function FirstUserId(users: seq<UserProfile>, field: UserProfile -> Option<string>, value: string)
    : (r: Option<string>)
    ensures r.None? <==> forall i :: 0 <= i < |users| ==> field(users[i]) != Some(value)
    ensures r.Some? ==> exists i :: 0 <= i < |users| && field(users[i]) == Some(value)
                                    && r.value == users[i].id
                                    && forall j :: 0 <= j < i ==> field(users[j]) != Some(value)
  {
    if |users| == 0 then None
    else if field(users[0]) == Some(value) then Some(users[0].id)
    else
      assert forall i :: 1 <= i < |users| ==> users[1..][i - 1] == users[i];
      FirstUserId(users[1..], field, value)
  }

  /** The user a contact is matched with: by email when it has one, then by
      phone when it has one and the email found nobody. */
  function MatchFor(c: Contact, users: seq<UserProfile>): Option<string>
  {
    var byEmail := if Truthy(c.email) then FirstUserId(users, EmailOf, c.email.value) else None;
    if !Truthy(byEmail) && Truthy(c.phone) then
      match FirstUserId(users, PhoneOf, c.phone.value)
      case Some(id) => Some(id)
      case None => byEmail
    else byEmail
  }

  /** The match is always a registered user sharing the contact's email or
      phone, and the first such user in query order. */
  lemma MatchIsSharedDetail(c: Contact, users: seq<UserProfile>)
    ensures MatchFor(c, users).Some? ==>
              exists i :: 0 <= i < |users| && MatchFor(c, users).value == users[i].id
                          && ((Truthy(c.email) && users[i].email == c.email)
                              || (Truthy(c.phone) && users[i].phone == c.phone))
  {
  }

  /** Email is tried first: a (non-empty) email match stands whatever the phone. */
  lemma EmailTakesPrecedence(c: Contact, users: seq<UserProfile>, id: string)
    requires Truthy(c.email) && FirstUserId(users, EmailOf, c.email.value) == Some(id) && id != ""
    ensures MatchFor(c, users) == Some(id)
  {
  }

  /** Without an email match, the phone decides, and only when present. */
  lemma PhoneWithoutEmailMatch(c: Contact, users: seq<UserProfile>)
    requires !Truthy(c.email) || forall i :: 0 <= i < |users| ==> users[i].email != c.email
    ensures Truthy(c.phone) ==> MatchFor(c, users) == FirstUserId(users, PhoneOf, c.phone.value)
    ensures !Truthy(c.phone) ==> MatchFor(c, users).None?
  {
    if Truthy(c.email) {
      assert forall i :: 0 <= i < |users| ==> EmailOf(users[i]) != Some(c.email.value);
    }
  }

  /** matchContactsWithUsers: one contact per input, in input order, each
      unchanged except for its `matchedUserId`. */
  method MatchContactsWithUsers(contacts: seq<Contact>, users: seq<UserProfile>) returns (matched: seq<Contact>)
    ensures |matched| == |contacts|
    ensures forall i :: 0 <= i < |contacts| ==>
              matched[i] == contacts[i].(matchedUserId := MatchFor(contacts[i], users))
  {
    matched := [];
    for i := 0 to |contacts|
      invariant |matched| == i
      invariant forall k :: 0 <= k < i ==>
                  matched[k] == contacts[k].(matchedUserId := MatchFor(contacts[k], users))
    {
      var contact := contacts[i];
      var matchedUserId: Option<string> := None;
      if Truthy(contact.email) {
        var emailSnapshot := FirstUserId(users, EmailOf, contact.email.value);
        if emailSnapshot.Some? {
          matchedUserId := emailSnapshot;
        }
      }
      if !Truthy(matchedUserId) && Truthy(contact.phone) {
        var phoneSnapshot := FirstUserId(users, PhoneOf, contact.phone.value);
        if phoneSnapshot.Some? {
          matchedUserId := phoneSnapshot;
        }
      }
      matched := matched + [contact.(matchedUserId := matchedUserId)];
    }
  }
}
