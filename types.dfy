/** The application's records, as immutable values. Floating-point fields
    (a trip's and a city's coordinates, a venue's rating) are not part of the
    model: no modelled rule reads them. */
module Types {
  import opened Common

  datatype ResponseStatus = Confirmed | Declined | Pending

  /** A signed-in user's profile document. */
  datatype UserProfile = UserProfile(id: string, name: string, email: Option<string>,
                                     phone: Option<string>, createdAt: string)

  /** A contact stored under its owner; `matchedUserId` is set when the contact
      is also a registered user. */
  datatype Contact = Contact(id: string, ownerId: string, name: string, email: Option<string>,
                             phone: Option<string>, matchedUserId: Option<string>)

  /** An offered slot of availability on a trip. */
  datatype TimeWindow = TimeWindow(id: string, date: string, timeLabel: string)

  /** A suggested place; the source's `type` field is called `category` here. */
  datatype Venue = Venue(name: string, address: string, description: string, category: string)

  datatype ActivityStatus = ActivityPending | ActivityConfirmed | ActivityDeclined

  /** An invitation to meet a friend at a venue and a time. */
  datatype Activity = Activity(id: string, tripId: string, friendId: string, friendName: string,
                               timeSlot: string, venue: Venue, status: ActivityStatus)

  /** A friend's answer to a trip invitation. */
  datatype Response = Response(id: string, tripId: string, responderName: string,
                               status: ResponseStatus, selectedWindowIds: seq<string>,
                               preferredVenueName: Option<string>, note: Option<string>,
                               createdAt: string)

  datatype Trip = Trip(id: string, ownerId: Option<string>, city: string, startDate: string,
                       endDate: string, createdAt: string, activities: seq<Activity>,
                       stayingLocations: seq<string>, timeWindows: seq<TimeWindow>,
                       selectedVenues: seq<Venue>)
}
