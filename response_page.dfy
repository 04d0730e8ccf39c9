/** The page a friend answers a trip invitation on: they pick the offered
    time windows (grouped by date), optionally a preferred venue and a note,
    and confirm. */
module ResponsePage {
  import opened Common
  import opened Types

  // ---------------------------------------------------------------- window selection

  /** `prev.filter(wid => wid !== id)`. */
  function Remove(prev: seq<string>, id: string): (r: seq<string>)
    ensures id !in r
    ensures multiset(r) == multiset(prev)[id := 0]
    ensures forall x :: x != id ==> (x in r <==> x in prev)
  {
    if |prev| == 0 then []
    else
      var init := Remove(prev[..|prev| - 1], id);
      assert prev == prev[..|prev| - 1] + [prev[|prev| - 1]];
      if prev[|prev| - 1] == id then init else init + [prev[|prev| - 1]]
  }

  /** Removing from a concatenation removes from each part, so the ids kept
      stay in their order. */
  lemma {:induction false} RemoveAppend(a: seq<string>, b: seq<string>, id: string)
    ensures Remove(a + b, id) == Remove(a, id) + Remove(b, id)
  {
    if |b| > 0 {
      var b' := b[..|b| - 1];
      assert (a + b)[..|a + b| - 1] == a + b';
      RemoveAppend(a, b', id);
    } else {
      assert a + b == a;
    }
  }

  /** Removing an id that is absent changes nothing. */
  lemma {:induction false} RemoveAbsent(prev: seq<string>, id: string)
    requires id !in prev
    ensures Remove(prev, id) == prev
  {
    if |prev| > 0 {
      RemoveAbsent(prev[..|prev| - 1], id);
      assert prev == prev[..|prev| - 1] + [prev[|prev| - 1]];
    }
  }

  /** toggleWindow: a selected id is removed (every occurrence), any other is
      appended at the end. */
  function ToggleWindow(prev: seq<string>, id: string): (r: seq<string>)
    ensures id in r <==> id !in prev
    ensures forall x :: x != id ==> (x in r <==> x in prev)
    ensures id !in prev ==> r == prev + [id]
  {
    if id in prev then Remove(prev, id) else prev + [id]
  }

  /** Toggling the same id twice restores which ids are selected (though an
      id that was not last comes back at the end). */
  lemma ToggleWindowTwice(prev: seq<string>, id: string)
    ensures (set x | x in ToggleWindow(ToggleWindow(prev, id), id)) == (set x | x in prev)
    ensures id !in prev ==> ToggleWindow(ToggleWindow(prev, id), id) == prev
  {
    if id !in prev {
      RemoveAppend(prev, [id], id);
      RemoveAbsent(prev, id);
    }
  }

  // ---------------------------------------------------------------- date groups

  /** `Array.from(new Set(xs))`: the distinct values, in order of first occurrence. */
  function Dedupe(xs: seq<string>): (r: seq<string>)
    ensures forall x :: x in r <==> x in xs
    ensures forall i, j :: 0 <= i < j < |r| ==> r[i] != r[j]
  {
    if |xs| == 0 then []
    else
      var init := Dedupe(xs[..|xs| - 1]);
      assert forall x :: x in xs <==> x in xs[..|xs| - 1] || x == xs[|xs| - 1];
      if xs[|xs| - 1] in init then init else init + [xs[|xs| - 1]]
  }

  /** The distinct values of a prefix come first, in the same order: a value
      is listed before every value that first occurs after it. */
  lemma {:induction false} DedupePrefix(xs: seq<string>, k: nat)
    requires k <= |xs|
    ensures Dedupe(xs[..k]) <= Dedupe(xs)
    decreases |xs|
  {
    if k < |xs| {
      DedupePrefix(xs[..|xs| - 1], k);
      assert xs[..|xs| - 1][..k] == xs[..k];
    } else {
      assert xs[..k] == xs;
    }
  }

  /** The dates headings are shown for. */
  function Dates(windows: seq<TimeWindow>): seq<string>
  {
    Dedupe(seq(|windows|, i requires 0 <= i < |windows| => windows[i].date))
  }

  /** `trip.timeWindows.filter(w => w.date === date)`. */
  function Group(windows: seq<TimeWindow>, date: string): seq<TimeWindow>
  {
    FilterMap(windows, (w: TimeWindow) => if w.date == date then Some(w) else None)
  }

  /** Every window is shown under exactly one heading, its own date's; every
      heading is a window's date, shown once. */
  lemma WindowsGroupedByDate(windows: seq<TimeWindow>)
    ensures forall w :: w in windows ==> w.date in Dates(windows) && w in Group(windows, w.date)
    ensures forall w, d :: w in Group(windows, d) ==> w in windows && w.date == d
    ensures forall d :: d in Dates(windows) ==> exists w :: w in windows && w.date == d
  {
    var dates := seq(|windows|, i requires 0 <= i < |windows| => windows[i].date);
    forall w | w in windows ensures w.date in Dates(windows) && w in Group(windows, w.date) {
      var i :| 0 <= i < |windows| && windows[i] == w;
      assert dates[i] == w.date;
      GroupHas(windows, w);
    }
    forall w, d | w in Group(windows, d) ensures w in windows && w.date == d {
      FilterMapMember(windows, (w: TimeWindow) => if w.date == d then Some(w) else None, w);
    }
    forall d | d in Dates(windows) ensures exists w :: w in windows && w.date == d {
      var i :| 0 <= i < |dates| && dates[i] == d;
      assert windows[i] in windows;
    }
  }

  lemma {:induction false} GroupHas(windows: seq<TimeWindow>, w: TimeWindow)
    requires w in windows
    ensures w in Group(windows, w.date)
  {
    var init := windows[..|windows| - 1];
    if w != windows[|windows| - 1] {
      assert w in init;
      GroupHas(init, w);
    }
  }

  // ---------------------------------------------------------------- the response

  /** handleSubmit's guard: a name and at least one window. */
  predicate CanSubmit(name: string, selected: seq<string>)
  {
    name != "" && |selected| > 0
  }

  /** The response handleSubmit stores; `id` and `createdAt` stand for the
      random id and the clock. */
  function NewResponse(id: string, trip: Trip, name: string, selected: seq<string>,
                       preferredVenue: Option<string>, note: string, createdAt: string): (r: Response)
    ensures r.status == Confirmed && r.tripId == trip.id && r.responderName == name
    ensures r.selectedWindowIds == selected
    ensures r.preferredVenueName.None? <==> !Truthy(preferredVenue)
    ensures r.preferredVenueName.Some? ==> r.preferredVenueName == preferredVenue
    ensures r.note == Some(note)
  {
    Response(id, trip.id, name, Confirmed, selected,
             if Truthy(preferredVenue) then preferredVenue else None, Some(note), createdAt)
  }

  class ResponseForm {
    const trip: Trip
    var name: string
    var selectedWindows: seq<string>
    var preferredVenue: Option<string>
    var note: string
    var submitting: bool
    var submitted: bool
    /** The responses written to the database, oldest first. */
    var created: seq<Response>

    constructor(trip: Trip)
      ensures this.trip == trip && name == "" && selectedWindows == [] && preferredVenue.None?
      ensures note == "" && !submitting && !submitted && created == []
    {
      this.trip := trip;
      name := "";
      selectedWindows := [];
      preferredVenue := None;
      note := "";
      submitting := false;
      submitted := false;
      created := [];
    }

    method Toggle(windowId: string)
      modifies this
      ensures selectedWindows == ToggleWindow(old(selectedWindows), windowId)
      ensures name == old(name) && preferredVenue == old(preferredVenue) && note == old(note)
      ensures submitting == old(submitting) && submitted == old(submitted) && created == old(created)
    {
      if windowId in selectedWindows {
        selectedWindows := Remove(selectedWindows, windowId);
      } else {
        selectedWindows := selectedWindows + [windowId];
      }
    }

    /** Clicking a venue makes it the single preference, replacing any other. */
    method ChooseVenue(v: Venue)
      modifies this
      ensures preferredVenue == Some(v.name)
      ensures name == old(name) && selectedWindows == old(selectedWindows) && note == old(note)
      ensures submitting == old(submitting) && submitted == old(submitted) && created == old(created)
    {
      preferredVenue := Some(v.name);
    }

    /** handleSubmit: without a name or a window nothing happens; otherwise the
        confirmed response is stored and the page shows it was sent. */
    method HandleSubmit(id: string, createdAt: string)
      modifies this
      ensures !CanSubmit(old(name), old(selectedWindows)) ==>
                created == old(created) && submitted == old(submitted) && submitting == old(submitting)
      ensures CanSubmit(old(name), old(selectedWindows)) ==>
                created == old(created) + [NewResponse(id, trip, name, selectedWindows, preferredVenue, note, createdAt)]
                && submitted && !submitting
      ensures name == old(name) && selectedWindows == old(selectedWindows)
      ensures preferredVenue == old(preferredVenue) && note == old(note)
    {
      if name == "" || |selectedWindows| == 0 {
        return;
      }
      submitting := true;
      var newResponse := NewResponse(id, trip, name, selectedWindows, preferredVenue, note, createdAt);
      created := created + [newResponse];
      submitting := false;
      submitted := true;
    }
  }
}
