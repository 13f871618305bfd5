/** The attendee list of the organizer dashboard (client/src/pages/organizer/AttendeeManagement.tsx):
    registrations and the waitlist of the selected event, a case-insensitive search, and the
    check-in count. */
module AttendeeManagement {
  import opened Strings
  import opened Seqs

  /** `Attendee`, without the avatar picture. */
  datatype Attendee = Attendee(
    id: nat,
    name: string,
    email: string,
    ticketType: string,
    registrationDate: string,
    status: string,
    checkedIn: bool,
    phone: string,
    company: string,
    eventId: string)

  datatype WaitlistAttendee = WaitlistAttendee(
    id: nat,
    name: string,
    email: string,
    registrationDate: string,
    position: nat,
    eventId: string)

  function OfEvent(eventId: string): Attendee -> bool {
    (a: Attendee) => a.eventId == eventId
  }

  function WaitingFor(eventId: string): WaitlistAttendee -> bool {
    (w: WaitlistAttendee) => w.eventId == eventId
  }

  /** `attendees`: the registrations of the selected event, in their original order. */
  function Attendees(allAttendees: seq<Attendee>, selectedEvent: string): (r: seq<Attendee>)
    ensures SubsequenceOf(r, allAttendees)
    ensures forall i | 0 <= i < |r| :: r[i].eventId == selectedEvent
    ensures forall i | 0 <= i < |allAttendees| && allAttendees[i].eventId == selectedEvent :: allAttendees[i] in r
    ensures forall a | a in allAttendees ::
      multiset(r)[a] == if a.eventId == selectedEvent then multiset(allAttendees)[a] else 0
  {
    FilterCounts(allAttendees, OfEvent(selectedEvent));
    Filter(allAttendees, OfEvent(selectedEvent))
  }

  /** `waitlistAttendees`: the waitlist of the selected event, in its original order. */
  function Waitlist(allWaitlist: seq<WaitlistAttendee>, selectedEvent: string): (r: seq<WaitlistAttendee>)
    ensures SubsequenceOf(r, allWaitlist)
    ensures forall i | 0 <= i < |r| :: r[i].eventId == selectedEvent
    ensures forall i | 0 <= i < |allWaitlist| && allWaitlist[i].eventId == selectedEvent :: allWaitlist[i] in r
    ensures forall w | w in allWaitlist ::
      multiset(r)[w] == if w.eventId == selectedEvent then multiset(allWaitlist)[w] else 0
  {
    FilterCounts(allWaitlist, WaitingFor(selectedEvent));
    Filter(allWaitlist, WaitingFor(selectedEvent))
  }

  /** The lower-cased name, email or company includes the lower-cased search term. */
  predicate MatchesSearch(a: Attendee, searchTerm: string) {
    var term := Lower(searchTerm);
    Contains(Lower(a.name), term) || Contains(Lower(a.email), term) || Contains(Lower(a.company), term)
  }

  function Found(searchTerm: string): Attendee -> bool {
    (a: Attendee) => MatchesSearch(a, searchTerm)
  }

  /** `filteredAttendees` */
  function FilteredAttendees(attendees: seq<Attendee>, searchTerm: string): (r: seq<Attendee>)
    ensures SubsequenceOf(r, attendees)
    ensures forall i | 0 <= i < |r| :: MatchesSearch(r[i], searchTerm)
    ensures forall i | 0 <= i < |attendees| && MatchesSearch(attendees[i], searchTerm) :: attendees[i] in r
    ensures forall a | a in attendees :: multiset(r)[a] == if MatchesSearch(a, searchTerm) then multiset(attendees)[a] else 0
  {
    FilterCounts(attendees, Found(searchTerm));
    Filter(attendees, Found(searchTerm))
  }

  /** An empty search lists every attendee of the event. */
  lemma EmptySearchShowsAll(attendees: seq<Attendee>)
    ensures FilteredAttendees(attendees, "") == attendees
  {
    forall i | 0 <= i < |attendees| ensures Found("")(attendees[i]) {
      ContainsEmpty(Lower(attendees[i].name));
    }
    FilterKeepsAll(attendees, Found(""));
  }

  function IsCheckedIn(): Attendee -> bool {
    (a: Attendee) => a.checkedIn
  }

  /** `checkedInCount`: the length of the checked-in sublist, which is the number of positions
      holding a checked-in attendee and never more than the number of attendees. */
  function CheckedInCount(attendees: seq<Attendee>): (n: nat)
    ensures n == |IndicesWhere(attendees, IsCheckedIn())|
    ensures n <= |attendees|
  {
    FilterSize(attendees, IsCheckedIn());
    |Filter(attendees, IsCheckedIn())|
  }

  /** The count beside an event in the selector: `allAttendees.filter(a => a.eventId === id).length`. */
  function EventCount(allAttendees: seq<Attendee>, eventId: string): (n: nat)
    ensures n == |IndicesWhere(allAttendees, OfEvent(eventId))|
    ensures n == |Attendees(allAttendees, eventId)|
  {
    FilterSize(allAttendees, OfEvent(eventId));
    |Filter(allAttendees, OfEvent(eventId))|
  }

  /** Two different events never count the same registration: their counts add up to at most the
      number of registrations. */
  lemma EventCountsDisjoint(allAttendees: seq<Attendee>, e1: string, e2: string)
    requires e1 != e2
    ensures EventCount(allAttendees, e1) + EventCount(allAttendees, e2) <= |allAttendees|
  {
    DisjointFilters(allAttendees, OfEvent(e1), OfEvent(e2));
  }
}
