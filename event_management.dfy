/** The event list of the organizer dashboard (client/src/pages/organizer/EventManagement.tsx):
    a case-insensitive search over title and description combined with a status filter. */
module EventManagement {
  import opened Strings
  import opened Seqs

  /** An event row; the figures shown beside it play no part in the filter. */
  datatype Event = Event(
    id: nat,
    title: string,
    description: string,
    date: string,
    location: string,
    status: string)

  const AllStatuses := "all"

  /** The lower-cased title or description includes the lower-cased search term. */
  predicate MatchesSearch(e: Event, searchTerm: string) {
    Contains(Lower(e.title), Lower(searchTerm)) || Contains(Lower(e.description), Lower(searchTerm))
  }

  /** The filter is exactly "all", or names the status up to case. */
  predicate MatchesFilter(e: Event, filterStatus: string) {
    filterStatus == AllStatuses || Lower(e.status) == Lower(filterStatus)
  }

  function Shown(searchTerm: string, filterStatus: string): Event -> bool {
    (e: Event) => MatchesSearch(e, searchTerm) && MatchesFilter(e, filterStatus)
  }

  /** `filteredEvents`: the events matching both, in their original order. */
  function FilteredEvents(events: seq<Event>, searchTerm: string, filterStatus: string): (r: seq<Event>)
    ensures SubsequenceOf(r, events)
    ensures forall i | 0 <= i < |r| :: MatchesSearch(r[i], searchTerm) && MatchesFilter(r[i], filterStatus)
    ensures forall i | 0 <= i < |events| && MatchesSearch(events[i], searchTerm) && MatchesFilter(events[i], filterStatus) ::
      events[i] in r
    ensures forall e | e in events ::
      multiset(r)[e] == if MatchesSearch(e, searchTerm) && MatchesFilter(e, filterStatus) then multiset(events)[e] else 0
  {
    FilterCounts(events, Shown(searchTerm, filterStatus));
    Filter(events, Shown(searchTerm, filterStatus))
  }

  /** The page's initial state, an empty search and "all", lists every event. */
  lemma InitialFilterShowsAll(events: seq<Event>)
    ensures FilteredEvents(events, "", AllStatuses) == events
  {
    forall i | 0 <= i < |events| ensures Shown("", AllStatuses)(events[i]) {
      ContainsEmpty(Lower(events[i].title));
    }
    FilterKeepsAll(events, Shown("", AllStatuses));
  }

  /** The "published" filter never lists a draft or a cancelled event. */
  lemma PublishedHidesDraftsAndCancelled(events: seq<Event>, searchTerm: string)
    ensures forall e | e in FilteredEvents(events, searchTerm, "published") :: e.status != "Draft" && e.status != "Cancelled"
  {
    var r := FilteredEvents(events, searchTerm, "published");
    forall e | e in r ensures e.status != "Draft" && e.status != "Cancelled" {
      var i :| 0 <= i < |r| && r[i] == e;
      assert Lower(e.status) == Lower("published");
      assert Lower("published")[0] == 'p';
    }
  }

  /** The search does not see the case of the term. */
  lemma SearchIgnoresCase(events: seq<Event>, searchTerm: string, filterStatus: string)
    ensures FilteredEvents(events, Lower(searchTerm), filterStatus) == FilteredEvents(events, searchTerm, filterStatus)
  {
    LowerIdempotent(searchTerm);
    FilterSameTest(events, Shown(Lower(searchTerm), filterStatus), Shown(searchTerm, filterStatus));
  }
}
