/** The ticket list of the event-creation page (client/src/pages/organizer/CreateEvent.tsx): each
    handler replaces the list with a new one built by spread, `map` or `filter`. */
module CreateEvent {
  import opened Strings
  import opened Seqs

  /** `TicketType`; `kind` is its `type` field, and `price` and `quantity` come from `Number(input)`. */
  datatype TicketType = TicketType(id: string, name: string, price: real, quantity: real, description: string, kind: string)

  /** The page opens with one free general ticket. */
  const InitialTickets := [TicketType("1", "General Admission", 0.0, 100.0, "Standard access to the event", "General")]

  /** The blank ticket that `addTicketType` adds, its id `Date.now().toString()`. */
  function NewTicket(now: nat): TicketType {
    TicketType(NatToString(now), "", 0.0, 0.0, "", "General")
  }

  /** The edits the form makes through `updateTicketType(id, field, value)`. */
  datatype TicketEdit =
    | SetName(name: string)
    | SetKind(kind: string)
    | SetPrice(price: real)
    | SetQuantity(quantity: real)
    | SetDescription(description: string)

  /** `{ ...ticket, [field]: value }` */
  function Apply(t: TicketType, edit: TicketEdit): (r: TicketType)
    ensures r.id == t.id
  {
    match edit
    case SetName(v) => t.(name := v)
    case SetKind(v) => t.(kind := v)
    case SetPrice(v) => t.(price := v)
    case SetQuantity(v) => t.(quantity := v)
    case SetDescription(v) => t.(description := v)
  }

  function Ids(tickets: seq<TicketType>): (ids: seq<string>)
    ensures |ids| == |tickets| && forall i | 0 <= i < |tickets| :: ids[i] == tickets[i].id
  {
    seq(|tickets|, i requires 0 <= i < |tickets| => tickets[i].id)
  }

  predicate DistinctIds(tickets: seq<TicketType>) {
    forall i, j | 0 <= i < j < |tickets| :: tickets[i].id != tickets[j].id
  }

  /** `[...ticketTypes, newTicket]` */
  function TicketsAfterAdd(tickets: seq<TicketType>, now: nat): (r: seq<TicketType>)
    ensures |r| == |tickets| + 1 && r[..|tickets|] == tickets
    ensures r[|tickets|] == NewTicket(now)
  {
    tickets + [NewTicket(now)]
  }

  /** `ticketTypes.map(t => t.id === id ? { ...t, [field]: value } : t)` */
  function TicketsAfterUpdate(tickets: seq<TicketType>, id: string, edit: TicketEdit): (r: seq<TicketType>)
    ensures Ids(r) == Ids(tickets)
    ensures forall i | 0 <= i < |tickets| && tickets[i].id != id :: r[i] == tickets[i]
    ensures forall i | 0 <= i < |tickets| && tickets[i].id == id :: r[i] == Apply(tickets[i], edit)
  {
    seq(|tickets|, i requires 0 <= i < |tickets| => if tickets[i].id == id then Apply(tickets[i], edit) else tickets[i])
  }

  function NotId(id: string): TicketType -> bool {
    (t: TicketType) => t.id != id
  }

  /** `removeTicketType(id)`: with more than one ticket, `ticketTypes.filter(t => t.id !== id)`;
      with one, nothing. */
  function TicketsAfterRemove(tickets: seq<TicketType>, id: string): (r: seq<TicketType>)
    ensures |tickets| <= 1 ==> r == tickets
    ensures |tickets| > 1 ==>
      SubsequenceOf(r, tickets)
      && (forall i | 0 <= i < |r| :: r[i].id != id)
      && (forall i | 0 <= i < |tickets| && tickets[i].id != id :: tickets[i] in r)
      && (forall t | t in tickets :: multiset(r)[t] == if t.id != id then multiset(tickets)[t] else 0)
  {
    FilterCounts(tickets, NotId(id));
    if |tickets| > 1 then Filter(tickets, NotId(id)) else tickets
  }

  /** A filtered list of distinct ids still has distinct ids. */
  lemma {:induction false} FilterKeepsDistinct(tickets: seq<TicketType>, keep: TicketType -> bool)
    requires DistinctIds(tickets)
    ensures DistinctIds(Filter(tickets, keep))
  {
    if tickets != [] {
      var rest := tickets[1..];
      FilterKeepsDistinct(rest, keep);
      var r := Filter(rest, keep);
      forall i | 0 <= i < |r| ensures r[i].id != tickets[0].id {
        var j :| 0 <= j < |rest| && rest[j] == r[i];
        assert tickets[j + 1] == rest[j];
      }
    }
  }

  /** With distinct ids, removing one id from a list of two or more leaves at least one ticket,
      and the ids stay distinct. */
  lemma RemoveKeepsOne(tickets: seq<TicketType>, id: string)
    requires DistinctIds(tickets) && |tickets| >= 1
    ensures |TicketsAfterRemove(tickets, id)| >= 1
    ensures DistinctIds(TicketsAfterRemove(tickets, id))
  {
    if |tickets| > 1 {
      FilterDropsAtMostOne(tickets, NotId(id));
      FilterKeepsDistinct(tickets, NotId(id));
    }
  }

  /** Without distinct ids the list can become empty: two tickets sharing an id both go. */
  lemma SharedIdEmptiesList(t: TicketType, u: TicketType)
    requires t.id == u.id
    ensures TicketsAfterRemove([t, u], t.id) == []
  {
    var xs := [t, u];
    assert xs[1..] == [u];
    assert [u][1..] == [];
  }

  /** The page's ticket state. */
  class TicketEditor {
    var ticketTypes: seq<TicketType>

    /** The list is never empty and its ids are distinct. */
    ghost predicate Valid()
      reads this
    {
      |ticketTypes| >= 1 && DistinctIds(ticketTypes)
    }

    constructor ()
      ensures Valid() && ticketTypes == InitialTickets
    {
      ticketTypes := InitialTickets;
    }

    /** `addTicketType()`; `Date.now()` is assumed to give an id not yet in use. */
    method AddTicketType(now: nat)
      modifies this
      requires Valid() && NatToString(now) !in Ids(ticketTypes)
      ensures Valid()
      ensures ticketTypes == TicketsAfterAdd(old(ticketTypes), now)
    {
      ticketTypes := TicketsAfterAdd(ticketTypes, now);
      assert forall i | 0 <= i < |old(ticketTypes)| :: ticketTypes[i].id == Ids(old(ticketTypes))[i];
    }

    /** `updateTicketType(id, field, value)` */
    method UpdateTicketType(id: string, edit: TicketEdit)
      modifies this
      requires Valid()
      ensures Valid()
      ensures ticketTypes == TicketsAfterUpdate(old(ticketTypes), id, edit)
    {
      var before := ticketTypes;
      ticketTypes := TicketsAfterUpdate(ticketTypes, id, edit);
      assert forall i | 0 <= i < |before| :: ticketTypes[i].id == Ids(ticketTypes)[i] == Ids(before)[i] == before[i].id;
    }

    /** `removeTicketType(id)` */
    method RemoveTicketType(id: string)
      modifies this
      requires Valid()
      ensures Valid()
      ensures ticketTypes == TicketsAfterRemove(old(ticketTypes), id)
    {
      RemoveKeepsOne(ticketTypes, id);
      ticketTypes := TicketsAfterRemove(ticketTypes, id);
    }
  }
}
