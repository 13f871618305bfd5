/** The ticketing page of an event (client/src/pages/organizer/TicketingInterface.tsx): ticket types,
    discount codes and the perk list of the new-ticket form. Every handler replaces a list with
    one built by spread, `filter` or `map`; `updatePerk` assigns one slot of a copied array. */
module TicketingInterface {
  import opened Strings
  import opened Seqs

  /** `TicketType`; `kind` is its `type` field. Amounts come from `Number(input)`. */
  datatype Ticket = Ticket(
    id: nat,
    name: string,
    description: string,
    price: real,
    earlyBirdPrice: real,
    quantity: real,
    sold: real,
    status: string,
    perks: seq<string>,
    kind: string)

  /** `DiscountCode`; `kind` is its `type` field. */
  datatype Discount = Discount(code: string, discount: real, kind: string, uses: real, limit: real, status: string)

  /** The new-ticket form (`newTicket`). */
  datatype TicketDraft = TicketDraft(
    name: string,
    description: string,
    price: real,
    earlyBirdPrice: real,
    quantity: real,
    kind: string,
    perks: seq<string>)

  /** The new-discount form (`newDiscount`). */
  datatype DiscountDraft = DiscountDraft(code: string, discount: real, kind: string, limit: real)

  const BlankTicketDraft := TicketDraft("", "", 0.0, 0.0, 0.0, "General", [""])
  const BlankDiscountDraft := DiscountDraft("", 0.0, "percentage", 0.0)
  const ActiveStatus := "Active"
  const PausedStatus := "Paused"

  // ---------------------------------------------------------------- tickets

  /** `newTicket.name && newTicket.price > 0` */
  predicate CanAddTicket(d: TicketDraft) {
    d.name != "" && d.price > 0.0
  }

  /** `perk.trim() !== ""` */
  function PerkFilled(): string -> bool {
    (p: string) => Trim(p) != ""
  }

  /** The ticket `handleAddTicket` builds: `id: Date.now()`, the draft's fields, nothing sold, active,
      and its blank perks dropped. */
  function TicketFrom(d: TicketDraft, now: nat): (t: Ticket)
    ensures t.id == now && t.name == d.name && t.description == d.description && t.kind == d.kind
    ensures t.price == d.price && t.earlyBirdPrice == d.earlyBirdPrice && t.quantity == d.quantity
    ensures t.sold == 0.0 && t.status == ActiveStatus
    ensures SubsequenceOf(t.perks, d.perks)
    ensures forall i | 0 <= i < |t.perks| :: HasNonWhitespace(t.perks[i])
    ensures forall i | 0 <= i < |d.perks| && HasNonWhitespace(d.perks[i]) :: d.perks[i] in t.perks
    ensures forall p | p in d.perks :: multiset(t.perks)[p] == if HasNonWhitespace(p) then multiset(d.perks)[p] else 0
  {
    var perks := Filter(d.perks, PerkFilled());
    FilterCounts(d.perks, PerkFilled());
    forall i | 0 <= i < |perks| ensures HasNonWhitespace(perks[i]) {
      TrimEmptyIff(perks[i]);
    }
    forall i | 0 <= i < |d.perks| && HasNonWhitespace(d.perks[i]) ensures d.perks[i] in perks {
      TrimEmptyIff(d.perks[i]);
    }
    forall p | p in d.perks ensures PerkFilled()(p) == HasNonWhitespace(p) {
      TrimEmptyIff(p);
    }
    Ticket(now, d.name, d.description, d.price, d.earlyBirdPrice, d.quantity, 0.0, ActiveStatus, perks, d.kind)
  }

  function NotTicket(id: nat): Ticket -> bool {
    (t: Ticket) => t.id != id
  }

  /** `handleDeleteTicket(id)`: `ticketTypes.filter(t => t.id !== id)`. */
  function TicketsWithout(tickets: seq<Ticket>, id: nat): (r: seq<Ticket>)
    ensures SubsequenceOf(r, tickets)
    ensures forall i | 0 <= i < |r| :: r[i].id != id
    ensures forall i | 0 <= i < |tickets| && tickets[i].id != id :: tickets[i] in r
    ensures forall t | t in tickets :: multiset(r)[t] == if t.id != id then multiset(tickets)[t] else 0
  {
    FilterCounts(tickets, NotTicket(id));
    Filter(tickets, NotTicket(id))
  }

  // ---------------------------------------------------------------- discounts

  /** `newDiscount.code && newDiscount.discount > 0` */
  predicate CanAddDiscount(d: DiscountDraft) {
    d.code != "" && d.discount > 0.0
  }

  /** `{ ...newDiscount, uses: 0, status: "Active" }` */
  function DiscountFrom(d: DiscountDraft): (r: Discount)
    ensures r.code == d.code && r.discount == d.discount && r.kind == d.kind && r.limit == d.limit
    ensures r.uses == 0.0 && r.status == ActiveStatus
  {
    Discount(d.code, d.discount, d.kind, 0.0, d.limit, ActiveStatus)
  }

  function NotCode(code: string): Discount -> bool {
    (d: Discount) => d.code != code
  }

  /** `handleDeleteDiscount(code)` */
  function DiscountsWithout(discounts: seq<Discount>, code: string): (r: seq<Discount>)
    ensures SubsequenceOf(r, discounts)
    ensures forall i | 0 <= i < |r| :: r[i].code != code
    ensures forall i | 0 <= i < |discounts| && discounts[i].code != code :: discounts[i] in r
    ensures forall d | d in discounts :: multiset(r)[d] == if d.code != code then multiset(discounts)[d] else 0
  {
    FilterCounts(discounts, NotCode(code));
    Filter(discounts, NotCode(code))
  }

  /** "Active" pauses; any other status becomes "Active". */
  function Toggled(status: string): (r: string)
    ensures r == ActiveStatus || r == PausedStatus
    ensures (r == ActiveStatus) <==> (status != ActiveStatus)
  {
    if status == ActiveStatus then PausedStatus else ActiveStatus
  }

  /** `handleToggleDiscountStatus(code)` */
  function DiscountsToggled(discounts: seq<Discount>, code: string): (r: seq<Discount>)
    ensures |r| == |discounts|
    ensures forall i | 0 <= i < |discounts| && discounts[i].code != code :: r[i] == discounts[i]
    ensures forall i | 0 <= i < |discounts| && discounts[i].code == code ::
      r[i] == discounts[i].(status := Toggled(discounts[i].status))
  {
    seq(|discounts|, i requires 0 <= i < |discounts| =>
      if discounts[i].code == code then discounts[i].(status := Toggled(discounts[i].status)) else discounts[i])
  }

  /** Toggling a code twice restores it when its entries were "Active" or "Paused". */
  lemma ToggleTwice(discounts: seq<Discount>, code: string)
    requires forall i | 0 <= i < |discounts| && discounts[i].code == code ::
      discounts[i].status == ActiveStatus || discounts[i].status == PausedStatus
    ensures DiscountsToggled(DiscountsToggled(discounts, code), code) == discounts
  {
    var once := DiscountsToggled(discounts, code);
    var twice := DiscountsToggled(once, code);
    forall i | 0 <= i < |discounts| ensures twice[i] == discounts[i] {
      if discounts[i].code == code {
        assert once[i].code == code;
      }
    }
  }

  // ---------------------------------------------------------------- perks

  /** `perks.filter((_, i) => i !== index)` */
  function WithoutIndex(perks: seq<string>, index: nat): (r: seq<string>)
    ensures index < |perks| ==> r == perks[..index] + perks[index + 1..]
    ensures index >= |perks| ==> r == perks
  {
    if perks == [] then []
    else if index == 0 then perks[1..]
    else
      var rest := WithoutIndex(perks[1..], index - 1);
      assert index - 1 < |perks[1..]| ==> [perks[0]] + perks[1..][..index - 1] == perks[..index];
      [perks[0]] + rest
  }

  /** Removing the slot `addPerk` just added gives back the perks before it. */
  lemma RemoveAddedPerk(perks: seq<string>)
    ensures WithoutIndex(perks + [""], |perks|) == perks
    ensures |WithoutIndex(perks + [""], |perks|)| == |perks|
  {
    assert (perks + [""])[..|perks|] == perks;
  }

  // ---------------------------------------------------------------- the page

  class TicketingPage {
    var ticketTypes: seq<Ticket>
    var discountCodes: seq<Discount>
    var newTicket: TicketDraft
    var newDiscount: DiscountDraft
    var isTicketModalOpen: bool
    var isDiscountModalOpen: bool

    /** The page with its initial lists (sample data in the source) and blank forms. */
    constructor (tickets: seq<Ticket>, discounts: seq<Discount>)
      ensures ticketTypes == tickets && discountCodes == discounts
      ensures newTicket == BlankTicketDraft && newDiscount == BlankDiscountDraft
      ensures !isTicketModalOpen && !isDiscountModalOpen
    {
      ticketTypes := tickets;
      discountCodes := discounts;
      newTicket := BlankTicketDraft;
      newDiscount := BlankDiscountDraft;
      isTicketModalOpen := false;
      isDiscountModalOpen := false;
    }

    /** `handleAddTicket()`: appends the drafted ticket, resets the form and closes the dialog, or
        does nothing when the name is empty or the price is not positive. */
    method HandleAddTicket(now: nat)
      modifies this
      ensures CanAddTicket(old(newTicket)) ==>
        ticketTypes == old(ticketTypes) + [TicketFrom(old(newTicket), now)]
        && newTicket == BlankTicketDraft && !isTicketModalOpen
      ensures !CanAddTicket(old(newTicket)) ==>
        ticketTypes == old(ticketTypes) && newTicket == old(newTicket) && isTicketModalOpen == old(isTicketModalOpen)
      ensures discountCodes == old(discountCodes) && newDiscount == old(newDiscount)
      ensures isDiscountModalOpen == old(isDiscountModalOpen)
    {
      if newTicket.name != "" && newTicket.price > 0.0 {
        var ticket := TicketFrom(newTicket, now);
        ticketTypes := ticketTypes + [ticket];
        newTicket := BlankTicketDraft;
        isTicketModalOpen := false;
      }
    }

    /** `handleAddDiscount()`: likewise for a code and a positive discount. */
    method HandleAddDiscount()
      modifies this
      ensures CanAddDiscount(old(newDiscount)) ==>
        discountCodes == old(discountCodes) + [DiscountFrom(old(newDiscount))]
        && newDiscount == BlankDiscountDraft && !isDiscountModalOpen
      ensures !CanAddDiscount(old(newDiscount)) ==>
        discountCodes == old(discountCodes) && newDiscount == old(newDiscount)
        && isDiscountModalOpen == old(isDiscountModalOpen)
      ensures ticketTypes == old(ticketTypes) && newTicket == old(newTicket)
      ensures isTicketModalOpen == old(isTicketModalOpen)
    {
      if newDiscount.code != "" && newDiscount.discount > 0.0 {
        discountCodes := discountCodes + [DiscountFrom(newDiscount)];
        newDiscount := BlankDiscountDraft;
        isDiscountModalOpen := false;
      }
    }

    method HandleDeleteTicket(id: nat)
      modifies this
      ensures ticketTypes == TicketsWithout(old(ticketTypes), id)
      ensures discountCodes == old(discountCodes) && newTicket == old(newTicket) && newDiscount == old(newDiscount)
      ensures isTicketModalOpen == old(isTicketModalOpen) && isDiscountModalOpen == old(isDiscountModalOpen)
    {
      ticketTypes := TicketsWithout(ticketTypes, id);
    }

    method HandleDeleteDiscount(code: string)
      modifies this
      ensures discountCodes == DiscountsWithout(old(discountCodes), code)
      ensures ticketTypes == old(ticketTypes) && newTicket == old(newTicket) && newDiscount == old(newDiscount)
      ensures isTicketModalOpen == old(isTicketModalOpen) && isDiscountModalOpen == old(isDiscountModalOpen)
    {
      discountCodes := DiscountsWithout(discountCodes, code);
    }

    method HandleToggleDiscountStatus(code: string)
      modifies this
      ensures discountCodes == DiscountsToggled(old(discountCodes), code)
      ensures ticketTypes == old(ticketTypes) && newTicket == old(newTicket) && newDiscount == old(newDiscount)
      ensures isTicketModalOpen == old(isTicketModalOpen) && isDiscountModalOpen == old(isDiscountModalOpen)
    {
      discountCodes := DiscountsToggled(discountCodes, code);
    }

    /** `addPerk()`: one more, empty, perk slot. */
    method AddPerk()
      modifies this
      ensures newTicket == old(newTicket).(perks := old(newTicket).perks + [""])
      ensures ticketTypes == old(ticketTypes) && discountCodes == old(discountCodes) && newDiscount == old(newDiscount)
      ensures isTicketModalOpen == old(isTicketModalOpen) && isDiscountModalOpen == old(isDiscountModalOpen)
    {
      newTicket := newTicket.(perks := newTicket.perks + [""]);
    }

    /** `updatePerk(index, value)`: copies the perks into a fresh array, assigns one slot, and
        stores the copy. */
    method UpdatePerk(index: nat, value: string)
      modifies this
      requires index < |newTicket.perks|
      ensures newTicket == old(newTicket).(perks := old(newTicket).perks[index := value])
      ensures ticketTypes == old(ticketTypes) && discountCodes == old(discountCodes) && newDiscount == old(newDiscount)
      ensures isTicketModalOpen == old(isTicketModalOpen) && isDiscountModalOpen == old(isDiscountModalOpen)
    {
      var perks := newTicket.perks;
      var updated := new string[|perks|](i requires 0 <= i < |perks| => perks[i]);
      updated[index] := value;
      newTicket := newTicket.(perks := updated[..]);
    }

    /** `removePerk(index)` */
    method RemovePerk(index: nat)
      modifies this
      ensures newTicket == old(newTicket).(perks := WithoutIndex(old(newTicket).perks, index))
      ensures ticketTypes == old(ticketTypes) && discountCodes == old(discountCodes) && newDiscount == old(newDiscount)
      ensures isTicketModalOpen == old(isTicketModalOpen) && isDiscountModalOpen == old(isDiscountModalOpen)
    {
      newTicket := newTicket.(perks := WithoutIndex(newTicket.perks, index));
    }
  }
}
