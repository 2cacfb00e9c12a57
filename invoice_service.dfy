/**
 * The invoice service of one backend: invoices and their items scoped to an
 * organisation, a draft-only edit rule, the send / pay / overdue status
 * changes, and totals that are recomputed from the items after every item
 * change. Each operation runs in one transaction: when it raises, the tables
 * are left as they were (a dto it was handed may still have been rewritten by
 * validation). Ids, which the tables draw as random UUIDs, come from a counter.
 */
module InvoiceServices {
  import opened Wrappers
  import opened Invoices
  import opened InvoiceValidation
  import opened InvoiceStore

  const INVOICE_NOT_FOUND := "Invoice not found"
  const ITEM_NOT_FOUND := "Item not found"
  const UPDATE_DRAFT_ONLY := "Can only update draft invoices"
  const DELETE_PAID := "Cannot delete paid invoices"
  const ADD_ITEM_DRAFT_ONLY := "Can only add items to draft invoices"
  const UPDATE_ITEM_DRAFT_ONLY := "Can only update items in draft invoices"
  const DELETE_ITEM_DRAFT_ONLY := "Can only delete items from draft invoices"
  /** What `save` raises for an invoice number another invoice holds (the unique `invoiceNumber` column). */
  const DUPLICATE_INVOICE_NUMBER := "DataIntegrityViolationException: duplicate key value violates unique constraint on invoices.invoice_number"

  /** A dto item that validation has priced: rate, tax and line amounts are all present. */
  predicate Ready(dto: ItemDto)
  {
    dto.rate.Some? && dto.gstPercent.Some? && dto.line.Some?
  }

  /** `toItemEntity`: the type by name, every other field copied as it is. */
  function ToItem(dto: ItemDto, id: Id, invoiceId: Id): (r: Result<Item>)
    requires Ready(dto)
    ensures r.Ok? <==> ParseItemType(dto.itemType).Ok?
    ensures r.Err? ==> r == Err(ParseItemType(dto.itemType).error)
    ensures r.Ok? ==> r.value.id == id && r.value.invoiceId == invoiceId && r.value.line == dto.line.value
  {
    match ParseItemType(dto.itemType)
    case Err(e) => Err(e)
    case Ok(t) => Ok(Item(id, invoiceId, t, dto.description, dto.quantity, dto.rate.value, dto.gstPercent.value, dto.line.value))
  }

  /** `toItemDto`: the item as the client sees it. */
  function ToItemDto(item: Item): (dto: ItemDto)
    ensures Ready(dto) && ParseItemType(dto.itemType) == Ok(item.itemType)
  {
    ItemDto(Some(ItemTypeName(item.itemType)), item.description, item.quantity,
            Some(item.rate), Some(item.gstPercent), Some(item.line))
  }

  /** Mapping a ready dto item to an entity and back gives the dto item again. */
  lemma ItemDtoRoundTrip(dto: ItemDto, id: Id, invoiceId: Id)
    requires Ready(dto) && ToItem(dto, id, invoiceId).Ok?
    ensures ToItemDto(ToItem(dto, id, invoiceId).value) == dto
  {
    var t := ParseItemType(dto.itemType).value;
    ItemTypeNameRoundTrip(t);
  }

  /** Mapping an entity to a dto and back gives the entity again. */
  lemma ItemRoundTrip(item: Item)
    ensures ToItem(ToItemDto(item), item.id, item.invoiceId) == Ok(item)
  {
    ItemTypeNameRoundTrip(item.itemType);
  }

  /** The stream over the dto items: the first unknown type raises; otherwise fresh consecutive ids. */
  function ToItems(dtos: seq<ItemDto>, invoiceId: Id, first: nat): (r: Result<seq<Item>>)
    requires forall i :: 0 <= i < |dtos| ==> Ready(dtos[i])
    ensures r.Ok? <==> forall i :: 0 <= i < |dtos| ==> ParseItemType(dtos[i].itemType).Ok?
    ensures r.Ok? ==> |r.value| == |dtos|
    ensures r.Ok? ==> forall i :: 0 <= i < |dtos| ==> Ok(r.value[i]) == ToItem(dtos[i], first + i, invoiceId)
    decreases |dtos|
  {
    if dtos == [] then Ok([])
    else match ToItem(dtos[0], first, invoiceId)
      case Err(e) => Err(e)
      case Ok(x) =>
        match ToItems(dtos[1..], invoiceId, first + 1)
        case Err(e) => Err(e)
        case Ok(rest) => Ok([x] + rest)
  }

  /** The items validation prices are ready, and as entities they are fresh and carry the validated lines. */
  lemma {:induction false} PricedItemsBecomeFresh(orig: seq<ItemDto>, invoiceId: Id, first: nat)
    requires Priceable(orig)
    ensures forall i :: 0 <= i < |PricedItems(orig)| ==> Ready(PricedItems(orig)[i])
    ensures ToItems(PricedItems(orig), invoiceId, first).Ok? <==> TypesKnown(orig)
    ensures ToItems(PricedItems(orig), invoiceId, first).Ok? ==>
      var its := ToItems(PricedItems(orig), invoiceId, first).value;
      FreshItems(its, invoiceId, first) && LinesOf(its) == Lines(orig)
  {
    var priced := PricedItems(orig);
    var r := ToItems(priced, invoiceId, first);
    if r.Ok? {
      var its := r.value;
      forall i | 0 <= i < |its|
        ensures its[i].id == first + i && its[i].invoiceId == invoiceId && its[i].line == Lines(orig)[i]
      {
        assert Ok(its[i]) == ToItem(priced[i], first + i, invoiceId);
      }
    }
  }

  /** The entities mapped from the priced items: fresh, carrying the validated lines. */
  lemma PricedItemsMapped(orig: seq<ItemDto>, invoiceId: Id, first: nat, its: seq<Item>)
    requires Priceable(orig) && ToItems(PricedItems(orig), invoiceId, first) == Ok(its)
    ensures FreshItems(its, invoiceId, first) && LinesOf(its) == Lines(orig)
  {
    PricedItemsBecomeFresh(orig, invoiceId, first);
  }

  /** Every item names a known type. */
  predicate TypesKnown(dtos: seq<ItemDto>)
  {
    forall i :: 0 <= i < |dtos| ==> ParseItemType(dtos[i].itemType).Ok?
  }

  /**
   * The table after a new invoice's items are stored: the old rows, then the
   * invoice's items, which carry the given lines, under fresh ids.
   */
  ghost predicate Fresh(before: seq<Item>, after: seq<Item>, invoiceId: Id, lines: seq<Line>)
  {
    |before| <= |after| && after[..|before|] == before
    && ItemsOf(after, invoiceId) == after[|before|..] && LinesOf(after[|before|..]) == lines
  }

  /** The new items carry the validated lines, so the invoice's validated totals are the sums over them. */
  lemma NewItemsMatch(orig: seq<ItemDto>, inv: Invoice, its: seq<Item>)
    requires Priceable(orig) && LinesOf(its) == Lines(orig)
    requires inv.subtotal == SumSubtotal(Lines(orig)) && inv.gstTotal == SumGst(Lines(orig))
    requires inv.totalAmount == SumTotal(Lines(orig))
    ensures TotalsMatch(inv, its)
  {
  }

  /** A dto that validation has passed and priced: the header is complete and the totals are written. */
  predicate Validated(dto: InvoiceDto)
    reads dto
  {
    dto.HeaderError().None? && dto.subtotal.Some? && dto.gstTotal.Some? && dto.totalAmount.Some?
  }

  /** `toEntity` with the fields the service sets: the status by name, the rest copied. */
  function ToEntity(dto: InvoiceDto, id: Id, orgId: Id, createdAt: int, updatedAt: int, createdBy: Id): (r: Result<Invoice>)
    reads dto
    requires Validated(dto)
    ensures r.Ok? <==> ParseStatus(dto.status).Ok?
    ensures r.Err? ==> r == Err(ParseStatus(dto.status).error)
    ensures r.Ok? ==> r.value.id == id && r.value.orgId == orgId && r.value.createdBy == createdBy
    ensures r.Ok? ==> r.value.createdAt == createdAt && r.value.updatedAt == updatedAt
    ensures r.Ok? ==> dto.status == Some(StatusName(r.value.status)) && r.value.issueDate <= r.value.dueDate
    ensures r.Ok? ==> Some(r.value.subtotal) == dto.subtotal && Some(r.value.gstTotal) == dto.gstTotal
    ensures r.Ok? ==> Some(r.value.totalAmount) == dto.totalAmount && Some(r.value.invoiceNumber) == dto.invoiceNumber
  {
    match ParseStatus(dto.status)
    case Err(e) => Err(e)
    case Ok(s) =>
      Ok(Invoice(id, orgId, dto.invoiceNumber.value, dto.clientId.value, dto.issueDate.value, dto.dueDate.value,
                 s, dto.subtotal.value, dto.gstTotal.value, dto.totalAmount.value,
                 dto.currency, dto.paymentDate, dto.notes, createdAt, updatedAt, createdBy))
  }

  /**
   * The table after an invoice's items are replaced: the rows of other
   * invoices in their order, then the invoice's new items, which carry the
   * given lines, under fresh ids.
   */
  ghost predicate Replaced(before: seq<Item>, after: seq<Item>, invoiceId: Id, lines: seq<Line>)
  {
    var kept := RemoveItemsOf(before, invoiceId);
    |kept| <= |after| && after[..|kept|] == kept
    && ItemsOf(after, invoiceId) == after[|kept|..] && LinesOf(after[|kept|..]) == lines
  }

  /** The line `addItem` and `updateItem` price: one unit of a service, the given quantity of a product; a missing amount raises. */
  function PriceItem(t: ItemType, dto: ItemDto): (r: Result<Line>)
    ensures r.Ok? <==> PricedQuantity(t, dto.quantity).Some? && dto.rate.Some? && dto.gstPercent.Some?
    ensures r.Err? ==> r.error == NULL_POINTER
    ensures r.Ok? ==> Consistent(r.value) && r.value.gst * 100.0 == r.value.subtotal * dto.gstPercent.value
  {
    match PricedQuantity(t, dto.quantity)
    case None => Err(NULL_POINTER)
    case Some(q) =>
      if dto.rate.None? || dto.gstPercent.None? then Err(NULL_POINTER)
      else Ok(LineFor(dto.rate.value, q as real, dto.gstPercent.value))
  }

  /** An item added or rewritten on its own is priced exactly as validation prices the items of a whole invoice. */
  lemma PriceItemAsValidated(dto: ItemDto)
    requires ParseItemType(dto.itemType).Ok?
    ensures PriceItem(ParseItemType(dto.itemType).value, dto)
      == if PricedLine(dto).Some? then Ok(PricedLine(dto).value) else Err(NULL_POINTER)
  {
  }

  /** `recalculateInvoiceTotals` after the first `k` items. */
  predicate SummedUpTo(its: seq<Item>, k: nat, sub: real, gst: real, total: real)
  {
    k <= |its| && sub == SumSubtotal(LinesOf(its[..k])) && gst == SumGst(LinesOf(its[..k]))
    && total == SumTotal(LinesOf(its[..k]))
  }

  lemma SummedStep(its: seq<Item>, k: nat, sub: real, gst: real, total: real)
    requires SummedUpTo(its, k, sub, gst, total) && k < |its|
    ensures SummedUpTo(its, k + 1, sub + its[k].line.subtotal, gst + its[k].line.gst, total + its[k].line.total)
  {
    assert its[..k + 1] == its[..k] + [its[k]];
    LinesOfAppend(its[..k], [its[k]]);
    assert LinesOf([its[k]]) == [its[k].line];
    SumsSnoc(LinesOf(its[..k]), its[k].line);
  }

  /** `recalculateInvoiceTotals`: the totals summed over the invoice's items, and the time of the change; nothing else moves. */
  method Retotal(inv: Invoice, its: seq<Item>, now: int) returns (updated: Invoice)
    ensures TotalsMatch(updated, its) && Retotalled(inv, updated) && updated.updatedAt == now
  {
    var sub, gst, total := 0.0, 0.0, 0.0;
    var k := 0;
    while k < |its|
      invariant SummedUpTo(its, k, sub, gst, total)
    {
      SummedStep(its, k, sub, gst, total);
      sub, gst, total := sub + its[k].line.subtotal, gst + its[k].line.gst, total + its[k].line.total;
      k := k + 1;
    }
    assert its[..k] == its;
    updated := inv.(subtotal := sub, gstTotal := gst, totalAmount := total, updatedAt := now);
  }

  /** The invoice with only its three totals and its change time replaced. */
  predicate Retotalled(inv: Invoice, updated: Invoice)
  {
    updated == inv.(subtotal := updated.subtotal, gstTotal := updated.gstTotal,
                    totalAmount := updated.totalAmount, updatedAt := updated.updatedAt)
  }

  /** No amounts: what an added line replaces and what a removed line leaves. */
  const NoLine := Line(0.0, 0.0, 0.0)

  /** The invoice with one line's amounts taken off its totals and another's put on, changed at `now`. */
  function Shift(inv: Invoice, removed: Line, added: Line, now: int): Invoice
  {
    inv.(subtotal := inv.subtotal - removed.subtotal + added.subtotal, gstTotal := inv.gstTotal - removed.gst + added.gst,
         totalAmount := inv.totalAmount - removed.total + added.total, updatedAt := now)
  }

  /** Summed again, an invoice whose items' sums moved by the change from one line to another has shifted by that change. */
  lemma ShiftedTotals(inv: Invoice, updated: Invoice, its: seq<Item>, its': seq<Item>, removed: Line, added: Line)
    requires Retotalled(inv, updated) && TotalsMatch(inv, its) && TotalsMatch(updated, its')
    requires SumSubtotal(LinesOf(its')) == SumSubtotal(LinesOf(its)) - removed.subtotal + added.subtotal
    requires SumGst(LinesOf(its')) == SumGst(LinesOf(its)) - removed.gst + added.gst
    requires SumTotal(LinesOf(its')) == SumTotal(LinesOf(its)) - removed.total + added.total
    ensures updated == Shift(inv, removed, added, updated.updatedAt)
  {
  }

  /** `addItem`: summing again after the append adds the new line to the invoice's totals, and the store stays valid. */
  lemma AddItemOutcome(invoices: map<Id, Invoice>, items: seq<Item>, nextId: nat, x: Item, updated: Invoice)
    requires StoreValid(invoices, items, nextId)
    requires x.invoiceId in invoices && x.id == nextId && Consistent(x.line)
    requires Retotalled(invoices[x.invoiceId], updated) && TotalsMatch(updated, ItemsOf(items + [x], x.invoiceId))
    ensures StoreValid(invoices[x.invoiceId := updated], items + [x], nextId + 1)
    ensures updated == Shift(invoices[x.invoiceId], NoLine, x.line, updated.updatedAt)
  {
    assert InvoiceMatches(invoices[x.invoiceId], x.invoiceId, items, nextId);
    AppendSums(items, x);
    ShiftedTotals(invoices[x.invoiceId], updated, ItemsOf(items, x.invoiceId), ItemsOf(items + [x], x.invoiceId), NoLine, x.line);
    AddItemKeepsValid(invoices, items, nextId, x, updated);
  }

  /** `updateItem`: summing again after the rewrite moves the totals by the change of line, and the store stays valid. */
  lemma UpdateItemOutcome(invoices: map<Id, Invoice>, items: seq<Item>, nextId: nat, k: nat, x: Item, updated: Invoice)
    requires StoreValid(invoices, items, nextId)
    requires k < |items| && x.id == items[k].id && x.invoiceId == items[k].invoiceId && Consistent(x.line)
    requires x.invoiceId in invoices
    requires Retotalled(invoices[x.invoiceId], updated) && TotalsMatch(updated, ItemsOf(items[k := x], x.invoiceId))
    ensures StoreValid(invoices[x.invoiceId := updated], items[k := x], nextId)
    ensures updated == Shift(invoices[x.invoiceId], items[k].line, x.line, updated.updatedAt)
  {
    assert InvoiceMatches(invoices[x.invoiceId], x.invoiceId, items, nextId);
    RewriteSums(items, k, x);
    ShiftedTotals(invoices[x.invoiceId], updated, ItemsOf(items, x.invoiceId), ItemsOf(items[k := x], x.invoiceId), items[k].line, x.line);
    UpdateItemKeepsValid(invoices, items, nextId, k, x, updated);
  }

  /** `deleteItem`: summing again after the removal takes the line off the totals, and the store stays valid. */
  lemma DeleteItemOutcome(invoices: map<Id, Invoice>, items: seq<Item>, nextId: nat, k: nat, updated: Invoice)
    requires StoreValid(invoices, items, nextId)
    requires k < |items| && items[k].invoiceId in invoices
    requires Retotalled(invoices[items[k].invoiceId], updated)
    requires TotalsMatch(updated, ItemsOf(items[..k] + items[k + 1..], items[k].invoiceId))
    ensures StoreValid(invoices[items[k].invoiceId := updated], items[..k] + items[k + 1..], nextId)
    ensures updated == Shift(invoices[items[k].invoiceId], items[k].line, NoLine, updated.updatedAt)
  {
    assert InvoiceMatches(invoices[items[k].invoiceId], items[k].invoiceId, items, nextId);
    RemoveSums(items, k);
    ShiftedTotals(invoices[items[k].invoiceId], updated, ItemsOf(items, items[k].invoiceId),
                  ItemsOf(items[..k] + items[k + 1..], items[k].invoiceId), items[k].line, NoLine);
    DeleteItemKeepsValid(invoices, items, nextId, k, updated);
  }

  /** `recalculateInvoiceTotals` after an item is appended, over the tables as values. */
  method Appended(invoices: map<Id, Invoice>, items: seq<Item>, nextId: nat, x: Item, now: int)
    returns (invoices': map<Id, Invoice>)
    requires StoreValid(invoices, items, nextId) && x.invoiceId in invoices && x.id == nextId && Consistent(x.line)
    ensures invoices' == invoices[x.invoiceId := Shift(invoices[x.invoiceId], NoLine, x.line, now)]
    ensures StoreValid(invoices', items + [x], nextId + 1)
  {
    var updated := Retotal(invoices[x.invoiceId], ItemsOf(items + [x], x.invoiceId), now);
    AddItemOutcome(invoices, items, nextId, x, updated);
    invoices' := invoices[x.invoiceId := updated];
  }

  /** `recalculateInvoiceTotals` after an item is rewritten, over the tables as values. */
  method Rewritten(invoices: map<Id, Invoice>, items: seq<Item>, nextId: nat, k: nat, x: Item, now: int)
    returns (invoices': map<Id, Invoice>)
    requires StoreValid(invoices, items, nextId)
    requires k < |items| && x.id == items[k].id && x.invoiceId == items[k].invoiceId && Consistent(x.line)
    ensures x.invoiceId in invoices
    ensures invoices' == invoices[x.invoiceId := Shift(invoices[x.invoiceId], items[k].line, x.line, now)]
    ensures StoreValid(invoices', items[k := x], nextId)
  {
    assert x.invoiceId in invoices;
    var updated := Retotal(invoices[x.invoiceId], ItemsOf(items[k := x], x.invoiceId), now);
    UpdateItemOutcome(invoices, items, nextId, k, x, updated);
    invoices' := invoices[x.invoiceId := updated];
  }

  /** `recalculateInvoiceTotals` after an item is removed, over the tables as values. */
  method Removed(invoices: map<Id, Invoice>, items: seq<Item>, nextId: nat, k: nat, now: int)
    returns (invoices': map<Id, Invoice>)
    requires StoreValid(invoices, items, nextId) && k < |items|
    ensures items[k].invoiceId in invoices
    ensures invoices' == invoices[items[k].invoiceId := Shift(invoices[items[k].invoiceId], items[k].line, NoLine, now)]
    ensures StoreValid(invoices', items[..k] + items[k + 1..], nextId)
  {
    var x := items[k];
    assert x.invoiceId in invoices;
    var updated := Retotal(invoices[x.invoiceId], ItemsOf(items[..k] + items[k + 1..], x.invoiceId), now);
    DeleteItemOutcome(invoices, items, nextId, k, updated);
    invoices' := invoices[x.invoiceId := updated];
  }

  /** The ids of a list of invoices. */
  function IdsOf(invs: seq<Invoice>): set<Id>
  {
    set i | 0 <= i < |invs| :: invs[i].id
  }

  lemma IdsOfSnoc(invs: seq<Invoice>, inv: Invoice)
    ensures IdsOf(invs + [inv]) == IdsOf(invs) + {inv.id}
  {
    var invs' := invs + [inv];
    forall x | x in IdsOf(invs') ensures x in IdsOf(invs) + {inv.id} {
      var i :| 0 <= i < |invs'| && invs'[i].id == x;
      if i < |invs| {
        assert invs[i].id == x;
      }
    }
    forall x | x in IdsOf(invs) ensures x in IdsOf(invs') {
      var i :| 0 <= i < |invs| && invs[i].id == x;
      assert invs'[i].id == x;
    }
    assert invs'[|invs|].id == inv.id;
  }

  predicate DistinctInvoiceIds(invs: seq<Invoice>)
  {
    forall i, j :: 0 <= i < j < |invs| ==> invs[i].id != invs[j].id
  }

  /** Every invoice is stored under its own id. */
  predicate KeyedById(invoices: map<Id, Invoice>)
  {
    forall id :: id in invoices ==> invoices[id].id == id
  }

  /**
   * The overdue sweep part way: the matches not yet reached are `pending`,
   * every reached match is marked in the table and listed once.
   */
  predicate SweptSoFar(orig: map<Id, Invoice>, orgId: Id, today: int, pending: set<Id>,
                       swept: map<Id, Invoice>, marked: seq<Invoice>)
  {
    KeyedById(orig) && pending <= OverdueIds(orig, orgId, today) && swept.Keys == orig.Keys
    && (forall id :: id in orig ==>
          swept[id] == if id in OverdueIds(orig, orgId, today) && id !in pending then orig[id].(status := Overdue) else orig[id])
    && IdsOf(marked) == OverdueIds(orig, orgId, today) - pending && DistinctInvoiceIds(marked)
    && (forall i :: 0 <= i < |marked| ==> marked[i].id in orig && marked[i] == orig[marked[i].id].(status := Overdue))
  }

  lemma SweepStep(orig: map<Id, Invoice>, orgId: Id, today: int, pending: set<Id>,
                  swept: map<Id, Invoice>, marked: seq<Invoice>, id: Id)
    requires SweptSoFar(orig, orgId, today, pending, swept, marked) && id in pending
    ensures id in swept
    ensures SweptSoFar(orig, orgId, today, pending - {id}, swept[id := swept[id].(status := Overdue)],
                       marked + [swept[id].(status := Overdue)])
  {
    var inv := swept[id].(status := Overdue);
    var marked' := marked + [inv];
    IdsOfSnoc(marked, inv);
    forall i | 0 <= i < |marked| ensures marked[i].id != id {
      assert marked[i].id in IdsOf(marked);
    }
  }

  /** The overdue sweep over the table as a value: marks every match and lists each once. */
  method Sweep(invoices: map<Id, Invoice>, orgId: Id, today: int) returns (swept: map<Id, Invoice>, marked: seq<Invoice>)
    requires KeyedById(invoices)
    ensures swept == Swept(invoices, orgId, today)
    ensures IdsOf(marked) == OverdueIds(invoices, orgId, today) && DistinctInvoiceIds(marked)
    ensures forall i :: 0 <= i < |marked| ==> marked[i].id in invoices && marked[i] == invoices[marked[i].id].(status := Overdue)
    ensures forall i :: 0 <= i < |marked| ==> marked[i].id in swept && marked[i] == swept[marked[i].id]
  {
    var pending := OverdueIds(invoices, orgId, today);
    swept, marked := invoices, [];
    while pending != {}
      invariant SweptSoFar(invoices, orgId, today, pending, swept, marked)
      decreases pending
    {
      var id :| id in pending;
      SweepStep(invoices, orgId, today, pending, swept, marked, id);
      var inv := swept[id].(status := Overdue);
      swept, marked, pending := swept[id := inv], marked + [inv], pending - {id};
    }
    assert swept == Swept(invoices, orgId, today);
    forall i | 0 <= i < |marked| ensures marked[i].id in swept && marked[i] == swept[marked[i].id] {
      assert marked[i].id in IdsOf(marked);
    }
  }

  /** The invoice tables of one backend. */
  class InvoiceService {
    var invoices: map<Id, Invoice>
    var items: seq<Item>
    var nextId: nat

    ghost predicate Valid()
      reads this
    {
      StoreValid(invoices, items, nextId) && NumbersDistinct(invoices)
    }

    constructor ()
      ensures Valid() && invoices == map[] && items == [] && nextId == 0
    {
      invoices, items, nextId := map[], [], 0;
    }

    /** `findByIdAndOrgId`: an invoice of another organisation is not found. */
    function Lookup(id: Id, orgId: Id): (r: Result<Invoice>)
      reads this
      ensures r.Ok? <==> id in invoices && invoices[id].orgId == orgId
      ensures r.Ok? ==> r.value == invoices[id]
      ensures r.Err? ==> r.error == INVOICE_NOT_FOUND
    {
      if id in invoices && invoices[id].orgId == orgId then Ok(invoices[id]) else Err(INVOICE_NOT_FOUND)
    }

    /** `getInvoiceById`: the invoice with its items, when it belongs to the organisation. */
    function GetInvoiceById(id: Id, orgId: Id): (r: Result<(Invoice, seq<Item>)>)
      reads this
      requires Valid()
      ensures r.Ok? <==> Lookup(id, orgId).Ok?
      ensures r.Ok? ==> r.value.0.id == id && r.value.0.orgId == orgId
      ensures r.Ok? ==> r.value.0.totalAmount == r.value.0.subtotal + r.value.0.gstTotal
      ensures r.Ok? ==> forall i :: 0 <= i < |r.value.1| ==> r.value.1[i].invoiceId == id && r.value.1[i] in items
    {
      match Lookup(id, orgId)
      case Err(e) => Err(e)
      case Ok(inv) =>
        var its := ItemsOf(items, id);
        ItemsOfFromTable(items, id);
        assert forall i :: 0 <= i < |its| ==> Consistent(its[i].line) by {
          forall i | 0 <= i < |its| ensures Consistent(its[i].line) {
            var k :| 0 <= k < |items| && items[k] == its[i];
          }
        }
        StoredTotalsAddUp(inv, its);
        Ok((inv, its))
    }

    /**
     * `createInvoice`: clears the dto's id, validates it (which prices its
     * items and writes its totals), maps it, and stores the invoice under a
     * new id with its items under the ids after it.
     */
    method CreateInvoice(dto: InvoiceDto, orgId: Id, userId: Id, now: int) returns (r: Result<Invoice>)
      requires Valid()
      modifies this, dto
      ensures Valid()
      ensures dto.id.None?
      ensures r.Ok? <==>
        (old(dto.ExpectedError()).None? && ParseStatus(old(dto.status)).Ok? && TypesKnown(old(dto.items.value))
         && !NumberTaken(old(invoices), old(dto.invoiceNumber).value, old(nextId)))
      ensures old(dto.ExpectedError()).Some? ==> r == Err(old(dto.ExpectedError()).value)
      ensures (old(dto.ExpectedError()).None? && ParseStatus(old(dto.status)).Ok? && TypesKnown(old(dto.items.value))
               && NumberTaken(old(invoices), old(dto.invoiceNumber).value, old(nextId))) ==> r == Err(DUPLICATE_INVOICE_NUMBER)
      ensures r.Err? ==> invoices == old(invoices) && items == old(items) && nextId == old(nextId)
      ensures r.Ok? ==> Validated(dto) && Ok(r.value) == ToEntity(dto, old(nextId), orgId, now, now, userId)
      ensures r.Ok? ==> r.value.id !in old(invoices) && invoices == old(invoices)[r.value.id := r.value]
      ensures r.Ok? ==> Fresh(old(items), items, r.value.id, Lines(old(dto.items.value)))
    {
      dto.id := None;
      var error := dto.Validate();
      if error.Some? {
        return Err(error.value);
      }
      var entity := ToEntity(dto, nextId, orgId, now, now, userId);
      if entity.Err? {
        return Err(entity.error);
      }
      r := InsertNew(entity.value, dto.items.value, old(dto.items.value));
    }

    /** The rest of `createInvoice`, once validation has priced the items and the header is mapped: map the items, then store. */
    method InsertNew(inv: Invoice, dtos: seq<ItemDto>, ghost orig: seq<ItemDto>) returns (r: Result<Invoice>)
      requires Valid() && inv.id == nextId && Priceable(orig) && dtos == PricedItems(orig)
      requires inv.subtotal == SumSubtotal(Lines(orig)) && inv.gstTotal == SumGst(Lines(orig))
      requires inv.totalAmount == SumTotal(Lines(orig))
      modifies this
      ensures Valid()
      ensures r.Ok? <==> TypesKnown(orig) && !NumberTaken(old(invoices), inv.invoiceNumber, inv.id)
      ensures TypesKnown(orig) && NumberTaken(old(invoices), inv.invoiceNumber, inv.id) ==> r == Err(DUPLICATE_INVOICE_NUMBER)
      ensures r.Err? ==> invoices == old(invoices) && items == old(items) && nextId == old(nextId)
      ensures r.Ok? ==> r.value == inv && inv.id !in old(invoices) && invoices == old(invoices)[inv.id := inv]
      ensures r.Ok? ==> Fresh(old(items), items, inv.id, Lines(orig))
    {
      PricedItemsBecomeFresh(orig, nextId, nextId + 1);
      var newItems := ToItems(dtos, nextId, nextId + 1);
      if newItems.Err? {
        return Err(newItems.error);
      }
      if NumberTaken(invoices, inv.invoiceNumber, inv.id) {
        return Err(DUPLICATE_INVOICE_NUMBER);
      }
      var its := newItems.value;
      PricedItemsMapped(orig, nextId, nextId + 1, its);
      NewItemsMatch(orig, inv, its);
      StoreNew(inv, its);
      return Ok(inv);
    }

    /** Stores a new invoice under the next id, with its items under the ids after it. */
    method StoreNew(inv: Invoice, newItems: seq<Item>)
      requires Valid() && inv.id == nextId && FreshItems(newItems, inv.id, nextId + 1) && TotalsMatch(inv, newItems)
      requires !NumberTaken(invoices, inv.invoiceNumber, inv.id)
      modifies this
      ensures Valid() && inv.id !in old(invoices)
      ensures invoices == old(invoices)[inv.id := inv] && items == old(items) + newItems
      ensures nextId == old(nextId) + 1 + |newItems| && ItemsOf(items, inv.id) == newItems
      ensures Fresh(old(items), items, inv.id, LinesOf(newItems))
    {
      CreateKeepsValid(invoices, items, nextId, inv, newItems);
      FreeNumberKeepsDistinct(invoices, inv.id, inv);
      invoices, items, nextId := invoices[inv.id := inv], items + newItems, nextId + 1 + |newItems|;
      assert StoreValid(invoices, items, nextId);
      assert items[..|old(items)|] == old(items) && items[|old(items)|..] == newItems;
    }

    /** `getAllInvoices`: the organisation's invoices, and nothing else. */
    function GetAllInvoices(orgId: Id): (r: set<Invoice>)
      reads this
      requires Valid()
      ensures forall inv :: inv in r <==> Lookup(inv.id, orgId) == Ok(inv)
    {
      set id | id in invoices && invoices[id].orgId == orgId :: invoices[id]
    }

    /**
     * `updateInvoice`: only a draft of the organisation can be updated; the
     * dto is validated and mapped, keeping the id, the organisation and the
     * creation stamp; the invoice's old items are replaced by the dto's.
     */
    method UpdateInvoice(id: Id, dto: InvoiceDto, orgId: Id, now: int) returns (r: Result<Invoice>)
      requires Valid()
      modifies this, dto
      ensures Valid()
      ensures old(Lookup(id, orgId)).Err? ==> r == Err(INVOICE_NOT_FOUND) && unchanged(dto)
      ensures old(Lookup(id, orgId)).Ok? && !Editable(old(invoices[id].status)) ==> r == Err(UPDATE_DRAFT_ONLY) && unchanged(dto)
      ensures r.Ok? <==>
        (old(Lookup(id, orgId)).Ok? && Editable(old(invoices[id].status)) && old(dto.ExpectedError()).None?
         && ParseStatus(old(dto.status)).Ok? && TypesKnown(old(dto.items.value))
         && !NumberTaken(old(invoices), old(dto.invoiceNumber).value, id))
      ensures (old(Lookup(id, orgId)).Ok? && Editable(old(invoices[id].status)) && old(dto.ExpectedError()).None?
               && ParseStatus(old(dto.status)).Ok? && TypesKnown(old(dto.items.value))
               && NumberTaken(old(invoices), old(dto.invoiceNumber).value, id)) ==> r == Err(DUPLICATE_INVOICE_NUMBER)
      ensures r.Err? ==> invoices == old(invoices) && items == old(items) && nextId == old(nextId)
      ensures r.Ok? ==> Validated(dto)
      ensures r.Ok? ==> Ok(r.value) == ToEntity(dto, id, orgId, old(invoices[id].createdAt), now, old(invoices[id].createdBy))
      ensures r.Ok? ==> invoices == old(invoices)[id := r.value] && Replaced(old(items), items, id, Lines(old(dto.items.value)))
    {
      var existing := Lookup(id, orgId);
      if existing.Err? {
        return Err(existing.error);
      }
      if !Editable(existing.value.status) {
        return Err(UPDATE_DRAFT_ONLY);
      }
      var error := dto.Validate();
      if error.Some? {
        return Err(error.value);
      }
      var entity := ToEntity(dto, id, orgId, existing.value.createdAt, now, existing.value.createdBy);
      if entity.Err? {
        return Err(entity.error);
      }
      r := ReplaceExisting(entity.value, dto.items.value, old(dto.items.value));
    }

    /** The rest of `updateInvoice`, once validation has priced the items and the header is mapped. */
    method ReplaceExisting(inv: Invoice, dtos: seq<ItemDto>, ghost orig: seq<ItemDto>) returns (r: Result<Invoice>)
      requires Valid() && inv.id in invoices && Priceable(orig) && dtos == PricedItems(orig)
      requires inv.subtotal == SumSubtotal(Lines(orig)) && inv.gstTotal == SumGst(Lines(orig))
      requires inv.totalAmount == SumTotal(Lines(orig))
      modifies this
      ensures Valid()
      ensures r.Ok? <==> TypesKnown(orig) && !NumberTaken(old(invoices), inv.invoiceNumber, inv.id)
      ensures TypesKnown(orig) && NumberTaken(old(invoices), inv.invoiceNumber, inv.id) ==> r == Err(DUPLICATE_INVOICE_NUMBER)
      ensures r.Err? ==> invoices == old(invoices) && items == old(items) && nextId == old(nextId)
      ensures r.Ok? ==> r.value == inv && invoices == old(invoices)[inv.id := inv]
      ensures r.Ok? ==> Replaced(old(items), items, inv.id, Lines(orig))
    {
      PricedItemsBecomeFresh(orig, inv.id, nextId);
      var newItems := ToItems(dtos, inv.id, nextId);
      if newItems.Err? {
        return Err(newItems.error);
      }
      if NumberTaken(invoices, inv.invoiceNumber, inv.id) {
        return Err(DUPLICATE_INVOICE_NUMBER);
      }
      var its := newItems.value;
      PricedItemsMapped(orig, inv.id, nextId, its);
      NewItemsMatch(orig, inv, its);
      StoreReplacing(inv, its);
      return Ok(inv);
    }

    /** `deleteByInvoiceId` then `save`: the invoice's items are replaced by new ones under fresh ids. */
    method StoreReplacing(inv: Invoice, newItems: seq<Item>)
      requires Valid() && inv.id in invoices && FreshItems(newItems, inv.id, nextId) && TotalsMatch(inv, newItems)
      requires !NumberTaken(invoices, inv.invoiceNumber, inv.id)
      modifies this
      ensures Valid()
      ensures invoices == old(invoices)[inv.id := inv] && items == RemoveItemsOf(old(items), inv.id) + newItems
      ensures nextId == old(nextId) + |newItems|
      ensures Replaced(old(items), items, inv.id, LinesOf(newItems))
    {
      assert InvoiceMatches(invoices[inv.id], inv.id, items, nextId);
      ReplaceInvoiceKeepsValid(invoices, items, nextId, inv, newItems, nextId);
      ReplacedItemsOf(items, inv.id, newItems, inv.id);
      FreeNumberKeepsDistinct(invoices, inv.id, inv);
      var kept := RemoveItemsOf(items, inv.id);
      invoices, items, nextId := invoices[inv.id := inv], kept + newItems, nextId + |newItems|;
      assert StoreValid(invoices, items, nextId);
      assert items[..|kept|] == kept && items[|kept|..] == newItems;
    }

    /** `deleteInvoice`: any invoice of the organisation but a paid one; its items go with it. */
    method DeleteInvoice(id: Id, orgId: Id) returns (r: Result<()>)
      requires Valid()
      modifies this
      ensures Valid()
      ensures r.Ok? <==> old(Lookup(id, orgId)).Ok? && Deletable(old(invoices[id].status))
      ensures old(Lookup(id, orgId)).Err? ==> r == Err(INVOICE_NOT_FOUND)
      ensures old(Lookup(id, orgId)).Ok? && !Deletable(old(invoices[id].status)) ==> r == Err(DELETE_PAID)
      ensures r.Err? ==> invoices == old(invoices) && items == old(items)
      ensures r.Ok? ==> invoices == old(invoices) - {id} && items == RemoveItemsOf(old(items), id)
      ensures nextId == old(nextId)
    {
      var existing := Lookup(id, orgId);
      if existing.Err? {
        return Err(existing.error);
      }
      if !Deletable(existing.value.status) {
        return Err(DELETE_PAID);
      }
      DeleteInvoiceKeepsValid(invoices, items, nextId, id);
      SameNumbersKeepDistinct(invoices, invoices - {id});
      invoices, items := invoices - {id}, RemoveItemsOf(items, id);
      assert StoreValid(invoices, items, nextId);
      return Ok(());
    }

    /** `sendInvoice`: a draft of the organisation becomes sent. */
    method SendInvoice(id: Id, orgId: Id, now: int) returns (r: Result<Invoice>)
      requires Valid()
      modifies this
      ensures Valid()
      ensures r.Ok? <==> old(Lookup(id, orgId)).Ok? && SendStatus(old(invoices[id].status)).Ok?
      ensures old(Lookup(id, orgId)).Err? ==> r == Err(INVOICE_NOT_FOUND)
      ensures old(Lookup(id, orgId)).Ok? && r.Err? ==> r == Err(SendStatus(old(invoices[id].status)).error)
      ensures r.Err? ==> invoices == old(invoices)
      ensures r.Ok? ==> r.value == old(invoices[id]).(status := Sent, updatedAt := now) && invoices == old(invoices)[id := r.value]
      ensures items == old(items) && nextId == old(nextId)
    {
      var existing := Lookup(id, orgId);
      if existing.Err? {
        return Err(existing.error);
      }
      var status := SendStatus(existing.value.status);
      if status.Err? {
        return Err(status.error);
      }
      var inv := existing.value.(status := status.value, updatedAt := now);
      Save(inv);
      return Ok(inv);
    }

    /** `markPaid`: a sent invoice of the organisation becomes paid, today. */
    method MarkPaid(id: Id, orgId: Id, today: int, now: int) returns (r: Result<Invoice>)
      requires Valid()
      modifies this
      ensures Valid()
      ensures r.Ok? <==> old(Lookup(id, orgId)).Ok? && PayStatus(old(invoices[id].status)).Ok?
      ensures old(Lookup(id, orgId)).Err? ==> r == Err(INVOICE_NOT_FOUND)
      ensures old(Lookup(id, orgId)).Ok? && r.Err? ==> r == Err(PayStatus(old(invoices[id].status)).error)
      ensures r.Err? ==> invoices == old(invoices)
      ensures r.Ok? ==> r.value == old(invoices[id]).(status := Paid, paymentDate := Some(today), updatedAt := now)
      ensures r.Ok? ==> invoices == old(invoices)[id := r.value]
      ensures items == old(items) && nextId == old(nextId)
    {
      var existing := Lookup(id, orgId);
      if existing.Err? {
        return Err(existing.error);
      }
      var status := PayStatus(existing.value.status);
      if status.Err? {
        return Err(status.error);
      }
      var inv := existing.value.(status := status.value, paymentDate := Some(today), updatedAt := now);
      Save(inv);
      return Ok(inv);
    }

    /** `save` of a stored invoice whose totals are unchanged. */
    method Save(inv: Invoice)
      requires Valid() && inv.id in invoices
      requires inv.subtotal == invoices[inv.id].subtotal && inv.gstTotal == invoices[inv.id].gstTotal
      requires inv.totalAmount == invoices[inv.id].totalAmount && inv.invoiceNumber == invoices[inv.id].invoiceNumber
      modifies this
      ensures Valid()
      ensures invoices == old(invoices)[inv.id := inv] && items == old(items) && nextId == old(nextId)
    {
      SameTotalsKeepsValid(invoices, items, nextId, inv);
      SameNumberKeepsDistinct(invoices, inv.id, inv);
      invoices := invoices[inv.id := inv];
      assert StoreValid(invoices, items, nextId);
    }

    /**
     * `getOverdueInvoices`: every invoice of the organisation past its due
     * date and not paid is marked overdue, and the marked invoices are listed.
     */
    method GetOverdueInvoices(orgId: Id, today: int) returns (marked: seq<Invoice>)
      requires Valid()
      modifies this
      ensures Valid()
      ensures invoices == Swept(old(invoices), orgId, today) && items == old(items) && nextId == old(nextId)
      ensures IdsOf(marked) == OverdueIds(old(invoices), orgId, today) && DistinctInvoiceIds(marked)
      ensures forall i :: 0 <= i < |marked| ==> marked[i].id in invoices && marked[i] == invoices[marked[i].id]
      ensures forall i :: 0 <= i < |marked| ==> marked[i] == old(invoices)[marked[i].id].(status := Overdue)
    {
      assert KeyedById(invoices) by {
        forall id | id in invoices ensures invoices[id].id == id {
          assert InvoiceMatches(invoices[id], id, items, nextId);
        }
      }
      var swept;
      swept, marked := Sweep(invoices, orgId, today);
      SweepKeepsValid(invoices, items, nextId, orgId, today);
      SameNumbersKeepDistinct(invoices, swept);
      invoices := swept;
      assert StoreValid(invoices, items, nextId);
    }

    /**
     * `addItem`: a new item of a draft of the organisation, priced, under
     * the next id; the invoice's totals are then summed again over its items.
     */
    method AddItem(invoiceId: Id, dto: ItemDto, orgId: Id, now: int) returns (r: Result<Item>)
      requires Valid()
      modifies this
      ensures Valid()
      ensures r.Ok? <==>
        (old(Lookup(invoiceId, orgId)).Ok? && Editable(old(invoices[invoiceId].status))
         && ParseItemType(dto.itemType).Ok? && PriceItem(ParseItemType(dto.itemType).value, dto).Ok?)
      ensures old(Lookup(invoiceId, orgId)).Err? ==> r == Err(INVOICE_NOT_FOUND)
      ensures old(Lookup(invoiceId, orgId)).Ok? && !Editable(old(invoices[invoiceId].status)) ==> r == Err(ADD_ITEM_DRAFT_ONLY)
      ensures r.Err? ==> invoices == old(invoices) && items == old(items) && nextId == old(nextId)
      ensures r.Ok? ==> r.value.id == old(nextId) && r.value.invoiceId == invoiceId
      ensures r.Ok? ==> ToItemDto(r.value) == dto.(line := Some(r.value.line)) && Ok(r.value.line) == PriceItem(r.value.itemType, dto)
      ensures r.Ok? ==> items == old(items) + [r.value] && nextId == old(nextId) + 1
      ensures r.Ok? ==> invoices == old(invoices)[invoiceId := Shift(old(invoices[invoiceId]), NoLine, r.value.line, now)]
    {
      var existing := Lookup(invoiceId, orgId);
      if existing.Err? {
        return Err(existing.error);
      }
      if !Editable(existing.value.status) {
        return Err(ADD_ITEM_DRAFT_ONLY);
      }
      var t := ParseItemType(dto.itemType);
      if t.Err? {
        return Err(t.error);
      }
      var line := PriceItem(t.value, dto);
      if line.Err? {
        return Err(line.error);
      }
      var item := Item(nextId, invoiceId, t.value, dto.description, dto.quantity, dto.rate.value, dto.gstPercent.value, line.value);
      AppendItem(item, now);
      return Ok(item);
    }

    /** `save` of a new item, then `recalculateInvoiceTotals` over the invoice's items. */
    method AppendItem(x: Item, now: int)
      requires Valid() && x.invoiceId in invoices && x.id == nextId && Consistent(x.line)
      modifies this
      ensures Valid()
      ensures items == old(items) + [x] && nextId == old(nextId) + 1
      ensures invoices == old(invoices)[x.invoiceId := Shift(old(invoices[x.invoiceId]), NoLine, x.line, now)]
    {
      var items', nextId' := items + [x], nextId + 1;
      SameNumberKeepsDistinct(invoices, x.invoiceId, Shift(invoices[x.invoiceId], NoLine, x.line, now));
      var invoices' := Appended(invoices, items, nextId, x, now);
      invoices, items, nextId := invoices', items', nextId';
      assert StoreValid(invoices', items', nextId');
    }

    /**
     * The guards of `updateItem` and `deleteItem`: the item exists, its
     * invoice belongs to the organisation, and that invoice is a draft.
     */
    function DraftItem(itemId: Id, orgId: Id, notDraft: string): (r: Result<nat>)
      reads this
      ensures FindItem(items, itemId).None? ==> r == Err(ITEM_NOT_FOUND)
      ensures FindItem(items, itemId).Some? ==>
        var x := items[FindItem(items, itemId).value];
        (Lookup(x.invoiceId, orgId).Err? ==> r == Err(INVOICE_NOT_FOUND))
        && (Lookup(x.invoiceId, orgId).Ok? && !Editable(invoices[x.invoiceId].status) ==> r == Err(notDraft))
        && (Lookup(x.invoiceId, orgId).Ok? && Editable(invoices[x.invoiceId].status) ==> r == Ok(FindItem(items, itemId).value))
    {
      match FindItem(items, itemId)
      case None => Err(ITEM_NOT_FOUND)
      case Some(k) =>
        match Lookup(items[k].invoiceId, orgId)
        case Err(e) => Err(e)
        case Ok(inv) => if Editable(inv.status) then Ok(k) else Err(notDraft)
    }

    /**
     * `updateItem`: an item of a draft of the organisation takes the
     * client's description, quantity, rate and tax rate (its type stays),
     * is priced again, and the invoice's totals are summed again.
     */
    method UpdateItem(itemId: Id, dto: ItemDto, orgId: Id, now: int) returns (r: Result<()>)
      requires Valid()
      modifies this
      ensures Valid()
      ensures old(DraftItem(itemId, orgId, UPDATE_ITEM_DRAFT_ONLY)).Err? ==> r == Err(old(DraftItem(itemId, orgId, UPDATE_ITEM_DRAFT_ONLY)).error)
      ensures r.Ok? ==> old(DraftItem(itemId, orgId, UPDATE_ITEM_DRAFT_ONLY)).Ok?
      ensures old(DraftItem(itemId, orgId, UPDATE_ITEM_DRAFT_ONLY)).Ok? ==>
        var x := old(items)[old(DraftItem(itemId, orgId, UPDATE_ITEM_DRAFT_ONLY)).value];
        (r.Ok? <==> PriceItem(x.itemType, dto).Ok?) && (r.Err? ==> r == Err(NULL_POINTER))
      ensures r.Err? ==> invoices == old(invoices) && items == old(items)
      ensures nextId == old(nextId)
      ensures r.Ok? ==>
        var k := old(DraftItem(itemId, orgId, UPDATE_ITEM_DRAFT_ONLY)).value;
        var x := old(items)[k];
        var line := PriceItem(x.itemType, dto).value;
        items == old(items)[k := x.(description := dto.description, quantity := dto.quantity, rate := dto.rate.value,
                                     gstPercent := dto.gstPercent.value, line := line)]
      ensures r.Ok? ==>
        var x := old(items)[old(DraftItem(itemId, orgId, UPDATE_ITEM_DRAFT_ONLY)).value];
        var line := PriceItem(x.itemType, dto).value;
        invoices == old(invoices)[x.invoiceId := Shift(old(invoices)[x.invoiceId], x.line, line, now)]
    {
      var k := DraftItem(itemId, orgId, UPDATE_ITEM_DRAFT_ONLY);
      if k.Err? {
        return Err(k.error);
      }
      var x := items[k.value];
      var line := PriceItem(x.itemType, dto);
      if line.Err? {
        return Err(line.error);
      }
      var x' := x.(description := dto.description, quantity := dto.quantity, rate := dto.rate.value,
                   gstPercent := dto.gstPercent.value, line := line.value);
      RewriteItem(k.value, x', now);
      return Ok(());
    }

    /** `save` of a rewritten item, then `recalculateInvoiceTotals` over the invoice's items. */
    method RewriteItem(k: nat, x: Item, now: int)
      requires Valid() && k < |items| && x.id == items[k].id && x.invoiceId == items[k].invoiceId && Consistent(x.line)
      modifies this
      ensures Valid()
      ensures items == old(items)[k := x] && nextId == old(nextId)
      ensures x.invoiceId in old(invoices)
      ensures invoices == old(invoices)[x.invoiceId := Shift(old(invoices[x.invoiceId]), old(items[k].line), x.line, now)]
    {
      SameNumberKeepsDistinct(invoices, x.invoiceId, Shift(invoices[x.invoiceId], items[k].line, x.line, now));
      var invoices' := Rewritten(invoices, items, nextId, k, x, now);
      invoices, items := invoices', items[k := x];
    }

    /** `deleteItem`: an item of a draft of the organisation is removed and the invoice's totals are summed again. */
    method DeleteItem(itemId: Id, orgId: Id, now: int) returns (r: Result<()>)
      requires Valid()
      modifies this
      ensures Valid()
      ensures r.Ok? <==> old(DraftItem(itemId, orgId, DELETE_ITEM_DRAFT_ONLY)).Ok?
      ensures r.Err? ==> r == Err(old(DraftItem(itemId, orgId, DELETE_ITEM_DRAFT_ONLY)).error)
      ensures r.Err? ==> invoices == old(invoices) && items == old(items)
      ensures nextId == old(nextId)
      ensures r.Ok? ==>
        var k := old(DraftItem(itemId, orgId, DELETE_ITEM_DRAFT_ONLY)).value;
        items == old(items)[..k] + old(items)[k + 1..]
      ensures r.Ok? ==>
        var x := old(items)[old(DraftItem(itemId, orgId, DELETE_ITEM_DRAFT_ONLY)).value];
        invoices == old(invoices)[x.invoiceId := Shift(old(invoices)[x.invoiceId], x.line, NoLine, now)]
    {
      var k := DraftItem(itemId, orgId, DELETE_ITEM_DRAFT_ONLY);
      if k.Err? {
        return Err(k.error);
      }
      RemoveItem(k.value, now);
      return Ok(());
    }

    /** `deleteById` of an item, then `recalculateInvoiceTotals` over the invoice's remaining items. */
    method RemoveItem(k: nat, now: int)
      requires Valid() && k < |items|
      modifies this
      ensures Valid()
      ensures items == old(items)[..k] + old(items)[k + 1..] && nextId == old(nextId)
      ensures old(items[k].invoiceId) in old(invoices)
      ensures invoices == old(invoices)[old(items[k].invoiceId) := Shift(old(invoices[items[k].invoiceId]), old(items[k].line), NoLine, now)]
    {
      SameNumberKeepsDistinct(invoices, items[k].invoiceId, Shift(invoices[items[k].invoiceId], items[k].line, NoLine, now));
      var invoices' := Removed(invoices, items, nextId, k, now);
      invoices, items := invoices', items[..k] + items[k + 1..];
    }
  }
}
