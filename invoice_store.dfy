/**
 * The invoice tables as values: the stored invoice and item records, the
 * items of one invoice, and the store invariant the service keeps — every
 * invoice's totals are the sums of its items' lines — together with the
 * unique invoice-number column.
 */
module InvoiceStore {
  import opened Wrappers
  import opened Invoices

  /** A stored invoice. Dates are day numbers, timestamps are instants. */
  datatype Invoice = Invoice(id: Id, orgId: Id, invoiceNumber: string, clientId: Id, issueDate: int, dueDate: int,
                             status: InvoiceStatus, subtotal: real, gstTotal: real, totalAmount: real,
                             currency: Option<string>, paymentDate: Option<int>, notes: Option<string>,
                             createdAt: int, updatedAt: int, createdBy: Id)

  /** A stored invoice line. */
  datatype Item = Item(id: Id, invoiceId: Id, itemType: ItemType, description: Option<string>,
                       quantity: Option<int>, rate: real, gstPercent: real, line: Line)

  /** `findByInvoiceId`: the items of one invoice, in table order. */
  function ItemsOf(items: seq<Item>, invoiceId: Id): (r: seq<Item>)
    ensures |r| <= |items|
    ensures forall i :: 0 <= i < |r| ==> r[i].invoiceId == invoiceId
    ensures (forall i :: 0 <= i < |items| ==> items[i].invoiceId != invoiceId) ==> r == []
  {
    if items == [] then []
    else
      var last := items[|items| - 1];
      ItemsOf(items[..|items| - 1], invoiceId) + (if last.invoiceId == invoiceId then [last] else [])
  }

  /** The items of an invoice come from the table. */
  lemma {:induction false} ItemsOfFromTable(items: seq<Item>, invoiceId: Id)
    ensures forall i :: 0 <= i < |ItemsOf(items, invoiceId)| ==> ItemsOf(items, invoiceId)[i] in items
    decreases |items|
  {
    if items != [] {
      var init := items[..|items| - 1];
      ItemsOfFromTable(init, invoiceId);
      assert forall x :: x in init ==> x in items;
    }
  }

  function LinesOf(its: seq<Item>): (r: seq<Line>)
    ensures |r| == |its| && forall i :: 0 <= i < |its| ==> r[i] == its[i].line
  {
    if its == [] then [] else LinesOf(its[..|its| - 1]) + [its[|its| - 1].line]
  }

  /** The invoice's three totals are the sums over the given lines. */
  predicate TotalsMatch(inv: Invoice, its: seq<Item>)
  {
    inv.subtotal == SumSubtotal(LinesOf(its)) && inv.gstTotal == SumGst(LinesOf(its))
    && inv.totalAmount == SumTotal(LinesOf(its))
  }

  /**
   * The store invariant: ids are below the next id to hand out and item ids
   * are distinct; every item belongs to a stored invoice and has a consistent
   * line; and every invoice's totals are the sums over its items.
   */
  ghost predicate StoreValid(invoices: map<Id, Invoice>, items: seq<Item>, nextId: nat)
  {
    InvoicesMatch(invoices, items, nextId) && ItemsBelong(invoices, items, nextId) && DistinctIds(items)
  }

  ghost predicate InvoicesMatch(invoices: map<Id, Invoice>, items: seq<Item>, nextId: nat)
  {
    forall id {:trigger invoices[id]} :: id in invoices ==> InvoiceMatches(invoices[id], id, items, nextId)
  }

  /** One stored invoice: under its own id, below the next id, with totals summed from its items. */
  predicate InvoiceMatches(inv: Invoice, id: Id, items: seq<Item>, nextId: nat)
  {
    inv.id == id && id < nextId && TotalsMatch(inv, ItemsOf(items, id))
  }

  ghost predicate ItemsBelong(invoices: map<Id, Invoice>, items: seq<Item>, nextId: nat)
  {
    forall i :: 0 <= i < |items| ==> items[i].invoiceId in invoices && items[i].id < nextId && Consistent(items[i].line)
  }

  /** The unique `invoiceNumber` column: no two stored invoices share a number. */
  predicate NumbersDistinct(invoices: map<Id, Invoice>)
  {
    forall a, b :: a in invoices && b in invoices && invoices[a].invoiceNumber == invoices[b].invoiceNumber ==> a == b
  }

  /** Whether an invoice stored under an id other than `id` already holds `number`, so that `save` would refuse it. */
  predicate NumberTaken(invoices: map<Id, Invoice>, number: string, id: Id)
  {
    exists other :: other in invoices && other != id && invoices[other].invoiceNumber == number
  }

  /** In a table with distinct numbers, a stored invoice's own number is held by no other invoice. */
  lemma OwnNumberFree(invoices: map<Id, Invoice>, id: Id)
    requires NumbersDistinct(invoices) && id in invoices
    ensures !NumberTaken(invoices, invoices[id].invoiceNumber, id)
  {
  }

  /** Storing an invoice under `id` with a number no other invoice holds keeps the numbers distinct. */
  lemma FreeNumberKeepsDistinct(invoices: map<Id, Invoice>, id: Id, inv: Invoice)
    requires NumbersDistinct(invoices) && !NumberTaken(invoices, inv.invoiceNumber, id)
    ensures NumbersDistinct(invoices[id := inv])
  {
    var t := invoices[id := inv];
    forall a, b | a in t && b in t && a != b
      ensures t[a].invoiceNumber != t[b].invoiceNumber
    {
      if a == id {
        assert !(b in invoices && b != id && invoices[b].invoiceNumber == inv.invoiceNumber);
      } else if b == id {
        assert !(a in invoices && a != id && invoices[a].invoiceNumber == inv.invoiceNumber);
      }
    }
  }

  /** Replacing a stored invoice by one with the same number keeps the numbers distinct. */
  lemma SameNumberKeepsDistinct(invoices: map<Id, Invoice>, id: Id, inv: Invoice)
    requires NumbersDistinct(invoices) && id in invoices && inv.invoiceNumber == invoices[id].invoiceNumber
    ensures NumbersDistinct(invoices[id := inv])
  {
    OwnNumberFree(invoices, id);
    FreeNumberKeepsDistinct(invoices, id, inv);
  }

  /** Dropping invoices or changing anything but their numbers keeps the numbers distinct. */
  lemma SameNumbersKeepDistinct(invoices: map<Id, Invoice>, invoices': map<Id, Invoice>)
    requires NumbersDistinct(invoices) && invoices'.Keys <= invoices.Keys
    requires forall id :: id in invoices' ==> invoices'[id].invoiceNumber == invoices[id].invoiceNumber
    ensures NumbersDistinct(invoices')
  {
  }

  /** In a valid store every invoice's total is its subtotal plus its tax. */
  lemma StoredTotalsAddUp(inv: Invoice, its: seq<Item>)
    requires TotalsMatch(inv, its) && forall i :: 0 <= i < |its| ==> Consistent(its[i].line)
    ensures inv.totalAmount == inv.subtotal + inv.gstTotal
  {
    SumsConsistent(LinesOf(its));
  }

  lemma {:induction false} ItemsOfAppend(a: seq<Item>, b: seq<Item>, invoiceId: Id)
    ensures ItemsOf(a + b, invoiceId) == ItemsOf(a, invoiceId) + ItemsOf(b, invoiceId)
    decreases |b|
  {
    if b == [] {
      assert a + b == a;
    } else {
      assert (a + b)[..|a + b| - 1] == a + b[..|b| - 1];
      ItemsOfAppend(a, b[..|b| - 1], invoiceId);
    }
  }

  lemma {:induction false} LinesOfAppend(a: seq<Item>, b: seq<Item>)
    ensures LinesOf(a + b) == LinesOf(a) + LinesOf(b)
  {
  }

  /** Every item in `b` belongs to the invoice, so all of them are its items. */
  lemma {:induction false} ItemsOfAllMatch(b: seq<Item>, invoiceId: Id)
    requires forall i :: 0 <= i < |b| ==> b[i].invoiceId == invoiceId
    ensures ItemsOf(b, invoiceId) == b
    decreases |b|
  {
    if b != [] {
      ItemsOfAllMatch(b[..|b| - 1], invoiceId);
    }
  }

  /** `deleteByInvoiceId`: the table without the invoice's items. */
  function RemoveItemsOf(items: seq<Item>, invoiceId: Id): (r: seq<Item>)
    ensures |r| <= |items|
    ensures forall i :: 0 <= i < |r| ==> r[i].invoiceId != invoiceId && r[i] in items
  {
    if items == [] then []
    else
      var last := items[|items| - 1];
      RemoveItemsOf(items[..|items| - 1], invoiceId) + (if last.invoiceId != invoiceId then [last] else [])
  }

  /** Removing one invoice's items leaves every other invoice's items as they were. */
  lemma {:induction false} RemoveItemsOfKeepsOthers(items: seq<Item>, invoiceId: Id, other: Id)
    requires other != invoiceId
    ensures ItemsOf(RemoveItemsOf(items, invoiceId), other) == ItemsOf(items, other)
    decreases |items|
  {
    if items != [] {
      var init, last := items[..|items| - 1], items[|items| - 1];
      RemoveItemsOfKeepsOthers(init, invoiceId, other);
      ItemsOfAppend(RemoveItemsOf(init, invoiceId), if last.invoiceId != invoiceId then [last] else [], other);
    }
  }

  /** Items in table order, indexed by position; the first with the given id. */
  function FindItem(items: seq<Item>, itemId: Id): (k: Option<nat>)
    ensures k.Some? ==> k.value < |items| && items[k.value].id == itemId
    ensures k.None? <==> forall i :: 0 <= i < |items| ==> items[i].id != itemId
  {
    if items == [] then None
    else if items[0].id == itemId then Some(0)
    else match FindItem(items[1..], itemId)
      case None => None
      case Some(k) => Some(k + 1)
  }

  /** Replacing an item by one of the same invoice changes no other invoice's items. */
  lemma {:induction false} UpdateKeepsOthers(items: seq<Item>, k: nat, x: Item, other: Id)
    requires k < |items| && items[k].invoiceId == x.invoiceId != other
    ensures ItemsOf(items[k := x], other) == ItemsOf(items, other)
    decreases |items|
  {
    var items' := items[k := x];
    if k == |items| - 1 {
      assert items'[..|items'| - 1] == items[..|items| - 1];
    } else {
      assert items'[..|items'| - 1] == items[..|items| - 1][k := x];
      UpdateKeepsOthers(items[..|items| - 1], k, x, other);
    }
  }

  /** Removing the item at `k` changes no other invoice's items. */
  lemma RemoveAtKeepsOthers(items: seq<Item>, k: nat, other: Id)
    requires k < |items| && items[k].invoiceId != other
    ensures ItemsOf(items[..k] + items[k + 1..], other) == ItemsOf(items, other)
  {
    var pre, x, post := items[..k], [items[k]], items[k + 1..];
    assert items == pre + (x + post);
    ItemsOfAppend(pre, x + post, other);
    ItemsOfAppend(x, post, other);
    ItemsOfAppend(pre, post, other);
    var none := ItemsOf(x, other);
    assert none == [];
    calc {
      ItemsOf(items, other);
      ItemsOf(pre, other) + (none + ItemsOf(post, other));
      { assert none + ItemsOf(post, other) == ItemsOf(post, other); }
      ItemsOf(pre, other) + ItemsOf(post, other);
    }
  }

  /** `deleteByInvoiceId` when the invoice has no items changes nothing. */
  lemma {:induction false} RemoveItemsOfNone(items: seq<Item>, invoiceId: Id)
    requires forall i :: 0 <= i < |items| ==> items[i].invoiceId != invoiceId
    ensures RemoveItemsOf(items, invoiceId) == items
    decreases |items|
  {
    if items != [] {
      var last := items[|items| - 1];
      RemoveItemsOfNone(items[..|items| - 1], invoiceId);
      assert last.invoiceId != invoiceId;
      assert items == items[..|items| - 1] + [last];
    }
  }

  lemma {:induction false} RemoveItemsOfEmpties(items: seq<Item>, invoiceId: Id)
    ensures ItemsOf(RemoveItemsOf(items, invoiceId), invoiceId) == []
  {
  }

  /** Fresh items: consecutive ids from `first`, all of one invoice, with consistent lines. */
  predicate FreshItems(newItems: seq<Item>, invoiceId: Id, first: nat)
  {
    forall i :: 0 <= i < |newItems| ==>
      newItems[i].id == first + i && newItems[i].invoiceId == invoiceId && Consistent(newItems[i].line)
  }

  /**
   * Storing an invoice together with a fresh set of items (replacing the
   * invoice's old ones) keeps the store valid when the invoice's totals are
   * the sums over the new items.
   */
  lemma ReplaceInvoiceKeepsValid(invoices: map<Id, Invoice>, items: seq<Item>, nextId: nat,
                                 inv: Invoice, newItems: seq<Item>, first: nat)
    requires StoreValid(invoices, items, nextId)
    requires inv.id in invoices || inv.id == nextId
    requires nextId <= first && inv.id < first && FreshItems(newItems, inv.id, first)
    requires TotalsMatch(inv, newItems)
    ensures StoreValid(invoices[inv.id := inv], RemoveItemsOf(items, inv.id) + newItems, first + |newItems|)
  {
    ReplaceKeepsTotals(invoices, items, nextId, inv, newItems, first);
    ReplaceKeepsMembership(invoices, items, nextId, inv, newItems, first);
    ReplaceKeepsDistinct(items, nextId, inv.id, newItems, first);
  }

  lemma ReplaceKeepsTotals(invoices: map<Id, Invoice>, items: seq<Item>, nextId: nat,
                           inv: Invoice, newItems: seq<Item>, first: nat)
    requires InvoicesMatch(invoices, items, nextId)
    requires inv.id in invoices || inv.id == nextId
    requires nextId <= first && inv.id < first && FreshItems(newItems, inv.id, first)
    requires TotalsMatch(inv, newItems)
    ensures InvoicesMatch(invoices[inv.id := inv], RemoveItemsOf(items, inv.id) + newItems, first + |newItems|)
  {
    var invoices', items' := invoices[inv.id := inv], RemoveItemsOf(items, inv.id) + newItems;
    forall id | id in invoices'
      ensures invoices'[id].id == id && id < first + |newItems| && TotalsMatch(invoices'[id], ItemsOf(items', id))
    {
      ReplacedItemsOf(items, inv.id, newItems, id);
    }
  }

  /** After the replacement an invoice's items are the new ones if it is the replaced invoice, and its old ones otherwise. */
  lemma ReplacedItemsOf(items: seq<Item>, invoiceId: Id, newItems: seq<Item>, id: Id)
    requires forall i :: 0 <= i < |newItems| ==> newItems[i].invoiceId == invoiceId
    ensures ItemsOf(RemoveItemsOf(items, invoiceId) + newItems, id) == if id == invoiceId then newItems else ItemsOf(items, id)
  {
    var kept := RemoveItemsOf(items, invoiceId);
    ItemsOfAppend(kept, newItems, id);
    if id == invoiceId {
      RemoveItemsOfEmpties(items, id);
      ItemsOfAllMatch(newItems, id);
      assert ItemsOf(kept + newItems, id) == [] + newItems;
    } else {
      RemoveItemsOfKeepsOthers(items, invoiceId, id);
      assert ItemsOf(newItems, id) == [];
      assert ItemsOf(kept + newItems, id) == ItemsOf(items, id) + [];
    }
  }

  lemma ReplaceKeepsMembership(invoices: map<Id, Invoice>, items: seq<Item>, nextId: nat,
                               inv: Invoice, newItems: seq<Item>, first: nat)
    requires ItemsBelong(invoices, items, nextId)
    requires nextId <= first && FreshItems(newItems, inv.id, first)
    ensures ItemsBelong(invoices[inv.id := inv], RemoveItemsOf(items, inv.id) + newItems, first + |newItems|)
  {
    var kept := RemoveItemsOf(items, inv.id);
    var items' := kept + newItems;
    forall i | 0 <= i < |items'|
      ensures items'[i].invoiceId in invoices[inv.id := inv] && items'[i].id < first + |newItems| && Consistent(items'[i].line)
    {
      if i < |kept| {
        assert items'[i] == kept[i] && kept[i] in items;
      } else {
        assert items'[i] == newItems[i - |kept|];
      }
    }
  }

  lemma ReplaceKeepsDistinct(items: seq<Item>, nextId: nat, invoiceId: Id, newItems: seq<Item>, first: nat)
    requires DistinctIds(items) && forall i :: 0 <= i < |items| ==> items[i].id < nextId
    requires nextId <= first && FreshItems(newItems, invoiceId, first)
    ensures DistinctIds(RemoveItemsOf(items, invoiceId) + newItems)
  {
    var kept := RemoveItemsOf(items, invoiceId);
    var items' := kept + newItems;
    RemoveItemsOfDistinct(items, invoiceId);
    forall i, j | 0 <= i < j < |items'| ensures items'[i].id != items'[j].id {
      if j < |kept| {
        assert items'[i] == kept[i] && items'[j] == kept[j];
      } else if i < |kept| {
        assert items'[i] == kept[i] && kept[i] in items;
        assert items'[j] == newItems[j - |kept|];
      } else {
        assert items'[i] == newItems[i - |kept|] && items'[j] == newItems[j - |kept|];
      }
    }
  }

  predicate DistinctIds(items: seq<Item>)
  {
    forall i, j :: 0 <= i < j < |items| ==> items[i].id != items[j].id
  }

  lemma {:induction false} RemoveItemsOfDistinct(items: seq<Item>, invoiceId: Id)
    requires DistinctIds(items)
    ensures DistinctIds(RemoveItemsOf(items, invoiceId))
    decreases |items|
  {
    if items != [] {
      var init, last := items[..|items| - 1], items[|items| - 1];
      RemoveItemsOfDistinct(init, invoiceId);
      var r := RemoveItemsOf(init, invoiceId);
      forall i | 0 <= i < |r| ensures r[i].id != last.id {
        var a :| 0 <= a < |init| && init[a] == r[i];
        assert items[a] == init[a];
      }
    }
  }

  /** Deleting an invoice together with its items keeps the store valid. */
  lemma DeleteInvoiceKeepsValid(invoices: map<Id, Invoice>, items: seq<Item>, nextId: nat, id: Id)
    requires StoreValid(invoices, items, nextId)
    ensures StoreValid(invoices - {id}, RemoveItemsOf(items, id), nextId)
  {
    var kept := RemoveItemsOf(items, id);
    forall other | other in invoices - {id}
      ensures TotalsMatch((invoices - {id})[other], ItemsOf(kept, other))
    {
      RemoveItemsOfKeepsOthers(items, id, other);
    }
    forall i | 0 <= i < |kept| ensures kept[i].invoiceId in invoices - {id} && kept[i].id < nextId && Consistent(kept[i].line) {
      assert kept[i] in items;
    }
    RemoveItemsOfDistinct(items, id);
  }

  /** Changing an invoice's header or status while keeping its totals keeps the store valid. */
  lemma SameTotalsKeepsValid(invoices: map<Id, Invoice>, items: seq<Item>, nextId: nat, inv: Invoice)
    requires StoreValid(invoices, items, nextId)
    requires inv.id in invoices
    requires inv.subtotal == invoices[inv.id].subtotal && inv.gstTotal == invoices[inv.id].gstTotal
    requires inv.totalAmount == invoices[inv.id].totalAmount
    ensures StoreValid(invoices[inv.id := inv], items, nextId)
  {
  }

  /**
   * Recalculating one invoice's totals after its items changed keeps the
   * store valid, provided no other invoice's items changed and the changed
   * table still satisfies the item conditions.
   */
  lemma RetotalKeepsValid(invoices: map<Id, Invoice>, items: seq<Item>, nextId: nat,
                          items': seq<Item>, nextId': nat, inv: Invoice)
    requires InvoicesMatch(invoices, items, nextId)
    requires inv.id in invoices && nextId <= nextId'
    requires ItemsBelong(invoices, items', nextId') && DistinctIds(items')
    requires forall y :: y in invoices && y != inv.id ==> ItemsOf(items', y) == ItemsOf(items, y)
    requires TotalsMatch(inv, ItemsOf(items', inv.id))
    ensures StoreValid(invoices[inv.id := inv], items', nextId')
  {
    var invoices' := invoices[inv.id := inv];
    forall y | y in invoices'
      ensures invoices'[y].id == y && y < nextId' && TotalsMatch(invoices'[y], ItemsOf(items', y))
    {
      if y != inv.id {
        assert invoices'[y] == invoices[y];
      }
    }
    forall i | 0 <= i < |items'|
      ensures items'[i].invoiceId in invoices' && items'[i].id < nextId' && Consistent(items'[i].line)
    {
      assert items'[i].invoiceId in invoices;
    }
  }

  /** Appending a fresh item to a stored invoice leaves the other invoices' items and the item conditions intact. */
  lemma AppendItemShape(invoices: map<Id, Invoice>, items: seq<Item>, nextId: nat, x: Item)
    requires ItemsBelong(invoices, items, nextId) && DistinctIds(items)
    requires x.invoiceId in invoices && x.id == nextId && Consistent(x.line)
    ensures ItemsBelong(invoices, items + [x], nextId + 1) && DistinctIds(items + [x])
    ensures forall y :: y != x.invoiceId ==> ItemsOf(items + [x], y) == ItemsOf(items, y)
  {
    var items' := items + [x];
    forall y | y != x.invoiceId ensures ItemsOf(items', y) == ItemsOf(items, y) {
      assert items'[..|items'| - 1] == items;
    }
    forall i | 0 <= i < |items'| ensures items'[i].invoiceId in invoices && items'[i].id < nextId + 1 && Consistent(items'[i].line) {
      if i < |items| { assert items'[i] == items[i]; }
    }
    forall i, j | 0 <= i < j < |items'| ensures items'[i].id != items'[j].id {
      assert items'[i] == items[i];
      if j < |items| { assert items'[j] == items[j]; }
    }
  }

  /** `addItem`: appending a fresh item to an invoice and recalculating its totals keeps the store valid. */
  lemma AddItemKeepsValid(invoices: map<Id, Invoice>, items: seq<Item>, nextId: nat, x: Item, inv: Invoice)
    requires StoreValid(invoices, items, nextId)
    requires inv.id in invoices && x.invoiceId == inv.id && x.id == nextId && Consistent(x.line)
    requires TotalsMatch(inv, ItemsOf(items + [x], inv.id))
    ensures StoreValid(invoices[inv.id := inv], items + [x], nextId + 1)
  {
    var items' := items + [x];
    AppendItemShape(invoices, items, nextId, x);
    RetotalKeepsValid(invoices, items, nextId, items', nextId + 1, inv);
  }

  /** Rewriting an item in place, keeping its id and invoice, leaves the other invoices' items and the item conditions intact. */
  lemma RewriteItemShape(invoices: map<Id, Invoice>, items: seq<Item>, nextId: nat, k: nat, x: Item)
    requires ItemsBelong(invoices, items, nextId) && DistinctIds(items)
    requires k < |items| && x.id == items[k].id && x.invoiceId == items[k].invoiceId && Consistent(x.line)
    ensures ItemsBelong(invoices, items[k := x], nextId) && DistinctIds(items[k := x])
    ensures forall y :: y != x.invoiceId ==> ItemsOf(items[k := x], y) == ItemsOf(items, y)
  {
    var items' := items[k := x];
    forall y | y != x.invoiceId ensures ItemsOf(items', y) == ItemsOf(items, y) {
      UpdateKeepsOthers(items, k, x, y);
    }
    forall i | 0 <= i < |items'| ensures items'[i].invoiceId in invoices && items'[i].id < nextId && Consistent(items'[i].line) {
      if i != k { assert items'[i] == items[i]; }
    }
    forall i, j | 0 <= i < j < |items'| ensures items'[i].id != items'[j].id {
      assert items'[i].id == items[i].id && items'[j].id == items[j].id;
    }
  }

  /** `updateItem`: rewriting an item in place (same id and invoice) and recalculating keeps the store valid. */
  lemma UpdateItemKeepsValid(invoices: map<Id, Invoice>, items: seq<Item>, nextId: nat, k: nat, x: Item, inv: Invoice)
    requires StoreValid(invoices, items, nextId)
    requires k < |items| && x.id == items[k].id && x.invoiceId == items[k].invoiceId == inv.id && Consistent(x.line)
    requires inv.id in invoices
    requires TotalsMatch(inv, ItemsOf(items[k := x], inv.id))
    ensures StoreValid(invoices[inv.id := inv], items[k := x], nextId)
  {
    RewriteItemShape(invoices, items, nextId, k, x);
    RetotalKeepsValid(invoices, items, nextId, items[k := x], nextId, inv);
  }

  /** Removing one item leaves the other invoices' items and the item conditions intact. */
  lemma RemoveItemShape(invoices: map<Id, Invoice>, items: seq<Item>, nextId: nat, k: nat)
    requires ItemsBelong(invoices, items, nextId) && DistinctIds(items)
    requires k < |items|
    ensures ItemsBelong(invoices, items[..k] + items[k + 1..], nextId) && DistinctIds(items[..k] + items[k + 1..])
    ensures forall y :: y != items[k].invoiceId ==> ItemsOf(items[..k] + items[k + 1..], y) == ItemsOf(items, y)
  {
    var items' := items[..k] + items[k + 1..];
    forall y | y != items[k].invoiceId ensures ItemsOf(items', y) == ItemsOf(items, y) {
      RemoveAtKeepsOthers(items, k, y);
    }
    assert forall i :: 0 <= i < |items'| ==> items'[i] == items[if i < k then i else i + 1];
  }

  /** `deleteItem`: removing an item and recalculating its invoice's totals keeps the store valid. */
  lemma DeleteItemKeepsValid(invoices: map<Id, Invoice>, items: seq<Item>, nextId: nat, k: nat, inv: Invoice)
    requires StoreValid(invoices, items, nextId)
    requires k < |items| && items[k].invoiceId == inv.id && inv.id in invoices
    requires TotalsMatch(inv, ItemsOf(items[..k] + items[k + 1..], inv.id))
    ensures StoreValid(invoices[inv.id := inv], items[..k] + items[k + 1..], nextId)
  {
    RemoveItemShape(invoices, items, nextId, k);
    RetotalKeepsValid(invoices, items, nextId, items[..k] + items[k + 1..], nextId, inv);
  }

  /** `findOverdueByOrgId`: an invoice of the organisation, past its due date and not paid. */
  predicate IsOverdue(inv: Invoice, orgId: Id, today: int)
  {
    inv.orgId == orgId && inv.dueDate < today && inv.status != Paid
  }

  function OverdueIds(invoices: map<Id, Invoice>, orgId: Id, today: int): set<Id>
  {
    set id | id in invoices && IsOverdue(invoices[id], orgId, today)
  }

  /** The invoices after the overdue sweep: every match is marked overdue and nothing else is touched. */
  function Swept(invoices: map<Id, Invoice>, orgId: Id, today: int): map<Id, Invoice>
  {
    map id | id in invoices :: if IsOverdue(invoices[id], orgId, today) then invoices[id].(status := Overdue) else invoices[id]
  }

  /**
   * The sweep changes only statuses, and only as the status machine's
   * overdue step does; every other organisation's invoices are untouched.
   */
  lemma SweptStatus(invoices: map<Id, Invoice>, orgId: Id, today: int, id: Id)
    requires id in invoices
    ensures id in Swept(invoices, orgId, today)
    ensures Swept(invoices, orgId, today)[id] == invoices[id].(status := Swept(invoices, orgId, today)[id].status)
    ensures invoices[id].orgId == orgId ==>
      Swept(invoices, orgId, today)[id].status == OverdueStatus(invoices[id].status, invoices[id].dueDate, today)
    ensures invoices[id].orgId != orgId ==> Swept(invoices, orgId, today)[id] == invoices[id]
    ensures Swept(invoices, orgId, today)[id].status != invoices[id].status ==>
      Step(invoices[id].status, Swept(invoices, orgId, today)[id].status)
  {
  }

  /** Sweeping twice is sweeping once: after a sweep every match is already overdue. */
  lemma SweepIdempotent(invoices: map<Id, Invoice>, orgId: Id, today: int)
    ensures Swept(Swept(invoices, orgId, today), orgId, today) == Swept(invoices, orgId, today)
    ensures forall id :: id in Swept(invoices, orgId, today) && IsOverdue(Swept(invoices, orgId, today)[id], orgId, today) ==>
      Swept(invoices, orgId, today)[id].status == Overdue
  {
    var once := Swept(invoices, orgId, today);
    var twice := Swept(once, orgId, today);
    assert twice.Keys == once.Keys;
    forall id | id in once ensures twice[id] == once[id] {
      if IsOverdue(invoices[id], orgId, today) {
        assert once[id] == invoices[id].(status := Overdue);
      }
    }
  }

  /** The sweep keeps totals, so it keeps the store valid. */
  lemma SweepKeepsValid(invoices: map<Id, Invoice>, items: seq<Item>, nextId: nat, orgId: Id, today: int)
    requires StoreValid(invoices, items, nextId)
    ensures StoreValid(Swept(invoices, orgId, today), items, nextId)
  {
    var swept := Swept(invoices, orgId, today);
    assert swept.Keys == invoices.Keys;
    forall id | id in swept ensures swept[id].id == id && id < nextId && TotalsMatch(swept[id], ItemsOf(items, id)) {
      assert TotalsMatch(invoices[id], ItemsOf(items, id));
    }
  }

  /** `createInvoice`: a new invoice under the next id, with fresh items after it, keeps the store valid. */
  lemma CreateKeepsValid(invoices: map<Id, Invoice>, items: seq<Item>, nextId: nat, inv: Invoice, newItems: seq<Item>)
    requires StoreValid(invoices, items, nextId)
    requires inv.id == nextId && FreshItems(newItems, inv.id, nextId + 1) && TotalsMatch(inv, newItems)
    ensures inv.id !in invoices
    ensures StoreValid(invoices[inv.id := inv], items + newItems, nextId + 1 + |newItems|)
    ensures ItemsOf(items + newItems, inv.id) == newItems
  {
    forall i | 0 <= i < |items| ensures items[i].invoiceId != inv.id {
      assert items[i].invoiceId in invoices;
    }
    RemoveItemsOfNone(items, inv.id);
    ReplaceInvoiceKeepsValid(invoices, items, nextId, inv, newItems, nextId + 1);
    ReplacedItemsOf(items, inv.id, newItems, inv.id);
  }

  /** The items of an invoice split around one of its rows: those before it, the row, those after. */
  lemma ItemsOfAround(items: seq<Item>, k: nat, invoiceId: Id)
    requires k < |items| && items[k].invoiceId == invoiceId
    ensures ItemsOf(items, invoiceId) == ItemsOf(items[..k], invoiceId) + [items[k]] + ItemsOf(items[k + 1..], invoiceId)
  {
    assert items == (items[..k] + [items[k]]) + items[k + 1..];
    ItemsOfAppend(items[..k] + [items[k]], items[k + 1..], invoiceId);
    ItemsOfAppend(items[..k], [items[k]], invoiceId);
    ItemsOfAllMatch([items[k]], invoiceId);
  }

  /** The sums over items with one row in the middle are the sums on either side plus that row's line. */
  lemma SumsAround(before: seq<Item>, x: Item, after: seq<Item>)
    ensures SumSubtotal(LinesOf(before + [x] + after)) == SumSubtotal(LinesOf(before)) + x.line.subtotal + SumSubtotal(LinesOf(after))
    ensures SumGst(LinesOf(before + [x] + after)) == SumGst(LinesOf(before)) + x.line.gst + SumGst(LinesOf(after))
    ensures SumTotal(LinesOf(before + [x] + after)) == SumTotal(LinesOf(before)) + x.line.total + SumTotal(LinesOf(after))
  {
    LinesOfAppend(before + [x], after);
    LinesOfAppend(before, [x]);
    assert LinesOf([x]) == [x.line];
    SumsAppend(LinesOf(before) + [x.line], LinesOf(after));
    SumsSnoc(LinesOf(before), x.line);
  }

  /** `addItem`: appending a row of an invoice adds its line to the invoice's sums. */
  lemma AppendSums(items: seq<Item>, x: Item)
    ensures ItemsOf(items + [x], x.invoiceId) == ItemsOf(items, x.invoiceId) + [x]
    ensures SumSubtotal(LinesOf(ItemsOf(items + [x], x.invoiceId))) == SumSubtotal(LinesOf(ItemsOf(items, x.invoiceId))) + x.line.subtotal
    ensures SumGst(LinesOf(ItemsOf(items + [x], x.invoiceId))) == SumGst(LinesOf(ItemsOf(items, x.invoiceId))) + x.line.gst
    ensures SumTotal(LinesOf(ItemsOf(items + [x], x.invoiceId))) == SumTotal(LinesOf(ItemsOf(items, x.invoiceId))) + x.line.total
  {
    var its := ItemsOf(items, x.invoiceId);
    ItemsOfAppend(items, [x], x.invoiceId);
    ItemsOfAllMatch([x], x.invoiceId);
    LinesOfAppend(its, [x]);
    assert LinesOf([x]) == [x.line];
    SumsSnoc(LinesOf(its), x.line);
  }

  /** `updateItem`: rewriting a row of an invoice moves its sums by the difference of the two lines. */
  lemma RewriteSums(items: seq<Item>, k: nat, x: Item)
    requires k < |items| && items[k].invoiceId == x.invoiceId
    ensures SumSubtotal(LinesOf(ItemsOf(items[k := x], x.invoiceId)))
      == SumSubtotal(LinesOf(ItemsOf(items, x.invoiceId))) - items[k].line.subtotal + x.line.subtotal
    ensures SumGst(LinesOf(ItemsOf(items[k := x], x.invoiceId)))
      == SumGst(LinesOf(ItemsOf(items, x.invoiceId))) - items[k].line.gst + x.line.gst
    ensures SumTotal(LinesOf(ItemsOf(items[k := x], x.invoiceId)))
      == SumTotal(LinesOf(ItemsOf(items, x.invoiceId))) - items[k].line.total + x.line.total
  {
    var id := x.invoiceId;
    var items' := items[k := x];
    assert items'[..k] == items[..k] && items'[k + 1..] == items[k + 1..];
    ItemsOfAround(items, k, id);
    ItemsOfAround(items', k, id);
    SumsAround(ItemsOf(items[..k], id), items[k], ItemsOf(items[k + 1..], id));
    SumsAround(ItemsOf(items[..k], id), x, ItemsOf(items[k + 1..], id));
  }

  /** `deleteItem`: removing a row of an invoice takes its line off the invoice's sums. */
  lemma RemoveSums(items: seq<Item>, k: nat)
    requires k < |items|
    ensures SumSubtotal(LinesOf(ItemsOf(items[..k] + items[k + 1..], items[k].invoiceId)))
      == SumSubtotal(LinesOf(ItemsOf(items, items[k].invoiceId))) - items[k].line.subtotal
    ensures SumGst(LinesOf(ItemsOf(items[..k] + items[k + 1..], items[k].invoiceId)))
      == SumGst(LinesOf(ItemsOf(items, items[k].invoiceId))) - items[k].line.gst
    ensures SumTotal(LinesOf(ItemsOf(items[..k] + items[k + 1..], items[k].invoiceId)))
      == SumTotal(LinesOf(ItemsOf(items, items[k].invoiceId))) - items[k].line.total
  {
    var id := items[k].invoiceId;
    var before, after := ItemsOf(items[..k], id), ItemsOf(items[k + 1..], id);
    ItemsOfAround(items, k, id);
    ItemsOfAppend(items[..k], items[k + 1..], id);
    SumsAround(before, items[k], after);
    LinesOfAppend(before, after);
    SumsAppend(LinesOf(before), LinesOf(after));
  }
}
