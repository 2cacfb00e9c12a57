/**
 * The invoice validator: header checks, a guard loop over the items, and then
 * `calculateTotals`, which writes each item's line amounts into the dto and
 * the sums into its totals. The first failing check raises; a raise while the
 * totals are being computed leaves the items already priced behind.
 */
module InvoiceValidation {
  import opened Wrappers
  import opened Invoices

  /** An item as it arrives: every field may be missing. */
  datatype ItemDto = ItemDto(itemType: Option<string>, description: Option<string>, quantity: Option<int>,
                             rate: Option<real>, gstPercent: Option<real>, line: Option<Line>)

  const NULL_POINTER := "NullPointerException"

  /** The checks on one item, in order; the first that fails gives the message. */
  function ItemError(item: ItemDto): (e: Option<string>)
    ensures e.None? <==>
      item.description.Some? && item.description.value != ""
      && item.rate.Some? && item.rate.value > 0.0
      && item.gstPercent.Some? && item.gstPercent.value >= 0.0
      && (item.itemType == Some("SERVICE") ==> item.quantity.None?)
      && (item.itemType == Some("PRODUCT") ==> item.quantity.Some? && item.quantity.value > 0)
    ensures (item.description.None? || item.description.value == "") ==> e == Some("Item description is required")
  {
    if item.description.None? || item.description.value == "" then Some("Item description is required")
    else if item.rate.None? || item.rate.value <= 0.0 then Some("Item rate must be positive")
    else if item.gstPercent.None? || item.gstPercent.value < 0.0 then Some("GST percent cannot be negative")
    else if item.itemType == Some("SERVICE") && item.quantity.Some? then Some("Quantity must be null for SERVICE items")
    else if item.itemType == Some("PRODUCT") && (item.quantity.None? || item.quantity.value <= 0) then
      Some("Quantity must be positive for PRODUCT items")
    else None
  }

  /** The guard loop: the first failing item's message. */
  function ItemsError(items: seq<ItemDto>): (e: Option<string>)
    ensures e.None? <==> forall i :: 0 <= i < |items| ==> ItemError(items[i]).None?
    ensures items != [] && ItemError(items[0]).Some? ==> e == ItemError(items[0])
  {
    if items == [] then None
    else if ItemError(items[0]).Some? then ItemError(items[0])
    else ItemsError(items[1..])
  }

  /**
   * `calculateTotals` for one item: a service counts one unit, anything else
   * its quantity. A missing type, a missing quantity on a non-service item,
   * or a missing rate or tax raises.
   */
  function PricedLine(item: ItemDto): (l: Option<Line>)
    ensures l.Some? <==>
      item.itemType.Some? && (item.itemType.value == "SERVICE" || item.quantity.Some?)
      && item.rate.Some? && item.gstPercent.Some?
    ensures l.Some? && item.itemType == Some("SERVICE") ==> l.value == LineFor(item.rate.value, 1.0, item.gstPercent.value)
    ensures l.Some? && item.itemType != Some("SERVICE") ==>
      l.value == LineFor(item.rate.value, item.quantity.value as real, item.gstPercent.value)
  {
    if item.itemType.None? then None
    else if item.itemType.value != "SERVICE" && item.quantity.None? then None
    else if item.rate.None? || item.gstPercent.None? then None
    else
      var qty := if item.itemType.value == "SERVICE" then 1.0 else item.quantity.value as real;
      Some(LineFor(item.rate.value, qty, item.gstPercent.value))
  }

  /** A valid SERVICE or PRODUCT item always prices, to a positive line no smaller than its subtotal. */
  lemma ValidItemPrices(item: ItemDto)
    requires ItemError(item).None? && (item.itemType == Some("SERVICE") || item.itemType == Some("PRODUCT"))
    ensures PricedLine(item).Some?
    ensures 0.0 < PricedLine(item).value.subtotal <= PricedLine(item).value.total
  {
    var qty := if item.itemType == Some("SERVICE") then 1.0 else item.quantity.value as real;
    LineForTotal(item.rate.value, qty, item.gstPercent.value);
  }

  /** The guards let through a type that is neither SERVICE nor PRODUCT with no quantity, and pricing it then raises. */
  lemma UnknownTypeWithoutQuantityRaises(item: ItemDto)
    requires ItemError(item).None? && item.itemType.Some?
    requires item.itemType.value != "SERVICE" && item.itemType.value != "PRODUCT" && item.quantity.None?
    ensures PricedLine(item).None?
  {
  }

  predicate Priceable(items: seq<ItemDto>)
  {
    forall i :: 0 <= i < |items| ==> PricedLine(items[i]).Some?
  }

  /** The index of the first item that cannot be priced, or the length when all can. */
  function FirstUnpriceable(items: seq<ItemDto>): (k: nat)
    ensures k <= |items|
    ensures forall j :: 0 <= j < k ==> PricedLine(items[j]).Some?
    ensures k < |items| ==> PricedLine(items[k]).None?
  {
    if items == [] then 0
    else if PricedLine(items[0]).None? then 0
    else 1 + FirstUnpriceable(items[1..])
  }

  /** The items with their line amounts written in. */
  function PricedItems(items: seq<ItemDto>): (r: seq<ItemDto>)
    requires Priceable(items)
    ensures |r| == |items|
    ensures forall i :: 0 <= i < |r| ==> r[i] == items[i].(line := PricedLine(items[i]))
  {
    if items == [] then []
    else PricedItems(items[..|items| - 1]) + [items[|items| - 1].(line := PricedLine(items[|items| - 1]))]
  }

  /** The line amounts of the items, in order. */
  function Lines(items: seq<ItemDto>): (r: seq<Line>)
    requires Priceable(items)
    ensures |r| == |items|
    ensures forall i :: 0 <= i < |r| ==> Some(r[i]) == PricedLine(items[i]) && Consistent(r[i])
  {
    if items == [] then [] else Lines(items[..|items| - 1]) + [PricedLine(items[|items| - 1]).value]
  }

  /** The invoice as the client sent it; `validate` writes the line amounts and totals back into it. */
  class InvoiceDto {
    var id: Option<Id>
    var invoiceNumber: Option<string>
    var clientId: Option<Id>
    var issueDate: Option<int>
    var dueDate: Option<int>
    var status: Option<string>
    var subtotal: Option<real>
    var gstTotal: Option<real>
    var totalAmount: Option<real>
    var currency: Option<string>
    var paymentDate: Option<int>
    var notes: Option<string>
    var items: Option<seq<ItemDto>>

    constructor (invoiceNumber: Option<string>, clientId: Option<Id>, issueDate: Option<int>, dueDate: Option<int>,
                 status: Option<string>, currency: Option<string>, notes: Option<string>, items: Option<seq<ItemDto>>)
      ensures this.invoiceNumber == invoiceNumber && this.clientId == clientId
      ensures this.issueDate == issueDate && this.dueDate == dueDate && this.status == status
      ensures this.currency == currency && this.notes == notes && this.items == items
      ensures id.None? && subtotal.None? && gstTotal.None? && totalAmount.None? && paymentDate.None?
    {
      this.invoiceNumber, this.clientId, this.issueDate, this.dueDate := invoiceNumber, clientId, issueDate, dueDate;
      this.status, this.currency, this.notes, this.items := status, currency, notes, items;
      id, subtotal, gstTotal, totalAmount, paymentDate := None, None, None, None, None;
    }

    /** The header checks, in order. */
    function HeaderError(): (e: Option<string>)
      reads this
      ensures e.None? <==>
        invoiceNumber.Some? && invoiceNumber.value != "" && clientId.Some? && issueDate.Some? && dueDate.Some?
        && dueDate.value >= issueDate.value && items.Some? && items.value != []
      ensures (invoiceNumber.None? || invoiceNumber.value == "") ==> e == Some("Invoice number is required")
    {
      if invoiceNumber.None? || invoiceNumber.value == "" then Some("Invoice number is required")
      else if clientId.None? then Some("Client ID is required")
      else if issueDate.None? then Some("Issue date is required")
      else if dueDate.None? then Some("Due date is required")
      else if dueDate.value < issueDate.value then Some("Due date cannot be before issue date")
      else if items.None? || items.value == [] then Some("At least one item is required")
      else None
    }

    /** What `validate` reports: a header failure, else an item failure, else a raise while pricing, else nothing. */
    function ExpectedError(): (e: Option<string>)
      reads this
      ensures e.None? <==> HeaderError().None? && ItemsError(items.value).None? && Priceable(items.value)
    {
      if HeaderError().Some? then HeaderError()
      else if ItemsError(items.value).Some? then ItemsError(items.value)
      else if FirstUnpriceable(items.value) < |items.value| then Some(NULL_POINTER)
      else None
    }

    /** The fields `calculateTotals` does not write. */
    twostate predicate HeaderUnchanged()
      reads this
    {
      id == old(id) && invoiceNumber == old(invoiceNumber) && clientId == old(clientId)
      && issueDate == old(issueDate) && dueDate == old(dueDate) && status == old(status)
      && currency == old(currency) && paymentDate == old(paymentDate) && notes == old(notes)
    }

    /** Prices every item in order and stores the sums; a raise stops the loop with the earlier items priced. */
    method CalculateTotals() returns (ok: bool)
      requires items.Some?
      modifies this
      ensures HeaderUnchanged()
      ensures ok <==> Priceable(old(items.value))
      ensures ok ==> var ls := Lines(old(items.value));
        items == Some(PricedItems(old(items.value)))
        && subtotal == Some(SumSubtotal(ls)) && gstTotal == Some(SumGst(ls)) && totalAmount == Some(SumTotal(ls))
      ensures !ok ==> var k := FirstUnpriceable(old(items.value));
        items == Some(PricedItems(old(items.value)[..k]) + old(items.value)[k..])
        && subtotal == old(subtotal) && gstTotal == old(gstTotal) && totalAmount == old(totalAmount)
    {
      var input := items.value;
      var priced, k, sub, gst, total := PriceItems(input);
      items := Some(priced + input[k..]);
      if k < |input| {
        return false;
      }
      assert input[k..] == [] && input[..k] == input;
      assert priced + input[k..] == PricedItems(input);
      subtotal, gstTotal, totalAmount := Some(sub), Some(gst), Some(total);
      return true;
    }

    /** `validate`: the checks in order, then the totals. */
    method Validate() returns (error: Option<string>)
      modifies this
      ensures error == old(ExpectedError())
      ensures HeaderUnchanged()
      ensures old(HeaderError()).Some? || old(ItemsError(items.value)).Some? ==> unchanged(this)
      ensures error.None? ==> var ls := Lines(old(items.value));
        items == Some(PricedItems(old(items.value)))
        && subtotal == Some(SumSubtotal(ls)) && gstTotal == Some(SumGst(ls)) && totalAmount == Some(SumTotal(ls))
    {
      error := HeaderError();
      if error.Some? {
        return;
      }
      error := ItemsError(items.value);
      if error.Some? {
        return;
      }
      var ok := CalculateTotals();
      if !ok {
        error := Some(NULL_POINTER);
      }
    }
  }

  /** The pricing loop: prices items in order until one raises, summing the lines priced so far. */
  method PriceItems(input: seq<ItemDto>) returns (priced: seq<ItemDto>, k: nat, sub: real, gst: real, total: real)
    ensures k == FirstUnpriceable(input)
    ensures PricedUpTo(input, k, priced, sub, gst, total)
  {
    priced, sub, gst, total := [], 0.0, 0.0, 0.0;
    k := 0;
    assert input[..0] == [];
    while k < |input|
      invariant PricedUpTo(input, k, priced, sub, gst, total)
    {
      var line := PricedLine(input[k]);
      if line.None? {
        FirstUnpriceableAt(input, k);
        return;
      }
      PricedStep(input, k, priced, sub, gst, total);
      priced := priced + [input[k].(line := line)];
      sub, gst, total := sub + line.value.subtotal, gst + line.value.gst, total + line.value.total;
      k := k + 1;
    }
    FirstUnpriceableAll(input);
  }

  /** The first `k` items are priced, `priced` holds them with their lines, and the sums are over their lines. */
  predicate PricedUpTo(input: seq<ItemDto>, k: nat, priced: seq<ItemDto>, sub: real, gst: real, total: real)
  {
    k <= |input| && Priceable(input[..k]) && priced == PricedItems(input[..k])
    && sub == SumSubtotal(Lines(input[..k])) && gst == SumGst(Lines(input[..k])) && total == SumTotal(Lines(input[..k]))
  }

  lemma FirstUnpriceableAt(items: seq<ItemDto>, i: nat)
    requires i < |items| && Priceable(items[..i]) && PricedLine(items[i]).None?
    ensures FirstUnpriceable(items) == i
  {
    assert forall j :: 0 <= j < i ==> items[..i][j] == items[j];
  }

  lemma FirstUnpriceableAll(items: seq<ItemDto>)
    requires Priceable(items[..|items|])
    ensures FirstUnpriceable(items) == |items|
  {
    assert items[..|items|] == items;
  }

  /** One more priced item extends the priced prefix and adds its line to the sums. */
  lemma PricedStep(items: seq<ItemDto>, i: nat, priced: seq<ItemDto>, sub: real, gst: real, total: real)
    requires PricedUpTo(items, i, priced, sub, gst, total) && i < |items| && PricedLine(items[i]).Some?
    ensures var l := PricedLine(items[i]).value;
      PricedUpTo(items, i + 1, priced + [items[i].(line := PricedLine(items[i]))], sub + l.subtotal, gst + l.gst, total + l.total)
  {
    var l := PricedLine(items[i]).value;
    var prefix := items[..i + 1];
    assert prefix[..i] == items[..i];
    assert forall j :: 0 <= j < i + 1 ==> prefix[j] == items[j];
    assert Lines(prefix) == Lines(items[..i]) + [l];
    SumsSnoc(Lines(items[..i]), l);
  }

  /** After a successful validation the totals add up: the invoice total is the subtotal plus the tax. */
  lemma ValidatedTotalsAddUp(items: seq<ItemDto>)
    requires Priceable(items)
    ensures SumTotal(Lines(items)) == SumSubtotal(Lines(items)) + SumGst(Lines(items))
  {
    SumsConsistent(Lines(items));
  }
}
