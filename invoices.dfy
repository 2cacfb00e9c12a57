/**
 * The invoice domain shared by the validator and the service: the status
 * machine, item types, and the line arithmetic. Amounts are exact decimals,
 * modelled as reals; a SERVICE line always counts one unit.
 */
module Invoices {
  import opened Wrappers

  /** Record ids; the store hands them out. */
  type Id = nat

  datatype InvoiceStatus = Draft | Sent | Paid | Overdue
  datatype ItemType = Product | Service

  function StatusName(s: InvoiceStatus): string
  {
    match s
    case Draft => "DRAFT"
    case Sent => "SENT"
    case Paid => "PAID"
    case Overdue => "OVERDUE"
  }

  /** `InvoiceStatus.valueOf`: a missing name raises, an unknown one too. */
  function ParseStatus(name: Option<string>): (r: Result<InvoiceStatus>)
    ensures r.Ok? <==> name.Some? && name.value in {"DRAFT", "SENT", "PAID", "OVERDUE"}
    ensures r.Ok? ==> name == Some(StatusName(r.value))
  {
    if name == Some("DRAFT") then Ok(Draft)
    else if name == Some("SENT") then Ok(Sent)
    else if name == Some("PAID") then Ok(Paid)
    else if name == Some("OVERDUE") then Ok(Overdue)
    else if name.None? then Err("Name is null")
    else Err("No enum constant " + name.value)
  }

  /** The dto carries the status by name, and the name reads back as the same status. */
  lemma StatusNameRoundTrip(s: InvoiceStatus)
    ensures ParseStatus(Some(StatusName(s))) == Ok(s)
  {
  }

  function ItemTypeName(t: ItemType): string
  {
    match t
    case Product => "PRODUCT"
    case Service => "SERVICE"
  }

  /** `ItemType.valueOf`. */
  function ParseItemType(name: Option<string>): (r: Result<ItemType>)
    ensures r.Ok? <==> name == Some("PRODUCT") || name == Some("SERVICE")
    ensures r.Ok? ==> name == Some(ItemTypeName(r.value))
  {
    if name == Some("PRODUCT") then Ok(Product)
    else if name == Some("SERVICE") then Ok(Service)
    else if name.None? then Err("Name is null")
    else Err("No enum constant " + name.value)
  }

  lemma ItemTypeNameRoundTrip(t: ItemType)
    ensures ParseItemType(Some(ItemTypeName(t))) == Ok(t)
  {
  }

  /** The three amounts of a line. */
  datatype Line = Line(subtotal: real, gst: real, total: real)

  /** A line's total is its subtotal plus its tax. */
  predicate Consistent(l: Line)
  {
    l.total == l.subtotal + l.gst
  }

  /** The amounts for `qty` units at `rate` with `gstPercent` tax. */
  function LineFor(rate: real, qty: real, gstPercent: real): (l: Line)
    ensures Consistent(l)
    ensures l.gst * 100.0 == l.subtotal * gstPercent
  {
    var subtotal := rate * qty;
    var gst := subtotal * (gstPercent / 100.0);
    Line(subtotal, gst, subtotal + gst)
  }

  /** A priced line is `rate * qty * (1 + gstPercent/100)`, and never below its subtotal when the tax is not negative. */
  lemma LineForTotal(rate: real, qty: real, gstPercent: real)
    ensures LineFor(rate, qty, gstPercent).total == rate * qty * (1.0 + gstPercent / 100.0)
    ensures rate > 0.0 && qty > 0.0 && gstPercent >= 0.0 ==>
      0.0 < LineFor(rate, qty, gstPercent).subtotal <= LineFor(rate, qty, gstPercent).total
  {
    var s := rate * qty;
    assert s * (1.0 + gstPercent / 100.0) == s + s * (gstPercent / 100.0);
    if rate > 0.0 && qty > 0.0 && gstPercent >= 0.0 {
      assert s > 0.0;
      assert s * (gstPercent / 100.0) >= 0.0;
    }
  }

  /** The quantity a line is priced at: one for a service, the given quantity otherwise (a missing one raises). */
  function PricedQuantity(t: ItemType, quantity: Option<int>): (q: Option<int>)
    ensures t == Service ==> q == Some(1)
    ensures t == Product ==> q == quantity
  {
    if t == Service then Some(1) else quantity
  }

  /** Sums over lines, accumulated from the front as the loops do. */
  function SumSubtotal(ls: seq<Line>): real
  {
    if ls == [] then 0.0 else SumSubtotal(ls[..|ls| - 1]) + ls[|ls| - 1].subtotal
  }

  function SumGst(ls: seq<Line>): real
  {
    if ls == [] then 0.0 else SumGst(ls[..|ls| - 1]) + ls[|ls| - 1].gst
  }

  function SumTotal(ls: seq<Line>): real
  {
    if ls == [] then 0.0 else SumTotal(ls[..|ls| - 1]) + ls[|ls| - 1].total
  }

  /** Adding one line to the end adds its amounts to the sums. */
  lemma SumsSnoc(ls: seq<Line>, l: Line)
    ensures SumSubtotal(ls + [l]) == SumSubtotal(ls) + l.subtotal
    ensures SumGst(ls + [l]) == SumGst(ls) + l.gst
    ensures SumTotal(ls + [l]) == SumTotal(ls) + l.total
  {
    assert (ls + [l])[..|ls|] == ls;
  }

  /** Totals summed from consistent lines are consistent. */
  lemma {:induction false} SumsConsistent(ls: seq<Line>)
    requires forall i :: 0 <= i < |ls| ==> Consistent(ls[i])
    ensures SumTotal(ls) == SumSubtotal(ls) + SumGst(ls)
  {
    if ls != [] {
      SumsConsistent(ls[..|ls| - 1]);
    }
  }

  /** Sums split over a concatenation. */
  lemma {:induction false} SumsAppend(a: seq<Line>, b: seq<Line>)
    ensures SumSubtotal(a + b) == SumSubtotal(a) + SumSubtotal(b)
    ensures SumGst(a + b) == SumGst(a) + SumGst(b)
    ensures SumTotal(a + b) == SumTotal(a) + SumTotal(b)
    decreases |b|
  {
    if b == [] {
      assert a + b == a;
    } else {
      assert (a + b)[..|a + b| - 1] == a + b[..|b| - 1];
      SumsAppend(a, b[..|b| - 1]);
    }
  }

  /** The status machine: only a draft can be sent. */
  function SendStatus(s: InvoiceStatus): (r: Result<InvoiceStatus>)
    ensures r.Ok? <==> s == Draft
    ensures r.Ok? ==> r.value == Sent
  {
    if s == Draft then Ok(Sent) else Err("Can only send draft invoices")
  }

  /** Only a sent invoice can be marked paid. */
  function PayStatus(s: InvoiceStatus): (r: Result<InvoiceStatus>)
    ensures r.Ok? <==> s == Sent
    ensures r.Ok? ==> r.value == Paid
  {
    if s == Sent then Ok(Paid) else Err("Can only mark sent invoices as paid")
  }

  /** Only a draft can be edited, or have items added, changed or removed. */
  predicate Editable(s: InvoiceStatus) { s == Draft }

  /** Anything but a paid invoice can be deleted. */
  predicate Deletable(s: InvoiceStatus) { s != Paid }

  /** The overdue sweep marks every unpaid invoice past its due date. */
  function OverdueStatus(s: InvoiceStatus, dueDate: int, today: int): InvoiceStatus
  {
    if s != Paid && dueDate < today then Overdue else s
  }

  /**
   * A status change the service can make: send, mark paid, the overdue
   * sweep, and an update of a draft, which stores whatever status the client
   * sends.
   */
  predicate Step(s: InvoiceStatus, t: InvoiceStatus)
  {
    SendStatus(s) == Ok(t) || PayStatus(s) == Ok(t) || (s != Paid && t == Overdue) || Editable(s)
  }

  /** The sweep changes a status only by a step the service can make, and sweeping twice is sweeping once. */
  lemma SweepIsStep(s: InvoiceStatus, dueDate: int, today: int)
    ensures var r := OverdueStatus(s, dueDate, today); r == s || Step(s, r)
    ensures OverdueStatus(OverdueStatus(s, dueDate, today), dueDate, today) == OverdueStatus(s, dueDate, today)
  {
  }

  /** A paid invoice is final: no step leaves it, it cannot be edited, and it cannot be deleted. */
  lemma PaidIsFinal(t: InvoiceStatus)
    ensures !Step(Paid, t) && !Editable(Paid) && !Deletable(Paid)
    ensures forall due, today :: OverdueStatus(Paid, due, today) == Paid
  {
  }

  /**
   * Payment is reached only from a sent invoice or by updating a draft, and an
   * overdue invoice can never be paid.
   */
  lemma PaidOnlyFromSent(s: InvoiceStatus)
    ensures Step(s, Paid) <==> s == Sent || s == Draft
    ensures PayStatus(Overdue).Err? && SendStatus(Overdue).Err? && !Editable(Overdue)
  {
  }

  /** Along any sequence of steps, an overdue invoice stays overdue: it is never paid. */
  lemma {:induction false} OverdueIsFinal(path: seq<InvoiceStatus>)
    requires |path| >= 1 && path[0] == Overdue
    requires forall i :: 0 <= i < |path| - 1 ==> Step(path[i], path[i + 1])
    ensures forall i :: 0 <= i < |path| ==> path[i] == Overdue
  {
    if |path| > 1 {
      assert Step(path[0], path[1]);
      PaidOnlyFromSent(path[0]);
      OverdueIsFinal(path[1..]);
      assert forall i :: 1 <= i < |path| ==> path[i] == path[1..][i - 1];
    }
  }
}
