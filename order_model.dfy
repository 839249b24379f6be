/** The order document: its line and summary constraints, the seven-value
    status with its display labels, and `updateStatus`, which sets the status,
    appends one history entry and stamps the stage's time. There is no
    transition table: any status may follow any other. */
module OrderModel {
  import opened Types
  import Pricing

  datatype Status = Pending | Confirmed | Processing | Shipped | Delivered | Cancelled | Refunded

  /** The enum of the status field, in the order the schema lists it. */
  const StatusNames: seq<string> :=
    ["pending", "confirmed", "processing", "shipped", "delivered", "cancelled", "refunded"]

  function StatusName(s: Status): (name: string)
    ensures name in StatusNames
  {
    match s
    case Pending => "pending"
    case Confirmed => "confirmed"
    case Processing => "processing"
    case Shipped => "shipped"
    case Delivered => "delivered"
    case Cancelled => "cancelled"
    case Refunded => "refunded"
  }

  /** Accepts exactly the seven listed names. */
  function ParseStatus(raw: string): (r: Option<Status>)
    ensures r.Some? <==> raw in StatusNames
    ensures r.Some? ==> StatusName(r.value) == raw
  {
    if raw == "pending" then Some(Pending)
    else if raw == "confirmed" then Some(Confirmed)
    else if raw == "processing" then Some(Processing)
    else if raw == "shipped" then Some(Shipped)
    else if raw == "delivered" then Some(Delivered)
    else if raw == "cancelled" then Some(Cancelled)
    else if raw == "refunded" then Some(Refunded)
    else None
  }

  /** Names and statuses are in one-to-one correspondence. */
  lemma StatusNameRoundTrip(s: Status)
    ensures ParseStatus(StatusName(s)) == Some(s)
  {
  }

  function StatusLabel(s: Status): (shown: string)
    ensures shown != ""
  {
    match s
    case Pending => "Order Placed"
    case Confirmed => "Order Confirmed"
    case Processing => "Processing"
    case Shipped => "Shipped"
    case Delivered => "Delivered"
    case Cancelled => "Cancelled"
    case Refunded => "Refunded"
  }

  /** The `displayStatus` virtual: a known status gets its label (labels are
      never empty, so `||` does not fall through); anything else is shown
      as stored. */
  function DisplayStatus(raw: string): (shown: string)
    ensures raw in StatusNames ==> shown == StatusLabel(ParseStatus(raw).value)
    ensures raw !in StatusNames ==> shown == raw
    ensures shown != "" || raw == ""
  {
    match ParseStatus(raw)
    case Some(s) => StatusLabel(s)
    case None => raw
  }

  /** Distinct statuses get distinct labels. */
  lemma LabelsDistinct(a: Status, b: Status)
    requires a != b
    ensures StatusLabel(a) != StatusLabel(b)
  {
  }

  /** One entry of `statusHistory`. */
  datatype HistoryEntry = HistoryEntry(status: Status, note: Option<string>, updatedBy: UserId)

  /** The per-stage timestamps. Only their presence is of interest; the time
      is passed in. */
  datatype Stamps = Stamps(
    confirmedAt: Option<int>,
    shippedAt: Option<int>,
    deliveredAt: Option<int>,
    cancelledAt: Option<int>)

  const NoStamps: Stamps := Stamps(None, None, None, None)

  /** The four stages that own a timestamp field. */
  predicate Staged(s: Status) {
    s == Confirmed || s == Shipped || s == Delivered || s == Cancelled
  }

  /** The timestamp field of a stage; the other three statuses have none. */
  function StampOf(t: Stamps, s: Status): (r: Option<int>)
    ensures !Staged(s) ==> r.None?
  {
    match s
    case Confirmed => t.confirmedAt
    case Shipped => t.shippedAt
    case Delivered => t.deliveredAt
    case Cancelled => t.cancelledAt
    case _ => None
  }

  /** Stamps agreeing on every stage are equal. */
  lemma StampsExtensional(t: Stamps, u: Stamps)
    requires forall s :: StampOf(t, s) == StampOf(u, s)
    ensures t == u
  {
    assert StampOf(t, Confirmed) == StampOf(u, Confirmed);
    assert StampOf(t, Shipped) == StampOf(u, Shipped);
    assert StampOf(t, Delivered) == StampOf(u, Delivered);
    assert StampOf(t, Cancelled) == StampOf(u, Cancelled);
  }

  /** The `switch` of `updateStatus`: the new status's own field is set to
      `now` and no other field changes; pending, processing and refunded
      change nothing. */
  function Stamp(t: Stamps, s: Status, now: int): (r: Stamps)
    ensures Staged(s) ==> StampOf(r, s) == Some(now)
    ensures forall other :: other != s ==> StampOf(r, other) == StampOf(t, other)
    ensures !Staged(s) ==> r == t
  {
    match s
    case Confirmed => t.(confirmedAt := Some(now))
    case Shipped => t.(shippedAt := Some(now))
    case Delivered => t.(deliveredAt := Some(now))
    case Cancelled => t.(cancelledAt := Some(now))
    case _ => t
  }

  /** A line of the `items` array. */
  datatype OrderLine = OrderLine(
    book: BookId,
    seller: UserId,
    quantity: int,
    price: real,
    discount: real,
    subtotal: real)

  /** The `min` constraints of an item; `discount` has the default 0 when
      omitted, which the routes never do. */
  predicate LineValid(l: OrderLine) {
    l.quantity >= 1 && l.price >= 0.0 && l.discount >= 0.0 && l.subtotal >= 0.0
  }

  /** The `min: 0` constraints of `orderSummary`. */
  predicate SummaryValid(s: Pricing.Summary) {
    s.subtotal >= 0.0 && s.tax >= 0.0 && s.shipping >= 0.0 && s.total >= 0.0
  }

  /** What `save` checks besides the required strings: every line and the
      summary meet their minimums. */
  predicate DocumentValid(items: seq<OrderLine>, summary: Pricing.Summary) {
    (forall i :: 0 <= i < |items| ==> LineValid(items[i])) && SummaryValid(summary)
  }

  /** `orderNumber` is a required string: absent or empty fails. */
  predicate NumberPresent(number: Option<string>) {
    number.Some? && number.value != ""
  }

  /** The number the `pre('save')` hook makes: `ORD-`, the clock in base 36,
      `-`, five random base-36 characters. Clock and randomness are the
      parameters. */
  function GeneratedNumber(clock36: string, random5: string): (n: string)
    ensures |n| == 5 + |clock36| + |random5| && n[..4] == "ORD-"
  {
    "ORD-" + clock36 + "-" + random5
  }

  /** `save` as the schema runs it: validation (the required `orderNumber`
      and the minimums) comes before the user's `pre('save')` hook, so the
      hook that would fill in a missing number never runs for a document
      that lacks one. On success the saved number is returned. */
  function SaveAsWritten(number: Option<string>, items: seq<OrderLine>, summary: Pricing.Summary,
                         generated: string): (r: Result<string>)
    ensures r.Ok? <==> NumberPresent(number) && DocumentValid(items, summary)
    ensures r.Err? ==> r.failure == ServerError
    ensures r.Ok? ==> r.value == number.value
  {
    if !NumberPresent(number) || !DocumentValid(items, summary) then Err(ServerError)
    else Ok(number.value)
  }

  /** The document POST /create builds has no `orderNumber`: as written,
      every such save is refused, whatever its lines and summary. */
  lemma NewOrderRefusedAsWritten(items: seq<OrderLine>, summary: Pricing.Summary, generated: string)
    ensures SaveAsWritten(None, items, summary, generated) == Err(ServerError)
  {
  }

  /** A concrete order that meets every minimum, refused only for its
      missing number. */
  lemma NewOrderRefusedExample()
    ensures var items := [OrderLine(3, 7, 2, 10.0, 0.0, 20.0)];
            var summary := Pricing.Summary(20.0, 1.6, 5.99, 27.59);
            DocumentValid(items, summary)
            && SaveAsWritten(None, items, summary, GeneratedNumber("K1", "AB12C")) == Err(ServerError)
  {
  }

  /** `save` as intended: the hook fills a missing number first, then the
      document is validated. */
  function SaveNumbered(number: Option<string>, items: seq<OrderLine>, summary: Pricing.Summary,
                        generated: string): (r: Result<string>)
    ensures r.Ok? <==> (NumberPresent(number) || generated != "") && DocumentValid(items, summary)
    ensures r.Err? ==> r.failure == ServerError
    ensures r.Ok? ==> r.value == if NumberPresent(number) then number.value else generated
  {
    var n := if NumberPresent(number) then number.value else generated;
    if n == "" || !DocumentValid(items, summary) then Err(ServerError)
    else Ok(n)
  }

  /** Under the intended order a new document is saved exactly when its
      lines and summary meet their minimums, and it carries the generated
      number; a document that already has a number saves the same either
      way. */
  lemma NewOrderNumbered(items: seq<OrderLine>, summary: Pricing.Summary, clock36: string, random5: string,
                         number: Option<string>)
    ensures SaveNumbered(None, items, summary, GeneratedNumber(clock36, random5))
            == if DocumentValid(items, summary) then Ok(GeneratedNumber(clock36, random5)) else Err(ServerError)
    ensures NumberPresent(number) ==>
              SaveNumbered(number, items, summary, GeneratedNumber(clock36, random5))
              == SaveAsWritten(number, items, summary, GeneratedNumber(clock36, random5))
  {
    var g := GeneratedNumber(clock36, random5);
    assert g[0] == 'O';
  }

  datatype Address = Address(
    fullName: string,
    street: string,
    city: string,
    state: string,
    zipCode: string,
    country: string,
    phoneNumber: Option<string>)

  /** The `paymentMethod.type` enum. */
  const PaymentTypes: seq<string> :=
    ["credit_card", "debit_card", "paypal", "bank_transfer", "cash_on_delivery"]

  datatype Tracking = Tracking(trackingNumber: Option<string>, carrier: Option<string>)

  /** The part of an order `updateStatus` works on. */
  datatype StatusLog = StatusLog(status: Status, history: seq<HistoryEntry>, stamps: Stamps)

  /** A new order: pending, no history, no stamps. */
  const NewLog: StatusLog := StatusLog(Pending, [], NoStamps)

  /** One call of `updateStatus`. */
  datatype StatusUpdate = StatusUpdate(status: Status, note: Option<string>, actor: UserId, when: int)

  function EntryOf(u: StatusUpdate): HistoryEntry {
    HistoryEntry(u.status, u.note, u.actor)
  }

  /** `updateStatus` on the log: the status becomes the new one, exactly one
      entry is appended after the kept history, and the stamps change as
      `Stamp` says. */
  function ApplyStatus(log: StatusLog, u: StatusUpdate): (r: StatusLog)
    ensures r.status == u.status
    ensures |r.history| == |log.history| + 1 && r.history[..|log.history|] == log.history
    ensures r.history[|log.history|] == EntryOf(u)
    ensures Staged(u.status) ==> StampOf(r.stamps, u.status) == Some(u.when)
    ensures forall s :: s != u.status ==> StampOf(r.stamps, s) == StampOf(log.stamps, s)
  {
    StatusLog(u.status, log.history + [EntryOf(u)], Stamp(log.stamps, u.status, u.when))
  }

  /** A run of updates, applied in order. */
  function ApplyAll(log: StatusLog, ups: seq<StatusUpdate>): StatusLog
  {
    if ups == [] then log else ApplyStatus(ApplyAll(log, ups[..|ups| - 1]), ups[|ups| - 1])
  }

  function Entries(ups: seq<StatusUpdate>): (es: seq<HistoryEntry>)
    ensures |es| == |ups|
    ensures forall i :: 0 <= i < |ups| ==> es[i] == EntryOf(ups[i])
  {
    if ups == [] then [] else Entries(ups[..|ups| - 1]) + [EntryOf(ups[|ups| - 1])]
  }

  /** The history is append-only: after any run of updates it is the old
      history followed by one entry per update, in order. */
  lemma {:induction false} HistoryAppendOnly(log: StatusLog, ups: seq<StatusUpdate>)
    ensures ApplyAll(log, ups).history == log.history + Entries(ups)
  {
    if ups != [] {
      HistoryAppendOnly(log, ups[..|ups| - 1]);
    }
  }

  /** After at least one update the last history entry records the current
      status. */
  lemma LastEntryIsStatus(log: StatusLog, ups: seq<StatusUpdate>)
    requires ups != []
    ensures var r := ApplyAll(log, ups);
            r.history != [] && r.history[|r.history| - 1].status == r.status
  {
  }

  /** Some update of the run enters status `s`. */
  predicate Entered(ups: seq<StatusUpdate>, s: Status) {
    exists i :: 0 <= i < |ups| && ups[i].status == s
  }

  lemma EnteredStep(ups: seq<StatusUpdate>, s: Status)
    requires ups != []
    ensures Entered(ups, s) <==> Entered(ups[..|ups| - 1], s) || ups[|ups| - 1].status == s
  {
    var init := ups[..|ups| - 1];
    if Entered(init, s) {
      var i :| 0 <= i < |init| && init[i].status == s;
      assert ups[i].status == s;
    }
    if Entered(ups, s) && ups[|ups| - 1].status != s {
      var i :| 0 <= i < |ups| && ups[i].status == s;
      assert init[i].status == s;
    }
  }

  /** A stage's timestamp is present after a run exactly when it was present
      before or some update of the run entered that stage: stamps are never
      cleared and only their own stage sets them. */
  lemma {:induction false} StampPresence(log: StatusLog, ups: seq<StatusUpdate>, s: Status)
    requires Staged(s)
    ensures StampOf(ApplyAll(log, ups).stamps, s).Some? <==> StampOf(log.stamps, s).Some? || Entered(ups, s)
  {
    if ups != [] {
      StampPresence(log, ups[..|ups| - 1], s);
      EnteredStep(ups, s);
    }
  }

  /** An order document. `updateStatus` is the method that changes it in
      place; the routes also assign `tracking`. */
  class Order {
    var customer: UserId
    var items: seq<OrderLine>
    var summary: Pricing.Summary
    var shippingAddress: Address
    var paymentType: string
    var customerNote: Option<string>
    var status: Status
    var history: seq<HistoryEntry>
    var stamps: Stamps
    var tracking: Tracking

    function Log(): StatusLog
      reads this
    {
      StatusLog(status, history, stamps)
    }

    /** `new Order({...})`: status pending by default, empty history, no
        stamps and no tracking. */
    constructor (customer: UserId, items: seq<OrderLine>, summary: Pricing.Summary,
                 shippingAddress: Address, paymentType: string, customerNote: Option<string>)
      ensures this.customer == customer && this.items == items && this.summary == summary
      ensures this.shippingAddress == shippingAddress && this.paymentType == paymentType
      ensures this.customerNote == customerNote
      ensures Log() == NewLog && tracking == Tracking(None, None)
    {
      this.customer := customer;
      this.items := items;
      this.summary := summary;
      this.shippingAddress := shippingAddress;
      this.paymentType := paymentType;
      this.customerNote := customerNote;
      status := Pending;
      history := [];
      stamps := NoStamps;
      tracking := Tracking(None, None);
    }

    /** `updateStatus(newStatus, note, updatedBy)`, with the clock reading
        passed in. Only the status log changes. */
    method UpdateStatus(newStatus: Status, note: Option<string>, actor: UserId, now: int)
      modifies this
      ensures Log() == ApplyStatus(old(Log()), StatusUpdate(newStatus, note, actor, now))
      ensures customer == old(customer) && items == old(items) && summary == old(summary)
      ensures shippingAddress == old(shippingAddress) && paymentType == old(paymentType)
      ensures customerNote == old(customerNote) && tracking == old(tracking)
    {
      status := newStatus;
      history := history + [HistoryEntry(newStatus, note, actor)];
      match newStatus {
        case Confirmed => stamps := stamps.(confirmedAt := Some(now));
        case Shipped => stamps := stamps.(shippedAt := Some(now));
        case Delivered => stamps := stamps.(deliveredAt := Some(now));
        case Cancelled => stamps := stamps.(cancelledAt := Some(now));
        case _ =>
      }
    }
  }
}
