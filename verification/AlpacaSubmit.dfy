/**
  Query-before-retry submission (brokers/alpaca/broker.py:133-202) against an account whose answers may time out,
  with a request that took effect, takes effect later, or never does.
 */
module AlpacaSubmit {
  import opened Wrappers
  import opened Domain
  import opened RiskEngine
  import opened ExecutionLedger
  import opened LedgerTheorems

  datatype ServerOrder = ServerOrder(
    id: OrderId,
    clientId: string,
    symbol: Symbol,
    side: OrderSide,
    status: string,
    filledQuantity: real,
    filledPrice: Option<real>)

  /** The account: orders placed, and requests that timed out and may still be placed. */
  datatype Account = Account(orders: seq<ServerOrder>, inFlight: seq<ServerOrder>)

  /** A failing answer, a 5xx say, can follow an order that was placed all the same. */
  datatype PostReply =
    | Accepted
    | Refused(placed: bool)
    | TimedOut(placed: bool, later: bool)

  /** Everything outside the adapter's control during one call. */
  datatype Net = Net(
    lookupFails: bool,
    assetUsable: bool,
    positionQuantity: real,
    post: PostReply,
    secondLookupFails: bool,
    orderId: OrderId,
    rawStatus: string,
    filledQuantity: real,
    filledPrice: Option<real>)

  function Count(orders: seq<ServerOrder>, clientId: string): nat {
    if orders == [] then 0
    else Count(orders[..|orders| - 1], clientId) + if orders[|orders| - 1].clientId == clientId then 1 else 0
  }

  lemma CountAppend(orders: seq<ServerOrder>, o: ServerOrder, clientId: string)
    ensures Count(orders + [o], clientId) == Count(orders, clientId) + if o.clientId == clientId then 1 else 0
  {
    assert (orders + [o])[..|orders|] == orders;
  }

  /** Orders held for a client identifier now or, in the worst case, later. */
  function Copies(a: Account, clientId: string): nat {
    Count(a.orders, clientId) + Count(a.inFlight, clientId)
  }

  /** What one submission may do to the account: one more copy of its own order, and of no other. */
  ghost predicate AddsAtMostOne(a: Account, b: Account, clientId: string) {
    forall c :: Copies(b, c) <= Copies(a, c) + if c == clientId then 1 else 0
  }

  function LowerCase(c: char): (r: char)
    ensures 'A' <= c <= 'Z' ==> 'a' <= r <= 'z' && r as int - 'a' as int == c as int - 'A' as int
    ensures !('A' <= c <= 'Z') ==> r == c
  {
    if 'A' <= c <= 'Z' then c - 'A' + 'a' else c
  }

  function Lowered(raw: string): (r: string)
    ensures |r| == |raw| && forall i :: 0 <= i < |raw| ==> r[i] == LowerCase(raw[i])
  {
    if raw == "" then "" else [LowerCase(raw[0])] + Lowered(raw[1..])
  }

  /** Every status the account may give an order, in any case of letters; what is not listed is unknown. */
  function MapStatus(raw: string): (status: OrderStatus)
    ensures status == ACKNOWLEDGED <==>
              Lowered(raw) in ["accepted", "new", "pending_new", "accepted_for_bidding", "pending_replace"]
    ensures status == PARTIALLY_FILLED <==> Lowered(raw) == "partially_filled"
    ensures status == FILLED <==> Lowered(raw) == "filled"
    ensures status == CANCEL_PENDING <==> Lowered(raw) == "pending_cancel"
    ensures status == CANCELLED <==>
              Lowered(raw) in ["canceled", "cancelled", "expired", "replaced", "done_for_day"]
    ensures status == REJECTED <==> Lowered(raw) in ["rejected", "suspended"]
    ensures status !in {CREATED, VALIDATED, SUBMITTING}
  {
    var status := Lowered(raw);
    if status in {"accepted", "new", "pending_new", "accepted_for_bidding", "pending_replace"} then ACKNOWLEDGED
    else if status == "partially_filled" then PARTIALLY_FILLED
    else if status == "filled" then FILLED
    else if status == "pending_cancel" then CANCEL_PENDING
    else if status in {"canceled", "cancelled", "expired", "replaced", "done_for_day"} then CANCELLED
    else if status in {"rejected", "suspended"} then REJECTED
    else UNKNOWN
  }

  class AlpacaPaperBroker {
    const currency: string
    const clientOrderId: Key -> string
    /** How a quantity is written into a report identifier. */
    const format: real -> string
    const statusName: OrderStatus -> string
    var account: Account
    ghost var posts: seq<string>

    constructor (currency: string, clientOrderId: Key -> string, format: real -> string,
                 statusName: OrderStatus -> string)
      ensures account == Account([], []) && posts == []
      ensures this.currency == currency && this.clientOrderId == clientOrderId
      ensures this.format == format && this.statusName == statusName
    {
      this.currency, this.clientOrderId, this.format, this.statusName := currency, clientOrderId, format, statusName;
      account, posts := Account([], []), [];
    }

    function ReportOf(o: ServerOrder, key: Key, referencePrice: real): ExecutionReport {
      var price := if o.filledPrice.Some? then o.filledPrice.value else referencePrice;
      var slippage := if o.filledQuantity > 0.0 && referencePrice > 0.0
                      then Abs(price - referencePrice) * o.filledQuantity else 0.0;
      ExecutionReport("alpaca:" + o.id + ":" + statusName(MapStatus(o.status)) + ":" + format(o.filledQuantity),
                      o.id, key, o.symbol, o.side, MapStatus(o.status), o.filledQuantity, price, 0.0, slippage,
                      currency)
    }

    function UnknownReport(i: OrderIntent): ExecutionReport {
      ExecutionReport("alpaca-unknown-" + clientOrderId(i.key), "unknown:" + clientOrderId(i.key), i.key, i.symbol,
                      i.side,
                      UNKNOWN, 0.0, i.referencePrice, 0.0, 0.0, currency)
    }

    /** The order the account makes of a request. */
    function Order(i: OrderIntent, net: Net): ServerOrder {
      ServerOrder(net.orderId, clientOrderId(i.key), i.symbol, i.side, net.rawStatus, net.filledQuantity,
                  net.filledPrice)
    }

    /** get_order_by_client_order_id: the server's search over its orders. */
    method Lookup(key: Key, referencePrice: real, fails: bool) returns (res: Result<Option<ExecutionReport>, Error>)
      ensures fails ==> res == Err(BrokerRaised)
      ensures !fails ==> res.Ok? && (res.value.Some? <==> Count(account.orders, clientOrderId(key)) > 0)
      ensures !fails && res.value.Some? ==>
                exists o :: o in account.orders && o.clientId == clientOrderId(key)
                            && res.value.value == ReportOf(o, key, referencePrice)
    {
      if fails {
        return Err(BrokerRaised);
      }
      for n := 0 to |account.orders|
        invariant Count(account.orders[..n], clientOrderId(key)) == 0
      {
        var o := account.orders[n];
        assert account.orders[..n + 1][..n] == account.orders[..n];
        if o.clientId == clientOrderId(key) {
          CountIsMonotone(account.orders, n + 1, clientOrderId(key));
          return Ok(Some(ReportOf(o, key, referencePrice)));
        }
      }
      assert account.orders[..|account.orders|] == account.orders;
      return Ok(None);
    }

    /** submit: at most one POST, and none when an order for the key is already visible. */
    method Submit(i: OrderIntent, net: Net) returns (res: Result<ExecutionReport, Error>)
      modifies this
      ensures posts == old(posts) || posts == old(posts) + [clientOrderId(i.key)]
      ensures posts != old(posts) ==> Count(old(account).orders, clientOrderId(i.key)) == 0
      ensures AddsAtMostOne(old(account), account, clientOrderId(i.key))
      ensures posts == old(posts) ==> account == old(account)
      // an answer that names no order means that none is visible: unknown, not resubmitted
      ensures res.Ok? && res.value != UnknownReport(i) ==>
                exists o :: o in account.orders && o.clientId == clientOrderId(i.key)
                            && res.value == ReportOf(o, i.key, i.referencePrice)
      ensures res.Ok? && Count(account.orders, clientOrderId(i.key)) == 0 ==> res.value == UnknownReport(i)
      // the order is sent exactly if nothing speaks against it, and then as the intent says
      ensures posts != old(posts) <==>
                && i.currency == currency && !net.lookupFails && Count(old(account).orders, clientOrderId(i.key)) == 0
                && net.assetUsable && (i.side == SellSide ==> i.quantity <= net.positionQuantity)
      ensures posts != old(posts) ==>
                account == AfterPost(old(account), Order(i, net), net.post)
                && (net.post.Refused? ==> res == Err(BrokerRaised))
                && (net.post.TimedOut? && net.secondLookupFails ==> res == Err(BrokerRaised))
                && (net.post == Accepted ==> res == Ok(ReportOf(Order(i, net), i.key, i.referencePrice)))
                && (net.post.TimedOut? && !net.secondLookupFails ==> res.Ok?)
      ensures posts == old(posts) && res.Err? ==>
                res.error == if i.currency != currency then CurrencyMismatch
                             else if net.lookupFails then BrokerRaised
                             else if !net.assetUsable then ValidationError else ShortPosition
    {
      if i.currency != currency {
        return Err(CurrencyMismatch);
      }
      var existing := Lookup(i.key, i.referencePrice, net.lookupFails);
      if existing.Err? {
        return Err(existing.error);
      }
      if existing.value.Some? {
        var found := existing.value.value;
        var o :| o in account.orders && o.clientId == clientOrderId(i.key)
          && found == ReportOf(o, i.key, i.referencePrice);
        CountPositive(account.orders, o);
        return Ok(found);
      }
      if !net.assetUsable {
        return Err(ValidationError);
      }
      if i.side == SellSide && net.positionQuantity < i.quantity {
        return Err(ShortPosition);
      }
      var order := Order(i, net);
      Post(order, net.post);
      if net.post.TimedOut? {
        var recovered := Lookup(i.key, i.referencePrice, net.secondLookupFails);
        if recovered.Err? {
          return Err(recovered.error);
        }
        if recovered.value.Some? {
          var found := recovered.value.value;
          var o :| o in account.orders && o.clientId == clientOrderId(i.key)
            && found == ReportOf(o, i.key, i.referencePrice);
          CountPositive(account.orders, o);
          return Ok(found);
        }
        return Ok(UnknownReport(i));
      }
      if net.post.Refused? {
        return Err(BrokerRaised);
      }
      assert order in account.orders;
      CountPositive(account.orders, order);
      return Ok(ReportOf(order, i.key, i.referencePrice));
    }

    /** A request in flight takes effect, at any time. */
    method Land(k: nat)
      requires k < |account.inFlight|
      modifies this`account
      ensures account == Landed(old(account), k)
      ensures forall c :: Copies(account, c) == Copies(old(account), c)
    {
      forall c
        ensures Copies(Landed(account, k), c) == Copies(account, c)
      {
        LandingKeepsCopies(account, k, c);
      }
      account := Landed(account, k);
    }

    /** The server's side of one POST. */
    method Post(order: ServerOrder, reply: PostReply)
      modifies this
      ensures posts == old(posts) + [order.clientId]
      ensures account == AfterPost(old(account), order, reply)
      ensures AddsAtMostOne(old(account), account, order.clientId)
    {
      hide AddsAtMostOne, AfterPost;
      posts := posts + [order.clientId];
      PostAddsAtMostOne(account, order, reply);
      account := AfterPost(account, order, reply);
    }
  }

  function AfterPost(a: Account, order: ServerOrder, reply: PostReply): Account {
    match reply
    case Accepted => a.(orders := a.orders + [order])
    case Refused(placed) => if placed then a.(orders := a.orders + [order]) else a
    case TimedOut(true, _) => a.(orders := a.orders + [order])
    case TimedOut(false, true) => a.(inFlight := a.inFlight + [order])
    case TimedOut(false, false) => a
  }

  lemma PostAddsAtMostOne(a: Account, order: ServerOrder, reply: PostReply)
    ensures AddsAtMostOne(a, AfterPost(a, order, reply), order.clientId)
  {
    hide Count;
    forall c
      ensures Copies(AfterPost(a, order, reply), c) <= Copies(a, c) + if c == order.clientId then 1 else 0
    {
      CountAppend(a.orders, order, c);
      CountAppend(a.inFlight, order, c);
    }
  }

  lemma {:induction false} CountIsMonotone(orders: seq<ServerOrder>, n: nat, clientId: string)
    requires n <= |orders|
    ensures Count(orders[..n], clientId) <= Count(orders, clientId)
    decreases |orders|
  {
    if n < |orders| {
      assert orders[..|orders| - 1][..n] == orders[..n];
      CountIsMonotone(orders[..|orders| - 1], n, clientId);
    } else {
      assert orders[..n] == orders;
    }
  }

  lemma {:induction false} CountPositive(orders: seq<ServerOrder>, o: ServerOrder)
    requires o in orders
    ensures Count(orders, o.clientId) > 0
  {
    if orders[|orders| - 1] != o {
      assert o in orders[..|orders| - 1];
      CountPositive(orders[..|orders| - 1], o);
    }
  }

  // ----- Many calls, and requests that land late

  datatype Happening =
    | Call(attempt: nat)     // submit was called for the attempt event at this ledger position
    | Land(which: nat)       // a request in flight takes effect

  function AttemptKey(events: seq<Event>, n: nat): Key
    requires 4 <= n < |events| && events[n - 4].IntentCreated?
  {
    events[n - 4].intent.key
  }

  /** What the contract of `Submit`, or a late arrival, allows. */
  ghost predicate MayBecome(events: seq<Event>, clientOrderId: Key -> string, a: Account, h: Happening, b: Account) {
    match h
    case Call(n) =>
      && 4 <= n < |events| && events[n].SubmissionAttempt? && events[n - 4].IntentCreated?
      && AddsAtMostOne(a, b, clientOrderId(AttemptKey(events, n)))
    case Land(k) =>
      && k < |a.inFlight|
      && b == Landed(a, k)
  }

  ghost predicate History(events: seq<Event>, clientOrderId: Key -> string, accounts: seq<Account>,
                          what: seq<Happening>) {
    && |accounts| == |what| + 1
    && (forall c :: Copies(accounts[0], c) == 0)
    && (forall j :: 0 <= j < |what| ==> MayBecome(events, clientOrderId, accounts[j], what[j], accounts[j + 1]))
    // the kernel calls submit once for each attempt it has recorded
    && (forall j, k ::
          0 <= j < |what| && 0 <= k < |what| && what[j].Call? && what[k].Call? && what[j].attempt == what[k].attempt
          ==> j == k)
  }

  ghost predicate Calls(events: seq<Event>, clientOrderId: Key -> string, h: Happening, c: string) {
    h.Call? && 4 <= h.attempt < |events| && events[h.attempt - 4].IntentCreated?
    && clientOrderId(AttemptKey(events, h.attempt)) == c
  }

  function Landed(a: Account, k: nat): Account
    requires k < |a.inFlight|
  {
    Account(a.orders + [a.inFlight[k]], a.inFlight[..k] + a.inFlight[k + 1..])
  }

  lemma LandingKeepsCopies(a: Account, k: nat, c: string)
    requires k < |a.inFlight|
    ensures Copies(Landed(a, k), c) == Copies(a, c)
  {
    CountAppend(a.orders, a.inFlight[k], c);
    CountWithout(a.inFlight, k, c);
  }

  lemma LastStaysLast<T>(orders: seq<T>, k: nat)
    requires k < |orders| - 1
    ensures orders[..k] + orders[k + 1..]
            == (orders[..|orders| - 1][..k] + orders[..|orders| - 1][k + 1..]) + [orders[|orders| - 1]]
  {
  }

  lemma {:induction false} CountWithout(orders: seq<ServerOrder>, k: nat, c: string)
    requires k < |orders|
    ensures Count(orders, c) == Count(orders[..k] + orders[k + 1..], c) + if orders[k].clientId == c then 1 else 0
  {
    var n := |orders| - 1;
    if k == n {
      assert orders[..k] + orders[k + 1..] == orders[..n];
    } else {
      var front := orders[..n];
      CountWithout(front, k, c);
      LastStaysLast(orders, k);
      CountAppend(front[..k] + front[k + 1..], orders[n], c);
    }
  }

  /** A call adds at most one copy, for its own identifier; landing adds none. */
  lemma OneHappening(events: seq<Event>, clientOrderId: Key -> string, a: Account, h: Happening, b: Account, c: string)
    requires MayBecome(events, clientOrderId, a, h, b)
    ensures Copies(b, c) <= Copies(a, c) + if Calls(events, clientOrderId, h, c) then 1 else 0
  {
    hide Copies, Landed;
    if h.Land? {
      LandingKeepsCopies(a, h.which, c);
    }
  }

  lemma {:induction false} CopiesAreCalls(events: seq<Event>, clientOrderId: Key -> string, accounts: seq<Account>,
                                          what: seq<Happening>, m: nat, c: string)
    requires History(events, clientOrderId, accounts, what) && m <= |what|
    requires forall j, k | 0 <= j < |what| && 0 <= k < |what| ::
               Calls(events, clientOrderId, what[j], c) && Calls(events, clientOrderId, what[k], c) ==> j == k
    ensures Copies(accounts[m], c) <= 1
    ensures (forall j :: 0 <= j < m ==> !Calls(events, clientOrderId, what[j], c)) ==> Copies(accounts[m], c) == 0
    decreases m
  {
    hide MayBecome, Calls, Copies;
    if m > 0 {
      CopiesAreCalls(events, clientOrderId, accounts, what, m - 1, c);
      assert MayBecome(events, clientOrderId, accounts[m - 1], what[m - 1], accounts[m]);
      OneHappening(events, clientOrderId, accounts[m - 1], what[m - 1], accounts[m], c);
    }
  }

  /**
    With the kernel in front, the broker never holds two orders for one key: not after restarts, not after
    timeouts, not when a request lands arbitrarily late.
   */
  lemma NeverTwoOrders(settings: Settings, events: seq<Event>, clientOrderId: Key -> string, accounts: seq<Account>,
                       what: seq<Happening>, m: nat, c: string)
    requires Legal(settings, events) && History(events, clientOrderId, accounts, what) && m <= |what|
    requires forall a, b :: clientOrderId(a) == clientOrderId(b) ==> a == b
    ensures Copies(accounts[m], c) <= 1
  {
    forall j, k | 0 <= j < |what| && 0 <= k < |what| && Calls(events, clientOrderId, what[j], c)
                  && Calls(events, clientOrderId, what[k], c)
      ensures j == k
    {
      assert MayBecome(events, clientOrderId, accounts[j], what[j], accounts[j + 1]);
      assert MayBecome(events, clientOrderId, accounts[k], what[k], accounts[k + 1]);
      AtMostOneAttempt(settings, events, what[j].attempt, what[k].attempt);
    }
    CopiesAreCalls(events, clientOrderId, accounts, what, m, c);
  }

  /**
    The lookup alone is not enough: it prevents a second copy exactly when no earlier request for the key is
    still in flight.
   */
  lemma LookupAloneIsNotEnough(a: Account, order: ServerOrder)
    requires Copies(a, order.clientId) <= 1 && Count(a.orders, order.clientId) == 0
    ensures Copies(AfterPost(a, order, Accepted), order.clientId) <= 1 <==> Count(a.inFlight, order.clientId) == 0
  {
    CountAppend(a.orders, order, order.clientId);
  }

  // ----- What a report tells of an order

  /** What was filled and at which price; an order without a price is reported at the reference price. */
  lemma ReportTells(broker: AlpacaPaperBroker, o: ServerOrder, key: Key, referencePrice: real)
    requires referencePrice > 0.0 && o.filledQuantity >= 0.0
    ensures var r := broker.ReportOf(o, key, referencePrice);
            && r.key == key && r.brokerOrderId == o.id && r.symbol == o.symbol && r.side == o.side
            && r.status == MapStatus(o.status) && r.currency == broker.currency
            && r.fillQuantity == o.filledQuantity && r.fee == 0.0
            && Some(r.fillPrice) == (if o.filledPrice.Some? then o.filledPrice else Some(referencePrice))
            && (r.fillPrice >= referencePrice ==>
                  r.Gross() == r.fillQuantity * referencePrice + r.slippage)
            && (r.fillPrice <= referencePrice ==>
                  r.Gross() == r.fillQuantity * referencePrice - r.slippage)
  {
  }

  lemma AfterTheColon(a: string, x: string, b: string, y: string)
    requires a + ":" + x == b + ":" + y && ':' !in a && ':' !in b
    ensures a == b && x == y
  {
    var s := a + ":" + x;
    assert s[|a|] == ':' && s[|b|] == ':';
    assert forall i :: 0 <= i < |a| ==> s[i] == a[i];
    assert forall i :: 0 <= i < |b| ==> s[i] == b[i];
    assert |a| == |b|;
    assert a == s[..|a|] && b == s[..|b|];
    assert x == s[|a| + 1..] && y == s[|b| + 1..];
  }

  /**
    Two reports of one order have the same identifier exactly if status and filled quantity are the same: the kernel
    ignores a repetition, and never an update.
   */
  lemma UpdatesAreNoticed(broker: AlpacaPaperBroker, o: ServerOrder, u: ServerOrder, key: Key, referencePrice: real)
    requires u.id == o.id
    requires forall status :: ':' !in broker.statusName(status)
    requires forall a, b :: broker.statusName(a) == broker.statusName(b) ==> a == b
    requires forall a, b :: broker.format(a) == broker.format(b) ==> a == b
    ensures broker.ReportOf(o, key, referencePrice).reportId == broker.ReportOf(u, key, referencePrice).reportId
            <==> MapStatus(o.status) == MapStatus(u.status) && o.filledQuantity == u.filledQuantity
  {
    hide MapStatus;
    var prefix := "alpaca:" + o.id + ":";
    var x, y := broker.statusName(MapStatus(o.status)) + ":" + broker.format(o.filledQuantity),
                broker.statusName(MapStatus(u.status)) + ":" + broker.format(u.filledQuantity);
    assert broker.ReportOf(o, key, referencePrice).reportId == prefix + x;
    assert broker.ReportOf(u, key, referencePrice).reportId == prefix + y;
    if prefix + x == prefix + y {
      assert x == (prefix + x)[|prefix|..] && y == (prefix + y)[|prefix|..];
      AfterTheColon(broker.statusName(MapStatus(o.status)), broker.format(o.filledQuantity),
                    broker.statusName(MapStatus(u.status)), broker.format(u.filledQuantity));
    }
  }
}
