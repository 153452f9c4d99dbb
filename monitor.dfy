/** `BybitMonitor`'s stream callbacks: each takes a `{"data": [...]}` message and
    hands its items, one by one and in order, to the notifier. */
module Monitor {
  import opened Common
  import opened Notifier

  const NewStatus: string := "New"
  const CancelledStatus: string := "Cancelled"

  /** A stream message; `data` may be missing. */
  datatype Message<T> = Message(data: Option<seq<T>>)

  /** `message.get("data", [])`. */
  function Items<T>(m: Message<T>): seq<T> {
    m.data.GetOr([])
  }

  /** One notifier call a callback makes. */
  datatype Notification =
    | NewOrder(order: OrderEvent)
    | OrderCancel(order: OrderEvent)
    | OrderFilled(trade: ExecutionEvent)
    | PositionUpdate(position: PositionEvent)

  /** The order stream: a new order and a cancellation are announced, any other
      status (a fill included) is not. */
  function OrderRoute(o: OrderEvent): seq<Notification>
  {
    if o.orderStatus == Some(NewStatus) then [NewOrder(o)]
    else if o.orderStatus == Some(CancelledStatus) then [OrderCancel(o)]
    else []
  }

  /** A new order gives one new-order call, a cancellation one cancel call, and
      any other status (a fill included) none. */
  lemma OrderRouteCases(o: OrderEvent)
    ensures o.orderStatus == Some(NewStatus) ==> OrderRoute(o) == [NewOrder(o)]
    ensures o.orderStatus == Some(CancelledStatus) ==> OrderRoute(o) == [OrderCancel(o)]
    ensures o.orderStatus != Some(NewStatus) && o.orderStatus != Some(CancelledStatus) ==> OrderRoute(o) == []
  {
  }

  /** The calls `_on_order_update` makes for a batch, in item order. */
  function OrderNotifications(items: seq<OrderEvent>): seq<Notification>
    decreases |items|
  {
    if items == [] then [] else OrderNotifications(items[..|items| - 1]) + OrderRoute(items[|items| - 1])
  }

  /** The calls `_on_execution_update` makes: one fill per item. */
  function ExecutionNotifications(items: seq<ExecutionEvent>): seq<Notification>
    decreases |items|
  {
    if items == [] then [] else ExecutionNotifications(items[..|items| - 1]) + [OrderFilled(items[|items| - 1])]
  }

  /** The calls `_on_position_update` makes: one update per item. */
  function PositionNotifications(items: seq<PositionEvent>): seq<Notification>
    decreases |items|
  {
    if items == [] then [] else PositionNotifications(items[..|items| - 1]) + [PositionUpdate(items[|items| - 1])]
  }

  /** The calls for one more order are those for the orders before it, then its own. */
  lemma OrderNotificationsStep(items: seq<OrderEvent>, i: nat)
    requires i < |items|
    ensures OrderNotifications(items[..i + 1]) == OrderNotifications(items[..i]) + OrderRoute(items[i])
  {
    assert items[..i + 1][..i] == items[..i];
  }

  /** Order notifications of two batches in a row are those of each, in order. */
  lemma {:induction false} OrderNotificationsAppend(a: seq<OrderEvent>, b: seq<OrderEvent>)
    ensures OrderNotifications(a + b) == OrderNotifications(a) + OrderNotifications(b)
    decreases |b|
  {
    if b == [] {
      assert a + b == a;
    } else {
      var front := b[..|b| - 1];
      assert (a + b)[..|a + b| - 1] == a + front;
      assert (a + b)[|a + b| - 1] == b[|b| - 1];
      OrderNotificationsAppend(a, front);
      AppendAssociative(OrderNotifications(a), OrderNotifications(front), OrderRoute(b[|b| - 1]));
    }
  }

  /** Order `i` contributes exactly its own notification (one when new or
      cancelled, none otherwise) between those of the orders around it. */
  lemma OrderNotificationsAt(items: seq<OrderEvent>, i: nat)
    requires i < |items|
    ensures OrderNotifications(items) ==
      OrderNotifications(items[..i]) + OrderRoute(items[i]) + OrderNotifications(items[i + 1..])
  {
    var prefix, rest := items[..i + 1], items[i + 1..];
    assert prefix + rest == items;
    OrderNotificationsAppend(prefix, rest);
    OrderNotificationsStep(items, i);
  }

  /** The order callback makes at most one call per item, and each call
      announces a new or a cancelled order of the batch. */
  lemma {:induction false} OrderNotificationsBound(items: seq<OrderEvent>)
    ensures |OrderNotifications(items)| <= |items|
    ensures forall n :: n in OrderNotifications(items) ==>
      (n.NewOrder? && n.order in items && n.order.orderStatus == Some(NewStatus)) ||
      (n.OrderCancel? && n.order in items && n.order.orderStatus == Some(CancelledStatus))
    decreases |items|
  {
    if items != [] {
      var front := items[..|items| - 1];
      assert forall o :: o in front ==> o in items;
      OrderNotificationsBound(front);
    }
  }

  /** The execution callback announces every fill once, in input order. */
  lemma {:induction false} ExecutionNotificationsInOrder(items: seq<ExecutionEvent>)
    ensures |ExecutionNotifications(items)| == |items|
    ensures forall i :: 0 <= i < |items| ==> ExecutionNotifications(items)[i] == OrderFilled(items[i])
    decreases |items|
  {
    if items != [] {
      var front := items[..|items| - 1];
      ExecutionNotificationsInOrder(front);
      forall i | 0 <= i < |items|
        ensures ExecutionNotifications(items)[i] == OrderFilled(items[i])
      {
        if i < |front| {
          assert items[i] == front[i];
        }
      }
    }
  }

  /** The position callback forwards every snapshot once, in input order. */
  lemma {:induction false} PositionNotificationsInOrder(items: seq<PositionEvent>)
    ensures |PositionNotifications(items)| == |items|
    ensures forall i :: 0 <= i < |items| ==> PositionNotifications(items)[i] == PositionUpdate(items[i])
    decreases |items|
  {
    if items != [] {
      var front := items[..|items| - 1];
      PositionNotificationsInOrder(front);
      forall i | 0 <= i < |items|
        ensures PositionNotifications(items)[i] == PositionUpdate(items[i])
      {
        if i < |front| {
          assert items[i] == front[i];
        }
      }
    }
  }

  /** One more fill gives one more call. */
  lemma ExecutionNotificationsStep(items: seq<ExecutionEvent>, i: nat)
    requires i < |items|
    ensures ExecutionNotifications(items[..i + 1]) == ExecutionNotifications(items[..i]) + [OrderFilled(items[i])]
  {
    assert items[..i + 1][..i] == items[..i];
  }

  /** One more position gives one more call. */
  lemma PositionNotificationsStep(items: seq<PositionEvent>, i: nat)
    requires i < |items|
    ensures PositionNotifications(items[..i + 1]) == PositionNotifications(items[..i]) + [PositionUpdate(items[i])]
  {
    assert items[..i + 1][..i] == items[..i];
  }

  /** The positions of a batch are forwarded as those of its first part, then its rest. */
  lemma {:induction false} PositionNotificationsAppend(a: seq<PositionEvent>, b: seq<PositionEvent>)
    ensures PositionNotifications(a + b) == PositionNotifications(a) + PositionNotifications(b)
    decreases |b|
  {
    if b == [] {
      assert a + b == a;
    } else {
      var front := b[..|b| - 1];
      assert (a + b)[..|a + b| - 1] == a + front;
      assert (a + b)[|a + b| - 1] == b[|b| - 1];
      PositionNotificationsAppend(a, front);
      AppendAssociative(PositionNotifications(a), PositionNotifications(front), [PositionUpdate(b[|b| - 1])]);
    }
  }

  /** A message without data, or with an empty list, causes no call in any callback. */
  lemma NoDataNoNotifications(orders: Message<OrderEvent>, trades: Message<ExecutionEvent>, positions: Message<PositionEvent>)
    requires orders.data.None? || orders.data == Some([])
    requires trades.data.None? || trades.data == Some([])
    requires positions.data.None? || positions.data == Some([])
    ensures OrderNotifications(Items(orders)) == []
    ensures ExecutionNotifications(Items(trades)) == []
    ensures PositionNotifications(Items(positions)) == []
  {
  }

  // ---------------------------------------------------------------------------
  // Dispatching to the notifier

  /** What one notifier call does when the webhook is set: post a payload, post
      nothing, or raise. */
  function Delivery(n: Notification): Result<Option<Payload>, NotifyError> {
    match n
    case NewOrder(o) => Ok(Some(Payload([NewOrderEmbed(o)])))
    case OrderCancel(o) => Ok(Some(Payload([CancelEmbed(o)])))
    case OrderFilled(t) => Ok(Some(Payload([FilledEmbed(t)])))
    case PositionUpdate(p) =>
      match PositionDecision(p)
      case Err(e) => Err(e)
      case Ok(None) => Ok(None)
      case Ok(Some(embed)) => Ok(Some(Payload([embed])))
  }

  /** The payloads a callback posts and how it ends. */
  datatype DispatchTrace = DispatchTrace(payloads: seq<Payload>, outcome: Result<(), NotifyError>)

  /** Making the calls `ns` in order: payloads are posted only when the webhook
      is enabled, and the first raise ends the callback. */
  function Dispatch(enabled: bool, ns: seq<Notification>): DispatchTrace
    decreases |ns|
  {
    if ns == [] then DispatchTrace([], Ok(()))
    else
      var d := Dispatch(enabled, ns[..|ns| - 1]);
      if d.outcome.Err? then d
      else
        match Delivery(ns[|ns| - 1])
        case Err(e) => DispatchTrace(d.payloads, Err(e))
        case Ok(None) => d
        case Ok(Some(p)) => DispatchTrace(d.payloads + if enabled then [p] else [], d.outcome)
  }

  /** One more call that posts a payload (when the webhook is set). */
  lemma DispatchPosts(enabled: bool, ns: seq<Notification>, n: Notification, p: Payload)
    requires Dispatch(enabled, ns).outcome.Ok? && Delivery(n) == Ok(Some(p))
    ensures Dispatch(enabled, ns + [n]) == DispatchTrace(Dispatch(enabled, ns).payloads + if enabled then [p] else [], Ok(()))
  {
    assert (ns + [n])[..|ns|] == ns;
  }

  /** The posted list after one more call that posts `p` when the webhook is set. */
  lemma PostedStep(posted0: seq<Payload>, before: seq<Payload>, after: seq<Payload>, enabled: bool, ns: seq<Notification>, n: Notification, p: Payload)
    requires before == posted0 + Dispatch(enabled, ns).payloads && Dispatch(enabled, ns).outcome == Ok(())
    requires Delivery(n) == Ok(Some(p))
    requires after == before + if enabled then [p] else []
    ensures after == posted0 + Dispatch(enabled, ns + [n]).payloads && Dispatch(enabled, ns + [n]).outcome == Ok(())
  {
    DispatchPosts(enabled, ns, n, p);
    AppendAssociative(posted0, Dispatch(enabled, ns).payloads, if enabled then [p] else []);
  }

  /** One more call that posts nothing. */
  lemma DispatchSilent(enabled: bool, ns: seq<Notification>, n: Notification)
    requires Dispatch(enabled, ns).outcome.Ok? && Delivery(n) == Ok(None)
    ensures Dispatch(enabled, ns + [n]) == Dispatch(enabled, ns)
  {
    assert (ns + [n])[..|ns|] == ns;
  }

  /** One more call that raises. */
  lemma DispatchRaises(enabled: bool, ns: seq<Notification>, n: Notification)
    requires Dispatch(enabled, ns).outcome.Ok? && Delivery(n).Err?
    ensures Dispatch(enabled, ns + [n]) == DispatchTrace(Dispatch(enabled, ns).payloads, Err(Delivery(n).error))
  {
    assert (ns + [n])[..|ns|] == ns;
  }

  /** Without a webhook nothing is ever posted. */
  lemma {:induction false} DispatchDisabled(ns: seq<Notification>)
    ensures Dispatch(false, ns).payloads == []
    decreases |ns|
  {
    if ns != [] {
      DispatchDisabled(ns[..|ns| - 1]);
    }
  }

  /** Order and execution notifications never raise and, with the webhook set,
      each posts exactly the payload of its own embed. */
  lemma {:induction false} DispatchNoPositions(ns: seq<Notification>)
    requires forall i :: 0 <= i < |ns| ==> !ns[i].PositionUpdate?
    ensures Dispatch(true, ns).outcome == Ok(())
    ensures |Dispatch(true, ns).payloads| == |ns|
    ensures forall i :: 0 <= i < |ns| ==> Delivery(ns[i]) == Ok(Some(Dispatch(true, ns).payloads[i]))
    decreases |ns|
  {
    if ns != [] {
      var front, last := ns[..|ns| - 1], ns[|ns| - 1];
      DispatchNoPositions(front);
      assert front + [last] == ns;
      var p := Delivery(last).value.value;
      DispatchPosts(true, front, last, p);
      forall i | 0 <= i < |ns|
        ensures Delivery(ns[i]) == Ok(Some(Dispatch(true, ns).payloads[i]))
      {
        if i < |front| {
          assert ns[i] == front[i];
        }
      }
    }
  }

  /** Every payload an order or execution callback posts holds exactly one embed. */
  lemma DispatchNoPositionsSingleEmbed(ns: seq<Notification>)
    requires forall i :: 0 <= i < |ns| ==> !ns[i].PositionUpdate?
    ensures forall p :: p in Dispatch(true, ns).payloads ==> |p.embeds| == 1
  {
    DispatchNoPositions(ns);
    forall p | p in Dispatch(true, ns).payloads
      ensures |p.embeds| == 1
    {
      var i :| 0 <= i < |Dispatch(true, ns).payloads| && Dispatch(true, ns).payloads[i] == p;
      assert Delivery(ns[i]) == Ok(Some(p));
    }
  }

  /** Once a call has raised, later calls of the batch are never made: a
      position without a size ends the position callback. */
  lemma {:induction false} DispatchErrPersists(enabled: bool, a: seq<Notification>, b: seq<Notification>)
    requires Dispatch(enabled, a).outcome.Err?
    ensures Dispatch(enabled, a + b) == Dispatch(enabled, a)
    decreases |b|
  {
    if b == [] {
      assert a + b == a;
    } else {
      var front := b[..|b| - 1];
      DispatchErrPersists(enabled, a, front);
      assert (a + b)[..|a + b| - 1] == a + front;
    }
  }

  /** A position that raises ends the batch: what was posted before it stays,
      and its error is the callback's outcome. */
  lemma PositionRaiseEndsBatch(enabled: bool, items: seq<PositionEvent>, i: nat)
    requires i < |items| && PositionDecision(items[i]).Err?
    requires Dispatch(enabled, PositionNotifications(items[..i])).outcome.Ok?
    ensures Dispatch(enabled, PositionNotifications(items)) ==
      DispatchTrace(Dispatch(enabled, PositionNotifications(items[..i])).payloads, Err(PositionDecision(items[i]).error))
  {
    var calls := PositionNotifications(items[..i]);
    PositionNotificationsStep(items, i);
    DispatchRaises(enabled, calls, PositionUpdate(items[i]));
    PositionNotificationsAppend(items[..i + 1], items[i + 1..]);
    assert items[..i + 1] + items[i + 1..] == items;
    DispatchErrPersists(enabled, calls + [PositionUpdate(items[i])], PositionNotifications(items[i + 1..]));
  }

  /** The error log after more notifier calls. */
  lemma LogStep(log0: seq<LogEntry>, logBefore: seq<LogEntry>, log: seq<LogEntry>, postReplies: seq<PostReply>, lo: nat, mid: nat, hi: nat)
    requires lo <= mid <= hi
    requires logBefore == log0 + PostErrors(postReplies, lo, mid)
    requires log == logBefore + PostErrors(postReplies, mid, hi)
    ensures log == log0 + PostErrors(postReplies, lo, hi)
  {
    PostErrorsExtend(postReplies, lo, mid, hi);
    AppendAssociative(log0, PostErrors(postReplies, lo, mid), PostErrors(postReplies, mid, hi));
  }

  class BybitMonitor {
    const notifier: DiscordNotifier

    constructor (notifier: DiscordNotifier)
      ensures this.notifier == notifier
    {
      this.notifier := notifier;
    }

    /** `_on_order_update`. */
    method OnOrderUpdate(message: Message<OrderEvent>)
      modifies notifier`posted, notifier`errors
      ensures notifier.posted == old(notifier.posted) + Dispatch(notifier.Enabled(), OrderNotifications(Items(message))).payloads
      ensures notifier.errors == old(notifier.errors) + PostErrors(notifier.postReplies, |old(notifier.posted)|, |notifier.posted|)
    {
      var items := message.data.GetOr([]);
      ghost var enabled := notifier.Enabled();
      ghost var calls: seq<Notification> := [];
      for i := 0 to |items|
        invariant calls == OrderNotifications(items[..i])
        invariant notifier.posted == old(notifier.posted) + Dispatch(enabled, calls).payloads
        invariant Dispatch(enabled, calls).outcome == Ok(())
        invariant notifier.errors == old(notifier.errors) + PostErrors(notifier.postReplies, |old(notifier.posted)|, |notifier.posted|)
      {
        var order := items[i];
        ghost var before, logBefore := notifier.posted, notifier.errors;
        OrderNotificationsStep(items, i);
        OrderRouteCases(order);
        if order.orderStatus == Some(NewStatus) {
          notifier.SendOrderNew(order);
          PostedStep(old(notifier.posted), before, notifier.posted, enabled, calls, NewOrder(order), Payload([NewOrderEmbed(order)]));
          calls := calls + [NewOrder(order)];
        } else if order.orderStatus == Some(CancelledStatus) {
          notifier.SendOrderCancel(order);
          PostedStep(old(notifier.posted), before, notifier.posted, enabled, calls, OrderCancel(order), Payload([CancelEmbed(order)]));
          calls := calls + [OrderCancel(order)];
        } else {
          assert calls + [] == calls;
        }
        LogStep(old(notifier.errors), logBefore, notifier.errors, notifier.postReplies, |old(notifier.posted)|, |before|, |notifier.posted|);
      }
      assert items[..|items|] == items;
    }

    /** `_on_execution_update`. */
    method OnExecutionUpdate(message: Message<ExecutionEvent>)
      modifies notifier`posted, notifier`errors
      ensures notifier.posted == old(notifier.posted) + Dispatch(notifier.Enabled(), ExecutionNotifications(Items(message))).payloads
      ensures notifier.errors == old(notifier.errors) + PostErrors(notifier.postReplies, |old(notifier.posted)|, |notifier.posted|)
    {
      var items := message.data.GetOr([]);
      ghost var enabled := notifier.Enabled();
      ghost var calls: seq<Notification> := [];
      for i := 0 to |items|
        invariant calls == ExecutionNotifications(items[..i])
        invariant notifier.posted == old(notifier.posted) + Dispatch(enabled, calls).payloads
        invariant Dispatch(enabled, calls).outcome == Ok(())
        invariant notifier.errors == old(notifier.errors) + PostErrors(notifier.postReplies, |old(notifier.posted)|, |notifier.posted|)
      {
        var trade := items[i];
        ghost var before, logBefore := notifier.posted, notifier.errors;
        ExecutionNotificationsStep(items, i);
        notifier.SendOrderFilled(trade);
        PostedStep(old(notifier.posted), before, notifier.posted, enabled, calls, OrderFilled(trade), Payload([FilledEmbed(trade)]));
        calls := calls + [OrderFilled(trade)];
        LogStep(old(notifier.errors), logBefore, notifier.errors, notifier.postReplies, |old(notifier.posted)|, |before|, |notifier.posted|);
      }
      assert items[..|items|] == items;
    }

    /** `_on_position_update`; an exception from the notifier ends the loop and
        propagates. */
    method OnPositionUpdate(message: Message<PositionEvent>) returns (r: Result<(), NotifyError>)
      modifies notifier`posted, notifier`errors
      ensures notifier.posted == old(notifier.posted) + Dispatch(notifier.Enabled(), PositionNotifications(Items(message))).payloads
      ensures r == Dispatch(notifier.Enabled(), PositionNotifications(Items(message))).outcome
      ensures notifier.errors == old(notifier.errors) + PostErrors(notifier.postReplies, |old(notifier.posted)|, |notifier.posted|)
    {
      var items := message.data.GetOr([]);
      ghost var enabled := notifier.Enabled();
      ghost var calls: seq<Notification> := [];
      for i := 0 to |items|
        invariant calls == PositionNotifications(items[..i])
        invariant notifier.posted == old(notifier.posted) + Dispatch(enabled, calls).payloads
        invariant Dispatch(enabled, calls).outcome == Ok(())
        invariant notifier.errors == old(notifier.errors) + PostErrors(notifier.postReplies, |old(notifier.posted)|, |notifier.posted|)
      {
        var position := items[i];
        ghost var before, logBefore := notifier.posted, notifier.errors;
        PositionNotificationsStep(items, i);
        var sent := notifier.SendPositionUpdate(position);
        LogStep(old(notifier.errors), logBefore, notifier.errors, notifier.postReplies, |old(notifier.posted)|, |before|, |notifier.posted|);
        match PositionDecision(position) {
          case Err(_) =>
            PositionRaiseEndsBatch(enabled, items, i);
            return sent;
          case Ok(None) =>
            DispatchSilent(enabled, calls, PositionUpdate(position));
          case Ok(Some(embed)) =>
            PostedStep(old(notifier.posted), before, notifier.posted, enabled, calls, PositionUpdate(position), Payload([embed]));
        }
        calls := calls + [PositionUpdate(position)];
      }
      assert items[..|items|] == items;
      r := Ok(());
    }
  }
}
