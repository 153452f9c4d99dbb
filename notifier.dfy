/** `DiscordNotifier`: builds one Discord embed per trading event and posts it
    as `{"embeds": [embed]}` to the configured webhook, when one is set. The
    webhook answers from a script of replies fixed when the notifier is built;
    the JSON text, the HTTP headers and the footer's clock time are not modelled. */
module Notifier {
  import opened Common

  /** Embed colours. */
  const Green: int := 3066993
  const Red: int := 15158332
  const Grey: int := 9807270

  /** What an empty take-profit or stop-loss is shown as. */
  const NoTarget: string := "無"

  const Buy: string := "Buy"

  /** The status Discord answers a successful webhook post with. */
  const NoContent: int := 204

  /** An order-stream item; every key may be missing. Values are the exchange's strings. */
  datatype OrderEvent = OrderEvent(
    symbol: Option<string>,
    side: Option<string>,
    orderType: Option<string>,
    price: Option<string>,
    qty: Option<string>,
    takeProfit: Option<string>,
    stopLoss: Option<string>,
    orderStatus: Option<string>)

  /** An execution-stream item. */
  datatype ExecutionEvent = ExecutionEvent(
    symbol: Option<string>,
    side: Option<string>,
    execPrice: Option<string>,
    execQty: Option<string>)

  /** A number sent as text, together with the value `float` reads from it. */
  datatype Amount = Amount(text: string, value: real)

  /** A position-stream item. */
  datatype PositionEvent = PositionEvent(
    symbol: Option<string>,
    side: Option<string>,
    size: Option<Amount>,
    avgPrice: Option<string>,
    unrealisedPnl: Option<Amount>)

  /** A field's value: text, JSON null, or the PnL line `"<emoji> <amount> U"`
      (the two-decimal rendering of the amount is not modelled). */
  datatype FieldValue = Text(text: string) | Null | PnlFigure(emoji: string, amount: real)

  datatype EmbedField = EmbedField(name: string, value: FieldValue, inline: bool)

  /** An embed carries either a list of fields or a description. */
  datatype EmbedBody = Fields(fields: seq<EmbedField>) | Description(text: string)

  datatype Embed = Embed(title: string, color: int, body: EmbedBody)

  /** The JSON object posted to the webhook. */
  datatype Payload = Payload(embeds: seq<Embed>)

  /** Why a send raises: `float(None)` on a position without a size. */
  datatype NotifyError = SizeMissing

  /** The field names of a new-order embed, in order. */
  const NewOrderFieldNames: seq<string> := ["類型", "價格", "數量", "止盈 (TP)", "止損 (SL)"]

  function FieldNames(fields: seq<EmbedField>): (names: seq<string>)
    ensures |names| == |fields|
    ensures forall i :: 0 <= i < |fields| ==> names[i] == fields[i].name
  {
    if fields == [] then [] else [fields[0].name] + FieldNames(fields[1..])
  }

  /** `str(v)` or `f"{v}"` of a string value that may be None. */
  function Str(v: Option<string>): string {
    v.GetOr("None")
  }

  /** Green for a buy, red for anything else (a sell or a missing side). */
  function SideColor(side: Option<string>): int
  {
    if side == Some(Buy) then Green else Red
  }

  /** A take-profit or stop-loss: its text, or the placeholder when missing or empty. */
  function TargetText(v: Option<string>): string
  {
    var text := v.GetOr("");
    if text != "" then text else NoTarget
  }

  function NewOrderEmbed(o: OrderEvent): Embed
  {
    Embed(
      "📢 [掛單] 新增 " + Str(o.symbol) + " " + Str(o.side) + " 單",
      SideColor(o.side),
      Fields([
        EmbedField("類型", if o.orderType.Some? then Text(o.orderType.value) else Null, true),
        EmbedField("價格", Text(Str(o.price)), true),
        EmbedField("數量", Text(Str(o.qty)), true),
        EmbedField("止盈 (TP)", Text(TargetText(o.takeProfit)), true),
        EmbedField("止損 (SL)", Text(TargetText(o.stopLoss)), true)]))
  }

  function FilledEmbed(t: ExecutionEvent): Embed
  {
    Embed(
      "⚡ [成交] " + Str(t.symbol) + " " + Str(t.side) + " 已進場/加倉",
      SideColor(t.side),
      Fields([
        EmbedField("成交價格", Text(Str(t.execPrice)), true),
        EmbedField("成交數量", Text(Str(t.execQty)), true)]))
  }

  function CancelEmbed(o: OrderEvent): Embed
  {
    Embed(
      "🗑️ [撤單] " + Str(o.symbol) + " " + Str(o.side) + " 訂單已取消",
      Grey,
      Description("原掛單價格: " + Str(o.price)))
  }

  /** `float(pos.get("unrealisedPnl", 0))`. */
  function UnrealisedPnl(p: PositionEvent): real {
    match p.unrealisedPnl
    case Some(a) => a.value
    case None => 0.0
  }

  function PnlEmoji(pnl: real): string {
    if pnl >= 0.0 then "🟢" else "🔴"
  }

  function PositionEmbed(p: PositionEvent, size: Amount): Embed
  {
    var pnl := UnrealisedPnl(p);
    Embed(
      "📊 [持倉更新] " + Str(p.symbol) + " " + Str(p.side),
      if pnl >= 0.0 then Green else Red,
      Fields([
        EmbedField("持倉大小", Text(size.text), true),
        EmbedField("入場均價", Text(Str(p.avgPrice)), true),
        EmbedField("未實現盈虧", PnlFigure(PnlEmoji(pnl), pnl), false)]))
  }

  /** New-order embeds: green exactly for a buy and red otherwise, with five
      inline fields in a fixed order. */
  lemma NewOrderEmbedShape(o: OrderEvent)
    ensures var e := NewOrderEmbed(o);
      && (e.color == Green <==> o.side == Some(Buy))
      && (e.color == Red <==> o.side != Some(Buy))
      && e.body.Fields? && FieldNames(e.body.fields) == NewOrderFieldNames
      && (forall i :: 0 <= i < 5 ==> e.body.fields[i].inline)
  {
    var e := NewOrderEmbed(o);
    assert FieldNames(e.body.fields) == NewOrderFieldNames by {
      forall i | 0 <= i < 5
        ensures FieldNames(e.body.fields)[i] == NewOrderFieldNames[i]
      {
      }
    }
  }

  /** A take-profit or stop-loss that is missing or empty is shown as the
      placeholder; any other value is shown as it is. */
  lemma TargetTextCases(v: Option<string>)
    ensures v.None? || v == Some("") ==> TargetText(v) == NoTarget
    ensures v.Some? && v.value != "" ==> TargetText(v) == v.value
  {
  }

  /** The new-order embed's take-profit and stop-loss fields (the fourth and
      fifth) show those targets, or the placeholder for an unset one. */
  lemma NewOrderTargets(o: OrderEvent)
    ensures NewOrderEmbed(o).body.fields[3].value == Text(TargetText(o.takeProfit))
    ensures NewOrderEmbed(o).body.fields[4].value == Text(TargetText(o.stopLoss))
    ensures NewOrderEmbed(o).body.fields[1].value == Text(Str(o.price))
    ensures NewOrderEmbed(o).body.fields[2].value == Text(Str(o.qty))
    ensures o.orderType.None? <==> NewOrderEmbed(o).body.fields[0].value == Null
  {
  }

  /** Fill embeds: green exactly for a buy, with the price and quantity fields. */
  lemma FilledEmbedShape(t: ExecutionEvent)
    ensures var e := FilledEmbed(t);
      && (e.color == Green <==> t.side == Some(Buy))
      && (e.color == Red <==> t.side != Some(Buy))
      && e.body.Fields? && |e.body.fields| == 2
      && e.body.fields[0].value == Text(Str(t.execPrice))
      && e.body.fields[1].value == Text(Str(t.execQty))
  {
  }

  /** Cancel embeds are always grey and carry a description instead of fields. */
  lemma CancelEmbedShape(o: OrderEvent)
    ensures CancelEmbed(o).color == Grey
    ensures CancelEmbed(o).body.Description?
  {
  }

  /** Position embeds are green with the green emoji exactly when the unrealised
      PnL is not negative, and red with the red emoji otherwise. */
  lemma PositionEmbedShape(p: PositionEvent, size: Amount)
    ensures var e := PositionEmbed(p, size);
      && (e.color == Green <==> UnrealisedPnl(p) >= 0.0)
      && (e.color == Red <==> UnrealisedPnl(p) < 0.0)
      && e.body.Fields? && |e.body.fields| == 3
      && e.body.fields[2].value == PnlFigure(PnlEmoji(UnrealisedPnl(p)), UnrealisedPnl(p))
      && (PnlEmoji(UnrealisedPnl(p)) == "🟢" <==> UnrealisedPnl(p) >= 0.0)
  {
  }

  /** What `send_position_update` does: raise without a size, stay silent for a
      closed position (size 0), and otherwise build the update embed. */
  function PositionDecision(p: PositionEvent): (d: Result<Option<Embed>, NotifyError>)
    ensures d.Err? <==> p.size.None?
    ensures d == Ok(None) <==> p.size.Some? && p.size.value.value == 0.0
    ensures d.Ok? && d.value.Some? ==> d.value.value == PositionEmbed(p, p.size.value)
  {
    match p.size
    case None => Err(SizeMissing)
    case Some(size) => if size.value == 0.0 then Ok(None) else Ok(Some(PositionEmbed(p, size)))
  }

  /** A position without unrealised PnL counts as breaking even: green. */
  lemma MissingPnlIsGreen(p: PositionEvent, size: Amount)
    requires p.unrealisedPnl.None?
    ensures PositionEmbed(p, size).color == Green
    ensures PositionEmbed(p, size).body.fields[2].value.emoji == PnlEmoji(0.0)
  {
  }

  // ---------------------------------------------------------------------------
  // Posting

  /** A webhook reply: an HTTP status, or an exception from `requests.post`. */
  datatype PostReply = Status(code: int) | PostFailed

  /** An error line written to the log. */
  datatype LogEntry = BadStatus(code: int) | PostError

  /** The `n`-th reply of the webhook: the script entry, or success past its end. */
  function PostReplyAt(postReplies: seq<PostReply>, n: nat): PostReply {
    if n < |postReplies| then postReplies[n] else Status(NoContent)
  }

  /** What `_send` logs for one reply: nothing for 204, one line otherwise. */
  function LogFor(reply: PostReply): (entries: seq<LogEntry>)
    ensures entries == [] <==> reply == Status(NoContent)
    ensures |entries| <= 1
  {
    match reply
    case Status(code) => if code == NoContent then [] else [BadStatus(code)]
    case PostFailed => [PostError]
  }

  /** The log lines for posts `lo` up to `hi` (exclusive), in order. */
  function PostErrors(postReplies: seq<PostReply>, lo: nat, hi: nat): seq<LogEntry>
    decreases hi - lo
  {
    if hi <= lo then [] else PostErrors(postReplies, lo, hi - 1) + LogFor(PostReplyAt(postReplies, hi - 1))
  }

  /** The log of a run of posts is the log of its first part followed by the
      log of the rest, wherever it is split. */
  lemma {:induction false} PostErrorsExtend(postReplies: seq<PostReply>, lo: nat, mid: nat, hi: nat)
    requires lo <= mid <= hi
    ensures PostErrors(postReplies, lo, mid) + PostErrors(postReplies, mid, hi) == PostErrors(postReplies, lo, hi)
    decreases hi - mid
  {
    if hi == mid {
      PostErrorsSplitEnd(postReplies, lo, mid);
    } else {
      PostErrorsExtend(postReplies, lo, mid, hi - 1);
      PostErrorsSplitLast(postReplies, lo, mid, hi);
    }
  }

  /** Splitting a run of posts at its end. */
  lemma PostErrorsSplitEnd(postReplies: seq<PostReply>, lo: nat, hi: nat)
    requires lo <= hi
    ensures PostErrors(postReplies, lo, hi) + PostErrors(postReplies, hi, hi) == PostErrors(postReplies, lo, hi)
  {
    assert PostErrors(postReplies, hi, hi) == [];
  }

  /** Moving the split of a run of posts past one more post. */
  lemma PostErrorsSplitLast(postReplies: seq<PostReply>, lo: nat, mid: nat, hi: nat)
    requires lo <= mid < hi
    requires PostErrors(postReplies, lo, mid) + PostErrors(postReplies, mid, hi - 1) == PostErrors(postReplies, lo, hi - 1)
    ensures PostErrors(postReplies, lo, mid) + PostErrors(postReplies, mid, hi) == PostErrors(postReplies, lo, hi)
  {
    var first, middle := PostErrors(postReplies, lo, mid), PostErrors(postReplies, mid, hi - 1);
    var last := LogFor(PostReplyAt(postReplies, hi - 1));
    AppendAssociative(first, middle, last);
  }

  /** Failed posts are logged and never raise: with every reply 204 nothing is logged. */
  lemma {:induction false} PostErrorsClean(postReplies: seq<PostReply>, lo: nat, hi: nat)
    requires forall n :: lo <= n < hi ==> PostReplyAt(postReplies, n) == Status(NoContent)
    ensures PostErrors(postReplies, lo, hi) == []
    decreases hi
  {
    if lo < hi {
      PostErrorsClean(postReplies, lo, hi - 1);
      assert LogFor(PostReplyAt(postReplies, hi - 1)) == [];
    }
  }

  class DiscordNotifier {
    const webhookUrl: Option<string>
    const postReplies: seq<PostReply>
    var posted: seq<Payload>
    var errors: seq<LogEntry>

    constructor (webhookUrl: Option<string>, postReplies: seq<PostReply>)
      ensures this.webhookUrl == webhookUrl && this.postReplies == postReplies
      ensures posted == [] && errors == []
    {
      this.webhookUrl := webhookUrl;
      this.postReplies := postReplies;
      this.posted := [];
      this.errors := [];
    }

    /** Whether the webhook URL is truthy: present and not empty. */
    predicate Enabled() {
      webhookUrl.Some? && webhookUrl.value != ""
    }

    /** `_send`: without a webhook URL, do nothing; otherwise post the payload
        and log (never raise) a reply other than 204 or a failed post. */
    method Send(payload: Payload)
      modifies this`posted, this`errors
      ensures posted == old(posted) + if Enabled() then [payload] else []
      ensures errors == old(errors) + PostErrors(postReplies, |old(posted)|, |posted|)
    {
      if !Enabled() {
        assert posted + [] == posted && errors + [] == errors;
        return;
      }
      var reply := PostReplyAt(postReplies, |posted|);
      assert PostErrors(postReplies, |posted|, |posted| + 1) == [] + LogFor(reply);
      posted := posted + [payload];
      match reply {
        case Status(code) =>
          if code != NoContent {
            errors := errors + [BadStatus(code)];
          } else {
            assert errors + [] == errors;
          }
        case PostFailed =>
          errors := errors + [PostError];
      }
    }

    method SendOrderNew(o: OrderEvent)
      modifies this`posted, this`errors
      ensures posted == old(posted) + if Enabled() then [Payload([NewOrderEmbed(o)])] else []
      ensures errors == old(errors) + PostErrors(postReplies, |old(posted)|, |posted|)
    {
      Send(Payload([NewOrderEmbed(o)]));
    }

    method SendOrderFilled(t: ExecutionEvent)
      modifies this`posted, this`errors
      ensures posted == old(posted) + if Enabled() then [Payload([FilledEmbed(t)])] else []
      ensures errors == old(errors) + PostErrors(postReplies, |old(posted)|, |posted|)
    {
      Send(Payload([FilledEmbed(t)]));
    }

    method SendOrderCancel(o: OrderEvent)
      modifies this`posted, this`errors
      ensures posted == old(posted) + if Enabled() then [Payload([CancelEmbed(o)])] else []
      ensures errors == old(errors) + PostErrors(postReplies, |old(posted)|, |posted|)
    {
      Send(Payload([CancelEmbed(o)]));
    }

    /** `send_position_update`: raises on a missing size, returns early for a
        closed position, and otherwise posts the update. */
    method SendPositionUpdate(p: PositionEvent) returns (r: Result<(), NotifyError>)
      modifies this`posted, this`errors
      ensures PositionDecision(p).Err? ==> r == Err(PositionDecision(p).error)
      ensures PositionDecision(p).Ok? ==> r == Ok(())
      ensures posted == old(posted) +
        if Enabled() && PositionDecision(p).Ok? && PositionDecision(p).value.Some?
        then [Payload([PositionDecision(p).value.value])] else []
      ensures errors == old(errors) + PostErrors(postReplies, |old(posted)|, |posted|)
    {
      if p.size.None? {
        assert posted + [] == posted && errors + [] == errors;
        return Err(SizeMissing);
      }
      if p.size.value.value == 0.0 {
        assert posted + [] == posted && errors + [] == errors;
        return Ok(());
      }
      Send(Payload([PositionEmbed(p, p.size.value)]));
      r := Ok(());
    }
  }
}
