/** The order-result component: the state it keeps across status and channel
    events, the merged status view it derives from that state and the initial
    order result, and the three presentation choices made from the view (the
    container class, invoice mode, and the heading with its message). */
module OrderResult {
  import opened Records

  const Waiting := "waiting_for_payment"

  const DangerClass := "border border-danger rounded p-3"
  const SuccessClass := "border border-success rounded p-3"
  const InvoiceClass := "border rounded bg-light p-3"
  const CardClass := "card p-3"

  const FailedHeading := "Channel Opening Failed"
  const ErrorHeading := "Error"
  const SuccessHeading := "Success!"
  const ErrorDefault := "Failed to get options for channel opening."
  const SuccessDefault := "The LSP is opening your channel."
  const FailurePrefix := "The channel order failed to complete. To troubleshoot, please contact "
  const FailureMiddle := " and inquire about order ID "
  const DefaultLspName := "the LSP"

  // ---------------------------------------------------------------------------
  // The merged status view
  // ---------------------------------------------------------------------------

  /** The view the component presents. With a status snapshot it is that
      snapshot with `channelData`, `paymentInfo` and `data` overridden; without
      one it is a copy of the initial order result. */
  function CurrentStatusData(orderResult: StatusData, orderStatus: Option<StatusData>,
                             channels: seq<Channel>): (v: StatusData)
    ensures orderStatus.None? ==> v == orderResult
    ensures orderStatus.Some? ==>
      var s := orderStatus.value;
      && v.success == s.success && v.orderId == s.orderId && v.message == s.message
      && v.orderState == s.orderState && v.status == s.status && v.details == s.details
      && v.payment == s.payment
      && v.paymentInfo == (if s.paymentInfo.Some? then s.paymentInfo else orderResult.paymentInfo)
      && v.data == (if s.data.Some? then s.data else orderResult.data)
      && v.channelData == (if |channels| > 0 then Some(channels) else None)
  {
    match orderStatus
    case None => orderResult
    case Some(s) =>
      s.(channelData := if |channels| > 0 then Some(channels) else None,
         paymentInfo := OrObject(s.paymentInfo, orderResult.paymentInfo),
         data := OrObject(s.data, orderResult.data))
  }

  /** Without a status snapshot the channel list never reaches the view. */
  lemma ChannelsIgnoredWithoutStatus(orderResult: StatusData, c1: seq<Channel>, c2: seq<Channel>)
    ensures CurrentStatusData(orderResult, None, c1) == CurrentStatusData(orderResult, None, c2)
    ensures CurrentStatusData(orderResult, None, c1).channelData == orderResult.channelData
  {
  }

  // ---------------------------------------------------------------------------
  // Presentation choices
  // ---------------------------------------------------------------------------

  /** Failure is reported by either field on its own, and each comparison is
      case-sensitive: a lower-case `failed` order state is not a failure. */
  predicate IsFailed(v: StatusData)
    ensures v.orderState == Some("FAILED") ==> IsFailed(v)
    ensures v.status == Some("failed") ==> IsFailed(v)
    ensures v.orderState == Some("failed") && v.status != Some("failed") ==> !IsFailed(v)
    ensures v.orderState.None? && v.status.None? ==> !IsFailed(v)
  {
    v.orderState == Some("FAILED") || v.status == Some("failed")
  }

  /** Completion is reported by the order state or by either spelling of the
      legacy status; the order-state comparison is case-sensitive. */
  predicate IsCompleted(v: StatusData)
    ensures v.orderState == Some("COMPLETED") ==> IsCompleted(v)
    ensures v.status == Some("complete") || v.status == Some("completed") ==> IsCompleted(v)
    ensures v.orderState == Some("completed") && v.status.None? ==> !IsCompleted(v)
    ensures v.orderState.None? && v.status.None? ==> !IsCompleted(v)
  {
    v.orderState == Some("COMPLETED") || v.status == Some("complete") || v.status == Some("completed")
  }

  /** The border/background class of the result container. The choices are
      tried in a fixed priority order: failure, then an unsuccessful order
      result, then completion, then the legacy waiting status, then the plain
      card. */
  function ContainerClass(orderResult: StatusData, v: StatusData): (c: string)
    ensures c in {DangerClass, SuccessClass, InvoiceClass, CardClass}
    ensures c == DangerClass <==> IsFailed(v) || !orderResult.success
    ensures c == SuccessClass <==> !IsFailed(v) && orderResult.success && IsCompleted(v)
    ensures c == InvoiceClass <==>
      !IsFailed(v) && orderResult.success && !IsCompleted(v) && v.status == Some(Waiting)
    ensures c == CardClass <==>
      !IsFailed(v) && orderResult.success && !IsCompleted(v) && v.status != Some(Waiting)
  {
    if IsFailed(v) then DangerClass
    else if !orderResult.success then DangerClass
    else if IsCompleted(v) then SuccessClass
    else if v.status == Some(Waiting) then InvoiceClass
    else CardClass
  }

  function UpperChar(c: char): char {
    if 'a' <= c <= 'z' then (c as int - 'a' as int + 'A' as int) as char else c
  }

  /** `toUpperCase`, restricted to the ASCII letters. */
  function ToUpper(s: string): (r: string)
    ensures |r| == |s|
    ensures forall i :: 0 <= i < |s| ==> r[i] == UpperChar(s[i])
  {
    if s == [] then [] else [UpperChar(s[0])] + ToUpper(s[1..])
  }

  /** Invoice mode: the legacy waiting status, or an order state that reads
      `CREATED` in any letter case. Unlike the container class, it does not
      look at the order result's `success`. */
  function IsShowingInvoice(v: StatusData): (b: bool)
    ensures b <==> v.status == Some(Waiting) ||
                   (v.orderState.Some? && ToUpper(v.orderState.value) == "CREATED")
    ensures (v.orderState == Some("CREATED") || v.orderState == Some("created") ||
             v.orderState == Some("Created")) ==> b
  {
    v.status == Some(Waiting) ||
    (TruthyText(v.orderState) && ToUpper(v.orderState.value) == "CREATED")
  }

  /** The name `connectedLspName || "the LSP"`. */
  function LspDisplayName(lspName: Option<string>): (r: string)
    ensures r != ""
    ensures TruthyText(lspName) ==> r == lspName.value
    ensures !TruthyText(lspName) ==> r == DefaultLspName
  {
    if TruthyText(lspName) then lspName.value else DefaultLspName
  }

  /** The order id quoted in the failure message: the view's `orderId`,
      falling back to `details.order_id`; a missing id prints as `undefined`. */
  function FailedOrderId(v: StatusData): (id: string)
    ensures TruthyText(v.orderId) ==> id == v.orderId.value
    ensures !TruthyText(v.orderId) && v.details.Some? && v.details.value.orderId.Some? ==>
            id == v.details.value.orderId.value
    ensures !TruthyText(v.orderId) && (v.details.None? || v.details.value.orderId.None?) ==>
            id == "undefined"
  {
    var fallback := if v.details.Some? then v.details.value.orderId else None;
    match OrText(v.orderId, fallback)
    case Some(x) => x
    case None => "undefined"
  }

  /** The failure message names the LSP and the order id at fixed offsets. */
  function FailureMessage(lsp: string, id: string): (m: string)
    ensures |m| == |FailurePrefix| + |lsp| + |FailureMiddle| + |id| + 1
    ensures m[..|FailurePrefix|] == FailurePrefix
    ensures m[|FailurePrefix|..|FailurePrefix| + |lsp|] == lsp
    ensures m[|FailurePrefix| + |lsp|..|FailurePrefix| + |lsp| + |FailureMiddle|] == FailureMiddle
    ensures m[|FailurePrefix| + |lsp| + |FailureMiddle|..|m| - 1] == id
    ensures m[|m| - 1] == '.'
  {
    FailurePrefix + lsp + FailureMiddle + id + "."
  }

  datatype Banner = Banner(heading: string, message: string)

  /** The heading and message shown above the status details. */
  function HeadingMessage(orderResult: StatusData, v: StatusData, lspName: Option<string>): (b: Banner)
    ensures b.heading in {FailedHeading, ErrorHeading, SuccessHeading}
    ensures b.heading == FailedHeading <==> IsFailed(v)
    ensures IsFailed(v) ==> b.message == FailureMessage(LspDisplayName(lspName), FailedOrderId(v))
    ensures b.heading == ErrorHeading <==>
      !IsFailed(v) && (!orderResult.success || !TruthyText(v.orderState))
    ensures b.heading == ErrorHeading ==>
      b.message == (if TruthyText(orderResult.message) then orderResult.message.value else ErrorDefault)
    ensures b.heading == SuccessHeading ==>
      b.message == (if TruthyText(orderResult.message) then orderResult.message.value else SuccessDefault)
  {
    if IsFailed(v) then
      Banner(FailedHeading, FailureMessage(LspDisplayName(lspName), FailedOrderId(v)))
    else if !orderResult.success || !TruthyText(v.orderState) then
      Banner(ErrorHeading, OrText(orderResult.message, Some(ErrorDefault)).value)
    else
      Banner(SuccessHeading, OrText(orderResult.message, Some(SuccessDefault)).value)
  }

  /** Failure wins over everything else, whatever the order result's
      `success` says: the container is the danger one and the heading is the
      failure heading. */
  lemma FailureTakesPrecedence(orderResult: StatusData, v: StatusData, lspName: Option<string>)
    requires IsFailed(v)
    ensures ContainerClass(orderResult, v) == DangerClass
    ensures ContainerClass(orderResult.(success := !orderResult.success), v) == DangerClass
    ensures HeadingMessage(orderResult, v, lspName).heading == FailedHeading
    ensures HeadingMessage(orderResult, v, lspName) ==
            HeadingMessage(orderResult.(success := !orderResult.success), v, lspName)
  {
  }

  /** The three derivations use different vocabularies: an order state of
      `created` puts the component in invoice mode, yet the container keeps
      the plain card class, and invoice mode is entered even for an
      unsuccessful order result whose container is the danger one. */
  lemma InvoiceModeIsNotContainerClass(orderResult: StatusData, v: StatusData)
    requires v.status.None? && v.orderState == Some("created")
    ensures IsShowingInvoice(v)
    ensures orderResult.success ==> ContainerClass(orderResult, v) == CardClass
    ensures !orderResult.success ==> ContainerClass(orderResult, v) == DangerClass
  {
  }

  // ---------------------------------------------------------------------------
  // Event-driven state
  // ---------------------------------------------------------------------------

  /** The component's state: the last status snapshot (`null` until the
      first event), when it arrived (an opaque clock reading), the last
      channel list, whether the two document listeners are registered, and
      the order ids handed to `startOrderStatusPolling` so far. */
  datatype Reconciler = Reconciler(
    orderStatus: Option<StatusData>,
    lastPolled: int,
    channelData: seq<Channel>,
    listening: bool,
    polls: seq<string>)

  datatype Event =
    | StatusUpdated(detail: Option<StatusData>, at: int)
    | ChannelsUpdated(channels: seq<Channel>)

  /** The state right after construction; `now` is the clock reading. */
  function Initial(now: int): (st: Reconciler)
    ensures st.orderStatus.None? && st.channelData == [] && !st.listening && st.polls == []
    ensures st.lastPolled == now
  {
    Reconciler(None, now, [], false, [])
  }

  /** Polling needs a successful order result that carries a non-empty id. */
  predicate ShouldPoll(orderResult: Option<StatusData>)
    ensures ShouldPoll(orderResult) ==> orderResult.Some? && orderResult.value.orderId.Some?
    ensures orderResult.Some? && orderResult.value.success && TruthyText(orderResult.value.orderId) ==>
            ShouldPoll(orderResult)
    ensures orderResult.Some? && !orderResult.value.success ==> !ShouldPoll(orderResult)
    ensures orderResult.Some? && orderResult.value.orderId == Some("") ==> !ShouldPoll(orderResult)
  {
    orderResult.Some? && orderResult.value.success && TruthyText(orderResult.value.orderId)
  }

  /** The mount effect: both listeners are registered, and polling starts for
      the order id exactly when the order result is successful and has one. */
  function Mounted(orderResult: Option<StatusData>, st: Reconciler): (r: Reconciler)
    ensures r.listening
    ensures r.orderStatus == st.orderStatus && r.lastPolled == st.lastPolled
    ensures r.channelData == st.channelData
    ensures |r.polls| == |st.polls| + (if ShouldPoll(orderResult) then 1 else 0)
    ensures r.polls[..|st.polls|] == st.polls
    ensures ShouldPoll(orderResult) ==> r.polls[|st.polls|] == orderResult.value.orderId.value
  {
    st.(listening := true,
        polls := st.polls + if ShouldPoll(orderResult) then [orderResult.value.orderId.value] else [])
  }

  /** The cleanup: both listeners are removed, nothing else changes. */
  function Unmounted(st: Reconciler): (r: Reconciler)
    ensures !r.listening
    ensures r.(listening := st.listening) == st
  {
    st.(listening := false)
  }

  /** One event reaching the document. A status event replaces the stored
      snapshot and stamps the time; a channel event replaces the channel
      list. Without registered listeners an event changes nothing. */
  function Step(st: Reconciler, e: Event): (r: Reconciler)
    ensures r.listening == st.listening && r.polls == st.polls
    ensures !st.listening ==> r == st
    ensures st.listening && e.StatusUpdated? ==>
      r == st.(orderStatus := e.detail, lastPolled := e.at)
    ensures st.listening && e.ChannelsUpdated? ==> r == st.(channelData := e.channels)
  {
    if !st.listening then st
    else match e
      case StatusUpdated(d, t) => st.(orderStatus := d, lastPolled := t)
      case ChannelsUpdated(c) => st.(channelData := c)
  }

  /** A sequence of events, delivered in order. Events never register or
      remove listeners and never start polling; after unmount they leave the
      whole state unchanged. */
  function Run(st: Reconciler, evs: seq<Event>): (r: Reconciler)
    ensures r.listening == st.listening
    ensures r.polls == st.polls
    ensures !st.listening ==> r == st
    decreases |evs|
  {
    if evs == [] then st else Run(Step(st, evs[0]), evs[1..])
  }

  lemma {:induction false} RunAppend(st: Reconciler, a: seq<Event>, b: seq<Event>)
    ensures Run(st, a + b) == Run(Run(st, a), b)
    decreases |a|
  {
    if a == [] {
      assert a + b == b;
    } else {
      assert (a + b)[0] == a[0];
      assert (a + b)[1..] == a[1..] + b;
      RunAppend(Step(st, a[0]), a[1..], b);
    }
  }

  /** Channel events do not touch the stored status snapshot. */
  lemma {:induction false} ChannelEventsKeepStatus(st: Reconciler, evs: seq<Event>)
    requires forall j :: 0 <= j < |evs| ==> evs[j].ChannelsUpdated?
    ensures Run(st, evs).orderStatus == st.orderStatus
    ensures Run(st, evs).lastPolled == st.lastPolled
    decreases |evs|
  {
    if evs != [] {
      ChannelEventsKeepStatus(Step(st, evs[0]), evs[1..]);
    }
  }

  /** Status events do not touch the stored channel list. */
  lemma {:induction false} StatusEventsKeepChannels(st: Reconciler, evs: seq<Event>)
    requires forall j :: 0 <= j < |evs| ==> evs[j].StatusUpdated?
    ensures Run(st, evs).channelData == st.channelData
    decreases |evs|
  {
    if evs != [] {
      StatusEventsKeepChannels(Step(st, evs[0]), evs[1..]);
    }
  }

  /** Last write wins: while listening, the stored snapshot is the detail of
      the last status event, whatever came before it. */
  lemma {:induction false} LastStatusWins(st: Reconciler, earlier: seq<Event>, s: Option<StatusData>,
                                          at: int, later: seq<Event>)
    requires st.listening
    requires forall j :: 0 <= j < |later| ==> later[j].ChannelsUpdated?
    ensures Run(st, earlier + [StatusUpdated(s, at)] + later).orderStatus == s
    ensures Run(st, earlier + [StatusUpdated(s, at)] + later).lastPolled == at
  {
    RunAppend(st, earlier + [StatusUpdated(s, at)], later);
    RunAppend(st, earlier, [StatusUpdated(s, at)]);
    var mid := Run(st, earlier);
    assert Run(mid, [StatusUpdated(s, at)]) == Step(mid, StatusUpdated(s, at));
    ChannelEventsKeepStatus(Run(st, earlier + [StatusUpdated(s, at)]), later);
  }

  /** Last write wins for channel lists too. */
  lemma {:induction false} LastChannelsWin(st: Reconciler, earlier: seq<Event>, c: seq<Channel>,
                                           later: seq<Event>)
    requires st.listening
    requires forall j :: 0 <= j < |later| ==> later[j].StatusUpdated?
    ensures Run(st, earlier + [ChannelsUpdated(c)] + later).channelData == c
  {
    RunAppend(st, earlier + [ChannelsUpdated(c)], later);
    RunAppend(st, earlier, [ChannelsUpdated(c)]);
    var mid := Run(st, earlier);
    assert Run(mid, [ChannelsUpdated(c)]) == Step(mid, ChannelsUpdated(c));
    StatusEventsKeepChannels(Run(st, earlier + [ChannelsUpdated(c)]), later);
  }

  /** The view after the last status event: field for field the event,
      except `paymentInfo` and `data`, which fall back to the order result's,
      and `channelData`, which is the stored list when that is non-empty. */
  lemma {:induction false} ViewAfterStatus(orderResult: StatusData, st: Reconciler, earlier: seq<Event>,
                                           s: StatusData, at: int)
    requires st.listening
    ensures var v := CurrentStatusData(orderResult, Run(st, earlier + [StatusUpdated(Some(s), at)]).orderStatus,
                                       Run(st, earlier + [StatusUpdated(Some(s), at)]).channelData);
      v == s.(paymentInfo := if s.paymentInfo.Some? then s.paymentInfo else orderResult.paymentInfo,
              data := if s.data.Some? then s.data else orderResult.data,
              channelData := if |Run(st, earlier).channelData| > 0 then Some(Run(st, earlier).channelData) else None)
  {
    LastStatusWins(st, earlier, Some(s), at, []);
    assert earlier + [StatusUpdated(Some(s), at)] + [] == earlier + [StatusUpdated(Some(s), at)];
    RunAppend(st, earlier, [StatusUpdated(Some(s), at)]);
    assert Run(Run(st, earlier), [StatusUpdated(Some(s), at)]) == Step(Run(st, earlier), StatusUpdated(Some(s), at));
  }

  /** A whole lifetime: mount, events, unmount, more events. Polling was
      started at most once, for the order id, and the state is what the
      events before the unmount left behind. */
  lemma {:induction false} Lifetime(orderResult: Option<StatusData>, now: int,
                                    during: seq<Event>, after: seq<Event>)
    ensures var st := Run(Unmounted(Run(Mounted(orderResult, Initial(now)), during)), after);
      && !st.listening
      && st.polls == (if ShouldPoll(orderResult) then [orderResult.value.orderId.value] else [])
      && st.orderStatus == Run(Mounted(orderResult, Initial(now)), during).orderStatus
      && st.channelData == Run(Mounted(orderResult, Initial(now)), during).channelData
  {
  }

  // ---------------------------------------------------------------------------
  // Rendering gates
  // ---------------------------------------------------------------------------

  datatype Rendering = Rendering(
    containerClass: string,
    banner: Option<Banner>,
    statusPanel: Option<(StatusData, int)>)

  /** What one render shows: nothing without an order result; otherwise the
      container class, the heading block unless in invoice mode, and the
      status details (the view and the last poll time) when the status
      renderer is present. */
  function Render(orderResult: Option<StatusData>, st: Reconciler, statusRendererPresent: bool,
                  lspName: Option<string>): (r: Option<Rendering>)
    ensures r.None? <==> orderResult.None?
    ensures r.Some? ==>
      var v := CurrentStatusData(orderResult.value, st.orderStatus, st.channelData);
      && r.value.containerClass == ContainerClass(orderResult.value, v)
      && (r.value.banner.Some? <==> !IsShowingInvoice(v))
      && (r.value.banner.Some? ==> r.value.banner.value == HeadingMessage(orderResult.value, v, lspName))
      && (r.value.statusPanel.Some? <==> statusRendererPresent)
      && (r.value.statusPanel.Some? ==> r.value.statusPanel.value == (v, st.lastPolled))
  {
    match orderResult
    case None => None
    case Some(res) =>
      var v := CurrentStatusData(res, st.orderStatus, st.channelData);
      Some(Rendering(
        ContainerClass(res, v),
        if IsShowingInvoice(v) then None else Some(HeadingMessage(res, v, lspName)),
        if statusRendererPresent then Some((v, st.lastPolled)) else None))
  }

  /** Two end-to-end scenarios. A successful order with
      id `abc` that then reports `CREATED`: polling started once for `abc`,
      and the component is in invoice mode. A successful order without id
      that then reports `FAILED` with `details.order_id` `xyz`: the failure
      heading, and the message quotes `xyz`. */
  lemma Scenarios(r: StatusData, s: StatusData, f: StatusData, now: int, at: int)
    requires r.success && r.orderId == Some("abc")
    requires s.orderState == Some("CREATED") && s.status.None?
    requires f.orderId.None? && f.orderState == Some("FAILED") && f.details == Some(Details(Some("xyz")))
    ensures var st := Run(Mounted(Some(r), Initial(now)), [StatusUpdated(Some(s), at)]);
      st.polls == ["abc"] && IsShowingInvoice(CurrentStatusData(r, st.orderStatus, st.channelData))
      && Render(Some(r), st, true, None).value.banner.None?
    ensures var st := Run(Mounted(Some(r.(orderId := None)), Initial(now)), [StatusUpdated(Some(f), at)]);
      var v := CurrentStatusData(r.(orderId := None), st.orderStatus, st.channelData);
      && st.polls == []
      && HeadingMessage(r.(orderId := None), v, None) ==
         Banner(FailedHeading, FailureMessage(DefaultLspName, "xyz"))
  {
  }

  // ---------------------------------------------------------------------------
  // The component object
  // ---------------------------------------------------------------------------

  /** One mounted instance of the component, with the state its hooks keep. */
  class Component {
    const orderResult: Option<StatusData>
    var orderStatus: Option<StatusData>
    var lastPolled: int
    var channelData: seq<Channel>
    var listening: bool
    var polls: seq<string>

    function State(): Reconciler
      reads this
    {
      Reconciler(orderStatus, lastPolled, channelData, listening, polls)
    }

    /** First render: no status yet, no channels, the clock reading `now`. */
    constructor (orderResult: Option<StatusData>, now: int)
      ensures this.orderResult == orderResult
      ensures State() == Initial(now)
    {
      this.orderResult := orderResult;
      orderStatus := None;
      lastPolled := now;
      channelData := [];
      listening := false;
      polls := [];
    }

    /** The mount effect (React runs the previous cleanup before an effect
        runs again, so the listeners are not registered yet). */
    method Mount()
      requires !listening
      modifies this
      ensures State() == Mounted(orderResult, old(State()))
      ensures listening && polls == old(polls) + (if ShouldPoll(orderResult) then [orderResult.value.orderId.value] else [])
    {
      listening := true;
      if orderResult.Some? && orderResult.value.success && TruthyText(orderResult.value.orderId) {
        polls := polls + [orderResult.value.orderId.value];
      }
    }

    /** The effect's cleanup: both listeners are removed. */
    method Unmount()
      requires listening
      modifies this
      ensures State() == Unmounted(old(State()))
    {
      listening := false;
    }

    /** An `order-status-updated` event with the given detail, at clock `now`. */
    method OnStatus(detail: Option<StatusData>, now: int)
      modifies this
      ensures State() == Step(old(State()), StatusUpdated(detail, now))
      ensures old(listening) ==> orderStatus == detail && lastPolled == now
      ensures channelData == old(channelData)
    {
      if listening {
        orderStatus := detail;
        lastPolled := now;
      }
    }

    /** A `channels-updated` event with the given channel list. */
    method OnChannels(detail: seq<Channel>)
      modifies this
      ensures State() == Step(old(State()), ChannelsUpdated(detail))
      ensures old(listening) ==> channelData == detail
      ensures orderStatus == old(orderStatus)
    {
      if listening {
        channelData := detail;
      }
    }

    /** The static `updateStatus`: it dispatches a status event, with the
        same effect as a poll result. */
    method UpdateStatus(status: Option<StatusData>, now: int)
      modifies this
      ensures State() == Step(old(State()), StatusUpdated(status, now))
    {
      OnStatus(status, now);
    }

    /** The merged view (a render happens only with an order result). */
    function View(): (v: StatusData)
      requires orderResult.Some?
      reads this
      ensures orderStatus.None? ==> v == orderResult.value
      ensures orderStatus.Some? ==>
        var s := orderStatus.value;
        v == s.(paymentInfo := if s.paymentInfo.Some? then s.paymentInfo else orderResult.value.paymentInfo,
                data := if s.data.Some? then s.data else orderResult.value.data,
                channelData := if |channelData| > 0 then Some(channelData) else None)
    {
      CurrentStatusData(orderResult.value, orderStatus, channelData)
    }

    function Rendered(statusRendererPresent: bool, lspName: Option<string>): (r: Option<Rendering>)
      reads this
      ensures r.None? <==> orderResult.None?
      ensures r.Some? ==> (r.value.banner.None? <==> IsShowingInvoice(View()))
    {
      Render(orderResult, State(), statusRendererPresent, lspName)
    }
  }
}
