/** The message helpers shared by the popup, the content scripts and the background worker:
    the outgoing envelope, the three-way settling of a reply, the listener that only answers
    messages from the extension itself, and the broadcast to every tab. */
module Messaging {
  import opened Common

  // ---------------------------------------------------------------- message types

  const Transfer := "transfer"
  const TransferProgress := "transfer_progress"
  const TransferComplete := "transfer_complete"
  const GetCookies := "get_cookies"
  const RefreshCookies := "refresh_cookies"
  const GetConfig := "get_config"
  const SaveConfig := "save_config"
  const GetTasks := "get_tasks"
  const CancelTask := "cancel_task"

  /** Every declared message type. */
  const MessageTypes: seq<string> :=
    [Transfer, TransferProgress, TransferComplete, GetCookies, RefreshCookies,
     GetConfig, SaveConfig, GetTasks, CancelTask]

  // ---------------------------------------------------------------- sending

  /** `{ type, data, timestamp }` */
  datatype Envelope = Envelope(msgType: string, data: Payload, timestamp: int)

  /** The envelope of a send; `data` defaults to the empty object, `now` is the clock reading. */
  function MakeEnvelope(msgType: string, data: Option<Payload>, now: int): (e: Envelope)
    ensures e.msgType == msgType && e.timestamp == now
    ensures data.None? ==> e.data == map[]
    ensures data.Some? ==> e.data == data.value
  {
    Envelope(msgType, if data.Some? then data.value else map[], now)
  }

  /** What happened to one send: the send call itself threw, or the reply callback ran with the
      runtime's `lastError` message (if any) and the reply (absent when there was none). */
  datatype Delivery = Threw(error: string) | Answered(lastError: Option<string>, response: Option<Payload>)

  /** `response && response.error`: a reply carrying a non-empty `error` field. */
  predicate HasError(response: Option<Payload>)
  {
    response.Some? && "error" in response.value && response.value["error"] != ""
  }

  /** The reply callback of `sendMessage` and `sendToTab`: a runtime error rejects whatever the
      reply was, then a reply with an error rejects with it, and anything else resolves with the
      reply as it is, an absent one included. */
  function Settle(d: Delivery): (r: Settled<Option<Payload>>)
    ensures d.Threw? ==> r == Rejected(d.error)
    ensures d.Answered? && d.lastError.Some? ==> r == Rejected(d.lastError.value)
    ensures r.Resolved? <==> d.Answered? && d.lastError.None? && !HasError(d.response)
    ensures r.Resolved? ==> r.value == d.response
    ensures r.Rejected? && d.Answered? && d.lastError.None? ==> r.reason == d.response.value["error"]
  {
    match d
    case Threw(e) => Rejected(e)
    case Answered(lastError, response) =>
      if lastError.Some? then Rejected(lastError.value)
      else if HasError(response) then Rejected(response.value["error"])
      else Resolved(response)
  }

  /** `sendMessage(type, data)`: the envelope sent and how the returned promise settles. */
  function SendMessage(msgType: string, data: Option<Payload>, now: int, d: Delivery): (Envelope, Settled<Option<Payload>>)
  {
    (MakeEnvelope(msgType, data, now), Settle(d))
  }

  /** `sendToTab(tabId, type, data)`: the tab addressed, the envelope sent and how the promise
      settles. */
  function SendToTab(tabId: int, msgType: string, data: Option<Payload>, now: int, d: Delivery)
    : (int, Envelope, Settled<Option<Payload>>)
  {
    (tabId, MakeEnvelope(msgType, data, now), Settle(d))
  }

  /** Sending to a tab builds the same envelope and settles exactly as sending to the runtime. */
  lemma SendToTabMatchesSendMessage(tabId: int, msgType: string, data: Option<Payload>, now: int, d: Delivery)
    ensures SendToTab(tabId, msgType, data, now, d).1 == SendMessage(msgType, data, now, d).0
    ensures SendToTab(tabId, msgType, data, now, d).2 == SendMessage(msgType, data, now, d).1
  {
  }

  // ---------------------------------------------------------------- listening

  /** The sender of an incoming message; `tab` is present when a tab's content script sent it. */
  datatype Sender = Sender(tab: Option<int>)

  /** What the registered callback did: returned a plain value, threw, or returned a promise that
      fulfilled with a value or rejected with an error whose `message` may be absent. */
  datatype CallbackResult =
    | Plain(value: Option<Payload>)
    | Raised(error: string)
    | Fulfilled(value: Option<Payload>)
    | Refused(errorMessage: Option<string>)

  /** What the listener did: nothing (the callback was not called), answered with `reply`,
      `keptOpen` telling whether it kept the channel open for an asynchronous answer, or threw the
      callback's error without answering. */
  datatype ListenerOutcome = Ignored | Replied(reply: Option<Payload>, keptOpen: bool) | Escaped(error: string)

  /** The reply sent for a rejected callback promise: `{ error: err.message }`. An error without
      a message leaves the field `undefined`, which does not travel with the reply. */
  function ErrorReply(message: Option<string>): (p: Payload)
    ensures "error" in p <==> message.Some?
    ensures message.Some? ==> p["error"] == message.value
  {
    if message.Some? then map["error" := message.value] else map[]
  }

  /** The listener `onMessage(callback)` registers. */
  function Listen(message: Envelope, sender: Sender, callback: (Envelope, Sender) -> CallbackResult): (r: ListenerOutcome)
    ensures sender.tab.Some? <==> r == Ignored
    ensures sender.tab.None? && callback(message, sender).Plain? ==>
      r == Replied(callback(message, sender).value, false)
    ensures sender.tab.None? && callback(message, sender).Raised? ==>
      r == Escaped(callback(message, sender).error)
    ensures sender.tab.None? && callback(message, sender).Fulfilled? ==>
      r == Replied(callback(message, sender).value, true)
    ensures sender.tab.None? && callback(message, sender).Refused? ==>
      r == Replied(Some(ErrorReply(callback(message, sender).errorMessage)), true)
  {
    if sender.tab.Some? then Ignored
    else match callback(message, sender)
      case Plain(v) => Replied(v, false)
      case Raised(e) => Escaped(e)
      case Fulfilled(v) => Replied(v, true)
      case Refused(e) => Replied(Some(ErrorReply(e)), true)
  }

  /** Messages from a tab never reach the callback: what the listener does does not depend on it. */
  lemma TabMessagesNeverReachCallback(message: Envelope, sender: Sender,
                                      f: (Envelope, Sender) -> CallbackResult, g: (Envelope, Sender) -> CallbackResult)
    requires sender.tab.Some?
    ensures Listen(message, sender, f) == Listen(message, sender, g) == Ignored
  {
  }

  /** A callback whose promise rejects makes the listener answer `{ error }`, and the sending side
      rejects with the same message, unless the message is empty or absent: then the sender
      resolves with the error reply as if it were an answer. */
  lemma RejectionReachesSender(message: Envelope, sender: Sender, callback: (Envelope, Sender) -> CallbackResult,
                               reason: Option<string>)
    requires sender.tab.None? && callback(message, sender) == Refused(reason)
    ensures Listen(message, sender, callback) == Replied(Some(ErrorReply(reason)), true)
    ensures var delivered := Answered(None, Some(ErrorReply(reason)));
      if Truthy(reason) then Settle(delivered) == Rejected(reason.value)
      else Settle(delivered) == Resolved(Some(ErrorReply(reason)))
  {
  }

  // ---------------------------------------------------------------- broadcast

  /** A browser tab; its `id` may be absent. */
  datatype Tab = Tab(id: Option<int>)

  /** `if (tab.id)`: a present, non-zero id. */
  predicate Addressable(t: Tab)
  {
    t.id.Some? && t.id.value != 0
  }

  /** The ids the broadcast sends to: those of the addressable tabs, in the order of `tabs`. */
  function Targets(tabs: seq<Tab>): (r: seq<int>)
    ensures |r| <= |tabs|
    ensures forall x :: x in r ==> x != 0
    ensures forall t :: t in tabs && Addressable(t) ==> t.id.value in r
    ensures forall x :: x in r ==> Tab(Some(x)) in tabs
  {
    if tabs == [] then []
    else
      var last := tabs[|tabs| - 1];
      assert tabs == tabs[..|tabs| - 1] + [last];
      Targets(tabs[..|tabs| - 1]) + if Addressable(last) then [last.id.value] else []
  }

  /** The targets of a list of tabs followed by another are the first list's targets followed by
      the second's: the broadcast keeps the order the browser listed the tabs in. */
  lemma {:induction false} TargetsAppend(a: seq<Tab>, b: seq<Tab>)
    ensures Targets(a + b) == Targets(a) + Targets(b)
    decreases |b|
  {
    if b == [] {
      assert a + b == a;
    } else {
      var init := b[..|b| - 1];
      assert (a + b)[..|a + b| - 1] == a + init;
      assert (a + b)[|a + b| - 1] == b[|b| - 1];
      TargetsAppend(a, init);
    }
  }

  /** One send of a broadcast: the tab and how its promise settled. */
  datatype Attempt = Attempt(tabId: int, outcome: Settled<Option<Payload>>)

  /** `broadcast(type, data)` over the tabs the browser listed, `deliver` telling what happens
      to the send to each tab. Every addressable tab is sent to, in order; a failed send is
      swallowed and the loop goes on. */
  method Broadcast(tabs: seq<Tab>, msgType: string, data: Option<Payload>, now: int, deliver: int -> Delivery)
    returns (attempts: seq<Attempt>)
    ensures |attempts| == |Targets(tabs)|
    ensures forall k :: 0 <= k < |attempts| ==>
      attempts[k].tabId == Targets(tabs)[k] && attempts[k].outcome == Settle(deliver(Targets(tabs)[k]))
  {
    attempts := [];
    for i := 0 to |tabs|
      invariant |attempts| == |Targets(tabs[..i])|
      invariant forall k :: 0 <= k < |attempts| ==>
        attempts[k].tabId == Targets(tabs[..i])[k] && attempts[k].outcome == Settle(deliver(Targets(tabs[..i])[k]))
    {
      assert tabs[..i + 1][..i] == tabs[..i];
      var tab := tabs[i];
      if tab.id.Some? && tab.id.value != 0 {
        var sent := SendToTab(tab.id.value, msgType, data, now, deliver(tab.id.value));
        attempts := attempts + [Attempt(sent.0, sent.2)];
      }
    }
    assert tabs[..|tabs|] == tabs;
  }
}
