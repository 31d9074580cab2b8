/** The background worker's message handler: a switch from message type to one response, with
    the transfer handler still a placeholder and the two cookie handlers reading both drives'
    cookies. */
module Background {
  import opened Common
  import opened Cookies
  import Messaging
  import Config

  /** The two cookie strings of a successful cookie request. */
  datatype CookieData = CookieData(quarkCookie: string, baiduCookie: string)

  /** `{ success, message?, data? }` */
  datatype Response = Response(success: bool, message: Option<string>, data: Option<CookieData>)

  const TransferPendingMessage := "转存功能开发中，请等待第二阶段完成"
  const UnknownTypeMessage := "未知的消息类型"

  /** The answer to a type the switch does not handle. */
  const UnknownTypeResponse := Response(false, Some(UnknownTypeMessage), None)

  /** `handleTransfer`: the pipeline is not written yet; the answer is a fixed failure. */
  function HandleTransfer(data: Payload): (r: Settled<Response>)
    ensures r.Resolved? && !r.value.success && r.value.data.None?
    ensures r.value.message == Some(TransferPendingMessage)
  {
    Resolved(Response(false, Some(TransferPendingMessage), None))
  }

  /** `handleGetCookies`, given what the browser returned for each cookie domain: both cookie
      strings, or a failure carrying the message of the first read that threw. */
  function HandleGetCookies(quark: Result<seq<Cookie>>, baidu: Result<seq<Cookie>>): (r: Settled<Response>)
    ensures r.Resolved?
    ensures r.value.success <==> quark.Ok? && baidu.Ok?
    ensures r.value.success ==> r.value.data == Some(CookieData(Serialize(quark.value), Serialize(baidu.value)))
    ensures quark.Err? ==> r.value == Response(false, Some(quark.message), None)
    ensures quark.Ok? && baidu.Err? ==> r.value == Response(false, Some(baidu.message), None)
  {
    if quark.Err? then Resolved(Response(false, Some(quark.message), None))
    else if baidu.Err? then Resolved(Response(false, Some(baidu.message), None))
    else Resolved(Response(true, None, Some(CookieData(Serialize(quark.value), Serialize(baidu.value)))))
  }

  /** `handleRefreshCookies` answers by `handleGetCookies`. */
  function HandleRefreshCookies(quark: Result<seq<Cookie>>, baidu: Result<seq<Cookie>>): Settled<Response>
  {
    HandleGetCookies(quark, baidu)
  }

  /** `.then(sendResponse).catch(err => sendResponse({ success: false, message: err.message }))` */
  function Reply(p: Settled<Response>): (r: Response)
    ensures p.Rejected? ==> r == Response(false, Some(p.reason), None)
    ensures p.Resolved? ==> r == p.value
  {
    match p
    case Resolved(v) => v
    case Rejected(e) => Response(false, Some(e), None)
  }

  /** The message listener: exactly one response for every message. `quark` and `baidu` are what
      the browser returns when the handler reads the cookies. */
  function Dispatch(msgType: string, data: Payload, quark: Result<seq<Cookie>>, baidu: Result<seq<Cookie>>)
    : (r: Response)
    ensures msgType !in {Messaging.Transfer, Messaging.GetCookies, Messaging.RefreshCookies} ==>
      r == UnknownTypeResponse
    ensures msgType == Messaging.Transfer ==> !r.success && r.message == Some(TransferPendingMessage)
  {
    match msgType
    case "transfer" => Reply(HandleTransfer(data))
    case "get_cookies" => Reply(HandleGetCookies(quark, baidu))
    case "refresh_cookies" => Reply(HandleRefreshCookies(quark, baidu))
    case _ => UnknownTypeResponse
  }

  /** Of the declared message types only three are handled; the task types in particular get the
      unknown-type answer. */
  lemma DeclaredButUnhandled(data: Payload, quark: Result<seq<Cookie>>, baidu: Result<seq<Cookie>>)
    ensures forall t :: t in Messaging.MessageTypes && Dispatch(t, data, quark, baidu) != UnknownTypeResponse ==>
      t in {Messaging.Transfer, Messaging.GetCookies, Messaging.RefreshCookies}
    ensures Dispatch(Messaging.GetTasks, data, quark, baidu) == UnknownTypeResponse
    ensures Dispatch(Messaging.CancelTask, data, quark, baidu) == UnknownTypeResponse
    ensures Dispatch(Messaging.GetConfig, data, quark, baidu) == UnknownTypeResponse
    ensures Dispatch(Messaging.SaveConfig, data, quark, baidu) == UnknownTypeResponse
  {
  }

  /** A refresh request is answered exactly as a get request. */
  lemma RefreshAnswersAsGet(data: Payload, quark: Result<seq<Cookie>>, baidu: Result<seq<Cookie>>)
    ensures Dispatch(Messaging.RefreshCookies, data, quark, baidu) == Dispatch(Messaging.GetCookies, data, quark, baidu)
  {
  }

  /** A cookie request succeeds exactly when both reads do; the strings can be read back into the
      cookies returned; a read error is passed on as the failure message. */
  lemma GetCookiesAnswer(data: Payload, quark: Result<seq<Cookie>>, baidu: Result<seq<Cookie>>)
    ensures var r := Dispatch(Messaging.GetCookies, data, quark, baidu);
      && (r.success <==> quark.Ok? && baidu.Ok?)
      && (quark.Err? ==> r.message == Some(quark.message))
      && (quark.Ok? && baidu.Err? ==> r.message == Some(baidu.message))
      && (r.success && (forall c :: c in quark.value ==> WellFormed(c)) ==> Parse(r.data.value.quarkCookie) == quark.value)
      && (r.success && (forall c :: c in baidu.value ==> WellFormed(c)) ==> Parse(r.data.value.baiduCookie) == baidu.value)
      && (r.success && quark.value == [] ==> r.data.value.quarkCookie == "")
  {
    var r := Dispatch(Messaging.GetCookies, data, quark, baidu);
    if r.success {
      if forall c :: c in quark.value ==> WellFormed(c) {
        ParseSerialize(quark.value);
      }
      if forall c :: c in baidu.value ==> WellFormed(c) {
        ParseSerialize(baidu.value);
      }
    }
  }

  /** The background answers an empty cookie list with an empty string, where the configuration
      store's refresh keeps the cookie it had. */
  lemma EmptyCookieListDiffers(data: Payload, current: string, baidu: seq<Cookie>)
    requires current != ""
    ensures Dispatch(Messaging.GetCookies, data, Ok([]), Ok(baidu)).data.value.quarkCookie == ""
    ensures Config.Refreshed(current, []) == current
  {
  }
}
