/** The constant tables of the extension: task status names, error codes and their messages,
    and the default configuration. */
module Constants {
  import opened Common

  // ---------------------------------------------------------------- task status

  /** The five task states. */
  datatype TaskStatus = Pending | Running | Success | Failed | Cancelled

  /** The string each state is stored as. */
  function StatusValue(s: TaskStatus): string
  {
    match s
    case Pending => "pending"
    case Running => "running"
    case Success => "success"
    case Failed => "failed"
    case Cancelled => "cancelled"
  }

  /** Reads a stored status string back; `None` for anything that is not one of the five. */
  function ParseStatus(v: string): (r: Option<TaskStatus>)
    ensures r.Some? ==> StatusValue(r.value) == v
  {
    if v == "pending" then Some(Pending)
    else if v == "running" then Some(Running)
    else if v == "success" then Some(Success)
    else if v == "failed" then Some(Failed)
    else if v == "cancelled" then Some(Cancelled)
    else None
  }

  /** The five status strings are pairwise distinct and each parses back to its state. */
  lemma StatusValueRoundTrip(s: TaskStatus, t: TaskStatus)
    ensures ParseStatus(StatusValue(s)) == Some(s)
    ensures StatusValue(s) == StatusValue(t) ==> s == t
  {
  }

  // ---------------------------------------------------------------- error codes

  datatype ErrorCode =
    | Unknown | NoError
    | CookieExpired | CookieInvalid
    | NetworkError | Timeout
    | ShareNotFound | ShareExpired | InvalidCode | CapacityLimit | FileExists
    | ApiError | RateLimit

  /** The numeric value of each error code. */
  function Code(e: ErrorCode): int
  {
    match e
    case Unknown => -1
    case NoError => 0
    case CookieExpired => 1001
    case CookieInvalid => 1002
    case NetworkError => 2001
    case Timeout => 2002
    case ShareNotFound => 3001
    case ShareExpired => 3002
    case InvalidCode => 3003
    case CapacityLimit => 3004
    case FileExists => 3005
    case ApiError => 4001
    case RateLimit => 4002
  }

  /** The category an error code belongs to, by the comment groups of the table. */
  datatype Category = General | CookieCategory | NetworkCategory | BusinessCategory | ApiCategory

  function CategoryOf(e: ErrorCode): Category
  {
    match e
    case Unknown | NoError => General
    case CookieExpired | CookieInvalid => CookieCategory
    case NetworkError | Timeout => NetworkCategory
    case ShareNotFound | ShareExpired | InvalidCode | CapacityLimit | FileExists => BusinessCategory
    case ApiError | RateLimit => ApiCategory
  }

  /** Each category owns one numeric block: the thousands digit names the category. */
  lemma CodeRanges(e: ErrorCode)
    ensures CategoryOf(e) == General <==> -1 <= Code(e) <= 0
    ensures CategoryOf(e) == CookieCategory <==> 1001 <= Code(e) <= 1002
    ensures CategoryOf(e) == NetworkCategory <==> 2001 <= Code(e) <= 2002
    ensures CategoryOf(e) == BusinessCategory <==> 3001 <= Code(e) <= 3005
    ensures CategoryOf(e) == ApiCategory <==> 4001 <= Code(e) <= 4002
  {
  }

  /** Reads a numeric code back; `None` for a number that is not an error code. */
  function CodeOf(n: int): (r: Option<ErrorCode>)
    ensures r.Some? ==> Code(r.value) == n
  {
    match n
    case -1 => Some(Unknown)
    case 0 => Some(NoError)
    case 1001 => Some(CookieExpired)
    case 1002 => Some(CookieInvalid)
    case 2001 => Some(NetworkError)
    case 2002 => Some(Timeout)
    case 3001 => Some(ShareNotFound)
    case 3002 => Some(ShareExpired)
    case 3003 => Some(InvalidCode)
    case 3004 => Some(CapacityLimit)
    case 3005 => Some(FileExists)
    case 4001 => Some(ApiError)
    case 4002 => Some(RateLimit)
    case _ => None
  }

  /** The codes are pairwise distinct: the numeric value identifies the code. */
  lemma CodeInjective(a: ErrorCode, b: ErrorCode)
    ensures Code(a) == Code(b) ==> a == b
    ensures CodeOf(Code(a)) == Some(a)
  {
  }

  /** The message table, keyed by numeric code. */
  const ErrorMessage: map<int, string> := map[
    Code(Unknown) := "未知错误",
    Code(NoError) := "成功",
    Code(CookieExpired) := "Cookie已过期，请重新登录",
    Code(CookieInvalid) := "Cookie无效，请检查配置",
    Code(NetworkError) := "网络连接失败",
    Code(Timeout) := "请求超时",
    Code(ShareNotFound) := "分享资源不存在",
    Code(ShareExpired) := "分享链接已过期",
    Code(InvalidCode) := "提取码错误",
    Code(CapacityLimit) := "网盘容量不足",
    Code(FileExists) := "文件已存在",
    Code(ApiError) := "API调用失败",
    Code(RateLimit) := "请求过于频繁，请稍后再试"
  ]

  /** The message looked up for a number: present exactly for the numbers that are error codes. */
  function MessageFor(n: int): (r: Option<string>)
    ensures r.Some? <==> CodeOf(n).Some?
    ensures r.Some? ==> r.value != ""
  {
    if n in ErrorMessage then Some(ErrorMessage[n]) else None
  }

  /** The table is total on error codes and has no other keys. */
  lemma ErrorMessageTotal(e: ErrorCode)
    ensures Code(e) in ErrorMessage
    ensures forall n :: n in ErrorMessage ==> CodeOf(n).Some?
  {
  }

  // ---------------------------------------------------------------- defaults

  datatype DefaultSettings = DefaultSettings(
    defaultQuarkFolder: string,
    defaultBaiduFolder: string,
    bannedKeywords: seq<string>,
    autoGetCookie: bool,
    maxRetries: nat,
    retryDelay: nat,
    taskPollInterval: nat,
    maxPollRetries: nat)

  const DefaultConfig := DefaultSettings(
    "0", "/默认转存文件", ["广告", "推广", "关注", "公众号", "微信"], true, 3, 2000, 1000, 50)

  datatype HttpSettings = HttpSettings(timeout: nat, maxRetries: nat, retryDelay: nat)

  const HttpConfig := HttpSettings(30000, 3, 2000)

  /** The HTTP defaults retry exactly as the general defaults do. */
  lemma RetryDefaultsAgree()
    ensures HttpConfig.maxRetries == DefaultConfig.maxRetries == 3
    ensures HttpConfig.retryDelay == DefaultConfig.retryDelay == 2000
    ensures HttpConfig.timeout == 30000
  {
  }
}
