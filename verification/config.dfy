/** The configuration store of the popup: the two drive cookies, the default folders, the banned
    keywords and the automatic-cookie switch, with their persistence and the cookie refresh. */
module Config {
  import opened Common
  import opened Cookies
  import Constants

  /** The six configuration values, as one value. */
  datatype ConfigState = ConfigState(
    quarkCookie: string,
    baiduCookie: string,
    defaultQuarkFolder: string,
    defaultBaiduFolder: string,
    bannedKeywords: seq<string>,
    autoGetCookie: bool)

  /** The values a new store starts with. */
  const InitialConfig := ConfigState("", "", "0", "/默认转存文件", ["广告", "推广", "关注"], true)

  /** The six storage keys; `None` where the key holds nothing. */
  datatype StoredConfig = StoredConfig(
    quarkCookie: Option<string>,
    baiduCookie: Option<string>,
    defaultQuarkFolder: Option<string>,
    defaultBaiduFolder: Option<string>,
    bannedKeywords: Option<seq<string>>,
    autoGetCookie: Option<bool>)

  /** What `saveConfig` writes: every key. */
  function Snapshot(c: ConfigState): StoredConfig
  {
    StoredConfig(Some(c.quarkCookie), Some(c.baiduCookie), Some(c.defaultQuarkFolder),
      Some(c.defaultBaiduFolder), Some(c.bannedKeywords), Some(c.autoGetCookie))
  }

  /** The merge rule of `loadConfig`: a string key replaces its field only when truthy, the keyword
      list whenever present (an array is always truthy), the switch whenever defined. */
  function Merged(c: ConfigState, st: StoredConfig): ConfigState
  {
    ConfigState(
      if Truthy(st.quarkCookie) then st.quarkCookie.value else c.quarkCookie,
      if Truthy(st.baiduCookie) then st.baiduCookie.value else c.baiduCookie,
      if Truthy(st.defaultQuarkFolder) then st.defaultQuarkFolder.value else c.defaultQuarkFolder,
      if Truthy(st.defaultBaiduFolder) then st.defaultBaiduFolder.value else c.defaultBaiduFolder,
      if st.bannedKeywords.Some? then st.bannedKeywords.value else c.bannedKeywords,
      if st.autoGetCookie.Some? then st.autoGetCookie.value else c.autoGetCookie)
  }

  /** Loading what was saved restores every field whose saved value was truthy, the keyword list
      and the switch; an empty saved string leaves the loading store's own value. */
  lemma LoadAfterSave(c0: ConfigState, c: ConfigState)
    ensures var r := Merged(c0, Snapshot(c));
      && r.bannedKeywords == c.bannedKeywords && r.autoGetCookie == c.autoGetCookie
      && r.quarkCookie == (if c.quarkCookie != "" then c.quarkCookie else c0.quarkCookie)
      && r.baiduCookie == (if c.baiduCookie != "" then c.baiduCookie else c0.baiduCookie)
      && r.defaultQuarkFolder == (if c.defaultQuarkFolder != "" then c.defaultQuarkFolder else c0.defaultQuarkFolder)
      && r.defaultBaiduFolder == (if c.defaultBaiduFolder != "" then c.defaultBaiduFolder else c0.defaultBaiduFolder)
  {
  }

  /** Loading the same stored values twice is loading them once. */
  lemma MergedIdempotent(c: ConfigState, st: StoredConfig)
    ensures Merged(Merged(c, st), st) == Merged(c, st)
    ensures Merged(c, Snapshot(c)) == c
  {
  }

  /** The new value of one drive's cookie after reading `cookies` for its domain: unchanged when
      none were found, else their cookie string. */
  function Refreshed(current: string, cookies: seq<Cookie>): (r: string)
    ensures cookies == [] ==> r == current
    ensures cookies != [] ==> r != "" && r == Serialize(cookies)
  {
    if |cookies| > 0 then Serialize(cookies) else current
  }

  /** The state and storage after `refreshCookies` given the two cookie reads. A failed read of the
      first domain changes nothing; a failed read of the second keeps the first cookie's new value
      without saving; two good reads save everything. */
  function AfterRefresh(c: ConfigState, st: StoredConfig, quark: Result<seq<Cookie>>, baidu: Result<seq<Cookie>>)
    : (ConfigState, StoredConfig)
  {
    if quark.Err? then (c, st)
    else
      var c1 := c.(quarkCookie := Refreshed(c.quarkCookie, quark.value));
      if baidu.Err? then (c1, st)
      else
        var c2 := c1.(baiduCookie := Refreshed(c1.baiduCookie, baidu.value));
        (c2, Snapshot(c2))
  }

  /** Refreshing touches only the two cookies; a drive whose read found no cookie keeps its
      cookie; storage is written only when both reads succeeded. */
  lemma RefreshEffects(c: ConfigState, st: StoredConfig, quark: Result<seq<Cookie>>, baidu: Result<seq<Cookie>>)
    ensures var r := AfterRefresh(c, st, quark, baidu);
      && r.0.defaultQuarkFolder == c.defaultQuarkFolder && r.0.defaultBaiduFolder == c.defaultBaiduFolder
      && r.0.bannedKeywords == c.bannedKeywords && r.0.autoGetCookie == c.autoGetCookie
      && (quark.Err? ==> r == (c, st))
      && (quark.Ok? ==> r.0.quarkCookie == Refreshed(c.quarkCookie, quark.value))
      && (quark.Ok? && baidu.Ok? ==>
            r.0.baiduCookie == Refreshed(c.baiduCookie, baidu.value) && r.1 == Snapshot(r.0))
      && (baidu.Err? ==> r.0.baiduCookie == c.baiduCookie && r.1 == st)
  {
  }

  /** The state and storage after `loadConfig` given the outcome of the storage read and the two
      cookie reads: a failed storage read changes nothing; otherwise the stored values are merged
      and, when the switch is then on, the cookies are refreshed. */
  function AfterLoad(c: ConfigState, st: StoredConfig, readError: Option<string>,
                     quark: Result<seq<Cookie>>, baidu: Result<seq<Cookie>>): (ConfigState, StoredConfig)
  {
    if readError.Some? then (c, st)
    else
      var m := Merged(c, st);
      if m.autoGetCookie then AfterRefresh(m, st, quark, baidu) else (m, st)
  }

  /** With the browser's cookies unchanged, refreshing again changes neither state nor storage. */
  lemma RefreshIdempotent(c: ConfigState, st: StoredConfig, quark: seq<Cookie>, baidu: seq<Cookie>)
    ensures var once := AfterRefresh(c, st, Ok(quark), Ok(baidu));
      AfterRefresh(once.0, once.1, Ok(quark), Ok(baidu)) == once
  {
  }

  /** The store's first folders and switch are the shared defaults; its keyword list is a strict
      prefix of the shared default list, which has two more words. */
  lemma InitialMatchesDefaults()
    ensures InitialConfig.defaultQuarkFolder == Constants.DefaultConfig.defaultQuarkFolder
    ensures InitialConfig.defaultBaiduFolder == Constants.DefaultConfig.defaultBaiduFolder
    ensures InitialConfig.autoGetCookie == Constants.DefaultConfig.autoGetCookie
    ensures InitialConfig.bannedKeywords == Constants.DefaultConfig.bannedKeywords[..3]
    ensures |Constants.DefaultConfig.bannedKeywords| == |InitialConfig.bannedKeywords| + 2
  {
  }

  class ConfigStore {
    var quarkCookie: string
    var baiduCookie: string
    var defaultQuarkFolder: string
    var defaultBaiduFolder: string
    var bannedKeywords: seq<string>
    var autoGetCookie: bool
    /** What storage holds under the six keys. */
    var stored: StoredConfig

    /** A store over storage that holds `persisted`, with the initial values until loaded. */
    constructor (persisted: StoredConfig)
      ensures Current() == InitialConfig && stored == persisted
    {
      quarkCookie, baiduCookie := "", "";
      defaultQuarkFolder, defaultBaiduFolder := "0", "/默认转存文件";
      bannedKeywords := ["广告", "推广", "关注"];
      autoGetCookie := true;
      stored := persisted;
    }

    function Current(): ConfigState
      reads this
    {
      ConfigState(quarkCookie, baiduCookie, defaultQuarkFolder, defaultBaiduFolder, bannedKeywords, autoGetCookie)
    }

    function HasQuarkCookie(): (r: bool)
      reads this
      ensures r <==> |quarkCookie| > 0
    {
      quarkCookie != ""
    }

    function HasBaiduCookie(): (r: bool)
      reads this
      ensures r <==> |baiduCookie| > 0
    {
      baiduCookie != ""
    }

    /** Both cookies are there. */
    function HasCookies(): (r: bool)
      reads this
      ensures r <==> |quarkCookie| > 0 && |baiduCookie| > 0
    {
      HasQuarkCookie() && HasBaiduCookie()
    }

    method SaveConfig()
      modifies this`stored
      ensures stored == Snapshot(Current())
    {
      stored := StoredConfig(Some(quarkCookie), Some(baiduCookie), Some(defaultQuarkFolder),
        Some(defaultBaiduFolder), Some(bannedKeywords), Some(autoGetCookie));
    }

    method SetQuarkCookie(cookie: string)
      modifies this
      ensures Current() == old(Current()).(quarkCookie := cookie)
      ensures stored == Snapshot(Current())
    {
      quarkCookie := cookie;
      SaveConfig();
    }

    method SetBaiduCookie(cookie: string)
      modifies this
      ensures Current() == old(Current()).(baiduCookie := cookie)
      ensures stored == Snapshot(Current())
    {
      baiduCookie := cookie;
      SaveConfig();
    }

    method SetBannedKeywords(keywords: seq<string>)
      modifies this
      ensures Current() == old(Current()).(bannedKeywords := keywords)
      ensures stored == Snapshot(Current())
    {
      bannedKeywords := keywords;
      SaveConfig();
    }

    /** An absent folder argument leaves that folder as it is. */
    method SetDefaultFolders(quarkFolder: Option<string>, baiduFolder: Option<string>)
      modifies this
      ensures Current() == old(Current()).(
        defaultQuarkFolder := if quarkFolder.Some? then quarkFolder.value else old(defaultQuarkFolder),
        defaultBaiduFolder := if baiduFolder.Some? then baiduFolder.value else old(defaultBaiduFolder))
      ensures stored == Snapshot(Current())
    {
      if quarkFolder.Some? {
        defaultQuarkFolder := quarkFolder.value;
      }
      if baiduFolder.Some? {
        defaultBaiduFolder := baiduFolder.value;
      }
      SaveConfig();
    }

    /** `refreshCookies`, given what the browser returned for each cookie domain. */
    method RefreshCookies(quark: Result<seq<Cookie>>, baidu: Result<seq<Cookie>>)
      modifies this
      ensures (Current(), stored) == AfterRefresh(old(Current()), old(stored), quark, baidu)
    {
      if quark.Err? {
        return;
      }
      if |quark.value| > 0 {
        quarkCookie := Serialize(quark.value);
      }
      if baidu.Err? {
        return;
      }
      if |baidu.value| > 0 {
        baiduCookie := Serialize(baidu.value);
      }
      SaveConfig();
    }

    /** The six conditional assignments of `loadConfig`. */
    method ApplyStored(config: StoredConfig)
      modifies this
      ensures Current() == Merged(old(Current()), config) && stored == old(stored)
    {
      if Truthy(config.quarkCookie) { quarkCookie := config.quarkCookie.value; }
      if Truthy(config.baiduCookie) { baiduCookie := config.baiduCookie.value; }
      if Truthy(config.defaultQuarkFolder) { defaultQuarkFolder := config.defaultQuarkFolder.value; }
      if Truthy(config.defaultBaiduFolder) { defaultBaiduFolder := config.defaultBaiduFolder.value; }
      if config.bannedKeywords.Some? { bannedKeywords := config.bannedKeywords.value; }
      if config.autoGetCookie.Some? { autoGetCookie := config.autoGetCookie.value; }
    }

    /** `loadConfig`: merges the stored values (a failed read, `readError`, changes nothing), then
        refreshes the cookies when the switch is on. */
    method LoadConfig(readError: Option<string>, quark: Result<seq<Cookie>>, baidu: Result<seq<Cookie>>)
      modifies this
      ensures (Current(), stored) == AfterLoad(old(Current()), old(stored), readError, quark, baidu)
    {
      if readError.None? {
        ApplyStored(stored);
        if autoGetCookie {
          RefreshCookies(quark, baidu);
        }
      }
    }
  }

  /** A store reopened over what a setter saved, with the switch off, loads back every field whose
      saved value was truthy; the cookies come back even when empty, because they start empty. */
  method ReloadRestores(s: ConfigStore, readError: Option<string>) returns (reopened: ConfigStore)
    requires s.stored == Snapshot(s.Current()) && !s.autoGetCookie
    ensures fresh(reopened) && reopened.stored == s.stored
    ensures readError.None? ==>
      && reopened.quarkCookie == s.quarkCookie && reopened.baiduCookie == s.baiduCookie
      && reopened.bannedKeywords == s.bannedKeywords && !reopened.autoGetCookie
      && (s.defaultQuarkFolder != "" ==> reopened.defaultQuarkFolder == s.defaultQuarkFolder)
      && (s.defaultBaiduFolder != "" ==> reopened.defaultBaiduFolder == s.defaultBaiduFolder)
  {
    reopened := new ConfigStore(s.stored);
    LoadAfterSave(InitialConfig, s.Current());
    reopened.LoadConfig(readError, Err("no cookies read"), Err("no cookies read"));
  }
}
