/**
 * The HTTP layer of handler.go, reduced to what it decides: how each handler
 * constructor fills in its configuration, which response headers a request
 * writes, and what body it serves. Request routing, status codes, the
 * serialiser and the delegation to the next handler are not modelled.
 */
module Handlers {
  import opened Wrappers
  import opened Version

  const DEFAULT_HEADER_PREFIX := "X-"

  const CONTENT_TYPE := "Content-Type"
  const JSON_CONTENT_TYPE := "application/json"
  const TEXT_CONTENT_TYPE := "text/plain; charset=utf-8"

  // ---------------------------------------------------------------------------
  // Configuration
  // ---------------------------------------------------------------------------

  /** HandlerConfig; a nil Info is None. */
  datatype HandlerConfig = HandlerConfig(info: Option<Info>, pretty: bool, includeHeaders: bool, headerPrefix: string)

  function DefaultHandlerConfig(g: Globals, env: Env): (c: HandlerConfig)
    ensures c.info == Some(Default(g, env))
    ensures !c.pretty && !c.includeHeaders
    ensures c.headerPrefix == DEFAULT_HEADER_PREFIX
  {
    HandlerConfig(Some(Default(g, env)), false, false, DEFAULT_HEADER_PREFIX)
  }

  /** What a constructed handler keeps for its requests: the configuration
      after the constructor's prologue, with the Info resolved. */
  datatype Settings = Settings(info: Info, pretty: bool, includeHeaders: bool, headerPrefix: string)

  /** The configuration a constructor starts from: the first of its variadic
      arguments, or the default configuration when there is none. */
  function SelectedConfig(config: seq<HandlerConfig>, g: Globals, env: Env): HandlerConfig {
    if |config| > 0 then config[0] else DefaultHandlerConfig(g, env)
  }

  /** The prologue of Handler and FiberHandler: a nil Info becomes Default()
      and an empty prefix becomes "X-". */
  function HandlerSettings(config: seq<HandlerConfig>, g: Globals, env: Env): (s: Settings)
    ensures s.headerPrefix != ""
    ensures |config| == 0 ==> s == Settings(Default(g, env), false, false, DEFAULT_HEADER_PREFIX)
    ensures |config| > 0 ==> s.info == config[0].info.GetOr(Default(g, env))
    ensures |config| > 0 ==> s.pretty == config[0].pretty && s.includeHeaders == config[0].includeHeaders
    ensures |config| > 0 && config[0].headerPrefix != "" ==> s.headerPrefix == config[0].headerPrefix
    ensures |config| > 0 && config[0].headerPrefix == "" ==> s.headerPrefix == DEFAULT_HEADER_PREFIX
  {
    var cfg := SelectedConfig(config, g, env);
    var info := if cfg.info.None? then Default(g, env) else cfg.info.value;
    var prefix := if cfg.headerPrefix == "" then DEFAULT_HEADER_PREFIX else cfg.headerPrefix;
    Settings(info, cfg.pretty, cfg.includeHeaders, prefix)
  }

  /** The prologue of TextHandler and FiberTextHandler: a nil Info becomes
      Default(), but the prefix is kept as given, even when empty. */
  function TextHandlerSettings(config: seq<HandlerConfig>, g: Globals, env: Env): (s: Settings)
    ensures |config| == 0 ==> s == Settings(Default(g, env), false, false, DEFAULT_HEADER_PREFIX)
    ensures |config| > 0 ==> s.info == config[0].info.GetOr(Default(g, env))
    ensures |config| > 0 ==> s.pretty == config[0].pretty && s.includeHeaders == config[0].includeHeaders
    ensures |config| > 0 ==> s.headerPrefix == config[0].headerPrefix
  {
    var cfg := SelectedConfig(config, g, env);
    var info := if cfg.info.None? then Default(g, env) else cfg.info.value;
    Settings(info, cfg.pretty, cfg.includeHeaders, cfg.headerPrefix)
  }

  /** What Middleware and FiberMiddleware keep for their requests. */
  datatype Injection = Injection(info: Info, prefix: string)

  /** The prologue of Middleware and FiberMiddleware. */
  function MiddlewareSettings(info: Option<Info>, prefix: string, g: Globals, env: Env): (r: Injection)
    ensures r.info == info.GetOr(Default(g, env))
    ensures r.prefix != ""
    ensures prefix != "" ==> r.prefix == prefix
  {
    var resolved := if info.None? then Default(g, env) else info.value;
    var p := if prefix == "" then DEFAULT_HEADER_PREFIX else prefix;
    Injection(resolved, p)
  }

  /** The configuration that stands for already resolved settings. */
  function ConfigOf(s: Settings): HandlerConfig {
    HandlerConfig(Some(s.info), s.pretty, s.includeHeaders, s.headerPrefix)
  }

  /** Passing a handler's resolved settings back in as its configuration
      changes nothing: the prologue is idempotent. */
  lemma HandlerSettingsIdempotent(config: seq<HandlerConfig>, g: Globals, env: Env)
    ensures HandlerSettings([ConfigOf(HandlerSettings(config, g, env))], g, env) == HandlerSettings(config, g, env)
  {
  }

  /** Passing DefaultHandlerConfig() explicitly is the same as passing nothing. */
  lemma DefaultConfigIsNoConfig(g: Globals, env: Env)
    ensures HandlerSettings([DefaultHandlerConfig(g, env)], g, env) == HandlerSettings([], g, env)
    ensures TextHandlerSettings([DefaultHandlerConfig(g, env)], g, env) == TextHandlerSettings([], g, env)
  {
  }

  /** Only the first variadic configuration is read. */
  lemma ExtraConfigsIgnored(c: HandlerConfig, rest: seq<HandlerConfig>, g: Globals, env: Env)
    ensures HandlerSettings([c] + rest, g, env) == HandlerSettings([c], g, env)
    ensures TextHandlerSettings([c] + rest, g, env) == TextHandlerSettings([c], g, env)
  {
  }

  /** The text handlers resolve the configuration as the JSON handlers do,
      except that they leave an empty prefix empty: their prefixes agree
      exactly when the text handler's is non-empty. */
  lemma TextSettingsDifferOnlyInPrefix(config: seq<HandlerConfig>, g: Globals, env: Env)
    ensures var t := TextHandlerSettings(config, g, env);
            var h := HandlerSettings(config, g, env);
            t.info == h.info && t.pretty == h.pretty && t.includeHeaders == h.includeHeaders
            && (t.headerPrefix == h.headerPrefix <==> t.headerPrefix != "")
  {
  }

  /** The middleware resolves its two arguments as Handler resolves the same
      fields of a configuration. */
  lemma MiddlewareMatchesHandler(info: Option<Info>, prefix: string, pretty: bool, includeHeaders: bool,
                                 g: Globals, env: Env)
    ensures var h := HandlerSettings([HandlerConfig(info, pretty, includeHeaders, prefix)], g, env);
            MiddlewareSettings(info, prefix, g, env) == Injection(h.info, h.headerPrefix)
  {
  }

  // ---------------------------------------------------------------------------
  // Version headers
  // ---------------------------------------------------------------------------

  /** The only keys header injection may write. */
  function HeaderKeys(prefix: string): set<string> {
    {prefix + "Version", prefix + "Commit", prefix + "Branch", prefix + "Build-Date"}
  }

  lemma PrefixedKeysDistinct(prefix: string, a: string, b: string)
    requires a != b
    ensures prefix + a != prefix + b
  {
    assert (prefix + a)[|prefix|..] == a;
    assert (prefix + b)[|prefix|..] == b;
  }

  lemma HeaderNamesDistinct(prefix: string)
    ensures prefix + "Version" != prefix + "Commit" && prefix + "Version" != prefix + "Branch"
    ensures prefix + "Version" != prefix + "Build-Date" && prefix + "Commit" != prefix + "Branch"
    ensures prefix + "Commit" != prefix + "Build-Date" && prefix + "Branch" != prefix + "Build-Date"
  {
    assert "Commit"[0] == 'C' && "Branch"[0] == 'B';
    assert "Branch"[1] == 'r' && "Build-Date"[1] == 'u';
    PrefixedKeysDistinct(prefix, "Version", "Commit");
    PrefixedKeysDistinct(prefix, "Version", "Branch");
    PrefixedKeysDistinct(prefix, "Version", "Build-Date");
    PrefixedKeysDistinct(prefix, "Commit", "Branch");
    PrefixedKeysDistinct(prefix, "Commit", "Build-Date");
    PrefixedKeysDistinct(prefix, "Branch", "Build-Date");
  }

  function VersionHeader(info: Info, prefix: string): map<string, string> {
    map[prefix + "Version" := info.version]
  }

  function CommitHeader(info: Info, prefix: string): map<string, string> {
    if IsSet(info.commit) then map[prefix + "Commit" := ShortCommit(info)] else map[]
  }

  function BranchHeader(info: Info, prefix: string): map<string, string> {
    if info.branch != "" then map[prefix + "Branch" := info.branch] else map[]
  }

  function BuildDateHeader(info: Info, prefix: string): map<string, string> {
    if IsSet(info.buildDate) then map[prefix + "Build-Date" := info.buildDate] else map[]
  }

  /** The headers that setVersionHeaders writes, as one map. */
  function VersionHeaders(info: Info, prefix: string): (h: map<string, string>)
    ensures h.Keys <= HeaderKeys(prefix)
    ensures prefix + "Version" in h && h[prefix + "Version"] == info.version
    ensures prefix + "Commit" in h <==> IsSet(info.commit)
    ensures prefix + "Commit" in h ==> h[prefix + "Commit"] == ShortCommit(info)
    ensures prefix + "Branch" in h <==> info.branch != ""
    ensures prefix + "Branch" in h ==> h[prefix + "Branch"] == info.branch
    ensures prefix + "Build-Date" in h <==> IsSet(info.buildDate)
    ensures prefix + "Build-Date" in h ==> h[prefix + "Build-Date"] == info.buildDate
  {
    HeaderNamesDistinct(prefix);
    VersionHeader(info, prefix) + CommitHeader(info, prefix) + BranchHeader(info, prefix)
    + BuildDateHeader(info, prefix)
  }

  lemma OverlayAssociates(base: map<string, string>, a: map<string, string>, b: map<string, string>,
                          c: map<string, string>, d: map<string, string>)
    ensures base + a + b + c + d == base + (a + b + c + d)
  {
  }

  /** One Set call, or none, is an overlay with a map of at most one entry. */
  lemma SetOrSkip(m: map<string, string>, write: bool, k: string, v: string)
    ensures (if write then m[k := v] else m) == m + (if write then map[k := v] else map[])
  {
  }

  /** Overlaying the version headers leaves every other key as it was. */
  lemma VersionHeadersFrame(base: map<string, string>, info: Info, prefix: string, k: string)
    requires k !in HeaderKeys(prefix)
    ensures k in base + VersionHeaders(info, prefix) <==> k in base
    ensures k in base ==> (base + VersionHeaders(info, prefix))[k] == base[k]
  {
  }

  /** An absent commit or build date leaves its header as it was. */
  lemma AbsentFieldsKeepHeaders(base: map<string, string>, info: Info, prefix: string)
    ensures var after := base + VersionHeaders(info, prefix);
            !IsSet(info.commit) ==>
              (prefix + "Commit" in after <==> prefix + "Commit" in base)
              && (prefix + "Commit" in base ==> after[prefix + "Commit"] == base[prefix + "Commit"])
    ensures var after := base + VersionHeaders(info, prefix);
            !IsSet(info.buildDate) ==>
              (prefix + "Build-Date" in after <==> prefix + "Build-Date" in base)
              && (prefix + "Build-Date" in base ==> after[prefix + "Build-Date"] == base[prefix + "Build-Date"])
  {
  }

  /** The response headers of net/http (http.Header), keys taken verbatim. */
  class HeaderMap {
    var entries: map<string, string>

    constructor (initial: map<string, string>)
      ensures entries == initial
    {
      entries := initial;
    }

    method Set(key: string, value: string)
      modifies this
      ensures entries == old(entries)[key := value]
    {
      entries := entries[key := value];
    }
  }

  /** The response side of a Fiber context: c.Set writes a response header. */
  class FiberCtx {
    var response: map<string, string>

    constructor (initial: map<string, string>)
      ensures response == initial
    {
      response := initial;
    }

    method Set(key: string, value: string)
      modifies this
      ensures response == old(response)[key := value]
    {
      response := response[key := value];
    }
  }

  /** setVersionHeaders: up to four Set calls on the response headers. */
  method SetVersionHeaders(h: HeaderMap, info: Info, prefix: string)
    modifies h
    ensures h.entries == old(h.entries) + VersionHeaders(info, prefix)
  {
    ghost var base := h.entries;
    h.Set(prefix + "Version", info.version);
    SetOrSkip(base, true, prefix + "Version", info.version);
    ghost var step := h.entries;
    if info.commit != "" && info.commit != UNKNOWN {
      h.Set(prefix + "Commit", ShortCommit(info));
    }
    SetOrSkip(step, IsSet(info.commit), prefix + "Commit", ShortCommit(info));
    step := h.entries;
    if info.branch != "" {
      h.Set(prefix + "Branch", info.branch);
    }
    SetOrSkip(step, info.branch != "", prefix + "Branch", info.branch);
    step := h.entries;
    if info.buildDate != "" && info.buildDate != UNKNOWN {
      h.Set(prefix + "Build-Date", info.buildDate);
    }
    SetOrSkip(step, IsSet(info.buildDate), prefix + "Build-Date", info.buildDate);
    OverlayAssociates(base, VersionHeader(info, prefix), CommitHeader(info, prefix),
                      BranchHeader(info, prefix), BuildDateHeader(info, prefix));
  }

  /** setVersionHeadersFiber: the same four writes through a Fiber context. */
  method SetVersionHeadersFiber(c: FiberCtx, info: Info, prefix: string)
    modifies c
    ensures c.response == old(c.response) + VersionHeaders(info, prefix)
  {
    ghost var base := c.response;
    c.Set(prefix + "Version", info.version);
    SetOrSkip(base, true, prefix + "Version", info.version);
    ghost var step := c.response;
    if info.commit != "" && info.commit != UNKNOWN {
      c.Set(prefix + "Commit", ShortCommit(info));
    }
    SetOrSkip(step, IsSet(info.commit), prefix + "Commit", ShortCommit(info));
    step := c.response;
    if info.branch != "" {
      c.Set(prefix + "Branch", info.branch);
    }
    SetOrSkip(step, info.branch != "", prefix + "Branch", info.branch);
    step := c.response;
    if info.buildDate != "" && info.buildDate != UNKNOWN {
      c.Set(prefix + "Build-Date", info.buildDate);
    }
    SetOrSkip(step, IsSet(info.buildDate), prefix + "Build-Date", info.buildDate);
    OverlayAssociates(base, VersionHeader(info, prefix), CommitHeader(info, prefix),
                      BranchHeader(info, prefix), BuildDateHeader(info, prefix));
  }

  // ---------------------------------------------------------------------------
  // One request through each handler
  // ---------------------------------------------------------------------------

  /** The headers an optional injection adds. */
  function Injected(s: Settings): map<string, string> {
    if s.includeHeaders then VersionHeaders(s.info, s.headerPrefix) else map[]
  }

  /** A request to the handler returned by Handler: the JSON content type,
      the version headers iff IncludeHeaders, and a body holding the JSON
      object of the Info (pretty or compact, which only changes layout). */
  method ServeHandler(s: Settings, w: HeaderMap) returns (body: map<string, string>)
    modifies w
    ensures w.entries == old(w.entries)[CONTENT_TYPE := JSON_CONTENT_TYPE] + Injected(s)
    ensures body == JsonObject(s.info)
  {
    w.Set(CONTENT_TYPE, JSON_CONTENT_TYPE);
    if s.includeHeaders {
      SetVersionHeaders(w, s.info, s.headerPrefix);
    }
    body := JsonObject(s.info);
  }

  /** A request to the handler returned by FiberHandler; both branches on
      Pretty serve the same compact JSON. */
  method ServeFiberHandler(s: Settings, c: FiberCtx) returns (body: map<string, string>)
    modifies c
    ensures c.response == old(c.response)[CONTENT_TYPE := JSON_CONTENT_TYPE] + Injected(s)
    ensures body == JsonObject(s.info)
  {
    c.Set(CONTENT_TYPE, JSON_CONTENT_TYPE);
    if s.includeHeaders {
      SetVersionHeadersFiber(c, s.info, s.headerPrefix);
    }
    body := JsonObject(s.info);
  }

  /** A request to the handler returned by TextHandler: the text content
      type, the version headers iff IncludeHeaders, and the Full() report. */
  method ServeTextHandler(s: Settings, w: HeaderMap) returns (body: string)
    modifies w
    ensures w.entries == old(w.entries)[CONTENT_TYPE := TEXT_CONTENT_TYPE] + Injected(s)
    ensures body == Render(Report(s.info))
  {
    w.Set(CONTENT_TYPE, TEXT_CONTENT_TYPE);
    if s.includeHeaders {
      SetVersionHeaders(w, s.info, s.headerPrefix);
    }
    body := Full(s.info);
  }

  /** A request to the handler returned by FiberTextHandler. */
  method ServeFiberTextHandler(s: Settings, c: FiberCtx) returns (body: string)
    modifies c
    ensures c.response == old(c.response)[CONTENT_TYPE := TEXT_CONTENT_TYPE] + Injected(s)
    ensures body == Render(Report(s.info))
  {
    c.Set(CONTENT_TYPE, TEXT_CONTENT_TYPE);
    if s.includeHeaders {
      SetVersionHeadersFiber(c, s.info, s.headerPrefix);
    }
    body := Full(s.info);
  }

  /** A request through Middleware: the version headers, always, before the
      next handler runs. */
  method ServeMiddleware(m: Injection, w: HeaderMap)
    modifies w
    ensures w.entries == old(w.entries) + VersionHeaders(m.info, m.prefix)
  {
    SetVersionHeaders(w, m.info, m.prefix);
  }

  /** A request through FiberMiddleware. */
  method ServeFiberMiddleware(m: Injection, c: FiberCtx)
    modifies c
    ensures c.response == old(c.response) + VersionHeaders(m.info, m.prefix)
  {
    SetVersionHeadersFiber(c, m.info, m.prefix);
  }

  /** The body of SimpleHandler and FiberSimpleHandler: the display string of
      Default(), which starts with the version variable and carries a short
      commit exactly when the commit variable is present. */
  function SimpleHandlerBody(g: Globals, env: Env): (body: string)
    ensures g.version <= body
    ensures body == g.version <==> !IsSet(g.commit)
  {
    StringIsVersionUnlessCommit(Default(g, env));
    String(Default(g, env))
  }

  // ---------------------------------------------------------------------------
  // Expected values from the package's tests
  // ---------------------------------------------------------------------------

  /** Headers for a record with every field set and a custom prefix. */
  lemma HeadersExample(env: Env)
    ensures VersionHeaders(NewWithBranch(env, "1.0.0", "abc1234567890", "2025-01-01T00:00:00Z", "main"), "X-App-")
            == map["X-App-Version" := "1.0.0", "X-App-Commit" := "abc1234", "X-App-Branch" := "main",
                   "X-App-Build-Date" := "2025-01-01T00:00:00Z"]
  {
    assert "X-App-" + "Version" == "X-App-Version";
    assert "X-App-" + "Commit" == "X-App-Commit";
    assert "X-App-" + "Branch" == "X-App-Branch";
    assert "X-App-" + "Build-Date" == "X-App-Build-Date";
    assert "abc1234567890"[..7] == "abc1234";
  }

  /** An "unknown" commit and build date produce only the version header. */
  lemma UnknownFieldsExample(i: Info)
    requires i.commit == UNKNOWN && i.buildDate == UNKNOWN && i.branch == ""
    ensures VersionHeaders(i, DEFAULT_HEADER_PREFIX) == map["X-Version" := i.version]
  {
    assert DEFAULT_HEADER_PREFIX + "Version" == "X-Version";
  }

  /** With a nil Info and an empty prefix, Handler writes "X-" headers from
      Default(), while TextHandler writes the same headers with no prefix. */
  lemma EmptyPrefixExample(g: Globals, env: Env)
    ensures var config := [HandlerConfig(None, false, true, "")];
            var h := HandlerSettings(config, g, env);
            var t := TextHandlerSettings(config, g, env);
            h.info == Default(g, env) && h.headerPrefix == "X-"
            && t.info == Default(g, env) && t.headerPrefix == ""
            && "Version" in Injected(t) && "X-Version" in Injected(h)
  {
    assert "" + "Version" == "Version";
    assert "X-" + "Version" == "X-Version";
  }
}
