/**
 * Parsing helpers of the Tailscale service (src/services/tailscale.ts):
 * conflict-port detection in `tailscale serve` output, flattening of the
 * decoded `serve status --json` tree into URL mappings, and the choice of
 * the remote URL.
 *
 * The decoded JSON is a tree of ordered entry lists: each JSON object is the
 * list of its `[key, value]` entries in `Object.entries` order.
 */
module ServeStatus {
  import opened Wrappers
  import opened JsString

  // ---------------------------------------------------------------------------
  // parseConflictPort: /listener already exists for port\s+(\d+)/i
  // ---------------------------------------------------------------------------

  const ConflictPhrase := "listener already exists for port"

  /** The phrase occurs at `i`, ASCII letters compared without case. */
  predicate PhraseAt(s: string, i: nat)
  {
    i + |ConflictPhrase| <= |s| && ToLowerAscii(s[i..i + |ConflictPhrase|]) == ConflictPhrase
  }

  /** The end of the run of whitespace starting at `k`. */
  function SpaceRunEnd(s: string, k: nat): (e: nat)
    requires k <= |s|
    ensures k <= e <= |s|
    ensures forall j :: k <= j < e ==> IsWhiteSpace(s[j])
    ensures e == |s| || !IsWhiteSpace(s[e])
    decreases |s| - k
  {
    if k < |s| && IsWhiteSpace(s[k]) then SpaceRunEnd(s, k + 1) else k
  }

  /** A match starts at `i`: the phrase, then whitespace, then at least one digit. */
  predicate MatchesAt(s: string, i: nat)
  {
    PhraseAt(s, i)
    && var w := SpaceRunEnd(s, i + |ConflictPhrase|);
       w > i + |ConflictPhrase| && w < |s| && IsDigit(s[w])
  }

  /** The port captured by the match at `i`: the longest digit run after the whitespace. */
  function CapturedPort(s: string, i: nat): nat
    requires MatchesAt(s, i)
  {
    var w := SpaceRunEnd(s, i + |ConflictPhrase|);
    DecimalValue(s[w..w + DigitRun(s, w)])
  }

  /** The leftmost position at or after `i` where the pattern matches. */
  function FirstConflictAt(s: string, i: nat): (r: Option<nat>)
    requires i <= |s|
    ensures r.Some? ==> i <= r.value < |s| && MatchesAt(s, r.value)
    ensures r.Some? ==> forall j :: i <= j < r.value ==> !MatchesAt(s, j)
    ensures r.None? ==> forall j :: i <= j < |s| ==> !MatchesAt(s, j)
    decreases |s| - i
  {
    if i == |s| then None
    else if MatchesAt(s, i) then Some(i)
    else FirstConflictAt(s, i + 1)
  }

  /**
   * The port named by the first "listener already exists for port N" message
   * (any letter case, at least one whitespace before the digits), or none.
   */
  function ParseConflictPort(value: string): (r: Option<nat>)
    ensures r.None? <==> forall j :: 0 <= j < |value| ==> !MatchesAt(value, j)
    ensures r.Some? ==> exists j :: FirstConflictAt(value, 0) == Some(j) && r == Some(CapturedPort(value, j))
  {
    match FirstConflictAt(value, 0)
    case None => None
    case Some(j) => Some(CapturedPort(value, j))
  }

  /**
   * A message that starts with the phrase (in any letter case), one space and
   * a decimal port, and continues with a non-digit, names that port.
   */
  lemma {:induction false} ConflictPortReadBack(head: string, n: nat, rest: string)
    requires ToLowerAscii(head) == ConflictPhrase
    requires rest == "" || !IsDigit(rest[0])
    ensures ParseConflictPort(head + " " + NatToString(n) + rest) == Some(n)
  {
    var digits := NatToString(n);
    var s := head + " " + digits + rest;
    var p := |ConflictPhrase|;
    assert PhraseAt(s, 0) by {
      forall k | 0 <= k < p ensures LowerChar(s[k]) == ConflictPhrase[k] {
        assert s[k] == head[k];
      }
    }
    assert s[p] == ' ';
    assert !IsWhiteSpace(s[p + 1]) by { assert s[p + 1] == digits[0]; }
    assert SpaceRunEnd(s, p) == p + 1 by {
      assert SpaceRunEnd(s, p + 1) == p + 1;
    }
    var w := p + 1;
    assert forall j :: 0 <= j < |digits| ==> s[w + j] == digits[j];
    assert DigitRun(s, w) == |digits| by {
      DigitRunOver(s, w, |digits|);
    }
    assert s[w..w + |digits|] == digits;
    DecimalValueOfNatToString(n);
    assert MatchesAt(s, 0) && CapturedPort(s, 0) == n;
  }

  /** A digit run of exactly `n` characters ending before a non-digit or the end. */
  lemma {:induction false} DigitRunOver(s: string, w: nat, n: nat)
    requires w + n <= |s|
    requires forall j :: w <= j < w + n ==> IsDigit(s[j])
    requires w + n == |s| || !IsDigit(s[w + n])
    ensures DigitRun(s, w) == n
    decreases n
  {
    if n > 0 {
      DigitRunOver(s, w + 1, n - 1);
    }
  }

  // ---------------------------------------------------------------------------
  // The decoded `serve status --json` tree
  // ---------------------------------------------------------------------------

  datatype Handler = Handler(proxy: Option<string>)

  /** A host's endpoint; `Handlers` maps a path to its handler. */
  datatype Endpoint = Endpoint(handlers: Option<seq<(string, Handler)>>)

  /** A `Web` map: host to endpoint. */
  type Web = seq<(string, Endpoint)>

  /** A `Foreground` / `Background` node, keyed by session or node id. */
  datatype Node = Node(web: Option<Web>)

  datatype Status = Status(
    web: Option<Web>,
    foreground: Option<seq<(string, Node)>>,
    background: Option<seq<(string, Node)>>)

  /** A published URL and the local target it proxies to, if the status reports one. */
  datatype Mapping = Mapping(url: string, proxy: Option<string>)

  predicate IsHttpsUrl(url: string)
  {
    |url| >= 8 && url[..8] == "https://"
  }

  predicate AllHttps(ms: seq<Mapping>)
  {
    forall i :: 0 <= i < |ms| ==> IsHttpsUrl(ms[i].url)
  }

  /** The root path adds nothing to the URL. */
  function NormalizePath(path: string): string
  {
    if path == "/" then "" else path
  }

  /** The mapping one handler contributes: `https://host<path>` and the handler's proxy. */
  function HandlerMapping(host: string, entry: (string, Handler)): Mapping
  {
    Mapping("https://" + host + NormalizePath(entry.0), entry.1.proxy)
  }

  /** One mapping per handler, in entry order. */
  function HandlerMappings(host: string, handlers: seq<(string, Handler)>): (r: seq<Mapping>)
    ensures |r| == |handlers|
  {
    if |handlers| == 0 then []
    else HandlerMappings(host, handlers[..|handlers| - 1]) + [HandlerMapping(host, handlers[|handlers| - 1])]
  }

  /** The `i`-th mapping of a host is the one its `i`-th handler contributes. */
  lemma {:induction false} HandlerMappingsAt(host: string, handlers: seq<(string, Handler)>, i: nat)
    requires i < |handlers|
    ensures HandlerMappings(host, handlers)[i] == HandlerMapping(host, handlers[i])
    decreases |handlers|
  {
    if i < |handlers| - 1 {
      HandlerMappingsAt(host, handlers[..|handlers| - 1], i);
    }
  }

  /** A host without handlers contributes its bare URL with no proxy; otherwise one mapping per handler. */
  function HostMappings(host: string, endpoint: Endpoint): (r: seq<Mapping>)
    ensures |r| >= 1
    ensures endpoint.handlers.None? || endpoint.handlers.value == [] ==> r == [Mapping("https://" + host, None)]
    ensures endpoint.handlers.Some? && endpoint.handlers.value != [] ==> |r| == |endpoint.handlers.value|
  {
    if endpoint.handlers.None? || |endpoint.handlers.value| == 0 then [Mapping("https://" + host, None)]
    else HandlerMappings(host, endpoint.handlers.value)
  }

  /** The mappings of a `Web` map: each host's mappings, hosts in entry order. */
  function WebMappings(web: Web): (r: seq<Mapping>)
    ensures |r| >= |web|
  {
    if |web| == 0 then []
    else WebMappings(web[..|web| - 1]) + HostMappings(web[|web| - 1].0, web[|web| - 1].1)
  }

  function OptionalWebMappings(web: Option<Web>): (r: seq<Mapping>)
    ensures web.None? ==> r == []
    ensures web.Some? ==> r == WebMappings(web.value)
  {
    if web.None? then [] else WebMappings(web.value)
  }

  /** The mappings of every node's `Web`, nodes in entry order. */
  function NodeMappings(nodes: seq<(string, Node)>): (r: seq<Mapping>)
    ensures (forall k :: 0 <= k < |nodes| ==> nodes[k].1.web.None?) ==> r == []
  {
    if |nodes| == 0 then []
    else NodeMappings(nodes[..|nodes| - 1]) + OptionalWebMappings(nodes[|nodes| - 1].1.web)
  }

  /** Top-level `Web` first, then each `Foreground` node's, then each `Background` node's. */
  function StatusMappings(status: Status): (r: seq<Mapping>)
  {
    OptionalWebMappings(status.web)
      + (if status.foreground.None? then [] else NodeMappings(status.foreground.value))
      + (if status.background.None? then [] else NodeMappings(status.background.value))
  }

  // Every flattened URL is an `https://` URL.

  lemma {:induction false} HandlerMappingsHttps(host: string, handlers: seq<(string, Handler)>)
    ensures AllHttps(HandlerMappings(host, handlers))
  {
    forall i | 0 <= i < |handlers|
      ensures IsHttpsUrl(HandlerMappings(host, handlers)[i].url)
    {
      HandlerMappingsAt(host, handlers, i);
      assert ("https://" + host + NormalizePath(handlers[i].0))[..8] == "https://";
    }
  }

  lemma AllHttpsAppend(a: seq<Mapping>, b: seq<Mapping>)
    requires AllHttps(a) && AllHttps(b)
    ensures AllHttps(a + b)
  {
    forall i | 0 <= i < |a + b| ensures IsHttpsUrl((a + b)[i].url) {
      if i >= |a| {
        assert (a + b)[i] == b[i - |a|];
      }
    }
  }

  lemma HostMappingsHttps(host: string, endpoint: Endpoint)
    ensures AllHttps(HostMappings(host, endpoint))
  {
    if endpoint.handlers.None? || |endpoint.handlers.value| == 0 {
      assert ("https://" + host)[..8] == "https://";
    } else {
      HandlerMappingsHttps(host, endpoint.handlers.value);
    }
  }

  lemma {:induction false} WebMappingsHttps(web: Web)
    ensures AllHttps(WebMappings(web))
    decreases |web|
  {
    if |web| > 0 {
      WebMappingsHttps(web[..|web| - 1]);
      HostMappingsHttps(web[|web| - 1].0, web[|web| - 1].1);
      AllHttpsAppend(WebMappings(web[..|web| - 1]), HostMappings(web[|web| - 1].0, web[|web| - 1].1));
    }
  }

  lemma OptionalWebMappingsHttps(web: Option<Web>)
    ensures AllHttps(OptionalWebMappings(web))
  {
    if web.Some? {
      WebMappingsHttps(web.value);
    }
  }

  lemma {:induction false} NodeMappingsHttps(nodes: seq<(string, Node)>)
    ensures AllHttps(NodeMappings(nodes))
    decreases |nodes|
  {
    if |nodes| > 0 {
      NodeMappingsHttps(nodes[..|nodes| - 1]);
      OptionalWebMappingsHttps(nodes[|nodes| - 1].1.web);
      AllHttpsAppend(NodeMappings(nodes[..|nodes| - 1]), OptionalWebMappings(nodes[|nodes| - 1].1.web));
    }
  }

  /** Every URL the status reports is an `https://` URL. */
  lemma StatusMappingsHttps(status: Status)
    ensures AllHttps(StatusMappings(status))
  {
    var fg := if status.foreground.None? then [] else NodeMappings(status.foreground.value);
    var bg := if status.background.None? then [] else NodeMappings(status.background.value);
    OptionalWebMappingsHttps(status.web);
    if status.foreground.Some? { NodeMappingsHttps(status.foreground.value); }
    if status.background.Some? { NodeMappingsHttps(status.background.value); }
    AllHttpsAppend(OptionalWebMappings(status.web), fg);
    AllHttpsAppend(OptionalWebMappings(status.web) + fg, bg);
  }

  /** Mappings of two lists of hosts are the mappings of each, in order. */
  lemma {:induction false} WebMappingsAppend(a: Web, b: Web)
    ensures WebMappings(a + b) == WebMappings(a) + WebMappings(b)
    decreases |b|
  {
    if |b| == 0 {
      assert a + b == a;
    } else {
      assert (a + b)[..|a + b| - 1] == a + b[..|b| - 1];
      assert (a + b)[|a + b| - 1] == b[|b| - 1];
      WebMappingsAppend(a, b[..|b| - 1]);
      AppendAssoc(WebMappings(a), WebMappings(b[..|b| - 1]), HostMappings(b[|b| - 1].0, b[|b| - 1].1));
    }
  }

  // One loop step of each flattening loop.

  lemma AppendAssoc(a: seq<Mapping>, b: seq<Mapping>, c: seq<Mapping>)
    ensures a + b + c == a + (b + c)
  {
  }

  lemma HandlerMappingsStep(host: string, handlers: seq<(string, Handler)>, j: nat)
    requires j < |handlers|
    ensures HandlerMappings(host, handlers[..j + 1]) == HandlerMappings(host, handlers[..j]) + [HandlerMapping(host, handlers[j])]
  {
    assert handlers[..j + 1][..j] == handlers[..j];
  }

  lemma WebMappingsStep(hosts: Web, i: nat)
    requires i < |hosts|
    ensures WebMappings(hosts[..i + 1]) == WebMappings(hosts[..i]) + HostMappings(hosts[i].0, hosts[i].1)
  {
    assert hosts[..i + 1][..i] == hosts[..i];
  }

  lemma NodeMappingsStep(nodes: seq<(string, Node)>, i: nat)
    requires i < |nodes|
    ensures NodeMappings(nodes[..i + 1]) == NodeMappings(nodes[..i]) + OptionalWebMappings(nodes[i].1.web)
  {
    assert nodes[..i + 1][..i] == nodes[..i];
  }

  /** Pushes one host's mappings, handler by handler. */
  method AppendHostMappings(host: string, endpoint: Endpoint, mappings: seq<Mapping>) returns (out: seq<Mapping>)
    ensures out == mappings + HostMappings(host, endpoint)
  {
    var handlers := endpoint.handlers;
    if handlers.None? || |handlers.value| == 0 {
      out := mappings + [Mapping("https://" + host, None)];
      return;
    }
    var paths := handlers.value;
    out := mappings;
    var j := 0;
    while j < |paths|
      invariant j <= |paths|
      invariant out == mappings + HandlerMappings(host, paths[..j])
    {
      HandlerMappingsStep(host, paths, j);
      AppendAssoc(mappings, HandlerMappings(host, paths[..j]), [HandlerMapping(host, paths[j])]);
      var path := paths[j].0;
      var normalizedPath := if path == "/" then "" else path;
      out := out + [Mapping("https://" + host + normalizedPath, paths[j].1.proxy)];
      j := j + 1;
    }
    assert paths[..j] == paths;
  }

  /**
   * `appendMappingsFromWeb`: pushes the mappings of a `Web` map onto the
   * caller's list, host by host and handler by handler.
   */
  method AppendMappingsFromWeb(web: Option<Web>, mappings: seq<Mapping>) returns (out: seq<Mapping>)
    ensures out == mappings + OptionalWebMappings(web)
  {
    out := mappings;
    if web.None? {
      return;
    }
    var hosts := web.value;
    var i := 0;
    while i < |hosts|
      invariant i <= |hosts|
      invariant out == mappings + WebMappings(hosts[..i])
    {
      WebMappingsStep(hosts, i);
      AppendAssoc(mappings, WebMappings(hosts[..i]), HostMappings(hosts[i].0, hosts[i].1));
      out := AppendHostMappings(hosts[i].0, hosts[i].1, out);
      i := i + 1;
    }
    assert hosts[..i] == hosts;
  }

  // ---------------------------------------------------------------------------
  // parseServeMappings and pickRemoteUrl
  // ---------------------------------------------------------------------------

  /**
   * The mappings reported by raw `serve status --json` output. `decode` is
   * JSON parsing followed by schema decoding of the text from the first `{`:
   * none when either throws.
   */
  function ServeMappings(raw: string, decode: string -> Option<Status>): (r: seq<Mapping>)
    ensures '{' !in raw ==> r == []
    ensures '{' in raw && decode(raw[IndexOf(raw, '{').value..]).None? ==> r == []
    ensures '{' in raw && decode(raw[IndexOf(raw, '{').value..]).Some? ==>
              r == StatusMappings(decode(raw[IndexOf(raw, '{').value..]).value)
  {
    match IndexOf(raw, '{')
    case None => []
    case Some(start) =>
      match decode(raw[start..])
      case None => []
      case Some(status) => StatusMappings(status)
  }

  lemma ServeMappingsHttps(raw: string, decode: string -> Option<Status>)
    ensures AllHttps(ServeMappings(raw, decode))
  {
    var start := IndexOf(raw, '{');
    if start.Some? && decode(raw[start.value..]).Some? {
      StatusMappingsHttps(decode(raw[start.value..]).value);
    }
  }

  /** `parseServeMappings`: the top-level `Web`, then a loop per node section. */
  method ParseServeMappings(raw: string, decode: string -> Option<Status>) returns (mappings: seq<Mapping>)
    ensures mappings == ServeMappings(raw, decode)
  {
    var start := IndexOf(raw, '{');
    if start.None? {
      return [];
    }
    var decoded := decode(raw[start.value..]);
    if decoded.None? {
      return [];
    }
    var status := decoded.value;
    mappings := AppendMappingsFromWeb(status.web, []);
    var foreground := if status.foreground.None? then [] else status.foreground.value;
    var i := 0;
    while i < |foreground|
      invariant i <= |foreground|
      invariant mappings == OptionalWebMappings(status.web) + NodeMappings(foreground[..i])
    {
      NodeMappingsStep(foreground, i);
      AppendAssoc(OptionalWebMappings(status.web), NodeMappings(foreground[..i]), OptionalWebMappings(foreground[i].1.web));
      mappings := AppendMappingsFromWeb(foreground[i].1.web, mappings);
      i := i + 1;
    }
    assert foreground[..i] == foreground;
    var background := if status.background.None? then [] else status.background.value;
    var j := 0;
    ghost var afterForeground := mappings;
    while j < |background|
      invariant j <= |background|
      invariant mappings == afterForeground + NodeMappings(background[..j])
    {
      NodeMappingsStep(background, j);
      AppendAssoc(afterForeground, NodeMappings(background[..j]), OptionalWebMappings(background[j].1.web));
      mappings := AppendMappingsFromWeb(background[j].1.web, mappings);
      j := j + 1;
    }
    assert background[..j] == background;
  }

  /** The index of the first mapping whose proxy is exactly `target`. */
  function FindProxy(ms: seq<Mapping>, target: string): (r: Option<nat>)
    ensures r.Some? ==> r.value < |ms| && ms[r.value].proxy == Some(target)
    ensures r.Some? ==> forall j :: 0 <= j < r.value ==> ms[j].proxy != Some(target)
    ensures r.None? ==> forall j :: 0 <= j < |ms| ==> ms[j].proxy != Some(target)
  {
    if |ms| == 0 then None
    else if ms[0].proxy == Some(target) then Some(0)
    else
      var rest := FindProxy(ms[1..], target);
      if rest.None? then None else Some(rest.value + 1)
  }

  /**
   * `pickRemoteUrl`: the URL of the first mapping that proxies to `target`,
   * else the first mapping's URL; none exactly when there is no mapping.
   */
  function PickRemoteUrl(statusOutput: string, target: string, decode: string -> Option<Status>): (r: Option<string>)
    ensures r.Some? ==> IsHttpsUrl(r.value)
  {
    var ms := ServeMappings(statusOutput, decode);
    ServeMappingsHttps(statusOutput, decode);
    match FindProxy(ms, target)
    case Some(i) => Some(ms[i].url)
    case None => if |ms| > 0 then Some(ms[0].url) else None
  }

  /**
   * The URL chosen is the first one proxying exactly to `target`, else the
   * first one reported; there is none exactly when no mapping is reported.
   */
  lemma PickRemoteUrlChoice(statusOutput: string, target: string, decode: string -> Option<Status>)
    ensures var ms := ServeMappings(statusOutput, decode);
            var r := PickRemoteUrl(statusOutput, target, decode);
            (r.None? <==> ms == [])
            && (FindProxy(ms, target).Some? ==> r == Some(ms[FindProxy(ms, target).value].url))
            && (FindProxy(ms, target).None? && ms != [] ==> r == Some(ms[0].url))
  {
  }

  /** The example status of a single root handler yields exactly one mapping. */
  lemma SingleRootHandler(host: string, proxy: string)
    ensures StatusMappings(Status(Some([(host, Endpoint(Some([("/", Handler(Some(proxy)))])))]), None, None))
            == [Mapping("https://" + host, Some(proxy))]
  {
    var handlers := [("/", Handler(Some(proxy)))];
    var web := [(host, Endpoint(Some(handlers)))];
    assert handlers[..0] == [];
    assert HandlerMappings(host, handlers) == [HandlerMapping(host, handlers[0])];
    assert HandlerMapping(host, handlers[0]) == Mapping("https://" + host, Some(proxy)) by {
      assert "https://" + host + "" == "https://" + host;
    }
    assert web[..0] == [];
    assert WebMappings(web) == HostMappings(host, Endpoint(Some(handlers)));
  }
}
