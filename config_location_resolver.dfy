/**
 * The location resolver of Consul's config data: which `consul:` locations it accepts,
 * how a location becomes a `consul://` URI, which key-value contexts a custom path
 * yields, and how the URI and the bound properties settle the agent's host and port,
 * the application name and the ACL token.
 *
 * Spring's `Binder` is seen as the optional values it returns, Spring's URI parser as a
 * given function from the URI string to its host, port and path, and the automatic
 * contexts of `ConsulPropertySources` as a given list.
 */
module ConfigDataLocationResolver {
  import opened Wrappers
  import opened JavaText

  /** The prefix of every location this resolver handles. */
  const PREFIX: string := "consul:"

  /** The suffixes of the key-value and YAML/properties formats: a folder per context. */
  const DIR_SUFFIXES: seq<string> := ["/"]

  /** The suffixes of the FILES format: one key per file type. */
  const FILES_SUFFIXES: seq<string> := [".yml", ".yaml", ".properties"]

  /** The `format` setting of the config properties. */
  datatype Format = KeyValue | Properties | Yaml | Files

  /** What Spring's `UriComponents` yields for the URI: the host (`None` is `null`), the
      port (-1 when absent), the path and its segments. */
  datatype UriComponents = UriComponents(host: Option<string>, port: int, path: Option<string>, pathSegments: seq<string>)

  /** A property-source context: a key path and, for automatic contexts, a profile. */
  datatype Context = Context(path: string, profile: Option<string>)

  /** A resolved resource: the context's path and profile. */
  datatype ConfigDataResource = ConfigDataResource(path: string, profile: Option<string>)

  /** `ConfigDataLocation.getNonPrefixedValue(PREFIX)`. */
  function NonPrefixedValue(location: string): string {
    if StartsWith(location, PREFIX) then location[|PREFIX|..] else location
  }

  /** `isResolvable`: only a `consul:` location, and only while neither
      `spring.cloud.consul.enabled` nor `spring.cloud.consul.config.enabled` is bound to
      false (`None` is an unbound flag). */
  function IsResolvable(location: string, consulEnabled: Option<bool>, configEnabled: Option<bool>): (r: bool)
    ensures !StartsWith(location, PREFIX) ==> !r
    ensures StartsWith(location, PREFIX) ==> (r <==> consulEnabled != Some(false) && configEnabled != Some(false))
  {
    if !StartsWith(location, PREFIX) then false
    else configEnabled.GetOr(true) && consulEnabled.GetOr(true)
  }

  /** Without the prefix the flags are not consulted: the answer is the same whatever
      is bound to them. */
  lemma IsResolvableIgnoresFlagsWithoutPrefix(location: string, a: Option<bool>, b: Option<bool>, c: Option<bool>, d: Option<bool>)
    requires !StartsWith(location, PREFIX)
    ensures IsResolvable(location, a, b) == IsResolvable(location, c, d) == false
  {
  }

  /** `resolve`: profile-less resolution yields nothing; everything is resolved per
      profile. */
  function Resolve(location: string): (r: seq<ConfigDataResource>)
    ensures |r| == 0
  {
    []
  }

  /** `getSuffixes`: the file suffixes for the FILES format, the folder suffix for every
      other. */
  function GetSuffixes(format: Format): (r: seq<string>)
    ensures r == FILES_SUFFIXES <==> format == Files
    ensures r == DIR_SUFFIXES <==> format != Files
  {
    if format == Files then FILES_SUFFIXES else DIR_SUFFIXES
  }

  /** `parseLocation` up to the call of Spring's URI parser: the URI string it hands the
      parser, or `None` (`null`) when the non-prefixed value has no text. A value not
      starting with "//" gets "consul://" in front; one starting with "//" is kept. */
  function ParseLocation(location: string): (uri: Option<string>)
    ensures uri.None? <==> !HasText(NonPrefixedValue(location))
    ensures uri.Some? && StartsWith(NonPrefixedValue(location), "//") ==> uri.value == NonPrefixedValue(location)
    ensures uri.Some? && !StartsWith(NonPrefixedValue(location), "//") ==> uri.value == PREFIX + "//" + NonPrefixedValue(location)
  {
    var original := NonPrefixedValue(location);
    if !HasText(original) then None
    else if !StartsWith(original, "//") then Some(PREFIX + "//" + original)
    else Some(original)
  }

  /** The two spellings of a location: "consul:v" is handed to the URI parser as
      "consul://v", and "consul://v" as "//v". */
  lemma ParseLocationBothSpellings(v: string)
    requires HasText(v) && !StartsWith(v, "//")
    ensures ParseLocation(PREFIX + v) == Some(PREFIX + "//" + v)
    ensures ParseLocation(PREFIX + "//" + v) == Some("//" + v)
  {
    var w := PREFIX + v;
    assert StartsWith(w, PREFIX) && NonPrefixedValue(w) == v;
    var x := PREFIX + "//" + v;
    assert StartsWith(x, PREFIX) && NonPrefixedValue(x) == "//" + v;
    assert StartsWith("//" + v, "//");
    var i :| 0 <= i < |v| && !IsWhitespace(v[i]);
    assert ("//" + v)[i + 2] == v[i];
  }

  /** One segment followed by each suffix in order, without a profile. */
  function WithSuffixes(segment: string, suffixes: seq<string>): (r: seq<Context>)
    ensures |r| == |suffixes|
    ensures forall k :: 0 <= k < |suffixes| ==> r[k] == Context(segment + suffixes[k], None)
  {
    seq(|suffixes|, k requires 0 <= k < |suffixes| => Context(segment + suffixes[k], None))
  }

  /** The contexts of each segment in order, and of each suffix in order within a
      segment. */
  function SuffixedContexts(segments: seq<string>, suffixes: seq<string>): seq<Context>
    decreases |segments|
  {
    if |segments| == 0 then []
    else SuffixedContexts(segments[..|segments| - 1], suffixes) + WithSuffixes(segments[|segments| - 1], suffixes)
  }

  lemma MulStep(i: int, n: int, m: int, j: int)
    requires 0 <= i < n && 0 <= j < m
    ensures 0 <= i * m + j < n * m
  {
    assert (i + 1) * m <= n * m;
  }

  /** #segments x #suffixes contexts in all. */
  lemma {:induction false} SuffixedContextsLength(segments: seq<string>, suffixes: seq<string>)
    ensures |SuffixedContexts(segments, suffixes)| == |segments| * |suffixes|
    decreases |segments|
  {
    if |segments| > 0 {
      var n, m := |segments|, |suffixes|;
      SuffixedContextsLength(segments[..n - 1], suffixes);
      assert n * m == (n - 1) * m + m;
    }
  }

  /** The ordered cross product: the context at position i * #suffixes + j is segment i
      followed by suffix j. */
  lemma {:induction false} SuffixedContextsAt(segments: seq<string>, suffixes: seq<string>, i: nat, j: nat)
    requires i < |segments| && j < |suffixes|
    ensures i * |suffixes| + j < |SuffixedContexts(segments, suffixes)|
    ensures SuffixedContexts(segments, suffixes)[i * |suffixes| + j] == Context(segments[i] + suffixes[j], None)
    decreases |segments|
  {
    var n, m := |segments|, |suffixes|;
    var init := segments[..n - 1];
    SuffixedContextsLength(segments, suffixes);
    SuffixedContextsLength(init, suffixes);
    MulStep(i, n, m, j);
    var front := SuffixedContexts(init, suffixes);
    if i < n - 1 {
      MulStep(i, n - 1, m, j);
      SuffixedContextsAt(init, suffixes, i, j);
      assert init[i] == segments[i];
    } else {
      assert i * m + j == |front| + j;
    }
  }

  /** Appending one segment appends its contexts. */
  lemma SuffixedContextsSnoc(segments: seq<string>, i: nat, suffixes: seq<string>)
    requires i < |segments|
    ensures SuffixedContexts(segments[..i + 1], suffixes) == SuffixedContexts(segments[..i], suffixes) + WithSuffixes(segments[i], suffixes)
  {
    assert segments[..i + 1][..i] == segments[..i];
  }

  /** Taking one more suffix appends one context. */
  lemma WithSuffixesSnoc(segment: string, suffixes: seq<string>, j: nat)
    requires j < |suffixes|
    ensures WithSuffixes(segment, suffixes[..j + 1]) == WithSuffixes(segment, suffixes[..j]) + [Context(segment + suffixes[j], None)]
  {
    assert suffixes[..j + 1][..j] == suffixes[..j];
  }

  /** `getCustomContexts`: nothing for a path without text, otherwise segment + suffix
      for each `;`-segment (as Java's `split` cuts them) and each suffix of the format. */
  method GetCustomContexts(path: Option<string>, format: Format) returns (contexts: seq<Context>)
    ensures !HasTextOpt(path) ==> contexts == []
    ensures HasTextOpt(path) ==> contexts == SuffixedContexts(JavaSplit(path.value, ';'), GetSuffixes(format))
  {
    if !HasTextOpt(path) {
      return [];
    }
    var segments := JavaSplit(path.value, ';');
    var suffixes := GetSuffixes(format);
    contexts := [];
    var i := 0;
    while i < |segments|
      invariant 0 <= i <= |segments|
      invariant contexts == SuffixedContexts(segments[..i], suffixes)
    {
      ghost var before := contexts;
      var segment := segments[i];
      var j := 0;
      while j < |suffixes|
        invariant 0 <= j <= |suffixes|
        invariant contexts == before + WithSuffixes(segment, suffixes[..j])
      {
        WithSuffixesSnoc(segment, suffixes, j);
        contexts := contexts + [Context(segment + suffixes[j], None)];
        j := j + 1;
      }
      assert suffixes[..j] == suffixes;
      SuffixedContextsSnoc(segments, i, suffixes);
      i := i + 1;
    }
    assert segments[..|segments|] == segments;
  }

  /** Cutting a string of separators only gives empty pieces. */
  lemma {:induction false} RawSplitOfSeparators(s: string)
    requires forall i :: 0 <= i < |s| ==> s[i] == ';'
    ensures forall k :: 0 <= k < |RawSplit(s, ';')| ==> RawSplit(s, ';')[k] == ""
    decreases |s|
  {
    if |s| > 0 {
      RawSplitOfSeparators(s[1..]);
    }
  }

  /** A non-empty path made only of separators has text but no segment, so it yields
      no context. */
  lemma SplitOnlySeparators(s: string)
    requires |s| > 0 && forall i :: 0 <= i < |s| ==> s[i] == ';'
    ensures HasText(s) && JavaSplit(s, ';') == []
  {
    assert !IsWhitespace(s[0]);
    RawSplitOfSeparators(s);
  }

  /** A path without a separator is a single segment. */
  lemma SplitNoSeparator()
    ensures JavaSplit("config/app", ';') == ["config/app"]
  {
  }

  /** Java's `split` keeps inner empty segments and drops trailing ones. */
  lemma SplitKeepsInnerEmpty()
    ensures JavaSplit("a;;b;", ';') == ["a", "", "b"]
  {
    var raw := ["a", "", "b", ""];
    assert RawSplit("", ';') == [""];
    assert RawSplit(";", ';') == ["", ""];
    assert "b;"[1..] == ";" && ['b'] + "" == "b";
    assert RawSplit("b;", ';') == ["b", ""];
    assert RawSplit(";b;", ';') == ["", "b", ""];
    assert RawSplit(";;b;", ';') == ["", "", "b", ""];
    assert "a;;b;"[1..] == ";;b;" && ['a'] + "" == "a";
    assert RawSplit("a;;b;", ';') == raw;
    assert raw[..3] == ["a", "", "b"];
    assert DropTrailingEmpty(raw) == DropTrailingEmpty(raw[..3]);
    assert ';' in "a;;b;" by { assert "a;;b;"[1] == ';'; }
  }

  /** The choice in `resolveProfileSpecific`: the automatic contexts when there is no
      URI or its path has no segments, the custom contexts of its path otherwise. */
  method ChooseContexts(uri: Option<UriComponents>, automatic: seq<Context>, format: Format) returns (contexts: seq<Context>)
    ensures uri.None? || |uri.value.pathSegments| == 0 ==> contexts == automatic
    ensures uri.Some? && |uri.value.pathSegments| > 0 && !HasTextOpt(uri.value.path) ==> contexts == []
    ensures uri.Some? && |uri.value.pathSegments| > 0 && HasTextOpt(uri.value.path) ==>
      contexts == SuffixedContexts(JavaSplit(uri.value.path.value, ';'), GetSuffixes(format))
  {
    if uri.None? || |uri.value.pathSegments| == 0 {
      contexts := automatic;
    } else {
      contexts := GetCustomContexts(uri.value.path, format);
    }
  }

  /** The part of `ConsulProperties` the resolver sets: the agent's host and port. */
  datatype AgentAddress = AgentAddress(host: string, port: int)

  /** The host and port after `loadProperties` applied the URI to the bound ones: the
      URI's host only when it has text, its port only when it is not negative. */
  function Located(bound: AgentAddress, location: Option<UriComponents>): AgentAddress {
    if location.None? then bound
    else
      var host := if HasTextOpt(location.value.host) then location.value.host.value else bound.host;
      var port := if location.value.port >= 0 then location.value.port else bound.port;
      AgentAddress(host, port)
  }

  /** The override rules of `loadProperties`. Without a URI, or with a URI that has no
      host text and no port, the bound values stay; a URI host with text and a
      non-negative port always win; and applying the URI twice changes nothing more. */
  lemma LocatedOverrides(bound: AgentAddress, location: Option<UriComponents>)
    ensures location.None? ==> Located(bound, location) == bound
    ensures location.Some? ==>
      && (Located(bound, location).host == bound.host <== !HasTextOpt(location.value.host))
      && (HasTextOpt(location.value.host) ==> Located(bound, location).host == location.value.host.value)
      && (Located(bound, location).port == bound.port <== location.value.port < 0)
      && (location.value.port >= 0 ==> Located(bound, location).port == location.value.port)
    ensures Located(Located(bound, location), location) == Located(bound, location)
  {
  }

  class ConsulProperties {
    var host: string
    var port: int

    constructor (a: AgentAddress)
      ensures Address() == a
    {
      host := a.host;
      port := a.port;
    }

    function Address(): AgentAddress
      reads this
    {
      AgentAddress(host, port)
    }

    method SetHost(h: string)
      modifies this`host
      ensures host == h
    {
      host := h;
    }

    method SetPort(p: int)
      modifies this`port
      ensures port == p
    {
      port := p;
    }
  }

  /** `loadProperties`: the bound `spring.cloud.consul` properties (or a fresh default
      object when nothing is bound), with the URI's host and port applied. */
  method LoadProperties(bound: Option<AgentAddress>, defaults: AgentAddress, location: Option<UriComponents>)
    returns (properties: ConsulProperties)
    ensures fresh(properties)
    ensures properties.Address() == Located(bound.GetOr(defaults), location)
  {
    properties := new ConsulProperties(bound.GetOr(defaults));
    if location.Some? {
      if HasTextOpt(location.value.host) {
        properties.SetHost(location.value.host.value);
      }
      if location.value.port >= 0 {
        properties.SetPort(location.value.port);
      }
    }
  }

  /** The part of `ConsulConfigProperties` the resolver reads or sets. */
  datatype ConfigSettings = ConfigSettings(format: Format, name: Option<string>, aclToken: Option<string>)

  /** What the binder returns for the `spring.cloud.consul.config` properties and for the
      three single properties the defaulting rules consult. */
  datatype ConfigBindings = ConfigBindings(
    config: Option<ConfigSettings>,
    applicationName: Option<string>,
    springCloudConsulToken: Option<string>,
    consulToken: Option<string>)

  /** The name rule: a name with text stays; otherwise `spring.application.name`, or
      "application" when that is unbound. */
  function DefaultedName(name: Option<string>, applicationName: Option<string>): Option<string> {
    if HasTextOpt(name) then name else Some(applicationName.GetOr("application"))
  }

  /** The token rule: a token with text stays; otherwise `spring.cloud.consul.token`,
      else `consul.token`, else `null`. */
  function DefaultedAclToken(token: Option<string>, springCloudConsulToken: Option<string>, consulToken: Option<string>): Option<string> {
    if HasTextOpt(token) then token
    else if springCloudConsulToken.Some? then springCloudConsulToken
    else consulToken
  }

  /** The settings `loadConfigProperties` ends with. */
  function Loaded(b: ConfigBindings, defaults: ConfigSettings): ConfigSettings {
    var bound := b.config.GetOr(defaults);
    ConfigSettings(bound.format, DefaultedName(bound.name, b.applicationName),
                   DefaultedAclToken(bound.aclToken, b.springCloudConsulToken, b.consulToken))
  }

  /** The defaulting rules of `loadConfigProperties`: values with text are never
      overwritten; a blank name falls back to the application name, then to
      "application"; a blank token to `spring.cloud.consul.token`, then `consul.token`,
      then `null`; the format is the bound one. */
  lemma LoadedDefaults(b: ConfigBindings, defaults: ConfigSettings)
    ensures var bound, r := b.config.GetOr(defaults), Loaded(b, defaults);
      && r.format == bound.format
      && (HasTextOpt(bound.name) ==> r.name == bound.name)
      && (!HasTextOpt(bound.name) && b.applicationName.Some? ==> r.name == b.applicationName)
      && (!HasTextOpt(bound.name) && b.applicationName.None? ==> r.name == Some("application"))
      && (HasTextOpt(bound.aclToken) ==> r.aclToken == bound.aclToken)
      && (!HasTextOpt(bound.aclToken) && b.springCloudConsulToken.Some? ==> r.aclToken == b.springCloudConsulToken)
      && (!HasTextOpt(bound.aclToken) && b.springCloudConsulToken.None? ==> r.aclToken == b.consulToken)
  {
  }

  /** The defaults settle: loading again from what was loaded changes nothing. A blank
      value is replaced by the same fallback again. */
  lemma LoadedIsStable(b: ConfigBindings, defaults: ConfigSettings)
    ensures Loaded(ConfigBindings(Some(Loaded(b, defaults)), b.applicationName, b.springCloudConsulToken, b.consulToken), defaults)
         == Loaded(b, defaults)
  {
  }

  class ConsulConfigProperties {
    var format: Format
    var name: Option<string>
    var aclToken: Option<string>

    constructor (s: ConfigSettings)
      ensures Settings() == s
    {
      format := s.format;
      name := s.name;
      aclToken := s.aclToken;
    }

    function Settings(): ConfigSettings
      reads this
    {
      ConfigSettings(format, name, aclToken)
    }

    method SetName(n: Option<string>)
      modifies this`name
      ensures name == n
    {
      name := n;
    }

    method SetAclToken(t: Option<string>)
      modifies this`aclToken
      ensures aclToken == t
    {
      aclToken := t;
    }
  }

  /** `loadConfigProperties`: the bound config properties (or fresh defaults), with a
      blank name and a blank token filled in. */
  method LoadConfigProperties(b: ConfigBindings, defaults: ConfigSettings) returns (properties: ConsulConfigProperties)
    ensures fresh(properties)
    ensures properties.Settings() == Loaded(b, defaults)
  {
    properties := new ConsulConfigProperties(b.config.GetOr(defaults));
    if !HasTextOpt(properties.name) {
      properties.SetName(Some(b.applicationName.GetOr("application")));
    }
    if !HasTextOpt(properties.aclToken) {
      properties.SetAclToken(if b.springCloudConsulToken.Some? then b.springCloudConsulToken else b.consulToken);
    }
  }

  /** `resolveProfileSpecific` without its bean registrations: parse the location, load
      both property objects, choose the contexts and make one resource per context. */
  method ResolveProfileSpecific(
    location: string,
    parseUri: string -> UriComponents,
    boundAddress: Option<AgentAddress>, defaultAddress: AgentAddress,
    bindings: ConfigBindings, defaultSettings: ConfigSettings,
    automatic: seq<Context>)
    returns (resources: seq<ConfigDataResource>, consul: ConsulProperties, config: ConsulConfigProperties)
    ensures fresh(consul) && fresh(config)
    ensures var uri := match ParseLocation(location) case None => None case Some(u) => Some(parseUri(u));
      && consul.Address() == Located(boundAddress.GetOr(defaultAddress), uri)
      && config.Settings() == Loaded(bindings, defaultSettings)
      && |resources| == |(if uri.None? || |uri.value.pathSegments| == 0 then automatic
                          else if !HasTextOpt(uri.value.path) then []
                          else SuffixedContexts(JavaSplit(uri.value.path.value, ';'), GetSuffixes(config.format)))|
    ensures forall k :: 0 <= k < |resources| ==>
      var uri := match ParseLocation(location) case None => None case Some(u) => Some(parseUri(u));
      var contexts := if uri.None? || |uri.value.pathSegments| == 0 then automatic
                      else if !HasTextOpt(uri.value.path) then []
                      else SuffixedContexts(JavaSplit(uri.value.path.value, ';'), GetSuffixes(config.format));
      resources[k] == ConfigDataResource(contexts[k].path, contexts[k].profile)
  {
    var uri := match ParseLocation(location) case None => None case Some(u) => Some(parseUri(u));
    consul := LoadProperties(boundAddress, defaultAddress, uri);
    config := LoadConfigProperties(bindings, defaultSettings);
    var contexts := ChooseContexts(uri, automatic, config.format);
    resources := seq(|contexts|, k requires 0 <= k < |contexts| => ConfigDataResource(contexts[k].path, contexts[k].profile));
  }
}
