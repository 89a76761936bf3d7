/** From a validated configuration to the dialled local address, across client and server. */
module Routing {
  import opened Text
  import opened NetAddr
  import Proto
  import opened Registry
  import opened World
  import opened Tunnels
  import opened ClientConfig
  import Lifecycle
  import Handshakes
  import Sessions
  import Solo

  /** The tunnels that are started: those of an accepted configuration that were asked for. */
  ghost predicate Started(raw: ClientConfig.Config, c: ClientConfig.Config) {
    Accepts(raw) && forall name :: name in c ==> name in raw && c[name] == CompletedConfig(raw)[name]
  }

  lemma StartedShape(raw: ClientConfig.Config, c: ClientConfig.Config, name: string)
    requires Started(raw, c) && name in c
    ensures var d := c[name];
            && d.addr != "" && IsDialled(d) && ':' in d.addr
            && (Proto.IsTcp(d.protocol) ==> ':' in d.remoteAddr && NoBrackets(d.remoteAddr))
            && (IsHttp(d) ==> Proto.ValidSubdomainLabel(d.subdomain))
  {
    hide CompletionOf;
    CompletedShape(name, raw[name]);
  }

  /** Keys of TCP tunnels and keys of HTTP tunnels are never equal, and no two HTTP tunnels share one. */
  lemma KeysApart(raw: ClientConfig.Config, c: ClientConfig.Config, a: string, b: string)
    requires Started(raw, c) && a in c && b in c && a != b && IsHttp(c[a])
    ensures DialKey(c[a]) != DialKey(c[b])
  {
    hide CompletionOf;
    StartedShape(raw, c, a);
    StartedShape(raw, c, b);
    CompletedShape(a, raw[a]);
    CompletedShape(b, raw[b]);
    Proto.LabelIsPlain(c[a].subdomain);
  }

  /** The server's only objection to a completed tunnel is an HTTP tunnel when it has no base domain. */
  lemma ServerAccepts(raw: ClientConfig.Config, c: ClientConfig.Config, base: string, name: string, key: string)
    requires Started(raw, c) && name in c
    ensures Check(base, key, WireTunnels(c)[name]) ==
            if !IsHttp(c[name]) then NeedsListener
            else if base == "" then Refused(NoBaseDomain(key))
            else PublicHost(Proto.FullHost(base, c[name].subdomain))
  {
    hide CompletionOf;
    StartedShape(raw, c, name);
  }

  /**
   * A request built from an accepted configuration succeeds exactly when the
   * server has a base domain if it needs one, every listener opens, the client
   * is subscribed and has no registration, and no host is taken.
   */
  lemma RequestOutcome(raw: ClientConfig.Config, c: ClientConfig.Config, w: State, base: string,
                       offers: seq<Offer>, opens: set<string>, id: Id)
    requires Started(raw, c) && Presents(offers, WireTunnels(c), opens)
    ensures AddTunnelsError(w, base, offers, id) == None <==>
            && (base == "" ==> forall name :: name in c ==> !IsHttp(c[name]))
            && (forall name :: name in c && !IsHttp(c[name]) ==> name in opens)
            && id in w.reg.items && w.reg.items[id].Void?
            && RequestedHosts(base, WireTunnels(c)) !! w.reg.hosts.Keys
  {
    hide AddTunnelsError, Check, CompletionOf, Presents, RequestedHosts, Started;
    OrderIrrelevant(w, base, offers, WireTunnels(c), opens, id);
    forall name | name in c
      ensures TunnelAcceptable(base, name, WireTunnels(c)[name], opens) <==>
              if IsHttp(c[name]) then base != "" else name in opens
    {
      ServerAccepts(raw, c, base, name, name);
    }
    assert RequestAcceptable(base, WireTunnels(c), opens) <==>
           forall name :: name in c ==> if IsHttp(c[name]) then base != "" else name in opens by {
      if RequestAcceptable(base, WireTunnels(c), opens) {
        forall name | name in c ensures if IsHttp(c[name]) then base != "" else name in opens {
          assert name in WireTunnels(c);
          assert TunnelAcceptable(base, name, WireTunnels(c)[name], opens);
        }
      }
    }
  }

  // ---------------------------------------------------------------- HTTP tunnels

  predicate NoCapitals(s: string) {
    forall i :: 0 <= i < |s| ==> !('A' <= s[i] <= 'Z')
  }

  /** A base domain in the form in which incoming hosts are compared with it. */
  predicate IsBaseDomain(base: string) {
    base != "" && Plain(base) && NoCapitals(base)
  }

  /** The host name by which `handleHTTPConn` looks a request up. */
  function RoutedHost(hostHeader: string): string {
    ToLower(TrimPort(hostHeader))
  }

  /** `h` is `name` with some of its small letters as capitals, which stand 32 places before them. */
  predicate SameButCase(h: string, name: string) {
    |h| == |name| && forall i :: 0 <= i < |h| ==> h[i] == name[i] || ('a' <= name[i] <= 'z' && h[i] as int == name[i] as int - 32)
  }

  /** Folding gives `name` for exactly the spellings of `name` in some mix of letter cases, if it has no capitals itself. */
  lemma Folds(h: string, name: string)
    ensures ToLower(h) == name <==> NoCapitals(name) && SameButCase(h, name)
  {
    if NoCapitals(name) && SameButCase(h, name) {
      forall i | 0 <= i < |h| ensures ToLower(h)[i] == name[i] {
        assert !('A' <= name[i] <= 'Z');
      }
    }
    if ToLower(h) == name {
      forall i | 0 <= i < |h|
        ensures !('A' <= name[i] <= 'Z')
        ensures h[i] == name[i] || ('a' <= name[i] <= 'z' && h[i] as int == name[i] as int - 32)
      {
        assert name[i] == LowerChar(h[i]);
      }
    }
  }

  lemma CaseKeepsPlain(h: string, name: string)
    requires SameButCase(h, name) && Plain(name)
    ensures Plain(h)
  {
    forall i | 0 <= i < |h| ensures h[i] != ':' && h[i] != '[' && h[i] != ']' {
      assert name[i] != ':' && name[i] != '[' && name[i] != ']';
    }
  }

  lemma FullHostForm(base: string, slug: string)
    requires IsBaseDomain(base) && Proto.ValidSubdomainLabel(slug)
    ensures var full := Proto.FullHost(base, slug);
            Plain(full) && full != "" && NoCapitals(full) && ToLower(full) == full && TrimPort(full) == full
  {
    var full := Proto.FullHost(base, slug);
    Proto.LabelIsPlain(slug);
    assert full == slug + "." + base;
    Folds(slug, slug);
    Folds(base, base);
    assert ToLower(full) == ToLower(slug) + "." + ToLower(base);
    Folds(full, full);
    TrimPortPlain(full, "");
  }

  /** With or without a port and in any letter case, a request is looked up under the registered name. */
  lemma RoutedHostIs(base: string, slug: string, h: string, port: string)
    requires IsBaseDomain(base) && Proto.ValidSubdomainLabel(slug) && Plain(port)
    requires SameButCase(h, slug + "." + base)
    ensures RoutedHost(h) == slug + "." + base
    ensures RoutedHost(h + ":" + port) == slug + "." + base
  {
    hide SplitHostPort;
    var full := Proto.FullHost(base, slug);
    assert full == slug + "." + base;
    FullHostForm(base, slug);
    CaseKeepsPlain(h, full);
    TrimPortPlain(h, port);
    Folds(h, full);
  }

  /** And no other header is: its host, without the port, spells the name. */
  lemma RoutedExactly(base: string, slug: string, header: string)
    requires IsBaseDomain(base) && Proto.ValidSubdomainLabel(slug)
    ensures RoutedHost(header) == slug + "." + base <==> SameButCase(TrimPort(header), slug + "." + base)
  {
    hide TrimPort;
    FullHostForm(base, slug);
    assert Proto.FullHost(base, slug) == slug + "." + base;
    Folds(TrimPort(header), slug + "." + base);
  }

  predicate IsLowerText(s: string) { ToLower(s) == s }

  lemma LowerTwice(s: string)
    ensures IsLowerText(ToLower(s))
  {
  }

  lemma LowerParts(a: string, b: string)
    ensures IsLowerText(a + b) <==> IsLowerText(a) && IsLowerText(b)
  {
    assert ToLower(a + b) == ToLower(a) + ToLower(b);
    if IsLowerText(a + b) {
      assert ToLower(a) == (a + b)[..|a|] && ToLower(b) == (a + b)[|a|..];
    }
  }

  /** The host part of a lower-case text is in lower case. */
  lemma TrimKeepsLower(s: string)
    requires IsLowerText(s)
    ensures IsLowerText(TrimPort(s))
  {
    hide SplitHostPort, IsLowerText;
    if SplitHostPort(s).HostPort? {
      var HostPort(host, port) := SplitHostPort(s);
      SplitExactly(s, host, port);
      if s == host + ":" + port {
        LowerParts(host + ":", port);
        LowerParts(host, ":");
      } else {
        assert s == (("[" + host) + "]:") + port;
        LowerParts(("[" + host) + "]:", port);
        LowerParts("[" + host, "]:");
        LowerParts("[", host);
      }
    }
  }

  /**
   * Only the incoming host is folded, so the key of a registered name is ever
   * looked up if and only if the base domain is in lower case. The lookup trims
   * the folded host once more.
   */
  lemma BaseMustBeLower(base: string, slug: string)
    requires base != "" && Plain(base) && Proto.ValidSubdomainLabel(slug)
    ensures (exists header :: TrimPort(RoutedHost(header)) == TrimPort(slug + "." + base)) <==> NoCapitals(base)
  {
    hide SplitHostPort;
    var full := Proto.FullHost(base, slug);
    Proto.LabelIsPlain(slug);
    TrimPortPlain(full, "");
    LowerParts(slug + ".", base);
    LowerParts(slug, ".");
    Folds(base, base);
    assert full == slug + "." + base;
    if NoCapitals(base) {
      RoutedHostIs(base, slug, full, "");
      assert TrimPort(RoutedHost(full)) == full;
    } else {
      forall header ensures TrimPort(RoutedHost(header)) != full {
        LowerTwice(TrimPort(header));
        TrimKeepsLower(RoutedHost(header));
      }
    }
  }

  lemma HttpHostOffered(base: string, c: ClientConfig.Config, offers: seq<Offer>, opens: set<string>, name: string)
    requires Presents(offers, WireTunnels(c), opens) && name in c && IsHttp(c[name])
    ensures TrimPort(Proto.FullHost(base, c[name].subdomain)) in Trimmed(OfferedBatch(base, offers).hosts)
  {
    hide TrimPort, OfferedBatch;
    PresentedHosts(base, offers, WireTunnels(c), opens);
    assert name in WireTunnels(c) && WireTunnels(c)[name].host == c[name].subdomain;
  }

  /** Any spelling of the tunnel's public name leads to the client that holds the batch, under the tunnel's slug. */
  lemma RoutedTo(raw: ClientConfig.Config, c: ClientConfig.Config, name: string, base: string, reg: Records, id: Id,
                 offers: seq<Offer>, opens: set<string>, h: string, port: string)
    requires Started(raw, c) && name in c && IsHttp(c[name])
    requires IsBaseDomain(base) && Plain(port) && Indexed(reg)
    requires Presents(offers, WireTunnels(c), opens) && HeldBy(reg, id) == Some(OfferedBatch(base, offers))
    requires SameButCase(h, c[name].subdomain + "." + base)
    ensures forall header :: header == h || header == h + ":" + port ==>
              && Owner(reg, RoutedHost(header)) == Some(id)
              && Proto.SlugFromHost(base, RoutedHost(header)) == c[name].subdomain
  {
    hide CompletionOf, SplitHostPort, OfferedBatch, Presents;
    var slug := c[name].subdomain;
    StartedShape(raw, c, name);
    RoutedHostIs(base, slug, h, port);
    FullHostForm(base, slug);
    HttpHostOffered(base, c, offers, opens, name);
    assert Owns(reg, id, Proto.FullHost(base, slug));
    Proto.SlugOfFullHost(base, slug);
  }

  /** The requests list every tunnel, and nothing else. */
  ghost predicate Lists(asked: seq<Lifecycle.Request>, tunnels: map<string, Proto.Tunnel>) {
    && (forall k :: 0 <= k < |asked| ==> asked[k].name in tunnels && tunnels[asked[k].name] == asked[k].tunnel)
    && (forall name :: name in tunnels ==> exists k :: 0 <= k < |asked| && asked[k].name == name)
  }

  /** The tunnels of a configuration as a handshake brings them, in some order of the map. */
  function AskFor(c: ClientConfig.Config, order: seq<string>): seq<Lifecycle.Request>
    requires forall k :: 0 <= k < |order| ==> order[k] in c
  {
    seq(|order|, k requires 0 <= k < |order| => Lifecycle.Request(order[k], WireTunnel(c[order[k]])))
  }

  /** In every order of the map they list the request. */
  lemma AskForLists(c: ClientConfig.Config, order: seq<string>)
    requires IsOrder(order, c)
    ensures Lists(AskFor(c, order), WireTunnels(c))
  {
    var asked := AskFor(c, order);
    forall name | name in WireTunnels(c) ensures exists k :: 0 <= k < |asked| && asked[k].name == name {
      var k :| 0 <= k < |order| && order[k] == name;
      assert asked[k].name == name;
    }
  }

  /** What the handshake behind a client's registration asked for. */
  function AskedBy(m: Lifecycle.Server, id: Id): seq<Lifecycle.Request> {
    if id in m.origins && m.origins[id].conn in m.requested then m.requested[m.origins[id].conn] else []
  }

  lemma AcceptedPresents(base: string, offers: seq<Offer>, tunnels: map<string, Proto.Tunnel>)
    requires Lists(Solo.Requests(offers), tunnels) && AllAcceptable(base, offers)
    ensures Presents(offers, tunnels, tunnels.Keys)
  {
    var asked := Solo.Requests(offers);
    forall k | 0 <= k < |offers|
      ensures offers[k].name in tunnels && tunnels[offers[k].name] == offers[k].tunnel
      ensures Proto.IsTcp(offers[k].tunnel.protocol) ==> offers[k].listen.Some?
    {
      assert asked[k] == Lifecycle.Request(offers[k].name, offers[k].tunnel);
      assert Acceptable(base, offers[k]);
    }
    forall name | name in tunnels ensures exists k :: 0 <= k < |offers| && offers[k].name == name {
      var k :| 0 <= k < |asked| && asked[k].name == name;
      assert offers[k].name == name;
    }
  }

  /**
   * End to end: in any reachable state of the server, while a client is
   * registered whose handshake asked for the tunnels of its configuration, a
   * request for slug.base in any letter case, with or without a port, is routed
   * to that client under that slug, and the client dials exactly the tunnel's
   * local address, whatever other tunnels it has.
   */
  lemma HttpRouting(raw: ClientConfig.Config, c: ClientConfig.Config, name: string, order: seq<string>,
                    config: World.Config, m: Lifecycle.Server, id: Id, h: string, port: string)
    requires Started(raw, c) && name in c && IsHttp(c[name]) && IsOrder(order, c)
    requires IsBaseDomain(config.baseDomain) && Plain(port)
    requires Lifecycle.Reachable(config, m)
    requires Sessions.Registered(m, id) && Lists(AskedBy(m, id), WireTunnels(c))
    requires SameButCase(h, c[name].subdomain + "." + config.baseDomain)
    ensures forall header :: header == h || header == h + ":" + port ==>
              && Owner(m.w.reg, RoutedHost(header)) == Some(id)
              && Proto.SlugFromHost(config.baseDomain, RoutedHost(header)) == c[name].subdomain
    ensures LocalAddrFor("", DialMap(c, order), c[name].subdomain) == c[name].addr
  {
    hide Lifecycle.Reachable, Started, IsBaseDomain, SameButCase, RoutedHost, Owner, Presents, OfferedBatch, AllAcceptable, Lists;
    var base := config.baseDomain;
    Lifecycle.ReachableInv(config, m);
    Handshakes.ItemIsAskedFor(config, m, id);
    var offers :| Solo.Requests(offers) == AskedBy(m, id) && AllAcceptable(base, offers)
                  && m.w.reg.items[id].reg == OfferedBatch(base, offers);
    AcceptedPresents(base, offers, WireTunnels(c));
    RoutedTo(raw, c, name, base, m.w.reg, id, offers, WireTunnels(c).Keys, h, port);
    HttpDialled(raw, c, name, order);
  }

  /** The moment the server accepts the client's request, that is how it routes. */
  lemma AcceptedRouting(raw: ClientConfig.Config, c: ClientConfig.Config, name: string, w: State, base: string, id: Id,
                        offers: seq<Offer>, opens: set<string>, h: string, port: string)
    requires Started(raw, c) && name in c && IsHttp(c[name])
    requires IsBaseDomain(base) && Plain(port) && Indexed(w.reg)
    requires Presents(offers, WireTunnels(c), opens) && AddTunnelsError(w, base, offers, id) == None
    requires SameButCase(h, c[name].subdomain + "." + base)
    ensures var reg := AfterAddTunnels(w, base, offers, id).reg;
            forall header :: header == h || header == h + ":" + port ==>
              && Owner(reg, RoutedHost(header)) == Some(id)
              && Proto.SlugFromHost(base, RoutedHost(header)) == c[name].subdomain
  {
    hide Started, IsBaseDomain, SameButCase, RoutedHost, Owner, Presents, OfferedBatch, Build, Indexed;
    BuildExactly(base, offers);
    AfterSetIndexed(w.reg, OfferedBatch(base, offers), id);
    RoutedTo(raw, c, name, base, AfterAddTunnels(w, base, offers, id).reg, id, offers, opens, h, port);
  }

  /** An HTTP tunnel's entry in the map of dial targets is its own, whatever the order of the map. */
  lemma HttpEntry(raw: ClientConfig.Config, c: ClientConfig.Config, name: string, order: seq<string>)
    requires Started(raw, c) && name in c && IsHttp(c[name]) && IsOrder(order, c)
    ensures c[name].subdomain in DialMap(c, order) && DialMap(c, order)[c[name].subdomain] == c[name].addr
    ensures c[name].addr != ""
  {
    hide CompletionOf, Started, SplitHostPort, DialMap;
    forall other | other in c ensures IsDialled(c[other]) && (other != name ==> DialKey(c[other]) != DialKey(c[name])) {
      StartedShape(raw, c, other);
      if other != name {
        KeysApart(raw, c, name, other);
      }
    }
    DialUnshared(c, order, name);
    StartedShape(raw, c, name);
  }

  lemma HttpDialled(raw: ClientConfig.Config, c: ClientConfig.Config, name: string, order: seq<string>)
    requires Started(raw, c) && name in c && IsHttp(c[name]) && IsOrder(order, c)
    ensures LocalAddrFor("", DialMap(c, order), c[name].subdomain) == c[name].addr
  {
    hide Started, SplitHostPort, DialMap;
    HttpEntry(raw, c, name, order);
  }

  // ----------------------------------------------------------------- TCP tunnels

  /** A completed TCP tunnel that shares its remote address with no other has its own entry. */
  lemma TcpEntry(raw: ClientConfig.Config, c: ClientConfig.Config, name: string, order: seq<string>)
    requires Started(raw, c) && name in c && Proto.IsTcp(c[name].protocol) && IsOrder(order, c)
    requires forall other :: other in c && other != name && !IsHttp(c[other]) ==> c[other].remoteAddr != c[name].remoteAddr
    ensures c[name].remoteAddr in DialMap(c, order) && DialMap(c, order)[c[name].remoteAddr] == c[name].addr
    ensures c[name].addr != ""
  {
    hide CompletionOf, Started, SplitHostPort, DialMap;
    forall other | other in c ensures IsDialled(c[other]) && (other != name ==> DialKey(c[other]) != DialKey(c[name])) {
      StartedShape(raw, c, other);
      if other != name && IsHttp(c[other]) {
        KeysApart(raw, c, other, name);
      }
    }
    DialUnshared(c, order, name);
    StartedShape(raw, c, name);
  }

  /**
   * The way of a TCP tunnel: the client asks the server to listen at the remote
   * address, and a connection reported with that very address is dialled to the
   * local address, if no other tunnel has the same remote one.
   */
  lemma TcpRouting(raw: ClientConfig.Config, c: ClientConfig.Config, name: string, order: seq<string>)
    requires Started(raw, c) && name in c && Proto.IsTcp(c[name].protocol) && IsOrder(order, c)
    requires forall other :: other in c && other != name && !IsHttp(c[other]) ==> c[other].remoteAddr != c[name].remoteAddr
    ensures name in WireTunnels(c) && WireTunnels(c)[name].addr == c[name].remoteAddr
    ensures LocalAddrFor("", DialMap(c, order), WireTunnels(c)[name].addr) == c[name].addr
  {
    hide Started, SplitHostPort, DialMap;
    TcpEntry(raw, c, name, order);
  }

  /**
   * A connection to the tunnel at 0.0.0.0:P is dialled to the tunnel's local
   * address. Reported as [::]:P it is too, unless an HTTP tunnel has the
   * subdomain P; then it goes to that tunnel.
   */
  lemma WildcardRouting(raw: ClientConfig.Config, c: ClientConfig.Config, name: string, order: seq<string>, port: string)
    requires Started(raw, c) && name in c && Proto.IsTcp(c[name].protocol) && IsOrder(order, c)
    requires c[name].remoteAddr == "0.0.0.0:" + port && Plain(port)
    requires forall other :: other in c && other != name && !IsHttp(c[other]) ==> c[other].remoteAddr != c[name].remoteAddr
    ensures LocalAddrFor("", DialMap(c, order), "0.0.0.0:" + port) == c[name].addr
    ensures (forall other :: other in c && IsHttp(c[other]) ==> c[other].subdomain != port) ==>
              LocalAddrFor("", DialMap(c, order), "[::]:" + port) == c[name].addr
    ensures forall other :: other in c && IsHttp(c[other]) && c[other].subdomain == port ==>
              LocalAddrFor("", DialMap(c, order), "[::]:" + port) == c[other].addr
  {
    hide CompletionOf, Started, SplitHostPort, DialMap;
    TcpEntry(raw, c, name, order);
    assert ("[::]:" + port)[0] == '[';
    BracketedKeyAbsent(raw, c, order, "[::]:" + port);
    PortKey(raw, c, order, port);
    SplitBracketed("::", port);
    assert "[" + "::" + "]:" + port == "[::]:" + port;
    forall other | other in c && IsHttp(c[other]) && c[other].subdomain == port
      ensures LocalAddrFor("", DialMap(c, order), "[::]:" + port) == c[other].addr
    {
      HttpEntry(raw, c, other, order);
    }
  }

  /** No key has a bracket in it: normalizing drops them, and labels have none. */
  lemma BracketedKeyAbsent(raw: ClientConfig.Config, c: ClientConfig.Config, order: seq<string>, key: string)
    requires Started(raw, c) && IsOrder(order, c) && !NoBrackets(key)
    ensures key !in DialMap(c, order)
  {
    hide CompletionOf, Started, DialMap;
    forall other | other in c ensures IsDialled(c[other]) && DialKey(c[other]) != key {
      StartedShape(raw, c, other);
      if IsHttp(c[other]) { Proto.LabelIsPlain(c[other].subdomain); }
    }
    DialMapEntry(c, order, key);
  }

  /** A key without a colon is a subdomain; it comes with the address of the tunnel that has it. */
  lemma PortKey(raw: ClientConfig.Config, c: ClientConfig.Config, order: seq<string>, port: string)
    requires Started(raw, c) && IsOrder(order, c) && ':' !in port
    ensures port in DialMap(c, order) <==> exists other :: other in c && IsHttp(c[other]) && c[other].subdomain == port
    ensures port in DialMap(c, order) ==> DialMap(c, order)[port] != ""
  {
    hide CompletionOf, Started, DialMap;
    forall other | other in c ensures IsDialled(c[other]) && c[other].addr != "" && (!IsHttp(c[other]) ==> DialKey(c[other]) != port) {
      StartedShape(raw, c, other);
    }
    DialMapEntry(c, order, port);
    if port in DialMap(c, order) {
      var k :| 0 <= k < |order| && DialKey(c[order[k]]) == port && c[order[k]].addr == DialMap(c, order)[port];
      assert order[k] in c;
    }
    if other :| other in c && IsHttp(c[other]) && c[other].subdomain == port {
      var k :| 0 <= k < |order| && order[k] == other;
      assert DialKey(c[order[k]]) == port;
    }
  }

  // ------------------------------------------------- a subdomain like a port

  const SSH := Fields(Proto.TCP, "127.0.0.1:22", "0.0.0.0:8080", "")
  const WEB := Fields(Proto.HTTP, "127.0.0.1:80", "", "8080")

  /** A TCP tunnel on port 8080 beside an HTTP tunnel with the subdomain 8080. */
  function Colliding(): ClientConfig.Config { map["ssh" := SSH, "web" := WEB] }

  lemma SshCompletes()
    ensures CompletionOf("ssh", SSH) == Completed(SSH)
  {
    hide NormalizeAddress;
    NormalizeWritten("127.0.0.1", "22");
    NormalizeWritten("0.0.0.0", "8080");
    assert "127.0.0.1" + ":" + "22" == SSH.addr && "0.0.0.0" + ":" + "8080" == SSH.remoteAddr;
  }

  lemma WebCompletes()
    ensures CompletionOf("web", WEB) == Completed(WEB)
  {
    hide NormalizeAddress;
    NormalizeWritten("127.0.0.1", "80");
    assert "127.0.0.1" + ":" + "80" == WEB.addr;
  }

  lemma CollidingAccepted()
    ensures Started(Colliding(), Colliding())
  {
    hide CompletionOf;
    SshCompletes();
    WebCompletes();
  }

  /** An accepted configuration of which a connection to the TCP tunnel is dialled to the HTTP tunnel. */
  lemma MisdialledExample()
    ensures Started(Colliding(), Colliding()) && IsOrder(["ssh", "web"], Colliding())
    ensures LocalAddrFor("", DialMap(Colliding(), ["ssh", "web"]), "0.0.0.0:8080") == SSH.addr
    ensures LocalAddrFor("", DialMap(Colliding(), ["ssh", "web"]), "[::]:8080") == WEB.addr != SSH.addr
  {
    hide Started, DialMap, SplitHostPort;
    var c, order := Colliding(), ["ssh", "web"];
    CollidingAccepted();
    assert order[0] == "ssh" && order[1] == "web";
    assert IsOrder(order, c);
    assert "0.0.0.0:" + "8080" == SSH.remoteAddr && "[::]:" + "8080" == "[::]:8080";
    WildcardRouting(c, c, "ssh", order, "8080");
    assert IsHttp(c["web"]) && c["web"].subdomain == "8080";
  }
}
