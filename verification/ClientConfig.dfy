/**
 * The client's tunnels: completing a configuration (cmd/client/config.go) and
 * turning it into the request for the server and the map of dial targets
 * (cmd/client/options.go, streamproxy.go).
 */
module ClientConfig {
  import opened Text
  import opened NetAddr
  import Proto

  /** The fields of a configured tunnel. */
  datatype Fields = Fields(protocol: string, addr: string, remoteAddr: string, subdomain: string)

  datatype TunnelError =
    | AddrMissing
    | BadAddr
    | BadRemoteAddr
    | BadSubdomain(defaulted: bool)
    | RemoteAddrUnsupported
    | InvalidProtocol(protocol: string)

  datatype LoadError = BadTunnel(name: string, error: TunnelError) | SubdomainTaken(other: string, name: string)

  datatype Completion = Completed(fields: Fields) | Failed(error: TunnelError)

  // ------------------------------------------------ what completion computes

  /** The remote address to normalize: the given one, or every interface on the local port. */
  function RemoteOf(addr: string, remoteAddr: string): Option<string> {
    if remoteAddr != "" then Some(remoteAddr)
    else match SplitHostPort(addr)
      case Malformed(_) => None
      case HostPort(_, port) => Some("0.0.0.0:" + port)
  }

  function TcpCompletion(t: Fields): Completion {
    if t.addr == "" then Failed(AddrMissing)
    else match NormalizeAddress(t.addr)
      case None => Failed(BadAddr)
      case Some(addr) =>
        match RemoteOf(addr, t.remoteAddr)
        case None => Failed(BadAddr)
        case Some(remote) => RemoteCompletion(t, addr, NormalizeAddress(remote))
  }

  function RemoteCompletion(t: Fields, addr: string, remote: Option<string>): Completion {
    match remote
    case None => Failed(BadRemoteAddr)
    case Some(r) => Completed(t.(addr := addr, remoteAddr := r))
  }

  function HttpCompletion(t: Fields, name: string): Completion {
    if t.addr == "" then Failed(AddrMissing)
    else match NormalizeAddress(t.addr)
      case None => Failed(BadAddr)
      case Some(addr) =>
        var subdomain := if t.subdomain == "" then name else t.subdomain;
        if !Proto.ValidSubdomainLabel(subdomain) then Failed(BadSubdomain(t.subdomain == ""))
        else if t.remoteAddr != "" then Failed(RemoteAddrUnsupported)
        else Completed(t.(addr := addr, subdomain := subdomain))
  }

  function CompletionOf(name: string, t: Fields): Completion {
    if Proto.IsTcp(t.protocol) then TcpCompletion(t)
    else if t.protocol == Proto.HTTP then HttpCompletion(t, name)
    else Failed(InvalidProtocol(t.protocol))
  }

  type Config = map<string, Fields>

  /** Every tunnel completes on its own, and no two HTTP tunnels end up with one subdomain. */
  ghost predicate Accepts(raw: Config) {
    && (forall name :: name in raw ==> CompletionOf(name, raw[name]).Completed?)
    && (forall a, b :: a in raw && b in raw && a != b && IsHttp(raw[a]) && IsHttp(raw[b]) ==>
          CompletionOf(a, raw[a]).fields.subdomain != CompletionOf(b, raw[b]).fields.subdomain)
  }

  /** Two HTTP tunnels that complete with the same subdomain. */
  ghost predicate Clash(raw: Config, a: string, b: string) {
    && a in raw && b in raw && a != b && IsHttp(raw[a]) && IsHttp(raw[b])
    && CompletionOf(a, raw[a]).Completed? && CompletionOf(b, raw[b]).Completed?
    && CompletionOf(a, raw[a]).fields.subdomain == CompletionOf(b, raw[b]).fields.subdomain
  }

  /** The error names tunnels that are at fault. */
  ghost predicate Blames(raw: Config, error: LoadError) {
    match error
    case BadTunnel(name, e) => name in raw && CompletionOf(name, raw[name]) == Failed(e)
    case SubdomainTaken(other, name) => Clash(raw, other, name)
  }

  predicate IsHttp(t: Fields) { t.protocol == Proto.HTTP }

  ghost function CompletedConfig(raw: Config): Config
    requires Accepts(raw)
  {
    map name | name in raw :: CompletionOf(name, raw[name]).fields
  }

  // --------------------------------------------------------- updating in place

  class Tunnel {
    var protocol: string
    var addr: string
    var remoteAddr: string
    var subdomain: string

    constructor (t: Fields)
      ensures Value() == t
    {
      protocol, addr, remoteAddr, subdomain := t.protocol, t.addr, t.remoteAddr, t.subdomain;
    }

    function Value(): Fields
      reads this
    {
      Fields(protocol, addr, remoteAddr, subdomain)
    }

    /** `completeTCP` */
    method CompleteTcp() returns (error: Option<TunnelError>)
      modifies this
      ensures TcpCompletion(old(Value())) == if error == None then Completed(Value()) else Failed(error.value)
    {
      hide SplitHostPort, NormalizeAddress;
      if addr == "" {
        return Some(AddrMissing);
      }
      var normal := NormalizeAddress(addr);
      if normal == None {
        return Some(BadAddr);
      }
      addr := normal.value;
      if remoteAddr == "" {
        var split := SplitHostPort(addr);
        if split.Malformed? {
          return Some(BadAddr);
        }
        remoteAddr := "0.0.0.0:" + split.port;
      }
      normal := NormalizeAddress(remoteAddr);
      if normal == None {
        return Some(BadRemoteAddr);
      }
      remoteAddr := normal.value;
      return None;
    }

    /** `completeHTTP` */
    method CompleteHttp(name: string) returns (error: Option<TunnelError>)
      modifies this
      ensures HttpCompletion(old(Value()), name) == if error == None then Completed(Value()) else Failed(error.value)
    {
      hide SplitHostPort, NormalizeAddress;
      if addr == "" {
        return Some(AddrMissing);
      }
      var normal := NormalizeAddress(addr);
      if normal == None {
        return Some(BadAddr);
      }
      addr := normal.value;
      var defaulted := false;
      if subdomain == "" {
        subdomain := name;
        defaulted := true;
      }
      if !Proto.ValidSubdomainLabel(subdomain) {
        return Some(BadSubdomain(defaulted));
      }
      if remoteAddr != "" {
        return Some(RemoteAddrUnsupported);
      }
      return None;
    }

    /** The switch on the protocol. */
    method Complete(name: string) returns (error: Option<TunnelError>)
      modifies this
      ensures CompletionOf(name, old(Value())) == if error == None then Completed(Value()) else Failed(error.value)
    {
      hide TcpCompletion, HttpCompletion;
      if Proto.IsTcp(protocol) {
        error := CompleteTcp();
      } else if protocol == Proto.HTTP {
        error := CompleteHttp(name);
      } else {
        error := Some(InvalidProtocol(protocol));
      }
    }
  }

  lemma CompleteKeepsProtocol(name: string, t: Fields)
    requires CompletionOf(name, t).Completed?
    ensures CompletionOf(name, t).fields.protocol == t.protocol
  {
  }

  /** A map of tunnels whose pointers are distinct. */
  ghost predicate Distinct(tunnels: map<string, Tunnel>) {
    forall a, b :: a in tunnels && b in tunnels && tunnels[a] == tunnels[b] ==> a == b
  }

  /** The order in which a map yields its keys: each key, once. */
  ghost predicate IsOrder<V>(order: seq<string>, m: map<string, V>) {
    && (forall k :: 0 <= k < |order| ==> order[k] in m)
    && (forall name :: name in m ==> name in order)
    && (forall j, k :: 0 <= j < k < |order| ==> order[j] != order[k])
  }

  ghost function Values(tunnels: map<string, Tunnel>): Config
    reads tunnels.Values
  {
    map name | name in tunnels :: tunnels[name].Value()
  }

  /** The completion of a prefix of the tunnels, as the loop has it. */
  ghost predicate Progress(raw: Config, order: seq<string>, i: nat, subdomains: map<string, string>)
    requires i <= |order| && forall k :: 0 <= k < |order| ==> order[k] in raw
  {
    && (forall k :: 0 <= k < i ==> CompletionOf(order[k], raw[order[k]]).Completed?)
    && (forall k :: 0 <= k < i && IsHttp(raw[order[k]]) ==>
          Slug(raw, order[k]) in subdomains && subdomains[Slug(raw, order[k])] == order[k])
    && (forall s :: s in subdomains ==>
          subdomains[s] in order[..i] && IsHttp(raw[subdomains[s]]) && Slug(raw, subdomains[s]) == s)
  }

  /** The subdomain that the tunnel completes with. */
  ghost function Slug(raw: Config, name: string): string
    requires name in raw
  {
    match CompletionOf(name, raw[name])
    case Completed(fields) => fields.subdomain
    case Failed(_) => ""
  }

  lemma SlugMeans(raw: Config, name: string)
    requires name in raw && CompletionOf(name, raw[name]).Completed?
    ensures Slug(raw, name) == CompletionOf(name, raw[name]).fields.subdomain
  {
  }

  /** Two HTTP tunnels of the loop so far never share a subdomain, and a clash with the next one refutes the configuration. */
  lemma ProgressMeans(raw: Config, order: seq<string>, i: nat, subdomains: map<string, string>)
    requires IsOrder(order, raw) && i <= |order| && Progress(raw, order, i, subdomains)
    ensures i == |order| ==> Accepts(raw)
    ensures i < |order| && !CompletionOf(order[i], raw[order[i]]).Completed? ==> !Accepts(raw)
    ensures i < |order| && IsHttp(raw[order[i]]) && CompletionOf(order[i], raw[order[i]]).Completed? ==>
              (Slug(raw, order[i]) in subdomains ==> Clash(raw, subdomains[Slug(raw, order[i])], order[i]) && !Accepts(raw))
  {
    hide CompletionOf, IsHttp;
    if i == |order| {
      forall name | name in raw ensures CompletionOf(name, raw[name]).Completed? {
        var k :| 0 <= k < |order| && order[k] == name;
      }
      forall a, b | a in raw && b in raw && a != b && IsHttp(raw[a]) && IsHttp(raw[b])
        ensures CompletionOf(a, raw[a]).fields.subdomain != CompletionOf(b, raw[b]).fields.subdomain
      {
        var j :| 0 <= j < |order| && order[j] == a;
        var k :| 0 <= k < |order| && order[k] == b;
        SlugMeans(raw, a);
        SlugMeans(raw, b);
      }
    } else if IsHttp(raw[order[i]]) && CompletionOf(order[i], raw[order[i]]).Completed? && Slug(raw, order[i]) in subdomains {
      var other := subdomains[Slug(raw, order[i])];
      assert other != order[i];
      assert other in raw;
      SlugMeans(raw, other);
      SlugMeans(raw, order[i]);
    }
  }

  /** One more tunnel completed, and its subdomain entered if it is an HTTP tunnel. */
  lemma ProgressStep(raw: Config, order: seq<string>, i: nat, subdomains: map<string, string>)
    requires IsOrder(order, raw) && i < |order| && Progress(raw, order, i, subdomains)
    requires CompletionOf(order[i], raw[order[i]]).Completed?
    ensures !IsHttp(raw[order[i]]) ==> Progress(raw, order, i + 1, subdomains)
    ensures var s := Slug(raw, order[i]);
            IsHttp(raw[order[i]]) && s !in subdomains ==> Progress(raw, order, i + 1, subdomains[s := order[i]])
  {
    hide CompletionOf, IsHttp, Slug, IsOrder;
    assert order[..i + 1] == order[..i] + [order[i]];
  }

  /**
   * The loop of `loadClientConfigFromFile`. It accepts exactly the acceptable
   * configurations, whatever the order of the map, and completes them in place.
   */
  method CompleteAll(tunnels: map<string, Tunnel>, order: seq<string>) returns (error: Option<LoadError>)
    requires Distinct(tunnels) && IsOrder(order, tunnels)
    modifies tunnels.Values
    ensures error == None <==> Accepts(old(Values(tunnels)))
    ensures error == None ==> Values(tunnels) == CompletedConfig(old(Values(tunnels)))
    ensures error.Some? ==> Blames(old(Values(tunnels)), error.value)
  {
    hide CompletionOf, Accepts, Progress, Slug, Clash;
    ghost var raw := Values(tunnels);
    assert IsOrder(order, raw);
    var subdomains: map<string, string> := map[];
    ProgressNone(raw, order);
    for i := 0 to |order|
      invariant Progress(raw, order, i, subdomains)
      invariant forall k :: 0 <= k < i ==> CompletionOf(order[k], raw[order[k]]) == Completed(tunnels[order[k]].Value())
      invariant forall k :: i <= k < |order| ==> tunnels[order[k]].Value() == raw[order[k]]
    {
      ProgressMeans(raw, order, i, subdomains);
      var name := order[i];
      var t := tunnels[name];
      var failure := t.Complete(name);
      if failure.Some? {
        return Some(BadTunnel(name, failure.value));
      }
      CompleteKeepsProtocol(name, raw[name]);
      SlugMeans(raw, name);
      ProgressStep(raw, order, i, subdomains);
      if t.protocol == Proto.HTTP {
        if t.subdomain in subdomains {
          return Some(SubdomainTaken(subdomains[t.subdomain], name));
        }
        subdomains := subdomains[t.subdomain := name];
      }
    }
    ProgressMeans(raw, order, |order|, subdomains);
    forall name | name in tunnels ensures tunnels[name].Value() == CompletionOf(name, raw[name]).fields {
      var k :| 0 <= k < |order| && order[k] == name;
    }
    return None;
  }

  lemma ProgressNone(raw: Config, order: seq<string>)
    requires IsOrder(order, raw)
    ensures Progress(raw, order, 0, map[])
  {
  }

  // ------------------------------------------- what a completed tunnel is like

  /** A completed TCP tunnel: two addresses with a colon. A completed HTTP tunnel: an address and a valid label. */
  lemma CompletedShape(name: string, t: Fields)
    requires CompletionOf(name, t).Completed?
    ensures var d := CompletionOf(name, t).fields;
            && d.protocol == t.protocol && d.addr != "" && ':' in d.addr
            && (Proto.IsTcp(d.protocol) || d.protocol == Proto.HTTP)
            && (Proto.IsTcp(d.protocol) ==> ':' in d.remoteAddr && NoBrackets(d.remoteAddr))
            && (IsHttp(d) ==> Proto.ValidSubdomainLabel(d.subdomain))
  {
    hide SplitHostPort, NormalizeAddress;
    var _, _ := NormalizedShape(t.addr);
    if Proto.IsTcp(t.protocol) {
      var remote := RemoteOf(NormalizeAddress(t.addr).value, t.remoteAddr).value;
      var host, port := NormalizedShape(remote);
    }
  }

  /**
   * Which tunnels complete: a TCP tunnel whose local address can be normalized,
   * and whose remote address can, or is missing and has a default; an HTTP tunnel
   * without a remote address whose local address can be normalized, and whose
   * subdomain, or its name when it has none, is a valid label.
   */
  lemma CompletesExactly(name: string, t: Fields)
    ensures CompletionOf(name, t).Completed? <==>
            && t.addr != "" && NormalizeAddress(t.addr).Some?
            && (|| (t.protocol in {"tcp", "tcp4", "tcp6"}
                    && if t.remoteAddr != "" then NormalizeAddress(t.remoteAddr).Some? else ':' !in ParsedHost(t.addr))
                || (t.protocol == "http" && t.remoteAddr == ""
                    && Proto.ValidSubdomainLabel(if t.subdomain == "" then name else t.subdomain)))
  {
    hide SplitHostPort, NormalizeAddress, ParsedHost, Proto.ValidSubdomainLabel;
    if Proto.IsTcp(t.protocol) && t.addr != "" && NormalizeAddress(t.addr).Some? && t.remoteAddr == "" {
      DefaultRemote(name, t);
    }
  }

  /** Why a tunnel does not complete: the first objection, in the order in which the fields are looked at. */
  lemma FailsExactly(name: string, t: Fields)
    ensures var tcp, http := t.protocol in {"tcp", "tcp4", "tcp6"}, t.protocol == "http";
            var addr, subdomain := NormalizeAddress(t.addr), if t.subdomain == "" then name else t.subdomain;
            && (!tcp && !http ==> CompletionOf(name, t) == Failed(InvalidProtocol(t.protocol)))
            && ((tcp || http) && t.addr == "" ==> CompletionOf(name, t) == Failed(AddrMissing))
            && ((tcp || http) && t.addr != "" && addr == None ==> CompletionOf(name, t) == Failed(BadAddr))
            && (tcp && t.addr != "" && addr.Some? && t.remoteAddr == "" && SplitHostPort(addr.value).Malformed? ==>
                 CompletionOf(name, t) == Failed(BadAddr))
            && (tcp && t.addr != "" && addr.Some? && t.remoteAddr != "" && NormalizeAddress(t.remoteAddr) == None ==>
                 CompletionOf(name, t) == Failed(BadRemoteAddr))
            && (http && t.addr != "" && addr.Some? && !Proto.ValidSubdomainLabel(subdomain) ==>
                 CompletionOf(name, t) == Failed(BadSubdomain(t.subdomain == "")))
            && (http && t.addr != "" && addr.Some? && Proto.ValidSubdomainLabel(subdomain) && t.remoteAddr != "" ==>
                 CompletionOf(name, t) == Failed(RemoteAddrUnsupported))
  {
    hide SplitHostPort, NormalizeAddress, Proto.ValidSubdomainLabel;
  }

  /** What completion makes of a tunnel: normalized addresses, the name for a missing subdomain, and nothing else. */
  lemma CompletedFields(name: string, t: Fields)
    requires CompletionOf(name, t).Completed?
    ensures var d := CompletionOf(name, t).fields;
            && d.protocol == t.protocol && Some(d.addr) == NormalizeAddress(t.addr)
            && (t.protocol == "http" ==>
                 d == t.(addr := d.addr, subdomain := if t.subdomain == "" then name else t.subdomain))
            && (t.protocol != "http" ==>
                 d == t.(addr := d.addr, remoteAddr := d.remoteAddr)
                 && (t.remoteAddr != "" ==> Some(d.remoteAddr) == NormalizeAddress(t.remoteAddr)))
  {
    hide SplitHostPort, NormalizeAddress, Proto.ValidSubdomainLabel;
  }

  /**
   * A TCP tunnel without a remote address gets the local port on every interface,
   * if and only if its local host has no colon: normalizing drops the brackets of
   * an IPv6 address, and the port can no longer be told apart.
   */
  lemma DefaultRemote(name: string, t: Fields)
    requires Proto.IsTcp(t.protocol) && t.addr != "" && t.remoteAddr == "" && NormalizeAddress(t.addr).Some?
    ensures CompletionOf(name, t).Completed? <==> ':' !in ParsedHost(t.addr)
    ensures CompletionOf(name, t).Completed? ==>
              exists host, port :: Plain(host) && Plain(port) && NormalizeAddress(t.addr) == Some(host + ":" + port)
                && CompletionOf(name, t).fields == t.(addr := host + ":" + port, remoteAddr := "0.0.0.0:" + port)
  {
    hide SplitHostPort, NormalizeAddress, ParsedHost;
    var host, port := NormalizedShape(t.addr);
    if ':' in host {
      ColonHostFails(host, port);
    } else {
      SplitPlain(host, port);
      NormalizeWritten("0.0.0.0", port);
      assert "0.0.0.0:" + port == "0.0.0.0" + ":" + port;
    }
  }

  // ------------------------------------------------- the request for the server

  function WireTunnel(t: Fields): Proto.Tunnel {
    Proto.Tunnel(t.protocol, if t.protocol == Proto.HTTP then t.subdomain else "", t.remoteAddr)
  }

  function WireTunnels(c: Config): map<string, Proto.Tunnel> {
    map name | name in c :: WireTunnel(c[name])
  }

  /** `tunnels`: the request, entry by entry in any order. */
  method BuildRequest(c: Config, order: seq<string>) returns (p: map<string, Proto.Tunnel>)
    requires IsOrder(order, c)
    ensures p == WireTunnels(c)
  {
    p := map[];
    for i := 0 to |order|
      invariant forall name :: name in p <==> name in order[..i]
      invariant forall name :: name in p ==> name in c && p[name] == WireTunnel(c[name])
    {
      assert order[..i + 1] == order[..i] + [order[i]];
      var t := c[order[i]];
      var pt := Proto.Tunnel(t.protocol, "", t.remoteAddr);
      if t.protocol == Proto.HTTP {
        pt := pt.(host := t.subdomain);
      }
      p := p[order[i] := pt];
    }
    assert order[..|order|] == order;
  }

  // ------------------------------------------------------ the map of dial targets

  /** The key under which a tunnel's local address is filed. */
  function DialKey(t: Fields): string {
    if t.protocol == Proto.HTTP then t.subdomain else t.remoteAddr
  }

  predicate IsDialled(t: Fields) {
    Proto.IsTcp(t.protocol) || t.protocol == Proto.HTTP
  }

  /** What filing the tunnels one after the other leaves; a later one overwrites an earlier one. */
  function DialMap(c: Config, order: seq<string>): map<string, string>
    requires forall k :: 0 <= k < |order| ==> order[k] in c
  {
    if order == [] then map[]
    else
      var before := DialMap(c, order[..|order| - 1]);
      var t := c[order[|order| - 1]];
      if IsDialled(t) then before[DialKey(t) := t.addr] else before
  }

  /** `proxy`: builds the map of dial targets. */
  method BuildDialMap(c: Config, order: seq<string>) returns (m: map<string, string>)
    requires IsOrder(order, c)
    ensures m == DialMap(c, order)
  {
    m := map[];
    for i := 0 to |order|
      invariant m == DialMap(c, order[..i])
    {
      assert order[..i + 1][..i] == order[..i];
      var t := c[order[i]];
      if Proto.IsTcp(t.protocol) {
        m := m[t.remoteAddr := t.addr];
      } else if t.protocol == Proto.HTTP {
        m := m[t.subdomain := t.addr];
      }
    }
    assert order[..|order|] == order;
  }

  /** The keys are those of the tunnels filed, and each comes with the address of a tunnel filed under it. */
  lemma {:induction false} DialMapEntry(c: Config, order: seq<string>, key: string)
    requires forall k :: 0 <= k < |order| ==> order[k] in c && IsDialled(c[order[k]])
    ensures key in DialMap(c, order) <==> exists k :: 0 <= k < |order| && DialKey(c[order[k]]) == key
    ensures key in DialMap(c, order) ==>
              exists k :: 0 <= k < |order| && DialKey(c[order[k]]) == key && c[order[k]].addr == DialMap(c, order)[key]
    decreases |order|
  {
    if order != [] {
      var n := |order| - 1;
      DialMapEntry(c, order[..n], key);
      if DialKey(c[order[n]]) != key {
        if key in DialMap(c, order) {
          var k :| 0 <= k < n && DialKey(c[order[..n][k]]) == key && c[order[..n][k]].addr == DialMap(c, order[..n])[key];
          assert order[k] == order[..n][k];
        }
        if k :| 0 <= k < |order| && DialKey(c[order[k]]) == key {
          assert order[..n][k] == order[k];
        }
      }
    }
  }

  /** A tunnel whose key nobody shares is dialled at its own address, whatever the order. */
  lemma DialUnshared(c: Config, order: seq<string>, name: string)
    requires IsOrder(order, c) && name in c
    requires forall other :: other in c ==> IsDialled(c[other])
    requires forall other :: other in c && other != name ==> DialKey(c[other]) != DialKey(c[name])
    ensures DialKey(c[name]) in DialMap(c, order)
    ensures DialMap(c, order)[DialKey(c[name])] == c[name].addr
  {
    var j :| 0 <= j < |order| && order[j] == name;
    DialMapEntry(c, order, DialKey(c[name]));
  }

  function Lookup(m: map<string, string>, key: string): string {
    if key in m then m[key] else ""
  }

  /** `localAddrFor`: the exact key, the port, the wildcard address with the port, the host, the default. */
  function LocalAddrFor(localAddr: string, m: map<string, string>, hostPort: string): string {
    if m == map[] then localAddr
    else if Lookup(m, hostPort) != "" then Lookup(m, hostPort)
    else
      var split := SplitHostPort(hostPort);
      var host := if split.HostPort? then split.host else "";
      var port := if split.HostPort? then split.port else "";
      if Lookup(m, port) != "" then Lookup(m, port)
      else if Lookup(m, "0.0.0.0:" + port) != "" then Lookup(m, "0.0.0.0:" + port)
      else if Lookup(m, host) != "" then Lookup(m, host)
      else localAddr
  }

  /** The first key that leads to an address, or the default. */
  function FirstEntry(m: map<string, string>, keys: seq<string>, default: string): string {
    if keys == [] then default
    else if keys[0] in m && m[keys[0]] != "" then m[keys[0]]
    else FirstEntry(m, keys[1..], default)
  }

  /** The keys that are tried, in this order, for a text that splits and for one that does not. */
  lemma LookupOrder(localAddr: string, m: map<string, string>, hostPort: string)
    ensures forall host, port :: Writes(hostPort, host, port) ==>
              LocalAddrFor(localAddr, m, hostPort) == FirstEntry(m, [hostPort, port, "0.0.0.0:" + port, host], localAddr)
    ensures (forall host, port :: !Writes(hostPort, host, port)) ==>
              LocalAddrFor(localAddr, m, hostPort) == FirstEntry(m, [hostPort, "", "0.0.0.0:", ""], localAddr)
  {
    hide SplitHostPort;
    forall host, port | Writes(hostPort, host, port) ensures SplitHostPort(hostPort) == HostPort(host, port) {
      SplitExactly(hostPort, host, port);
    }
    if SplitHostPort(hostPort).HostPort? {
      SplitExactly(hostPort, SplitHostPort(hostPort).host, SplitHostPort(hostPort).port);
    } else {
      FirstOfFour(m, hostPort, "", "0.0.0.0:", "", localAddr);
      assert "0.0.0.0:" + "" == "0.0.0.0:";
    }
    forall host, port | Writes(hostPort, host, port)
      ensures LocalAddrFor(localAddr, m, hostPort) == FirstEntry(m, [hostPort, port, "0.0.0.0:" + port, host], localAddr)
    {
      FirstOfFour(m, hostPort, port, "0.0.0.0:" + port, host, localAddr);
    }
  }

  lemma FirstOfFour(m: map<string, string>, a: string, b: string, c: string, d: string, default: string)
    ensures FirstEntry(m, [a, b, c, d], default)
         == if a in m && m[a] != "" then m[a] else if b in m && m[b] != "" then m[b]
            else if c in m && m[c] != "" then m[c] else if d in m && m[d] != "" then m[d] else default
  {
    assert [a, b, c, d][1..] == [b, c, d] && [b, c, d][1..] == [c, d] && [c, d][1..] == [d] && [d][1..] == [];
    assert FirstEntry(m, [d], default) == if d in m && m[d] != "" then m[d] else default;
    assert FirstEntry(m, [c, d], default) == if c in m && m[c] != "" then m[c] else FirstEntry(m, [d], default);
    assert FirstEntry(m, [b, c, d], default) == if b in m && m[b] != "" then m[b] else FirstEntry(m, [c, d], default);
  }
}
