/**
 * Tunnel configuration (TunnelConfiguration/PacketTunnelConfiguration.swift):
 * the keys under which configuration travels to the extension, the network
 * settings record, and the settings it builds for the packet tunnel, whose
 * route lists are parsed from comma-separated text and whose DNS servers are
 * the comma-separated pieces of one string.
 */
module NetworkSettings {
  import opened Wrappers
  import opened Text
  import opened IPv4Route

  datatype ConfigurationKey = NetworkSettingsKey | UserConfigurationKey

  function KeyRawValue(key: ConfigurationKey): string {
    match key
    case NetworkSettingsKey => "TMNetworkSettingsConfiguration"
    case UserConfigurationKey => "TMUserConfiguration"
  }

  lemma KeyRawValuesDistinct(k: ConfigurationKey, l: ConfigurationKey)
    ensures KeyRawValue(k) == KeyRawValue(l) <==> k == l
  {
  }

  /** `TMNetworkSettings`: the fields are the init's arguments, `subnet` stored as `tunnelSubnet`. */
  datatype TunnelNetworkSettings = TunnelNetworkSettings(
    tunnelRemoteAddress: string,
    includedRoutes: string,
    excludedRoutes: string,
    tunnelAddress: string,
    tunnelSubnet: string,
    tunnelOverheadBytes: Option<int>,
    dns: string,
    mtu: int)

  /** The tunnel overhead used when the init is not given one. */
  const DefaultTunnelOverheadBytes: Option<int> := Some(4)

  /** The init called without `tunnelOverheadBytes`. */
  function WithDefaultOverhead(tunnelRemoteAddress: string, includedRoutes: string, excludedRoutes: string,
                               tunnelAddress: string, subnet: string, dns: string, mtu: int): (n: TunnelNetworkSettings)
    ensures n.tunnelOverheadBytes == Some(4)
    ensures n == TunnelNetworkSettings(tunnelRemoteAddress, includedRoutes, excludedRoutes,
                                       tunnelAddress, subnet, n.tunnelOverheadBytes, dns, mtu)
  {
    TunnelNetworkSettings(tunnelRemoteAddress, includedRoutes, excludedRoutes,
                          tunnelAddress, subnet, DefaultTunnelOverheadBytes, dns, mtu)
  }

  datatype IPv4Settings = IPv4Settings(
    addresses: seq<string>,
    subnetMasks: seq<string>,
    includedRoutes: seq<Route>,
    excludedRoutes: seq<Route>)

  /** The packet tunnel settings handed to the system. */
  datatype PacketTunnelSettings = PacketTunnelSettings(
    tunnelRemoteAddress: string,
    ipv4Settings: IPv4Settings,
    tunnelOverheadBytes: Option<int>,
    mtu: int,
    dnsServers: seq<string>)

  /*
   * Route lists are parsed with either initializer (`RouteParser`): the
   * source's `parseRoutes` calls the as-written one, so the settings the
   * source builds are those for `AsWritten`; `Corrected` gives the intended
   * settings.
   */

  /** `compactMap`'s output: the present values, in order. */
  function Present(xs: seq<Option<Route>>): (ys: seq<Route>)
    ensures |ys| <= |xs|
    ensures forall y :: y in ys <==> Some(y) in xs
  {
    if xs == [] then [] else (if xs[0].Some? then [xs[0].value] else []) + Present(xs[1..])
  }

  lemma {:induction false} PresentAppend(a: seq<Option<Route>>, b: seq<Option<Route>>)
    ensures Present(a + b) == Present(a) + Present(b)
  {
    if a != [] {
      assert (a + b)[1..] == a[1..] + b;
      PresentAppend(a[1..], b);
    } else {
      assert a + b == b;
    }
  }

  /** What each trimmed piece parses to, in order. */
  function PieceResults(parser: RouteParser, pieces: seq<string>): (results: seq<Option<Route>>)
    ensures |results| == |pieces|
  {
    seq(|pieces|, i requires 0 <= i < |pieces| => RouteOf(parser, Trim(pieces[i])))
  }

  /** The routes of the trimmed pieces that parse, in order. */
  function ParsePieces(parser: RouteParser, pieces: seq<string>): (routes: seq<Route>)
    ensures |routes| <= |pieces|
  {
    Present(PieceResults(parser, pieces))
  }

  /**
   * `parseRoutes`: split on commas dropping empty pieces, trim each piece,
   * keep the pieces that parse as routes. Invalid pieces are dropped silently.
   */
  function ParseRoutes(parser: RouteParser, s: string): (routes: seq<Route>)
    ensures |routes| <= |Split(s, ',')|
  {
    ParsePieces(parser, Split(s, ','))
  }

  /** Every route produced is what some trimmed piece parses to. */
  lemma ParsedRouteOrigin(parser: RouteParser, pieces: seq<string>, r: Route)
    requires r in ParsePieces(parser, pieces)
    ensures exists p :: p in pieces && RouteOf(parser, Trim(p)) == Some(r)
  {
    var results := PieceResults(parser, pieces);
    var i :| 0 <= i < |results| && results[i] == Some(r);
    assert pieces[i] in pieces;
  }

  /** Every piece that parses after trimming contributes its route. */
  lemma ParsedRouteComplete(parser: RouteParser, pieces: seq<string>, p: string)
    requires p in pieces && IsRoute(Trim(p))
    ensures RouteOf(parser, Trim(p)).value in ParsePieces(parser, pieces)
  {
    var i :| 0 <= i < |pieces| && pieces[i] == p;
    assert PieceResults(parser, pieces)[i] == RouteOf(parser, Trim(p));
  }

  /** Every comma-separated piece of the string that is a route after trimming yields its route. */
  lemma ParseRoutesComplete(parser: RouteParser, s: string, p: string)
    requires p in Components(s, ',') && IsRoute(Trim(p))
    ensures RouteOf(parser, Trim(p)).value in ParseRoutes(parser, s)
  {
    ParsedRouteComplete(parser, Split(s, ','), p);
  }

  lemma ParsePiecesAppend(parser: RouteParser, a: seq<string>, b: seq<string>)
    ensures ParsePieces(parser, a + b) == ParsePieces(parser, a) + ParsePieces(parser, b)
  {
    assert PieceResults(parser, a + b) == PieceResults(parser, a) + PieceResults(parser, b);
    PresentAppend(PieceResults(parser, a), PieceResults(parser, b));
  }

  /** Order is kept: the routes of `a,b` are those of `a` followed by those of `b`. */
  lemma ParseRoutesAppend(parser: RouteParser, a: string, b: string)
    ensures ParseRoutes(parser, a + [','] + b) == ParseRoutes(parser, a) + ParseRoutes(parser, b)
  {
    SplitAppend(a, ',', b);
    ParsePiecesAppend(parser, Split(a, ','), Split(b, ','));
  }

  /** A string that is one valid route yields exactly that route. */
  lemma ParseSingleRoute(parser: RouteParser, s: string)
    requires IsRoute(s)
    ensures ParseRoutes(parser, s) == [RouteOf(parser, s).value]
  {
    assert ',' !in s && forall i :: 0 <= i < |s| ==> !IsWhitespace(s[i]) by {
      forall i | 0 <= i < |s| ensures s[i] != ',' && !IsWhitespace(s[i]) {
        RouteChars(s, s[i]);
      }
    }
    ComponentsWithoutSeparator(s, ',');
    assert s != "";
    assert Split(s, ',') == [s];
    TrimWithoutWhitespace(s);
  }

  /** The DNS servers: `dns` split on commas, empty pieces kept and nothing trimmed. */
  function DnsServers(dns: string): (servers: seq<string>)
    ensures |servers| >= 1
    ensures forall i :: 0 <= i < |servers| ==> ',' !in servers[i]
  {
    Components(dns, ',')
  }

  /** The server list joined with commas is the configured string again. */
  lemma DnsServersRoundTrip(dns: string)
    ensures Join(DnsServers(dns), ',') == dns
    ensures ',' !in dns ==> DnsServers(dns) == [dns]
  {
    JoinComponents(dns, ',');
    if ',' !in dns {
      ComponentsWithoutSeparator(dns, ',');
    }
  }

  /** `packetTunnelNetworkSettings`, with its route lists parsed by `parser`. */
  function PacketTunnelNetworkSettings(parser: RouteParser, n: TunnelNetworkSettings): (p: PacketTunnelSettings)
    ensures p.tunnelRemoteAddress == n.tunnelRemoteAddress && p.mtu == n.mtu
    ensures p.ipv4Settings.addresses == [n.tunnelAddress] && p.ipv4Settings.subnetMasks == [n.tunnelSubnet]
    ensures p.tunnelOverheadBytes == n.tunnelOverheadBytes
    ensures p.ipv4Settings.includedRoutes == ParseRoutes(parser, n.includedRoutes)
    ensures p.ipv4Settings.excludedRoutes == ParseRoutes(parser, n.excludedRoutes)
    ensures p.dnsServers == DnsServers(n.dns)
  {
    var ipv4 := IPv4Settings([n.tunnelAddress], [n.tunnelSubnet],
                             ParseRoutes(parser, n.includedRoutes), ParseRoutes(parser, n.excludedRoutes));
    var overhead := match n.tunnelOverheadBytes case Some(bytes) => Some(bytes) case None => None;
    PacketTunnelSettings(n.tunnelRemoteAddress, ipv4, overhead, n.mtu, DnsServers(n.dns))
  }

  /**
   * Settings whose route strings are single valid routes and whose DNS string
   * is a single server carry one included route, one excluded route and that
   * server, along with the given MTU and remote address. As the source builds
   * them, each route's mask is its destination; corrected, it is the text
   * after the colon.
   */
  lemma SingleRouteSettings(parser: RouteParser, n: TunnelNetworkSettings)
    requires IsRoute(n.includedRoutes) && IsRoute(n.excludedRoutes)
    requires ',' !in n.dns
    ensures var p, i, e := PacketTunnelNetworkSettings(parser, n), n.includedRoutes, n.excludedRoutes;
      && (parser == AsWritten ==>
            && p.ipv4Settings.includedRoutes == [Route(AddressGroup(i), AddressGroup(i))]
            && p.ipv4Settings.excludedRoutes == [Route(AddressGroup(e), AddressGroup(e))])
      && (parser == Corrected ==>
            && p.ipv4Settings.includedRoutes == [Route(AddressGroup(i), SubnetGroup(i))]
            && p.ipv4Settings.excludedRoutes == [Route(AddressGroup(e), SubnetGroup(e))])
      && p.dnsServers == [n.dns]
      && p.mtu == n.mtu && p.tunnelRemoteAddress == n.tunnelRemoteAddress
  {
    ParseSingleRoute(parser, n.includedRoutes);
    ParseSingleRoute(parser, n.excludedRoutes);
    DnsServersRoundTrip(n.dns);
  }
}
