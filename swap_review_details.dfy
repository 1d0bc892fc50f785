/**
 * The exchange-name helpers and the route list of the swap review screen
 * (src/entries/popup/hooks/swap/useSwapReviewDetails.ts): the icon URL of an
 * exchange, the display name of a protocol, and the `swappingRoute` memo.
 */
module SwapReviewDetails {
  import opened Wrappers
  import opened JsStrings

  const EXCHANGE_ICON_PREFIX := "https://raw.githubusercontent.com/rainbow-me/assets/master/exchanges/"
  const ICON_SUFFIX := ".png"
  const BRIDGE_MARKER := "-bridge"

  // ---------------------------------------------------------------------------
  // getExchangeIconUrl

  /** `getExchangeIconUrl`: no URL for an empty protocol; otherwise its first space removed, lowered, wrapped in the asset path. */
  function ExchangeIconUrl(protocol: string): (r: Option<string>)
    ensures r.None? <==> protocol == ""
    ensures r.Some? ==> EXCHANGE_ICON_PREFIX <= r.value && |r.value| >= |EXCHANGE_ICON_PREFIX| + |ICON_SUFFIX|
    ensures r.Some? ==> r.value[|r.value| - |ICON_SUFFIX|..] == ICON_SUFFIX
  {
    if protocol == "" then None
    else Some(EXCHANGE_ICON_PREFIX + ToLower(ReplaceFirst(protocol, " ", "")) + ICON_SUFFIX)
  }

  /**
   * The icon URL is absent exactly for the empty protocol. A protocol without
   * a space gives the fixed prefix, the lowered protocol, then `.png`;
   * `ExchangeIconUrlWithSpace` covers a protocol with a space.
   */
  lemma ExchangeIconUrlShape(protocol: string)
    ensures ExchangeIconUrl(protocol).None? <==> protocol == ""
    ensures protocol != "" && ' ' !in protocol ==>
      ExchangeIconUrl(protocol) == Some(EXCHANGE_ICON_PREFIX + ToLower(protocol) + ICON_SUFFIX)
  {
    if protocol != "" && ' ' !in protocol {
      IndexOfChar(protocol, ' ');
      IconUrlOfStripped(protocol, protocol);
    }
  }

  /**
   * A protocol whose FIRST space is at `i`: that space is left out, the rest
   * is lowered and wrapped in the prefix and `.png`; later spaces stay.
   */
  lemma ExchangeIconUrlWithSpace(protocol: string, i: int)
    requires 0 <= i < |protocol| && protocol[i] == ' ' && ' ' !in protocol[..i]
    ensures ExchangeIconUrl(protocol) == Some(EXCHANGE_ICON_PREFIX + ToLower(protocol[..i] + protocol[i + 1..]) + ICON_SUFFIX)
  {
    IndexOfChar(protocol, ' ');
    ReplaceFirstWithEmpty(protocol, " ");
    IconUrlOfStripped(protocol, protocol[..i] + protocol[i + 1..]);
  }

  lemma IconUrlOfStripped(protocol: string, stripped: string)
    requires protocol != "" && ReplaceFirst(protocol, " ", "") == stripped
    ensures ExchangeIconUrl(protocol) == Some(EXCHANGE_ICON_PREFIX + ToLower(stripped) + ICON_SUFFIX)
  {
  }

  // ---------------------------------------------------------------------------
  // parseExchangeName

  /** `name.replace('-bridge', '')`: the first `-bridge` removed. */
  function RemoveBridge(name: string): (r: string)
    ensures |r| <= |name|
  {
    ReplaceFirst(name, BRIDGE_MARKER, "")
  }

  /**
   * Without `-bridge` the name is unchanged; otherwise exactly its first
   * occurrence is cut out, and everything after it, later occurrences
   * included, is kept.
   */
  lemma RemoveBridgeCutsFirstOnly(name: string)
    ensures !Includes(name, BRIDGE_MARKER) ==> RemoveBridge(name) == name
    ensures Includes(name, BRIDGE_MARKER) ==> exists i ::
      && OccursAt(name, BRIDGE_MARKER, i)
      && (forall j :: 0 <= j < i ==> !OccursAt(name, BRIDGE_MARKER, j))
      && RemoveBridge(name) == name[..i] + name[i + |BRIDGE_MARKER|..]
  {
    if Includes(name, BRIDGE_MARKER) {
      ReplaceFirstSplits(name, BRIDGE_MARKER, "");
      var i :| OccursAt(name, BRIDGE_MARKER, i) && (forall j :: 0 <= j < i ==> !OccursAt(name, BRIDGE_MARKER, j)) &&
        ReplaceFirst(name, BRIDGE_MARKER, "") == name[..i] + "" + name[i + |BRIDGE_MARKER|..];
      assert name[..i] + "" + name[i + |BRIDGE_MARKER|..] == name[..i] + name[i + |BRIDGE_MARKER|..];
    }
  }

  /** `networks.some((network) => lowerName.includes(network))`, scanning left to right. */
  function SomeNetworkIn(networks: seq<string>, lowerName: string): (r: bool)
    ensures r <==> exists j :: 0 <= j < |networks| && Includes(lowerName, networks[j])
  {
    if networks == [] then false
    else Includes(lowerName, networks[0]) || SomeNetworkIn(networks[1..], lowerName)
  }

  /** `Object.keys(ChainName).map((network) => network.toLowerCase())` */
  function LowerNetworks(chainNameKeys: seq<string>): (r: seq<string>)
    ensures |r| == |chainNameKeys|
    ensures forall j :: 0 <= j < |r| ==> r[j] == ToLower(chainNameKeys[j])
  {
    if chainNameKeys == [] then [] else [ToLower(chainNameKeys[0])] + LowerNetworks(chainNameKeys[1..])
  }

  /** `removeNetworks`: when the lowered name mentions a network, the part after the first `_` (`slice(indexOf('_') + 1)`). */
  function RemoveNetworks(networks: seq<string>, name: string): (r: string)
    ensures |r| <= |name|
    ensures name[|name| - |r|..] == r
  {
    if SomeNetworkIn(networks, ToLower(name)) then name[IndexOf(name, "_") + 1..] else name
  }

  /**
   * `removeNetworks` keeps a name that mentions no network. A name that
   * mentions one loses everything up to and including its first `_`, and the
   * suffix keeps its original case; without `_` the whole name is returned.
   */
  lemma {:induction false} RemoveNetworksCutsAtFirstUnderscore(networks: seq<string>, name: string)
    ensures (forall j :: 0 <= j < |networks| ==> !Includes(ToLower(name), networks[j])) ==>
      RemoveNetworks(networks, name) == name
    ensures '_' !in name ==> RemoveNetworks(networks, name) == name
    ensures (exists j :: 0 <= j < |networks| && Includes(ToLower(name), networks[j])) && '_' in name ==>
      exists p :: name == p + "_" + RemoveNetworks(networks, name) && '_' !in p
  {
    IndexOfChar(name, '_');
    if '_' in name {
      var i := IndexOf(name, "_");
      assert name == name[..i] + "_" + name[i + 1..];
    }
  }

  /** `parseExchangeName`: the first `-bridge` removed, then the network prefix. */
  function ParseExchangeName(chainNameKeys: seq<string>, name: string): (r: string)
    ensures |r| <= |name|
  {
    RemoveNetworks(LowerNetworks(chainNameKeys), RemoveBridge(name))
  }

  // ---------------------------------------------------------------------------
  // The bridges and swappingRoute memos

  datatype Protocol = Protocol(name: string, part: real)
  datatype CrosschainRoute = CrosschainRoute(usedBridgeNames: Option<seq<string>>)

  /** The two quote fields read here; a same-chain quote has no `routes`. */
  datatype Quote = Quote(protocols: Option<seq<Protocol>>, routes: Option<seq<CrosschainRoute>>)

  datatype RouteEntry = RouteEntry(name: string, icon: Option<string>, isBridge: bool, part: real)

  /** `quote?.routes?.[0]?.usedBridgeNames || []` */
  function Bridges(quote: Quote): (r: seq<string>)
    ensures quote.routes.None? || quote.routes.value == [] ==> r == []
    ensures forall x :: x in r <==>
      && quote.routes.Some? && quote.routes.value != []
      && quote.routes.value[0].usedBridgeNames.Some?
      && x in quote.routes.value[0].usedBridgeNames.value
  {
    match quote.routes
    case None => []
    case Some(routes) => if routes == [] then [] else routes[0].usedBridgeNames.GetOr([])
  }

  /** The mapping callback of `swappingRoute`. */
  function ToRouteEntry(chainNameKeys: seq<string>, bridges: seq<string>, p: Protocol): (r: RouteEntry)
    ensures |r.name| <= |p.name|
    ensures r.icon.None? <==> r.name == ""
    ensures r.isBridge <==> p.name in bridges
    ensures r.part == p.part
  {
    RouteEntry(
      ParseExchangeName(chainNameKeys, p.name),
      ExchangeIconUrl(ParseExchangeName(chainNameKeys, p.name)),
      p.name in bridges,
      p.part)
  }

  /** `protocols.map(...)` */
  function RouteEntries(chainNameKeys: seq<string>, bridges: seq<string>, ps: seq<Protocol>): (r: seq<RouteEntry>)
    ensures |r| == |ps|
  {
    if ps == [] then [] else [ToRouteEntry(chainNameKeys, bridges, ps[0])] + RouteEntries(chainNameKeys, bridges, ps[1..])
  }

  /** `swappingRoute`: undefined when the quote has no protocol list. */
  function SwappingRoute(chainNameKeys: seq<string>, quote: Quote): (r: Option<seq<RouteEntry>>)
    ensures r.Some? <==> quote.protocols.Some?
  {
    match quote.protocols
    case None => None
    case Some(ps) => Some(RouteEntries(chainNameKeys, Bridges(quote), ps))
  }

  /**
   * The route has one entry per protocol, in the same order: the entry's name
   * is the parsed protocol name, its icon the icon of that parsed name, its
   * share copied, and it is a bridge exactly when the RAW protocol name is
   * among the first route's bridge names.
   */
  lemma {:induction false} SwappingRouteAt(chainNameKeys: seq<string>, quote: Quote, i: int)
    requires quote.protocols.Some? && 0 <= i < |quote.protocols.value|
    ensures var ps := quote.protocols.value;
      var entries := SwappingRoute(chainNameKeys, quote).value;
      && |entries| == |ps|
      && entries[i].name == ParseExchangeName(chainNameKeys, ps[i].name)
      && entries[i].icon == ExchangeIconUrl(ParseExchangeName(chainNameKeys, ps[i].name))
      && entries[i].part == ps[i].part
      && (entries[i].isBridge <==>
            && quote.routes.Some? && quote.routes.value != []
            && quote.routes.value[0].usedBridgeNames.Some?
            && ps[i].name in quote.routes.value[0].usedBridgeNames.value)
  {
    RouteEntriesAt(chainNameKeys, Bridges(quote), quote.protocols.value, i);
  }

  lemma {:induction false} RouteEntriesAt(chainNameKeys: seq<string>, bridges: seq<string>, ps: seq<Protocol>, i: int)
    requires 0 <= i < |ps|
    ensures RouteEntries(chainNameKeys, bridges, ps)[i] == ToRouteEntry(chainNameKeys, bridges, ps[i])
  {
    if i > 0 {
      RouteEntriesAt(chainNameKeys, bridges, ps[1..], i - 1);
    }
  }

  /** A quote without routes (or with an empty route list) marks no entry as a bridge. */
  lemma NoRoutesNoBridges(chainNameKeys: seq<string>, quote: Quote, i: int)
    requires quote.protocols.Some? && 0 <= i < |quote.protocols.value|
    requires quote.routes.None? || quote.routes.value == []
    ensures !SwappingRoute(chainNameKeys, quote).value[i].isBridge
  {
    SwappingRouteAt(chainNameKeys, quote, i);
  }
}
