/**
 * The merge of the two probe results into the `data` dict: fields picked by
 * fixed precedence rules with Python's `or`, then every falsy entry deleted
 * except `slots-online`.
 */
module Merge {
  import opened Wrappers
  import opened PyValues
  import opened Probes

  /** The keys of `data` (the never-rendered `modinfo` key is not modelled). */
  datatype Key =
    | Latency      // 'latency'
    | Version      // 'version'
    | Plugins      // 'plugins'
    | Favicon      // 'favicon'
    | Motd         // 'motd'
    | SlotsOnline  // 'slots-online'
    | SlotsMax     // 'slots-max'
    | Players      // 'players'

  /** The order in which the keys are inserted, hence the order `for key in data` visits them. */
  const INSERTION_ORDER: seq<Key> := [Latency, Version, Plugins, Favicon, Motd, SlotsOnline, SlotsMax, Players]

  /** Every key is visited by the iteration over `data`. */
  lemma KeyListed(k: Key)
    ensures k in INSERTION_ORDER
  {
    match k
    case Latency => assert INSERTION_ORDER[0] == k;
    case Version => assert INSERTION_ORDER[1] == k;
    case Plugins => assert INSERTION_ORDER[2] == k;
    case Favicon => assert INSERTION_ORDER[3] == k;
    case Motd => assert INSERTION_ORDER[4] == k;
    case SlotsOnline => assert INSERTION_ORDER[5] == k;
    case SlotsMax => assert INSERTION_ORDER[6] == k;
    case Players => assert INSERTION_ORDER[7] == k;
  }

  function Max(a: int, b: int): int {
    if a < b then b else a
  }

  /** `d.get('latency') or 0`. */
  function LatencyOrZero(latency: Option<nat>): nat {
    match latency
    case None => 0
    case Some(l) => l
  }

  /** `ping.get('version', {}).get('name')`. */
  function PingVersionValue(ping: PingDict): Value {
    match ping.version
    case None => Null
    case Some(v) => OptText(v.name)
  }

  /** `query.get('software', {}).get('version')`. */
  function QueryVersionValue(query: QueryDict): Value {
    match query.software
    case None => Null
    case Some(sw) => OptText(sw.version)
  }

  /** `query.get('software', {}).get('plugins', [])`. */
  function QueryPluginsValue(query: QueryDict): Value {
    match query.software
    case None => List([])
    case Some(sw) =>
      match sw.plugins
      case None => List([])
      case Some(plugins) => Names(plugins)
  }

  /** `ping.get('description')`. */
  function PingDescriptionValue(ping: PingDict): Value {
    match ping.description
    case None => Null
    case Some(Plain(s)) => Text(s)
    case Some(Structured(t)) => Chat(t)
  }

  /** `query.get('players', {}).get('online')`, or `.get('max')` when `online` is false. */
  function QueryCountValue(query: QueryDict, online: bool): Value {
    match query.players
    case None => Null
    case Some(pl) => OptNum(if online then pl.online else pl.max)
  }

  /** `ping.get('players', {}).get('online')`, or `.get('max')` when `online` is false. */
  function PingCountValue(ping: PingDict, online: bool): Value {
    match ping.players
    case None => Null
    case Some(pl) => OptNum(if online then pl.online else pl.max)
  }

  /** `[x.get('name') for x in ping.get('players', {}).get('sample', [])]`. */
  function PingSampleValue(ping: PingDict): Value {
    match ping.players
    case None => List([])
    case Some(pl) =>
      match pl.sample
      case None => List([])
      case Some(sample) => List(SampleNames(sample))
  }

  /** The `data` dict as filled key by key, before the cleanup. */
  function Collect(query: QueryDict, queryNames: seq<string>, ping: PingDict): (data: map<Key, Value>)
    ensures forall k :: k in data <==> k in INSERTION_ORDER
  {
    var data := map[
      Latency := Num(Max(LatencyOrZero(query.latency), LatencyOrZero(ping.latency))),
      Version := Or(PingVersionValue(ping), QueryVersionValue(query)),
      Plugins := QueryPluginsValue(query),
      Favicon := OptText(ping.favicon),
      Motd := PingDescriptionValue(ping),
      SlotsOnline := Or(QueryCountValue(query, true), PingCountValue(ping, true)),
      SlotsMax := Or(QueryCountValue(query, false), PingCountValue(ping, false)),
      Players := Or(Names(queryNames), PingSampleValue(ping))
    ];
    assert forall k :: k in data <==> k in INSERTION_ORDER by {
      forall k ensures k in INSERTION_ORDER {
        KeyListed(k);
      }
    }
    data
  }

  /** What survives the cleanup: truthy entries, and `slots-online` whatever its value. */
  function Cleaned(data: map<Key, Value>): map<Key, Value> {
    map k | k in data && (k == SlotsOnline || Truthy(data[k])) :: data[k]
  }

  /**
   * The two cleanup loops: collect the keys whose value is falsy, in
   * iteration order, then delete each of them except `slots-online`.
   */
  method CleanUp(data: map<Key, Value>, order: seq<Key>) returns (kept: map<Key, Value>)
    requires forall k :: k in data <==> k in order
    ensures forall k :: k in kept ==> k in data && kept[k] == data[k]
    ensures forall k :: k in kept && k != SlotsOnline ==> Truthy(kept[k])
    ensures SlotsOnline in data ==> SlotsOnline in kept
    ensures forall k :: k in data && Truthy(data[k]) ==> k in kept
    ensures kept == Cleaned(data)
  {
    var toDelete: seq<Key> := [];
    for i := 0 to |order|
      invariant forall k :: k in toDelete <==> k in order[..i] && !Truthy(data[k])
    {
      var key := order[i];
      if !Truthy(data[key]) {
        toDelete := toDelete + [key];
      }
    }
    assert order[..|order|] == order;
    kept := data;
    for j := 0 to |toDelete|
      invariant forall k :: k in kept <==> k in data && !(k in toDelete[..j] && k != SlotsOnline)
      invariant forall k :: k in kept ==> kept[k] == data[k]
    {
      var key := toDelete[j];
      if key == SlotsOnline {
        continue;
      }
      kept := kept - {key};
    }
    assert toDelete[..|toDelete|] == toDelete;
  }

  /** Fill `data` key by key from the flattened dicts, then clean it up. */
  method MergeData(query: QueryDict, queryNames: seq<string>, ping: PingDict) returns (data: map<Key, Value>)
    ensures data == Cleaned(Collect(query, queryNames, ping))
  {
    data := Collect(query, queryNames, ping);
    data := CleanUp(data, INSERTION_ORDER);
  }

  /** The merged status record for two probe outcomes (the spec of the merge). */
  function Data(query: Outcome<QueryResponse>, ping: Outcome<StatusResponse>): map<Key, Value> {
    Cleaned(Collect(FlattenQuery(query), QueryNames(query), FlattenPing(ping)))
  }

  // What each probe reported, read straight off the outcomes: the reference
  // the precedence lemmas below compare the merged record with.

  /** A string field that is present and non-empty, hence truthy. */
  predicate Filled(o: Option<string>) {
    o.Some? && o.value != ""
  }

  /** A count that is present and non-zero, hence truthy. */
  predicate NonZero(o: Option<int>) {
    o.Some? && o.value != 0
  }

  function QueryLatency(query: Outcome<QueryResponse>): nat {
    if query.Responded? then query.response.latency else 0
  }

  function PingLatency(ping: Outcome<StatusResponse>): nat {
    if ping.Responded? then ping.response.latency else 0
  }

  function ReportedPingVersion(ping: Outcome<StatusResponse>): Option<string> {
    if ping.Responded? && ping.response.version.Some? then ping.response.version.value.name else None
  }

  function ReportedQueryVersion(query: Outcome<QueryResponse>): Option<string> {
    if query.Responded? && query.response.software.Some? then query.response.software.value.version else None
  }

  function ReportedPlugins(query: Outcome<QueryResponse>): seq<string> {
    if query.Responded? && query.response.software.Some? && query.response.software.value.plugins.Some?
    then query.response.software.value.plugins.value
    else []
  }

  function ReportedQueryCount(query: Outcome<QueryResponse>, online: bool): Option<int> {
    if query.Responded? && query.response.players.Some?
    then (if online then query.response.players.value.online else query.response.players.value.max)
    else None
  }

  function ReportedPingCount(ping: Outcome<StatusResponse>, online: bool): Option<int> {
    if ping.Responded? && ping.response.players.Some?
    then (if online then ping.response.players.value.online else ping.response.players.value.max)
    else None
  }

  function ReportedSample(ping: Outcome<StatusResponse>): seq<Option<string>> {
    if ping.Responded? && ping.response.players.Some? && ping.response.players.value.sample.Some?
    then SampleNames(ping.response.players.value.sample.value)
    else []
  }

  function ReportedDescription(ping: Outcome<StatusResponse>): Option<Description> {
    if ping.Responded? then ping.response.description else None
  }

  function ReportedFavicon(ping: Outcome<StatusResponse>): Option<string> {
    if ping.Responded? then ping.response.favicon else None
  }

  /** The merged latency is the larger of the two, a missing side counting as 0; a 0 is dropped. */
  lemma LatencyIsMax(query: Outcome<QueryResponse>, ping: Outcome<StatusResponse>)
    ensures var m := Max(QueryLatency(query), PingLatency(ping));
      && (Latency in Data(query, ping) <==> m != 0)
      && (Latency in Data(query, ping) ==> Data(query, ping)[Latency] == Num(m))
  {
  }

  /** The version is the ping's version name unless that is falsy, then the query's software version. */
  lemma VersionPrecedence(query: Outcome<QueryResponse>, ping: Outcome<StatusResponse>)
    ensures var pv, qv := ReportedPingVersion(ping), ReportedQueryVersion(query);
      && (Version in Data(query, ping) <==> Filled(pv) || Filled(qv))
      && (Version in Data(query, ping) ==> Data(query, ping)[Version] == Text(if Filled(pv) then pv.value else qv.value))
  {
  }

  /** Plugins come from the query only, and only a non-empty list survives. */
  lemma PluginsFromQuery(query: Outcome<QueryResponse>, ping: Outcome<StatusResponse>)
    ensures Plugins in Data(query, ping) <==> ReportedPlugins(query) != []
    ensures Plugins in Data(query, ping) ==> Data(query, ping)[Plugins] == Names(ReportedPlugins(query))
  {
  }

  /** The MOTD is the ping's description, kept when it is a component object or a non-empty string. */
  lemma MotdFromPing(query: Outcome<QueryResponse>, ping: Outcome<StatusResponse>)
    ensures var d := ReportedDescription(ping);
      && (Motd in Data(query, ping) <==> d.Some? && (d.value.Structured? || d.value.text != ""))
      && (Motd in Data(query, ping) ==>
            Data(query, ping)[Motd] == if d.value.Plain? then Text(d.value.text) else Chat(d.value.text))
  {
  }

  /** The favicon is the ping's, kept only when non-empty. */
  lemma FaviconFromPing(query: Outcome<QueryResponse>, ping: Outcome<StatusResponse>)
    ensures Favicon in Data(query, ping) <==> Filled(ReportedFavicon(ping))
    ensures Favicon in Data(query, ping) ==> Data(query, ping)[Favicon] == Text(ReportedFavicon(ping).value)
  {
  }

  /**
   * `slots-online` survives every merge: the query's count unless it is
   * falsy (so a query reporting 0 falls back to the ping), else the ping's
   * count, else `None`.
   */
  lemma SlotsOnlineAlwaysKept(query: Outcome<QueryResponse>, ping: Outcome<StatusResponse>)
    ensures SlotsOnline in Data(query, ping)
    ensures var qc := ReportedQueryCount(query, true);
      Data(query, ping)[SlotsOnline] == if NonZero(qc) then Num(qc.value) else OptNum(ReportedPingCount(ping, true))
  {
  }

  /** `slots-max` is the query's maximum unless falsy, else the ping's, and is dropped when both are falsy. */
  lemma SlotsMaxPrecedence(query: Outcome<QueryResponse>, ping: Outcome<StatusResponse>)
    ensures var qc, pc := ReportedQueryCount(query, false), ReportedPingCount(ping, false);
      && (SlotsMax in Data(query, ping) <==> NonZero(qc) || NonZero(pc))
      && (SlotsMax in Data(query, ping) ==> Data(query, ping)[SlotsMax] == Num(if NonZero(qc) then qc.value else pc.value))
  {
  }

  /**
   * The players are the query's full name list when non-empty, otherwise
   * the names of the ping's sample in order; an empty result is dropped.
   */
  lemma PlayersPrecedence(query: Outcome<QueryResponse>, ping: Outcome<StatusResponse>)
    ensures Players in Data(query, ping) <==> QueryNames(query) != [] || ReportedSample(ping) != []
    ensures Players in Data(query, ping) ==>
      Data(query, ping)[Players] == if QueryNames(query) != [] then Names(QueryNames(query)) else List(ReportedSample(ping))
  {
  }
}
