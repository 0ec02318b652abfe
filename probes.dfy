/**
 * The two probe results the bot combines: a ping (server list status) and a
 * query.  Each probe outcome is Python's `None` (not settled yet), `False`
 * (the probe raised) or the response object.  The raw dicts are given as
 * records whose optional sub-fields are the keys `.get` may find missing.
 */
module Probes {
  import opened Wrappers

  /** `None` | `False` | response object. */
  datatype Outcome<+R> = Pending | Failed | Responded(response: R)

  /** The `software` sub-dict of the query's raw dict. */
  datatype Software = Software(version: Option<string>, plugins: Option<seq<string>>)

  /** The `players` sub-dict of the query's raw dict. */
  datatype QueryPlayers = QueryPlayers(online: Option<int>, max: Option<int>)

  /**
   * A query response: its `latency` attribute, the two sub-dicts of `raw`
   * the bot reads, and the `players.names` attribute.
   */
  datatype QueryResponse = QueryResponse(
    latency: nat,
    software: Option<Software>,
    players: Option<QueryPlayers>,
    names: seq<string>)

  datatype PingVersion = PingVersion(name: Option<string>)

  /** One entry of the ping's `players.sample` list. */
  datatype SampleEntry = SampleEntry(name: Option<string>)

  datatype PingPlayers = PingPlayers(online: Option<int>, max: Option<int>, sample: Option<seq<SampleEntry>>)

  /** The ping's `description`: a plain string or a chat component object. */
  datatype Description = Plain(text: string) | Structured(text: string)

  /** A ping response: its `latency` attribute and the keys of `raw` the bot reads. */
  datatype StatusResponse = StatusResponse(
    latency: nat,
    version: Option<PingVersion>,
    description: Option<Description>,
    players: Option<PingPlayers>,
    favicon: Option<string>)

  /** The query side flattened into a dict: `{'latency': ...}` updated with `raw`. */
  datatype QueryDict = QueryDict(latency: Option<nat>, software: Option<Software>, players: Option<QueryPlayers>) {
    /** The dict equals `{}`. */
    predicate IsEmpty() {
      latency.None? && software.None? && players.None?
    }
  }

  /** The ping side flattened into a dict: `{'latency': ...}` updated with `raw`. */
  datatype PingDict = PingDict(
    latency: Option<nat>,
    version: Option<PingVersion>,
    description: Option<Description>,
    players: Option<PingPlayers>,
    favicon: Option<string>)
  {
    predicate IsEmpty() {
      latency.None? && version.None? && description.None? && players.None? && favicon.None?
    }
  }

  /** A settled, successful query always has a `latency` key, so its dict is never empty. */
  function FlattenQuery(query: Outcome<QueryResponse>): (d: QueryDict)
    ensures d.IsEmpty() <==> !query.Responded?
  {
    match query
    case Responded(r) => QueryDict(Some(r.latency), r.software, r.players)
    case _ => QueryDict(None, None, None)
  }

  /** `query.players.names` for a response, `[]` otherwise. */
  function QueryNames(query: Outcome<QueryResponse>): seq<string> {
    if query.Responded? then query.response.names else []
  }

  /** A successful ping always has a `latency` key, so its dict is never empty. */
  function FlattenPing(ping: Outcome<StatusResponse>): (d: PingDict)
    ensures d.IsEmpty() <==> !ping.Responded?
  {
    match ping
    case Responded(r) => PingDict(Some(r.latency), r.version, r.description, r.players, r.favicon)
    case _ => PingDict(None, None, None, None, None)
  }

  /** `[x.get('name') for x in sample]`. */
  function SampleNames(sample: seq<SampleEntry>): (names: seq<Option<string>>)
    ensures |names| == |sample|
    ensures forall i | 0 <= i < |sample| :: names[i] == sample[i].name
  {
    seq(|sample|, i requires 0 <= i < |sample| => sample[i].name)
  }
}
