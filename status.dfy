/**
 * What the bot shows for one status lookup: the merged embed built from the
 * two probe outcomes, and the three-way choice between the pending embed,
 * the error embed and the merged one.
 */
module Status {
  import opened Wrappers
  import opened Decimal
  import opened PyValues
  import opened Probes
  import opened Merge
  import opened Favicon
  import opened Embeds

  const DEFAULT_PORT: int := 25565

  /** A registered server: its address and an optional note shown under the status. */
  datatype Server = Server(ip: string, port: int, note: Option<string>)

  /** `int(port or 25565)`: a missing or zero port becomes the default. */
  function EffectivePort(port: Option<int>): (p: int)
    ensures p != 0
    ensures port.Some? && port.value != 0 ==> p == port.value
    ensures port.None? || port.value == 0 ==> p == DEFAULT_PORT
  {
    if port.Some? && port.value != 0 then port.value else DEFAULT_PORT
  }

  /**
   * `Server.markdown`: the address and the port each in backticks, joined by
   * a colon; the port part reads back as the port.
   */
  function Markdown(server: Server): (r: string)
    ensures var n := |server.ip|;
      && |r| >= n + 6
      && r[0] == '`' && r[1..n + 1] == server.ip && r[n + 1..n + 4] == "`:`" && r[|r| - 1] == '`'
      && ParseDecimal(r[n + 4..|r| - 1]) == Some(server.port)
  {
    var port := IntToString(server.port);
    IntToStringRoundTrip(server.port);
    var r := "`" + server.ip + "`:`" + port + "`";
    assert r[|server.ip| + 4..|r| - 1] == port;
    r
  }

  /** The four texts of the "Incomplete data" field. */
  datatype Narrative = QueryFailed | WaitingForQuery | WaitingForPing | PingFailed

  function NarrativeText(n: Narrative): string {
    match n
    case QueryFailed => "Querying the server failed, is the query interface not enabled?"
    case WaitingForQuery => "Waiting for result of query..."
    case WaitingForPing => "Waiting for result of ping..."
    case PingFailed => "Pinging the server failed. This should not happen. "
  }

  /**
   * The ordered test for the "Incomplete data" field, on the flattened
   * dicts: no field when both are non-empty, otherwise the first of query
   * failed, query empty, ping empty, and the fallback.
   */
  function IncompleteNarrative(queryFailed: bool, query: QueryDict, ping: PingDict): Option<Narrative> {
    if query.IsEmpty() || ping.IsEmpty() then
      Some(if queryFailed then QueryFailed
           else if query.IsEmpty() then WaitingForQuery
           else if ping.IsEmpty() then WaitingForPing
           else PingFailed)
    else
      None
  }

  /** The narrative for two outcomes that are not both responses: query failed, then query pending, then ping missing. */
  function OutcomeNarrative(query: Outcome<QueryResponse>, ping: Outcome<StatusResponse>): Narrative {
    if query.Failed? then QueryFailed
    else if query.Pending? then WaitingForQuery
    else WaitingForPing
  }

  /**
   * The narrative for two outcomes: none with two responses, otherwise the
   * one `OutcomeNarrative` picks.  A failed ping and a pending one read the
   * same, and the "Pinging the server failed" text is never chosen, because
   * a successful side always carries a latency and so is never empty.
   */
  lemma NarrativeByOutcome(query: Outcome<QueryResponse>, ping: Outcome<StatusResponse>)
    ensures IncompleteNarrative(query.Failed?, FlattenQuery(query), FlattenPing(ping)) ==
      if query.Responded? && ping.Responded? then None else Some(OutcomeNarrative(query, ping))
    ensures IncompleteNarrative(query.Failed?, FlattenQuery(query), FlattenPing(ping)) != Some(PingFailed)
  {
  }

  function Get(data: map<Key, Value>, k: Key, default: Value): Value {
    if k in data then data[k] else default
  }

  /** The "Slots" text: the two counts joined by a slash, a missing one shown as `?`. */
  function SlotsText(data: map<Key, Value>): string {
    Str(Get(data, SlotsOnline, Text("?"))) + "/" + Str(Get(data, SlotsMax, Text("?")))
  }

  /** A one-field list when `present`, else none. */
  function FieldIf(present: bool, f: Field): seq<Field> {
    if present then [f] else []
  }

  /**
   * The field for the `i`-th rendered key of `data`, in the order the
   * fields are added: latency, version, MOTD, slots, plugins, players.
   */
  function KeyField(data: map<Key, Value>, i: nat): seq<Field>
    requires 1 <= i <= 6
  {
    if i == 1 then FieldIf(Latency in data, Field("Request latency", Str(Get(data, Latency, Null)) + " ms", true))
    else if i == 2 then FieldIf(Version in data, Field("Server version", Str(Get(data, Version, Null)), true))
    else if i == 3 then FieldIf(Motd in data, Field("MOTD", Str(Get(data, Motd, Null)), true))
    else if i == 4 then FieldIf(SlotsOnline in data || SlotsMax in data, Field("Slots", SlotsText(data), true))
    else if i == 5 then FieldIf(Plugins in data, Field("Plugins", Str(Get(data, Plugins, Null)), false))
    else FieldIf(Players in data, Field("Players", Str(Get(data, Players, Null)), true))
  }

  /** The "Server IP" field followed by the fields of the first `n` rendered keys. */
  function FieldsThrough(markdown: string, data: map<Key, Value>, n: nat): seq<Field>
    requires n <= 6
  {
    if n == 0 then [Field("Server IP", markdown, false)]
    else FieldsThrough(markdown, data, n - 1) + KeyField(data, n)
  }

  /** The fields shown for the entries of `data`, in the order they are added. */
  function DataFields(markdown: string, data: map<Key, Value>): seq<Field> {
    FieldsThrough(markdown, data, 6)
  }

  function NarrativeFields(narrative: Option<Narrative>): seq<Field> {
    match narrative
    case None => []
    case Some(n) => [Field("Incomplete data", NarrativeText(n), true)]
  }

  /** The fields of the merged embed, in the order they are added. */
  function ResultFields(markdown: string, data: map<Key, Value>, narrative: Option<Narrative>): seq<Field> {
    DataFields(markdown, data) + NarrativeFields(narrative)
  }

  /** Raised when a truthy favicon does not match the data-URI pattern (`res.group` on `None`). */
  datatype Error = FaviconMismatch

  const STATS_DESCRIPTION: string := "Server stats:"

  /** The merged embed before its thumbnail is set: gold with a narrative, green without. */
  function QueryResultView(server: Server, query: Outcome<QueryResponse>, ping: Outcome<StatusResponse>): EmbedView {
    var narrative := IncompleteNarrative(query.Failed?, FlattenQuery(query), FlattenPing(ping));
    EmbedView(Some(STATS_DESCRIPTION), if narrative.Some? then Gold else Green,
              ResultFields(Markdown(server), Data(query, ping), narrative), None)
  }

  /** `data.get('favicon')` after the cleanup. */
  function MergedFavicon(query: Outcome<QueryResponse>, ping: Outcome<StatusResponse>): Option<string> {
    FaviconOf(Data(query, ping))
  }

  /** `data.get('favicon')` on a merged dict. */
  function FaviconOf(data: map<Key, Value>): Option<string> {
    if Favicon in data then Some(Str(data[Favicon])) else None
  }

  /** The thumbnail for a favicon, or the error `res.group` raises when the pattern does not match. */
  function Thumbnail(favicon: Option<string>): Result<Option<string>, Error> {
    match favicon
    case None => Success(None)
    case Some(f) =>
      match ParseFavicon(f)
      case None => Failure(FaviconMismatch)
      case Some((ext, _)) => Success(Some("attachment://favicon." + ext))
  }

  /** The merged embed and the favicon string, or the error the favicon split raises. */
  function QueryResult(server: Server, query: Outcome<QueryResponse>, ping: Outcome<StatusResponse>)
    : Result<(EmbedView, Option<string>), Error>
  {
    WithThumbnail(QueryResultView(server, query, ping), MergedFavicon(query, ping))
  }

  /** The view with the favicon's thumbnail set, and the favicon; or the error of the split. */
  function WithThumbnail(view: EmbedView, favicon: Option<string>): Result<(EmbedView, Option<string>), Error> {
    match Thumbnail(favicon)
    case Failure(e) => Failure(e)
    case Success(thumbnail) => Success((view.(thumbnail := thumbnail), favicon))
  }

  /** `get_query_result_embed`. */
  method QueryResultEmbed(server: Server, query: Outcome<QueryResponse>, ping: Outcome<StatusResponse>)
    returns (r: Result<(Embed, Option<string>), Error>)
    ensures r.Failure? <==> QueryResult(server, query, ping).Failure?
    ensures r.Success? ==>
      && fresh(r.value.0)
      && r.value.0.View() == QueryResult(server, query, ping).value.0
      && r.value.1 == QueryResult(server, query, ping).value.1
  {
    var emb, favicon := MergedEmbed(server, query, ping);
    ghost var spec := WithThumbnail(emb.View(), favicon);
    assert spec == QueryResult(server, query, ping);
    var ok := SetFaviconThumbnail(emb, favicon);
    if !ok {
      return Failure(FaviconMismatch);
    }
    assert emb.View() == spec.value.0;
    r := Success((emb, favicon));
  }

  /** The merged embed before its thumbnail is set, and the merged favicon. */
  method MergedEmbed(server: Server, query: Outcome<QueryResponse>, ping: Outcome<StatusResponse>)
    returns (emb: Embed, favicon: Option<string>)
    ensures fresh(emb)
    ensures emb.View() == QueryResultView(server, query, ping)
    ensures favicon == MergedFavicon(query, ping)
  {
    var queryFailed := query.Failed?;
    var queryDict := FlattenQuery(query);
    var queryNames := QueryNames(query);
    var pingDict := FlattenPing(ping);
    var data := MergeData(queryDict, queryNames, pingDict);
    assert data == Data(query, ping);
    ghost var narrative := IncompleteNarrative(queryFailed, queryDict, pingDict);
    var markdown := Markdown(server);
    emb := NewDataEmbed(markdown, data);
    AddNarrative(emb, queryFailed, queryDict, pingDict);
    assert emb.fields == ResultFields(markdown, data, narrative);
    favicon := FaviconOf(data);
  }

  /** Adds a field to `emb` when `shown` holds, as each `if key in data` block does. */
  method AddFieldIf(emb: Embed, shown: bool, name: string, value: string, inline: bool)
    modifies emb`fields
    ensures emb.fields == old(emb.fields) + FieldIf(shown, Field(name, value, inline))
  {
    if shown {
      emb.AddField(name, value, inline);
    }
  }

  /** A green "Server stats:" embed carrying the fields of `data`. */
  method NewDataEmbed(markdown: string, data: map<Key, Value>) returns (emb: Embed)
    ensures fresh(emb)
    ensures emb.View() == EmbedView(Some(STATS_DESCRIPTION), Green, DataFields(markdown, data), None)
  {
    emb := new Embed(Some(STATS_DESCRIPTION), Green);
    AddServerFields(emb, markdown, data);
    assert emb.fields == FieldsThrough(markdown, data, 3);
    AddSlotFields(emb, data);
    assert emb.fields == FieldsThrough(markdown, data, 5) + KeyField(data, 6);
  }

  /** The "Server IP", "Request latency", "Server version" and "MOTD" fields. */
  method AddServerFields(emb: Embed, markdown: string, data: map<Key, Value>)
    modifies emb`fields
    ensures emb.fields == old(emb.fields) + FieldsThrough(markdown, data, 3)
  {
    ghost var before := emb.fields;
    emb.AddField("Server IP", markdown, false);
    assert emb.fields == before + FieldsThrough(markdown, data, 0);
    AddFieldIf(emb, Latency in data, "Request latency", Str(Get(data, Latency, Null)) + " ms", true);
    assert emb.fields == before + FieldsThrough(markdown, data, 1);
    AddFieldIf(emb, Version in data, "Server version", Str(Get(data, Version, Null)), true);
    assert emb.fields == before + FieldsThrough(markdown, data, 2);
    AddFieldIf(emb, Motd in data, "MOTD", Str(Get(data, Motd, Null)), true);
  }

  /** The "Slots", "Plugins" and "Players" fields. */
  method AddSlotFields(emb: Embed, data: map<Key, Value>)
    modifies emb`fields
    ensures emb.fields == old(emb.fields) + KeyField(data, 4) + KeyField(data, 5) + KeyField(data, 6)
  {
    AddFieldIf(emb, SlotsOnline in data || SlotsMax in data, "Slots", SlotsText(data), true);
    AddFieldIf(emb, Plugins in data, "Plugins", Str(Get(data, Plugins, Null)), false);
    AddFieldIf(emb, Players in data, "Players", Str(Get(data, Players, Null)), true);
  }

  /** The "Incomplete data" field and the gold colour, added when either flattened dict is empty. */
  method AddNarrative(emb: Embed, queryFailed: bool, query: QueryDict, ping: PingDict)
    modifies emb`fields, emb`colour
    ensures emb.fields == old(emb.fields) + NarrativeFields(IncompleteNarrative(queryFailed, query, ping))
    ensures emb.colour == if IncompleteNarrative(queryFailed, query, ping).Some? then Gold else old(emb.colour)
  {
    if query.IsEmpty() || ping.IsEmpty() {
      var desc;
      if queryFailed {
        desc := QueryFailed;
      } else if query.IsEmpty() {
        desc := WaitingForQuery;
      } else if ping.IsEmpty() {
        desc := WaitingForPing;
      } else {
        desc := PingFailed;
      }
      emb.AddField("Incomplete data", NarrativeText(desc), true);
      emb.SetColour(Gold);
    }
  }

  /** `if data.get('favicon')`: split the favicon and point the thumbnail at the attachment. */
  method SetFaviconThumbnail(emb: Embed, favicon: Option<string>) returns (ok: bool)
    modifies emb`thumbnail
    ensures ok <==> Thumbnail(favicon).Success?
    ensures ok && favicon.Some? ==> emb.thumbnail == Thumbnail(favicon).value
    ensures ok && favicon.None? ==> emb.thumbnail == old(emb.thumbnail)
  {
    ok := true;
    if favicon.Some? {
      var res := ParseFavicon(favicon.value);
      if res.None? {
        return false;
      }
      emb.SetThumbnail("attachment://favicon." + res.value.0);
    }
  }

  const ERROR_DESCRIPTION: string := "Server did not respond to ping or query request. Is it offline or overloaded?"

  /** `get_pending_embed`: a blue embed with only a description. */
  function PendingView(server: Server): EmbedView {
    EmbedView(Some("Querying server at " + Markdown(server) + " for information..."), Blue, [], None)
  }

  /** `get_error_embed`: a red embed with only a description. */
  function ErrorView(): EmbedView {
    EmbedView(Some(ERROR_DESCRIPTION), Red, [], None)
  }

  /** A note that is present and non-empty, hence truthy. */
  predicate HasNote(server: Server) {
    server.note.Some? && server.note.value != ""
  }

  /** The "Note" field appended last when the server's note is truthy. */
  function NoteFields(server: Server): seq<Field> {
    if HasNote(server) then [Field("Note", server.note.value, true)] else []
  }

  /** `emb.add_field(name="Note", …)` when the note is truthy. */
  function WithNote(view: EmbedView, server: Server): EmbedView {
    view.(fields := view.fields + NoteFields(server))
  }

  /**
   * `get_msg_embed`: the pending embed while both probes are unsettled, the
   * error embed when the ping failed and the query has no response, the
   * merged embed otherwise; then the note.
   */
  function MsgEmbedResult(server: Server, query: Outcome<QueryResponse>, ping: Outcome<StatusResponse>)
    : Result<(EmbedView, Option<string>), Error>
  {
    if query.Pending? && ping.Pending? then
      Success((WithNote(PendingView(server), server), None))
    else if ping.Failed? && !query.Responded? then
      Success((WithNote(ErrorView(), server), None))
    else
      match QueryResult(server, query, ping)
      case Failure(e) => Failure(e)
      case Success((view, favicon)) => Success((WithNote(view, server), favicon))
  }

  method PendingEmbed(server: Server) returns (emb: Embed)
    ensures fresh(emb) && emb.View() == PendingView(server)
  {
    emb := new Embed(Some("Querying server at " + Markdown(server) + " for information..."), Blue);
  }

  method ErrorEmbed() returns (emb: Embed)
    ensures fresh(emb) && emb.View() == ErrorView()
  {
    emb := new Embed(None, Red);
    emb.SetDescription(ERROR_DESCRIPTION);
  }

  /** `get_msg_embed`. */
  method MsgEmbed(server: Server, query: Outcome<QueryResponse>, ping: Outcome<StatusResponse>)
    returns (r: Result<(Embed, Option<string>), Error>)
    ensures r.Failure? <==> MsgEmbedResult(server, query, ping).Failure?
    ensures r.Success? ==>
      && fresh(r.value.0)
      && r.value.0.View() == MsgEmbedResult(server, query, ping).value.0
      && r.value.1 == MsgEmbedResult(server, query, ping).value.1
  {
    var favicon: Option<string> := None;
    var emb;
    if query.Pending? && ping.Pending? {
      emb := PendingEmbed(server);
    } else if ping.Failed? && !query.Responded? {
      emb := ErrorEmbed();
    } else {
      var res := QueryResultEmbed(server, query, ping);
      if res.Failure? {
        return Failure(res.error);
      }
      emb, favicon := res.value.0, res.value.1;
    }
    if HasNote(server) {
      emb.AddField("Note", server.note.value, true);
    }
    r := Success((emb, favicon));
  }
}
