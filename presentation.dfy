/**
 * Properties of what the bot shows: the order of the embed fields, the
 * fields that are always or conditionally present, and the three-way
 * choice of embed in terms of the two probe outcomes.
 */
module Presentation {
  import opened Wrappers
  import opened PyValues
  import opened Probes
  import opened Merge
  import opened Favicon
  import opened Embeds
  import opened Status

  /** The position of a field name in the fixed order the fields are added in. */
  function Rank(name: string): nat {
    if name == "Server IP" then 0
    else if name == "Request latency" then 1
    else if name == "Server version" then 2
    else if name == "MOTD" then 3
    else if name == "Slots" then 4
    else if name == "Plugins" then 5
    else if name == "Players" then 6
    else if name == "Incomplete data" then 7
    else if name == "Note" then 8
    else 9
  }

  /** The field names come in the fixed order, each at most once. */
  predicate InOrder(fields: seq<Field>) {
    forall i, j | 0 <= i < j < |fields| :: Rank(fields[i].name) < Rank(fields[j].name)
  }

  predicate RanksBelow(fields: seq<Field>, k: nat) {
    forall i | 0 <= i < |fields| :: Rank(fields[i].name) < k
  }

  predicate RanksFrom(fields: seq<Field>, k: nat) {
    forall i | 0 <= i < |fields| :: k <= Rank(fields[i].name)
  }

  lemma AppendInOrder(front: seq<Field>, back: seq<Field>, k: nat)
    requires InOrder(front) && RanksBelow(front, k)
    requires InOrder(back) && RanksFrom(back, k)
    ensures InOrder(front + back)
  {
  }

  /** The field of the `n`-th rendered key, if any, has rank `n`. */
  lemma KeyFieldRank(data: map<Key, Value>, n: nat)
    requires 1 <= n <= 6
    ensures InOrder(KeyField(data, n)) && RanksFrom(KeyField(data, n), n) && RanksBelow(KeyField(data, n), n + 1)
  {
    var k := KeyField(data, n);
    assert |k| <= 1;
    if k != [] {
      if n == 1 {
        assert k[0].name == "Request latency";
      } else if n == 2 {
        assert k[0].name == "Server version";
      } else if n == 3 {
        assert k[0].name == "MOTD";
      } else if n == 4 {
        assert k[0].name == "Slots";
      } else if n == 5 {
        assert k[0].name == "Plugins";
      } else {
        assert k[0].name == "Players";
      }
    }
  }

  lemma {:induction false} FieldsThroughInOrder(markdown: string, data: map<Key, Value>, n: nat)
    requires n <= 6
    ensures InOrder(FieldsThrough(markdown, data, n)) && RanksBelow(FieldsThrough(markdown, data, n), n + 1)
  {
    if n > 0 {
      FieldsThroughInOrder(markdown, data, n - 1);
      KeyFieldRank(data, n);
      AppendInOrder(FieldsThrough(markdown, data, n - 1), KeyField(data, n), n);
    }
  }

  /** The merged embed's fields: the data fields, then the narrative, in the fixed order. */
  lemma ResultFieldsInOrder(markdown: string, data: map<Key, Value>, narrative: Option<Narrative>)
    ensures InOrder(ResultFields(markdown, data, narrative))
    ensures RanksBelow(ResultFields(markdown, data, narrative), 8)
    ensures |ResultFields(markdown, data, narrative)| >= 1
    ensures ResultFields(markdown, data, narrative)[0] == Field("Server IP", markdown, false)
  {
    FieldsThroughInOrder(markdown, data, 6);
    AppendInOrder(DataFields(markdown, data), NarrativeFields(narrative), 7);
    FirstFieldIsAddress(markdown, data, 6);
  }

  lemma {:induction false} FirstFieldIsAddress(markdown: string, data: map<Key, Value>, n: nat)
    requires n <= 6
    ensures |FieldsThrough(markdown, data, n)| >= 1
    ensures FieldsThrough(markdown, data, n)[0] == Field("Server IP", markdown, false)
  {
    if n > 0 {
      FirstFieldIsAddress(markdown, data, n - 1);
    }
  }

  /** The embed is merged unless both probes are pending or the ping failed without a query response. */
  predicate Merged(query: Outcome<QueryResponse>, ping: Outcome<StatusResponse>) {
    !(query.Pending? && ping.Pending?) && !(ping.Failed? && !query.Responded?)
  }

  /** The fields of the embed chosen for two outcomes, before the note. */
  function BaseFields(server: Server, query: Outcome<QueryResponse>, ping: Outcome<StatusResponse>): seq<Field> {
    if Merged(query, ping) then
      ResultFields(Markdown(server), Data(query, ping), IncompleteNarrative(query.Failed?, FlattenQuery(query), FlattenPing(ping)))
    else []
  }

  /** The fields shown are those of the chosen embed followed by the note. */
  lemma MsgEmbedFields(server: Server, query: Outcome<QueryResponse>, ping: Outcome<StatusResponse>)
    requires MsgEmbedResult(server, query, ping).Success?
    ensures MsgEmbedResult(server, query, ping).value.0.fields == BaseFields(server, query, ping) + NoteFields(server)
  {
    if Merged(query, ping) {
      var view := QueryResult(server, query, ping).value.0;
      assert view.fields == QueryResultView(server, query, ping).fields;
      assert MsgEmbedResult(server, query, ping).value.0 == WithNote(view, server);
    }
  }

  /** The chosen embed's own fields are in order and all come before the note. */
  lemma BaseFieldsInOrder(server: Server, query: Outcome<QueryResponse>, ping: Outcome<StatusResponse>)
    ensures InOrder(BaseFields(server, query, ping)) && RanksBelow(BaseFields(server, query, ping), 8)
  {
    if Merged(query, ping) {
      ResultFieldsInOrder(Markdown(server), Data(query, ping), IncompleteNarrative(query.Failed?, FlattenQuery(query), FlattenPing(ping)));
    }
  }
  /** Appending the note keeps the order, and the note is last exactly when it is appended. */
  lemma NoteAppended(base: seq<Field>, server: Server)
    requires InOrder(base) && RanksBelow(base, 8)
    ensures InOrder(base + NoteFields(server))
    ensures var fields := base + NoteFields(server);
      && (HasNote(server) <==> |fields| > 0 && fields[|fields| - 1].name == "Note")
      && (HasNote(server) ==> fields[|fields| - 1] == Field("Note", server.note.value, true))
  {
    AppendInOrder(base, NoteFields(server), 8);
    if !HasNote(server) && |base| > 0 {
      assert Rank(base[|base| - 1].name) < 8;
    }
  }

  /**
   * Every embed the bot shows has its fields in the fixed order Server IP,
   * latency, version, MOTD, slots, plugins, players, incomplete data, note.
   */
  lemma EmbedFieldsInOrder(server: Server, query: Outcome<QueryResponse>, ping: Outcome<StatusResponse>)
    requires MsgEmbedResult(server, query, ping).Success?
    ensures InOrder(MsgEmbedResult(server, query, ping).value.0.fields)
  {
    MsgEmbedFields(server, query, ping);
    BaseFieldsInOrder(server, query, ping);
    NoteAppended(BaseFields(server, query, ping), server);
  }

  /**
   * The "Slots" field is in every merged embed, since `slots-online` is
   * never removed: the online count, a slash, and the maximum or `?`.
   */
  lemma SlotsFieldAlwaysShown(server: Server, query: Outcome<QueryResponse>, ping: Outcome<StatusResponse>)
    ensures var data := Data(query, ping);
      && SlotsOnline in data
      && Field("Slots", Str(data[SlotsOnline]) + "/" + (if SlotsMax in data then Str(data[SlotsMax]) else "?"), true)
         in QueryResultView(server, query, ping).fields
  {
    var data := Data(query, ping);
    var markdown := Markdown(server);
    SlotsOnlineAlwaysKept(query, ping);
    var slots := Field("Slots", Str(data[SlotsOnline]) + "/" + (if SlotsMax in data then Str(data[SlotsMax]) else "?"), true);
    assert KeyField(data, 4) == [slots];
    assert slots in FieldsThrough(markdown, data, 4);
    assert FieldsThrough(markdown, data, 6) == FieldsThrough(markdown, data, 4) + KeyField(data, 5) + KeyField(data, 6);
  }

  /**
   * The merged embed ends with an "Incomplete data" field exactly when one
   * of the probes has no response; its text says the query failed, then
   * that the query, then that the ping is awaited.
   */
  lemma IncompleteDataField(server: Server, query: Outcome<QueryResponse>, ping: Outcome<StatusResponse>)
    ensures var fields := QueryResultView(server, query, ping).fields;
      && (query.Responded? && ping.Responded? ==>
            forall i | 0 <= i < |fields| :: fields[i].name != "Incomplete data")
      && (!(query.Responded? && ping.Responded?) ==>
            fields[|fields| - 1] == Field("Incomplete data", NarrativeText(OutcomeNarrative(query, ping)), true))
  {
    NarrativeByOutcome(query, ping);
    NarrativeFieldLast(Markdown(server), Data(query, ping), IncompleteNarrative(query.Failed?, FlattenQuery(query), FlattenPing(ping)));
  }

  /** The merged fields end with the narrative when there is one, and mention none otherwise. */
  lemma NarrativeFieldLast(markdown: string, data: map<Key, Value>, narrative: Option<Narrative>)
    ensures var fields := ResultFields(markdown, data, narrative);
      && (narrative.None? ==> forall i | 0 <= i < |fields| :: fields[i].name != "Incomplete data")
      && (narrative.Some? ==> fields[|fields| - 1] == Field("Incomplete data", NarrativeText(narrative.value), true))
  {
    FieldsThroughInOrder(markdown, data, 6);
    var fields := ResultFields(markdown, data, narrative);
    if narrative.None? {
      forall i | 0 <= i < |fields| ensures fields[i].name != "Incomplete data" {
        assert Rank(fields[i].name) < 7;
      }
    }
  }

  /**
   * The colour tells the cases apart: blue while both are pending, red when
   * the ping failed and the query has no response, green with both
   * responses, gold for a merged embed with a narrative.
   */
  lemma ColourByOutcome(server: Server, query: Outcome<QueryResponse>, ping: Outcome<StatusResponse>)
    requires MsgEmbedResult(server, query, ping).Success?
    ensures var colour := MsgEmbedResult(server, query, ping).value.0.colour;
      && (colour == Blue <==> query.Pending? && ping.Pending?)
      && (colour == Red <==> ping.Failed? && !query.Responded?)
      && (colour == Green <==> query.Responded? && ping.Responded?)
      && (colour == Gold <==> Merged(query, ping) && !(query.Responded? && ping.Responded?))
  {
    MsgEmbedColour(server, query, ping);
    NarrativeByOutcome(query, ping);
  }

  /** The colour is the chosen embed's: the note does not change it. */
  lemma MsgEmbedColour(server: Server, query: Outcome<QueryResponse>, ping: Outcome<StatusResponse>)
    requires MsgEmbedResult(server, query, ping).Success?
    ensures MsgEmbedResult(server, query, ping).value.0.colour ==
      if query.Pending? && ping.Pending? then Blue
      else if ping.Failed? && !query.Responded? then Red
      else QueryResultView(server, query, ping).colour
  {
    if Merged(query, ping) {
      var view := QueryResult(server, query, ping).value.0;
      assert view.colour == QueryResultView(server, query, ping).colour;
      assert MsgEmbedResult(server, query, ping).value.0 == WithNote(view, server);
    }
  }

  /**
   * Building the embed raises only for a merged embed whose ping carries a
   * non-empty favicon that is not a data URI of an image.
   */
  lemma RaisesOnlyOnMalformedFavicon(server: Server, query: Outcome<QueryResponse>, ping: Outcome<StatusResponse>)
    ensures MsgEmbedResult(server, query, ping).Failure? <==>
      Merged(query, ping) && Filled(ReportedFavicon(ping)) && ParseFavicon(ReportedFavicon(ping).value).None?
  {
    FaviconFromPing(query, ping);
  }

  /**
   * The favicon handed back is the ping's, and only for a merged embed with
   * a non-empty one; the thumbnail then names the attachment by extension.
   */
  lemma FaviconHandedBack(server: Server, query: Outcome<QueryResponse>, ping: Outcome<StatusResponse>)
    requires MsgEmbedResult(server, query, ping).Success?
    ensures var (view, favicon) := MsgEmbedResult(server, query, ping).value;
      && favicon == (if Merged(query, ping) && Filled(ReportedFavicon(ping)) then ReportedFavicon(ping) else None)
      && view.thumbnail == (if favicon.Some? then Some("attachment://favicon." + ParseFavicon(favicon.value).value.0) else None)
  {
    MsgEmbedFavicon(server, query, ping);
    FaviconFromPing(query, ping);
    assert MergedFavicon(query, ping) == if Filled(ReportedFavicon(ping)) then ReportedFavicon(ping) else None;
  }

  /** The favicon and thumbnail are the merged embed's, and absent for the other two. */
  lemma MsgEmbedFavicon(server: Server, query: Outcome<QueryResponse>, ping: Outcome<StatusResponse>)
    requires MsgEmbedResult(server, query, ping).Success?
    ensures MsgEmbedResult(server, query, ping).value.1 == if Merged(query, ping) then MergedFavicon(query, ping) else None
    ensures MsgEmbedResult(server, query, ping).value.0.thumbnail ==
      if Merged(query, ping) then Thumbnail(MergedFavicon(query, ping)).value else None
  {
    if Merged(query, ping) {
      var view := QueryResult(server, query, ping).value.0;
      assert view.thumbnail == Thumbnail(MergedFavicon(query, ping)).value;
      assert MsgEmbedResult(server, query, ping).value.0 == WithNote(view, server);
    }
  }

  /** A "Note" field is added, as the last field, exactly when the server's note is truthy. */
  lemma NoteFieldLast(server: Server, query: Outcome<QueryResponse>, ping: Outcome<StatusResponse>)
    requires MsgEmbedResult(server, query, ping).Success?
    ensures var fields := MsgEmbedResult(server, query, ping).value.0.fields;
      && (HasNote(server) <==> |fields| > 0 && fields[|fields| - 1].name == "Note")
      && (HasNote(server) ==> fields[|fields| - 1] == Field("Note", server.note.value, true))
  {
    MsgEmbedFields(server, query, ping);
    BaseFieldsInOrder(server, query, ping);
    NoteAppended(BaseFields(server, query, ping), server);
  }

}
