# discord-minecraft-status, modelled in Dafny

A Discord bot answers a `/status` command for a Minecraft server. It sends
two probes to the server: a *query*, which returns the software, the player
counts and the full list of player names, and a *ping*, which returns the
version, the description (MOTD), the counts, a sample of player names and a
favicon. While the probes are in flight, and after each one settles, the bot
shows an embed:

- a blue "Querying server at …" embed while neither probe has settled;
- a red error embed when the ping failed and the query has no response;
- otherwise a merged "Server stats:" embed. It is green when both probes
  responded. It is gold when one of them is missing, and then it carries an
  "Incomplete data" field that says which.

To build the merged embed, the bot flattens each response into a dict and
merges the two dicts key by key, each key with its own precedence. It then
drops every falsy entry except `slots-online`. It adds one field per
remaining key, in a fixed order. When the ping carries a favicon, the bot
splits it with the pattern `data:image/(.*);base64,(.*)`: the first group
names the thumbnail attachment, and the favicon string is handed back to
the caller. A truthy server note is appended last.

The model has these modules:

- `Wrappers`: `Option` and `Result`.
- `Decimal`: Python's `str()` of an integer, with its parse-back.
- `PyValues`: the values held in the merged dict, with Python's `bool()`,
  `or` and `str()`.
- `Probes`: the probe outcomes (pending, failed, or responded) and the
  flattening into dicts.
- `Merge`: the merge and the cleanup loop.
- `Favicon`: the regular-expression split, written out as Python's
  `re.match` behaves.
- `Embeds`: the Discord embed, as a class whose fields the methods update
  in place.
- `Status`: `get_query_result_embed`, `get_msg_embed`, the pending and error
  embeds, and `Server.markdown`.
- `Presentation`: properties of what is shown.

`get_query_result_embed` runs step by step on a mutable embed, so it is
modelled as methods. Each method is proved against a specification
function of the two outcomes (`QueryResult`, `MsgEmbedResult`). The
properties of the bot's output are lemmas about those functions.

Three behaviours of the code that the model keeps as they are:

- With the ping failed and the query responded, the code shows "Waiting for
  result of ping...". It tests `ping == dict()` on the flattened ping, which
  is empty for a failed ping, so the "Pinging the server failed" text cannot
  be reached (`Status.NarrativeByOutcome`).
- The address is used as given; no port is split out of it. The port is
  `int(port or 25565)`.
- Under `re.match`, `.` does not match a line break, so both groups of the
  favicon pattern stop at the first line break, and the extension is the
  longest one followed by `;base64,` on that line.

## Model

| member | source | states |
|---|---|---|
| Decimal.NatToString | main.py:31 | the decimal rendering of a natural number is a non-empty string of digits with no leading zero, and is "0" only for 0 |
| Decimal.NatToStringRoundTrip | main.py:31 | reading the digits of the rendering back gives the number |
| Decimal.IntToString | main.py:31 | Python's `str` of an integer starts with '-' exactly when the integer is negative |
| Decimal.IntToStringRoundTrip | main.py:31 | parsing `str(i)` as a decimal gives `i` back, for every integer |
| PyValues.Names | main.py:86 | a list of player names becomes a list value with the same names in the same order |
| Probes.FlattenQuery | main.py:64-71 | the flattened query dict is empty exactly when the query has no response |
| Probes.FlattenPing | main.py:73-77 | the flattened ping dict is empty exactly when the ping has no response |
| Probes.SampleNames | main.py:86 | the names taken from the ping's sample keep its length and order, a missing name staying missing |
| Merge.Collect | main.py:78-86 | the merged dict has an entry for each of the keys it fills, exactly those listed in insertion order |
| Merge.CleanUp | main.py:88-94 | the cleanup keeps exactly the truthy entries and `slots-online`, each with its value unchanged, and adds nothing |
| Merge.MergeData | main.py:78-94 | merging then cleaning yields the cleaned merge of the two flattened dicts |
| Merge.LatencyIsMax | main.py:78 | the latency is the larger of the two, a missing side counting as 0, and is dropped exactly when that is 0 |
| Merge.VersionPrecedence | main.py:79 | the version is the ping's version name when non-empty, else the query's software version; it is absent exactly when both are missing or empty |
| Merge.PluginsFromQuery | main.py:80 | plugins come only from the query and are shown exactly when its list is non-empty |
| Merge.FaviconFromPing | main.py:81 | the favicon is the ping's, kept exactly when non-empty |
| Merge.MotdFromPing | main.py:82 | the MOTD is the ping's description, kept exactly when it is a component object or a non-empty string |
| Merge.SlotsOnlineAlwaysKept | main.py:84-93 | `slots-online` is always present: the query's online count unless it is 0 or missing, else the ping's count, else None |
| Merge.SlotsMaxPrecedence | main.py:85 | `slots-max` is the query's maximum unless 0 or missing, else the ping's, and is absent exactly when both are 0 or missing |
| Merge.PlayersPrecedence | main.py:86 | the players are the query's names when non-empty, else the names of the ping's sample; the entry is absent exactly when both are empty |
| Favicon.MatchInFirstLine | main.py:128 | any match of the pattern lies within the first line after `data:image/` |
| Favicon.ParseFaviconMatches | main.py:128 | a successful split is a match of the pattern with those two groups |
| Favicon.ParseFaviconIsGreedy | main.py:128 | no other match has a longer extension, and none with the same extension has a longer payload |
| Favicon.ParseFaviconIsGreedyMatch | main.py:128-129 | the split succeeds exactly when the pattern matches somewhere, and then it is the greedy match |
| Favicon.ParseDataUri | main.py:172-174 | splitting `data:image/<ext>;base64,<body>` gives back the extension and the payload, for a one-line extension and a base64 payload |
| Embeds.Embed.constructor | main.py:98 | a new embed has the given description and colour, no fields and no thumbnail |
| Embeds.Embed.AddField | main.py:100-101 | adding a field appends it after the existing fields and changes nothing else |
| Embeds.Embed.SetDescription | main.py:54 | setting the description changes only the description |
| Embeds.Embed.SetColour | main.py:125 | setting the colour changes only the colour |
| Embeds.Embed.SetThumbnail | main.py:130 | setting the thumbnail changes only the thumbnail |
| Status.EffectivePort | main.py:156 | the port is never 0: a given non-zero port is kept, and a missing or zero one becomes 25565 |
| Status.Markdown | main.py:30-31 | the server's markdown is the address and the port each in backticks, joined by a colon, and the port part parses back to the port |
| Status.NarrativeByOutcome | main.py:118-123 | the "Incomplete data" text is query failed, else query pending, else ping missing, and none with two responses; the "Pinging the server failed" fallback is never chosen |
| Status.AddFieldIf | main.py:100-101 | the field is appended exactly when the key's test holds, and nothing else changes |
| Status.AddServerFields | main.py:98-107 | the address, latency, version and MOTD fields are appended in that order, each when its key is present |
| Status.AddSlotFields | main.py:109-116 | the slots, plugins and players fields are appended in that order, each when its key is present |
| Status.NewDataEmbed | main.py:98-116 | a new green "Server stats:" embed carries the address field followed by the fields of the present keys |
| Status.AddNarrative | main.py:118-125 | with a narrative, one "Incomplete data" field is appended and the colour turns gold; otherwise nothing changes |
| Status.SetFaviconThumbnail | main.py:127-130 | setting the thumbnail succeeds exactly when there is no favicon or it matches the pattern; a matched favicon's thumbnail names the attachment by the extension |
| Status.MergedEmbed | main.py:57-125 | the merged embed before its thumbnail, and the merged favicon, are those of the specification |
| Status.QueryResultEmbed | main.py:57-132 | `get_query_result_embed` fails exactly when the specification does, and otherwise returns a fresh embed showing the specified view, together with the merged favicon |
| Status.PendingEmbed | main.py:41-42 | the pending embed is blue, with the "Querying server at …" description and no fields |
| Status.ErrorEmbed | main.py:52-55 | the error embed is red, with only the error description |
| Status.MsgEmbed | main.py:135-147 | `get_msg_embed` fails exactly when the specification does, and otherwise returns a fresh embed showing the specified view, together with the favicon |
| Presentation.KeyFieldRank | main.py:100-116 | the field of each rendered key, if present, takes that key's place in the field order |
| Presentation.FieldsThroughInOrder | main.py:98-116 | the data fields appear in the fixed order, each name at most once |
| Presentation.FirstFieldIsAddress | main.py:98 | the first field is always "Server IP" with the server's markdown |
| Presentation.ResultFieldsInOrder | main.py:98-124 | the merged fields are in the fixed order, start with the address and come before any note |
| Presentation.NarrativeFieldLast | main.py:118-124 | the merged fields end with the "Incomplete data" field when there is a narrative, and contain none otherwise |
| Presentation.MsgEmbedFields | main.py:135-147 | the fields shown are those of the chosen embed followed by the note field, if any |
| Presentation.BaseFieldsInOrder | main.py:135-142 | the chosen embed's own fields are in order and rank below the note |
| Presentation.NoteAppended | main.py:145-146 | appending the note keeps the order, and the last field is a note exactly when the note is truthy |
| Presentation.EmbedFieldsInOrder | main.py:98-146 | every embed shown has its fields in the fixed order: address, latency, version, MOTD, slots, plugins, players, incomplete data, note |
| Presentation.SlotsFieldAlwaysShown | main.py:109-110 | every merged embed has the "Slots" field: the online count, a slash, and the maximum or "?" |
| Presentation.IncompleteDataField | main.py:118-124 | the merged embed ends with an "Incomplete data" field exactly when a probe has no response, with the text chosen by the outcomes |
| Presentation.MsgEmbedColour | main.py:135-146 | the colour is blue for the pending embed, red for the error embed and the merged embed's colour otherwise; the note does not change it |
| Presentation.ColourByOutcome | main.py:135-142 | blue exactly while both probes are pending, red exactly when the ping failed without a query response, green exactly with two responses, gold otherwise |
| Presentation.RaisesOnlyOnMalformedFavicon | main.py:127-129 | building the embed raises exactly for a merged embed whose ping favicon is non-empty and does not match the pattern |
| Presentation.MsgEmbedFavicon | main.py:136-142 | the favicon and the thumbnail come from the merged embed only |
| Presentation.FaviconHandedBack | main.py:127-132 | the favicon handed back is the ping's non-empty favicon of a merged embed, and the thumbnail then names the attachment by its extension |
| Presentation.NoteFieldLast | main.py:145-146 | the last field is a "Note" field exactly when the server's note is truthy, and it then holds the note |

## Left out

- The async orchestration of `send_status` (main.py:155-208) is not modelled: the two executor tasks, `asyncio.wait`, deleting and resending the message, and the exception handling that turns a failed probe into `False`. The model takes each probe's outcome as a parameter.
- The network probes (`mcstatus` status and query), the Discord client, the slash-command registration and the token are not modelled.
- The latency is an integer number of milliseconds supplied by the caller. Wall-clock timing, and the `round(…, 2)` of a float, are not modelled. The caller at main.py:185 stores seconds where main.py:194 stores milliseconds; that is part of the orchestration.
- Base64 decoding of the favicon payload and the attachment file (main.py:175-176, main.py:203-204) are not modelled.
- The `modinfo` entry (main.py:83) is not modelled: it is merged and cleaned but never rendered.
- `get_ping_pending_query_embed` (main.py:44-50) is not modelled: nothing calls it.
- The peewee `Model` base classes, `PlayerID`, `Server.mcstatus`, migrations.py and webserver/main.py are not part of this model.
- The payloads are typed records with optional parts. A raw dict whose entries have the wrong shape, and the `AttributeError` Python would raise for it, are not modelled. Neither is a raw `latency` key that overrides the measured one.
- PyValues.Str: a component (dict) description is modelled by its `text` entry alone and rendered as `{'text': '…'}`; its other entries (`extra`, `color`, …), and a component without `text` such as `{'translate': …}`, are not represented, so the MOTD field of such a description shows less than `str()` of the whole dict does.
- Python's `repr` of strings inside lists and dicts uses single quotes with no escaping. Names containing quotes or backslashes would render differently.
- The fallback "Pinging the server failed" text is modelled without its diagnostic suffix, since that branch is unreachable.
- `Server.__init__` always sets the note to `None`. The model lets the note be given, so that the note field can be stated.
- The debug `print` calls and the logging setup are not modelled.
