# Activity leaderboard bot: a Dafny model

This project models the core of a Discord bot that counts what users do and
publishes two leaderboards per guild. The bot counts text messages and
seconds spent in voice channels. It posts one "Messages Leaderboard" and one
"Voice Leaderboard" into channels an administrator picks, and it refreshes
both every ten minutes by editing the posted messages in place.

The model covers these parts of `main.py`:

- **Counter store** (`Stats`): the `user_stats` table as a map from user to
  `(messages, voice_seconds)`, with the upsert that both event handlers
  perform.
- **Voice session tracker** (`Sessions`): `bot.join_times`, a map from the
  text key `"<guild>-<user>"` to the instant of joining. Join, leave and
  "anything else" are its three transitions. Leaving converts a session into
  whole seconds, truncated the way `int(td.total_seconds())` truncates.
- **Leaderboard selection** (`Leaderboard`): `format_leaderboard`. It walks
  rows already sorted by one metric and skips users the guild cannot resolve
  and bots. It numbers at most ten kept users, counting kept users only.
- **Duration text** (`VoiceTime`): `format_voice_time` as `"{d}d {h}h {m}m {s}s"`,
  with an exact decomposition and a parser that reads the text back.
- **Decimal text** (`Decimal`): `str()` and `int()` on the ids the bot keeps
  as text.
- **Bot state and commands** (`Engine`): the class `Bot` holds the counter
  table, the session map, the `settings` table and the `leaderboard_data`
  registry. Its methods are `on_message`, `on_voice_state_update`,
  `/set_chat`, `/set_vc`, `/show_lbs`, `/update`, the body of the
  `update_leaderboards` task, and `update_now_for_guild`.

Discord appears only through a `Platform` value of lookups: does a guild
exist, does a channel exist, how does a user resolve in a guild, and what
does fetching a message give. A send appears as the message id it produced,
or `None` when it raised. Every message the bot posts or edits is returned
as an `Effect`, so "nothing is reposted" can be stated directly.

## Behaviour of `main.py` worth knowing

- Counters are keyed by user alone; the guild of an event is ignored
  (`main.py:18-22`, `main.py:64`), so a user's activity in every guild adds
  up in one row.
- A second join overwrites the open session's start time (`main.py:81-82`).
- Elapsed time is truncated toward zero and is not clamped at zero
  (`main.py:84`, `main.py:88`). A clock that went backwards would subtract
  seconds; `Sessions.VoicePreservesSane` shows that a clock that does not go
  backwards keeps every counter non-negative.
- `update_now_for_guild` gives up when a posted message was deleted and
  does not repost it (`main.py:193-197`). It also does not edit the other
  message in that case.
- `format_voice_time` prints all four units, zeros included (`main.py:259`).
- `on_voice_state_update` has no bot check, so bots' voice time is counted
  (`main.py:73-91`).

## Model

| member | source | states |
|---|---|---|
| `Decimal.NatToString` | main.py:64 | `str()` of a non-negative id (also at main.py:75, 97 and 105): at least one character, all decimal digits, and a leading `0` exactly for zero, so there are no leading zeros |
| `Decimal.IntToString` | main.py:259 | `str()` of any int, as the f-strings at main.py:246 and 259 print it: non-empty, and starting with `-` exactly when the number is negative |
| `Decimal.NatRoundTrip` | main.py:122-123 | `int()` reads back what `str()` wrote for every non-negative id |
| `Decimal.CanonicalNatRoundTrip` | main.py:122-123 | a canonical digit string (no leading zero) reads as a number whose text is that same string |
| `Decimal.IntRoundTrip` | main.py:259 | the printed text of any int, negative included, reads back to that int |
| `VoiceTime.DecomposeExact` | main.py:254-258 | `Decompose`, the four floor divisions: for every total, `d*86400 + h*3600 + m*60 + s == total` with `0 <= h < 24`, `0 <= m < 60`, `0 <= s < 60`; days are non-negative exactly when the total is |
| `VoiceTime.DecomposeUnique` | main.py:254-258 | any canonical (days, hours, minutes, seconds) is what its total decomposes to, so the decomposition is the only one |
| `VoiceTime.FormatVoiceTime` | main.py:254-259 | the text is `DurationText` of a canonical decomposition (hours, minutes and seconds in range), so it always has all four units; it parses back to the seconds it was given |
| `VoiceTime.DurationTextRoundTrip` | main.py:259 | `DurationText`, the f-string: any four fields written as `"{d}d {h}h {m}m {s}s"`, negative numbers included, reads back to the total of those fields |
| `Stats.Upsert` | main.py:86-90 | the insert-or-update adds the user's key; an existing row gains the deltas on both columns, a missing row is created as the deltas themselves; every other user's row is as it was |
| `Stats.MessageCounted` | main.py:61-71 | a human message adds exactly 1 to its author's count and keeps the voice seconds; a first message creates (1, 0); other rows and a bot's message change nothing |
| `Stats.MessageGuildIgnored` | main.py:64-70 | the guild a message comes from does not affect the table |
| `Stats.MessagesAccumulate` | main.py:61-71 | after any run of message events, a user's count has grown by exactly the number of human messages that user sent, and the voice seconds are unchanged |
| `Sessions.SessionKeyRoundTrip` | main.py:75-76 | the key `SessionKey`, `"<guild>-<user>"`, splits back into its guild and user |
| `Sessions.SessionKeyInjective` | main.py:75-76 | two keys are equal exactly when guild and user are both equal, so sessions never collide |
| `Sessions.WholeSeconds` | main.py:84-88 | the credited seconds are the span truncated toward zero: non-negative with `r*10^6 <= span < (r+1)*10^6` for a non-negative span, and symmetric for a negative one |
| `Sessions.JoinOpens` | main.py:81-82 | through `SessionsAfter` and `StatsAfterVoice`, a join sets the key to now, replacing an open session, and leaves the counters unchanged |
| `Sessions.LeaveCloses` | main.py:83-90 | through `SessionsAfter` and `StatsAfterVoice`, a leave that finds its session removes the key, adds exactly the user's key to the table, and adds the elapsed seconds (`ElapsedSeconds`, the span truncated to whole seconds) to the user's voice seconds (creating (0, delta) if absent); messages and other rows are unchanged |
| `Sessions.OtherTransitionsIgnored` | main.py:81-83 | a leave without a session, a channel-to-channel move, or no channel before and after changes neither the tracker nor the table |
| `Sessions.JoinThenLeave` | main.py:81-90 | a join at t1 followed by the matching leave at t2 removes the session and credits exactly `(t2 - t1) / 10^6` whole seconds |
| `Sessions.VoicePreservesSane` | main.py:81-90 | with a clock that does not go backwards, voice events keep every counter non-negative and every open session in the past |
| `Sessions.MessagePreservesSane` | main.py:61-71 | message events keep every counter non-negative |
| `Leaderboard.FormatLeaderboard` | main.py:234-252 | the loop returns `BoardOf`, the board of the first ten accepted rows; it is "No data yet!" exactly when no row is accepted; otherwise it has 1 to 10 lines, line i carries rank emoji i, and each names a resolvable non-bot member |
| `Leaderboard.EligiblePrefix` | main.py:236-251 | the rows accepted from a prefix of the input are a prefix of all accepted rows, so stopping early keeps the first ones |
| `Leaderboard.EligibleMembership` | main.py:238-245 | a row is accepted exactly when it is in the input and its user resolves to a member that is not a bot |
| `Leaderboard.EligibleSorted` | main.py:236-248 | skipping rows keeps the input order: a sorted input gives sorted accepted rows |
| `Leaderboard.RankOfAccepted` | main.py:246-249 | an accepted row with k < 10 accepted rows before it gets line k with rank emoji k and its value `ValueText` (the voice time text or `"<n> messages"`); skipped rows consume no rank |
| `Leaderboard.NoDataWhenAllSkipped` | main.py:252 | the board is "No data yet!" exactly when every row is skipped, an empty input included |
| `Leaderboard.BoardSize` | main.py:247-251 | the board has min(accepted, 10) lines and the `#N` marker never appears |
| `Leaderboard.KeptSorted` | main.py:236-251 | the rows shown are sorted like the input and each is an accepted row of it |
| `Engine.StoredChannelReadable` | main.py:95-98 | a channel stored by `/set_chat` or `/set_vc` reads back as that channel id, and stored settings stay readable |
| `Engine.ReadableNeverInvalid` | main.py:121-129 | with readable settings, `/show_lbs` never answers "Invalid channel IDs" |
| `Engine.ConfiguredDestinations` | main.py:112-127 | once both channels are set, `/show_lbs` passes its checks (`Destinations`, its guard chain) exactly when both channels exist, and it targets the channels that were set |
| `Engine.Tick` | main.py:180-219 | the refresh edits exactly when the guild is registered and the guild, both channels and both messages resolve; then it makes two edits of the registered messages, the message board (`BoardOf` of the message ranking) into the message leaderboard and the voice board into the voice leaderboard; otherwise it does nothing, so it never posts; it reports "not registered" exactly for an unregistered guild, "message deleted" exactly when the first fetch that does not succeed (message board first, then voice board) finds no message, and "raised" exactly when it fails instead; the guard chain itself is `GuardOutcome` |
| `Engine.DeletedMessageNotReposted` | main.py:193-197 | when either posted message is gone, the refresh returns without posting or editing anything |
| `Engine.BoardFromQuery` | main.py:199-200 | a board built from the sorted query shows users of the table with the table's values, in non-increasing order, each a human member |
| `Engine.ThreeMessagesThenVoice` | main.py:61-91 | three messages, then 125 seconds in voice, give the row (3, 125), and the voice text is "0d 0h 2m 5s" |
| `Engine.Bot.constructor` | main.py:38-46 | at process start, the tables and the loaded registry are kept and the session map is empty |
| `Engine.Bot.OnMessage` | main.py:60-71 | `on_message` leaves the table as `AfterMessage` of the old table, and changes nothing else |
| `Engine.Bot.OnVoiceStateUpdate` | main.py:73-91 | `on_voice_state_update` leaves the tracker as `SessionsAfter` and the table as `StatsAfterVoice` of the old state, and changes nothing else |
| `Engine.Bot.SetChat` | main.py:93-99 | `/set_chat` inserts or replaces the guild's message channel as decimal text, and changes nothing else |
| `Engine.Bot.SetVc` | main.py:101-107 | `/set_vc` inserts or replaces the guild's voice channel as decimal text, and changes nothing else |
| `Engine.Bot.ShowLbs` | main.py:109-161 | following `Destinations`: a missing setting, an unreadable id or a missing channel is rejected with no send and no registry change; a failed send leaves the registry unchanged; two successful sends post both boards and set the guild's entry to the sent ids and channels, leaving other guilds' entries unchanged |
| `Engine.Bot.Update` | main.py:163-170 | an unregistered guild is refused with nothing done; otherwise it runs the refresh and fails only if the refresh raised |
| `Engine.Bot.UpdateLeaderboards` | main.py:172-178 | every registered guild is refreshed once, in key order, even after an earlier guild failed; result i is exactly the refresh of guild i, which is never "not registered" |
| `Engine.Bot.UpdateNowForGuild` | main.py:180-219 | the refresh follows `Tick`'s guard chain, and it leaves the registry and every table unchanged (it has no frame to write) |

## Left out

- keep_alive.py: the Flask liveness endpoint on its own thread. It is
  unrelated I/O and concurrency.
- Bot setup, intents, presence, `on_ready` and `tree.sync`
  (`main.py:12-14`, `main.py:48-58`). This is platform plumbing.
- Slash-command registration and the administrator permission checks. The
  commands are modelled as if called by an administrator.
- The reply texts of the commands. Replies are modelled as kinds:
  `Rejected(setup)`, `SendFailed`, `Posted`, `NotPublished`,
  `UpdatedManually`, `CommandFailed`.
- Embeds: titles, colours, author name and icon, the `datetime.now()` footer,
  and the emoji markup. A line carries the index of its rank emoji and the
  user id in place of `member.mention`.
- Counter width. SQLite keeps the two counters as 64-bit signed integers;
  the model's counters are unbounded, so binding a value past 2^63 - 1 (an
  `OverflowError` in Python's `sqlite3`) is not modelled.
- SQLite mechanics. The tables are maps. `ORDER BY ... DESC` is taken as the
  precondition `QueryResult`, and the order among equal values is not
  modelled.
- `user_id` is stored as text in the table. The model keys the table by the
  integer id; `Decimal.NatRoundTrip` shows the conversion loses nothing.
- The JSON save and load of `leaderboard_data`. The registry map is the
  persisted value, and the constructor takes whatever was loaded.
- The ten-minute `tasks.loop` timer and async/await interleaving. Only the
  per-guild loop body is modelled, and concurrent events are not.
- Floating point in `total_seconds()`. Time is an integer number of
  microseconds, and float rounding of spans beyond 2^53 microseconds is not
  modelled.
- `guild.get_member` with its `fetch_member` fallback is one lookup. Any
  failure of the fallback reads as "not resolvable".
- `Decimal.ParseNat`: accepts only ASCII digit strings, while `int()` also
  accepts a sign, surrounding whitespace and underscores. Stored settings are
  only ever written as plain digits by `/set_chat` and `/set_vc`, so the
  difference cannot arise from the bot's own writes.
- `msg_msg.edit` and `vc_msg.edit` raising. Edits are modelled as
  succeeding once both fetches succeeded.
- A command used outside a guild (`interaction.guild` being `None`).
