/**
 * The `user_stats` table: one row per user with a message count and a
 * number of voice seconds. The table is keyed by user alone; the guild an
 * event comes from plays no part in which row it updates.
 */
module Stats {
  import opened Common

  /**
   * A row's two counters. SQLite stores them as 64-bit signed integers; the
   * model leaves them unbounded and does not model the overflow past 2^63 - 1.
   */
  datatype Stat = Stat(messages: int, voiceSeconds: int)

  type StatTable = map<UserId, Stat>

  /** The row of `user`, or the column defaults (0, 0) when there is none. */
  function RowOf(stats: StatTable, user: UserId): Stat {
    if user in stats then stats[user] else Stat(0, 0)
  }

  /**
   * The upsert both handlers perform: add to the existing row, or create it
   * with the deltas over the column defaults.
   */
  function Upsert(stats: StatTable, user: UserId, dMessages: int, dVoice: int): (r: StatTable)
    ensures r.Keys == stats.Keys + {user}
    ensures user in stats ==> r[user] == Stat(stats[user].messages + dMessages, stats[user].voiceSeconds + dVoice)
    ensures user !in stats ==> r[user] == Stat(dMessages, dVoice)
    ensures forall v :: v != user ==> RowOf(r, v) == RowOf(stats, v)
  {
    stats[user := Stat(RowOf(stats, user).messages + dMessages, RowOf(stats, user).voiceSeconds + dVoice)]
  }

  /** What `on_message` sees of a message; the guild is carried but not used. */
  datatype MessageEvent = MessageEvent(author: UserId, authorIsBot: bool, guild: GuildId)

  /** The table after `on_message`. */
  function AfterMessage(stats: StatTable, ev: MessageEvent): StatTable {
    if ev.authorIsBot then stats else Upsert(stats, ev.author, 1, 0)
  }

  /**
   * One human message adds exactly one to its author's count and nothing
   * else; a first message creates the row (1, 0); a bot's message changes
   * nothing.
   */
  lemma MessageCounted(stats: StatTable, ev: MessageEvent)
    ensures ev.authorIsBot ==> AfterMessage(stats, ev) == stats
    ensures !ev.authorIsBot ==>
      && ev.author in AfterMessage(stats, ev)
      && AfterMessage(stats, ev)[ev.author]
         == Stat(RowOf(stats, ev.author).messages + 1, RowOf(stats, ev.author).voiceSeconds)
      && (ev.author !in stats ==> AfterMessage(stats, ev)[ev.author] == Stat(1, 0))
      && AfterMessage(stats, ev).Keys == stats.Keys + {ev.author}
      && forall v :: v in stats && v != ev.author ==> AfterMessage(stats, ev)[v] == stats[v]
  {
  }

  /** The guild a message was sent in has no effect on the table. */
  lemma MessageGuildIgnored(stats: StatTable, ev: MessageEvent, other: GuildId)
    ensures AfterMessage(stats, ev) == AfterMessage(stats, ev.(guild := other))
  {
  }

  /** The table after a run of message events, in order. */
  function AfterMessages(stats: StatTable, evs: seq<MessageEvent>): StatTable
    decreases |evs|
  {
    if evs == [] then stats else AfterMessages(AfterMessage(stats, evs[0]), evs[1..])
  }

  /** How many of `evs` are human messages by `user`. */
  function HumanMessagesBy(evs: seq<MessageEvent>, user: UserId): nat
    decreases |evs|
  {
    if evs == [] then 0
    else (if evs[0].author == user && !evs[0].authorIsBot then 1 else 0) + HumanMessagesBy(evs[1..], user)
  }

  /**
   * Accounting is exact: after any run of message events a user's count
   * has grown by the number of human messages that user sent, in any guild,
   * and the voice seconds are untouched.
   */
  lemma {:induction false} MessagesAccumulate(stats: StatTable, evs: seq<MessageEvent>, user: UserId)
    ensures RowOf(AfterMessages(stats, evs), user)
            == Stat(RowOf(stats, user).messages + HumanMessagesBy(evs, user), RowOf(stats, user).voiceSeconds)
    decreases |evs|
  {
    if evs != [] {
      MessagesAccumulate(AfterMessage(stats, evs[0]), evs[1..], user);
    }
  }

  /** Every counter is non-negative. */
  predicate NonNegative(stats: StatTable) {
    forall u :: u in stats ==> stats[u].messages >= 0 && stats[u].voiceSeconds >= 0
  }
}
