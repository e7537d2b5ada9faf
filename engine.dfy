/**
 * The bot's state and its handlers: the two event handlers that feed the
 * counters, the commands that configure and publish the leaderboards, and
 * the periodic refresh that edits the published messages in place.
 *
 * Discord is reached only through a `Platform` value of lookups; sending a
 * message is given as the id it produced, or `None` when the send raised.
 */
module Engine {
  import opened Common
  import opened Decimal
  import opened Stats
  import opened Sessions
  import opened Leaderboard
  import opened VoiceTime

  /** The `key` column of the `settings` table. */
  datatype SettingKey = MessageChannel | VoiceChannel

  /** The `settings` table: `(guild_id, key) -> value`, the value a channel id as text. */
  type Settings = map<(GuildId, SettingKey), string>

  /** An entry of `leaderboard_data`: the two posted messages and their channels. */
  datatype Entry = Entry(msgId: MessageId, msgChannel: ChannelId, vcId: MessageId, vcChannel: ChannelId)

  type Registry = map<GuildId, Entry>

  /** What `channel.fetch_message` does: the message, `discord.NotFound`, or another exception. */
  datatype FetchResult = Found | NotFound | Failed

  /** The Discord lookups the core consults. */
  datatype Platform = Platform(
    guildExists: GuildId -> bool,
    channelExists: ChannelId -> bool,
    members: GuildId -> MemberLookup,
    fetch: (ChannelId, MessageId) -> FetchResult)

  /** A message posted to a channel, or a posted message edited in place. */
  datatype Effect =
    | Post(channel: ChannelId, id: MessageId, board: Board)
    | Edit(channel: ChannelId, id: MessageId, board: Board)

  /** Where `update_now_for_guild` stopped. `Raised` is an exception leaving it. */
  datatype TickOutcome = NotRegistered | GuildMissing | ChannelMissing | MessageDeleted | Raised | Edited

  datatype TickResult = TickResult(outcome: TickOutcome, effects: seq<Effect>)

  /** What `show_lbs` finds in the settings before it sends anything. */
  datatype Setup = NeedsSetup | InvalidChannelIds | ChannelsNotFound | Ready(msgChannel: ChannelId, vcChannel: ChannelId)

  datatype ShowReply = Rejected(setup: Setup) | SendFailed | Posted

  datatype UpdateReply = NotPublished | UpdatedManually | CommandFailed

  /** Every user of the table appears exactly once in `rows`, with its row's values. */
  predicate ListsTable(rows: seq<Row>, stats: StatTable) {
    && (forall i, j :: 0 <= i < j < |rows| ==> rows[i].user != rows[j].user)
    && (forall i :: 0 <= i < |rows| ==>
          rows[i].user in stats && stats[rows[i].user] == Stat(rows[i].messages, rows[i].voiceSeconds))
    && (forall u :: u in stats ==> exists i :: 0 <= i < |rows| && rows[i].user == u)
  }

  /** `SELECT * FROM user_stats ORDER BY <metric> DESC`. */
  predicate QueryResult(rows: seq<Row>, stats: StatTable, isVoice: bool) {
    ListsTable(rows, stats) && SortedDesc(rows, isVoice)
  }

  /** The guard chain of `show_lbs` up to the channel lookups. */
  function Destinations(settings: Settings, g: GuildId, p: Platform): Setup {
    if (g, MessageChannel) !in settings || (g, VoiceChannel) !in settings then NeedsSetup
    else
      match (ParseNat(settings[(g, MessageChannel)]), ParseNat(settings[(g, VoiceChannel)]))
      case (Some(mc), Some(vc)) =>
        if p.channelExists(mc) && p.channelExists(vc) then Ready(mc, vc) else ChannelsNotFound
      case _ => InvalidChannelIds
  }

  /** Every stored setting reads back as a channel id. */
  predicate SettingsReadable(settings: Settings) {
    forall k :: k in settings ==> ParseNat(settings[k]).Some?
  }

  /** `set_chat` and `set_vc` store `str(channel.id)`, so stored settings always read back. */
  lemma {:induction false} StoredChannelReadable(settings: Settings, k: (GuildId, SettingKey), channel: ChannelId)
    requires SettingsReadable(settings)
    ensures SettingsReadable(settings[k := NatToString(channel)])
    ensures ParseNat(settings[k := NatToString(channel)][k]) == Some(channel)
  {
    NatRoundTrip(channel);
  }

  /** With readable settings the "Invalid channel IDs" reply cannot happen. */
  lemma ReadableNeverInvalid(settings: Settings, g: GuildId, p: Platform)
    requires SettingsReadable(settings)
    ensures Destinations(settings, g, p) != InvalidChannelIds
  {
  }

  /**
   * Once both channels are set, `show_lbs` gets past the setup checks
   * exactly when both channels still exist, and targets the channels set.
   */
  lemma {:induction false} ConfiguredDestinations(settings: Settings, g: GuildId, p: Platform, mc: ChannelId, vc: ChannelId)
    ensures var s := settings[(g, MessageChannel) := NatToString(mc)][(g, VoiceChannel) := NatToString(vc)];
      Destinations(s, g, p) == if p.channelExists(mc) && p.channelExists(vc) then Ready(mc, vc) else ChannelsNotFound
  {
    NatRoundTrip(mc);
    NatRoundTrip(vc);
  }

  /** Where the guard chain of `update_now_for_guild` ends for a guild. */
  function GuardOutcome(data: Registry, g: GuildId, p: Platform): TickOutcome {
    if g !in data then NotRegistered
    else
      var e := data[g];
      if !p.guildExists(g) then GuildMissing
      else if !p.channelExists(e.msgChannel) || !p.channelExists(e.vcChannel) then ChannelMissing
      else
        match (p.fetch(e.msgChannel, e.msgId), p.fetch(e.vcChannel, e.vcId))
        case (NotFound, _) => MessageDeleted
        case (Failed, _) => Raised
        case (Found, NotFound) => MessageDeleted
        case (Found, Failed) => Raised
        case (Found, Found) => Edited
  }

  /** The result of `update_now_for_guild`: its guard chain, then the two edits. */
  function Tick(data: Registry, g: GuildId, p: Platform, topMsg: seq<Row>, topVc: seq<Row>): (r: TickResult)
    ensures r.outcome == Edited <==>
      && g in data
      && p.guildExists(g)
      && p.channelExists(data[g].msgChannel) && p.channelExists(data[g].vcChannel)
      && p.fetch(data[g].msgChannel, data[g].msgId) == Found
      && p.fetch(data[g].vcChannel, data[g].vcId) == Found
    ensures r.outcome == NotRegistered <==> g !in data
    ensures r.outcome == MessageDeleted <==>
      && g in data
      && p.guildExists(g)
      && p.channelExists(data[g].msgChannel) && p.channelExists(data[g].vcChannel)
      && (p.fetch(data[g].msgChannel, data[g].msgId) == NotFound
          || (p.fetch(data[g].msgChannel, data[g].msgId) == Found && p.fetch(data[g].vcChannel, data[g].vcId) == NotFound))
    ensures r.outcome == Raised <==>
      && g in data
      && p.guildExists(g)
      && p.channelExists(data[g].msgChannel) && p.channelExists(data[g].vcChannel)
      && (p.fetch(data[g].msgChannel, data[g].msgId) == Failed
          || (p.fetch(data[g].msgChannel, data[g].msgId) == Found && p.fetch(data[g].vcChannel, data[g].vcId) == Failed))
    ensures r.outcome != Edited ==> r.effects == []
    ensures r.outcome == Edited ==>
      && |r.effects| == 2
      && r.effects[0].Edit? && r.effects[0].channel == data[g].msgChannel && r.effects[0].id == data[g].msgId
      && r.effects[1].Edit? && r.effects[1].channel == data[g].vcChannel && r.effects[1].id == data[g].vcId
      && r.effects[0].board == BoardOf(topMsg, false, p.members(g))
      && r.effects[1].board == BoardOf(topVc, true, p.members(g))
  {
    var outcome := GuardOutcome(data, g, p);
    if outcome != Edited then TickResult(outcome, [])
    else
      var e := data[g];
      TickResult(Edited, [Edit(e.msgChannel, e.msgId, BoardOf(topMsg, false, p.members(g))),
                          Edit(e.vcChannel, e.vcId, BoardOf(topVc, true, p.members(g)))])
  }

  /** A deleted leaderboard message is not reposted: the refresh gives up for that guild. */
  lemma DeletedMessageNotReposted(data: Registry, g: GuildId, p: Platform, topMsg: seq<Row>, topVc: seq<Row>)
    requires g in data && p.guildExists(g)
    requires p.channelExists(data[g].msgChannel) && p.channelExists(data[g].vcChannel)
    requires p.fetch(data[g].msgChannel, data[g].msgId) == NotFound
          || (p.fetch(data[g].msgChannel, data[g].msgId) == Found && p.fetch(data[g].vcChannel, data[g].vcId) == NotFound)
    ensures Tick(data, g, p, topMsg, topVc) == TickResult(MessageDeleted, [])
  {
  }

  /**
   * The board of a guild shows users of the table, each with the table's
   * values, in non-increasing order of the metric.
   */
  lemma {:induction false} BoardFromQuery(rows: seq<Row>, stats: StatTable, isVoice: bool, lookup: MemberLookup)
    requires QueryResult(rows, stats, isVoice)
    ensures SortedDesc(Kept(rows, lookup), isVoice)
    ensures forall r :: r in Kept(rows, lookup) ==>
      r.user in stats && stats[r.user] == Stat(r.messages, r.voiceSeconds) && IsHumanMember(lookup, r.user)
  {
    KeptSorted(rows, isVoice, lookup);
  }

  /**
   * A user sends three messages, then spends 125 seconds in voice: the row
   * reads (3, 125) and the voice board shows "0d 0h 2m 5s".
   */
  lemma {:induction false} ThreeMessagesThenVoice(g: GuildId, u: UserId, t: Instant)
    ensures
      var msg := MessageEvent(u, false, g);
      var c3 := AfterMessages(map[], [msg, msg, msg]);
      var join := VoiceEvent(g, u, false, true);
      var leave := VoiceEvent(g, u, true, false);
      var s1 := SessionsAfter(map[], join, t);
      var c4 := StatsAfterVoice(c3, map[], join, t);
      var c5 := StatsAfterVoice(c4, s1, leave, t + 125 * MicrosPerSecond);
      && c5 == map[u := Stat(3, 125)]
      && FormatVoiceTime(c5[u].voiceSeconds) == "0d 0h 2m 5s"
  {
    var msg := MessageEvent(u, false, g);
    var c3 := AfterMessages(map[], [msg, msg, msg]);
    var one := map[u := Stat(1, 0)];
    var two := map[u := Stat(2, 0)];
    assert AfterMessage(map[], msg) == one;
    assert AfterMessage(one, msg) == two;
    assert AfterMessage(two, msg) == map[u := Stat(3, 0)];
    assert [msg, msg, msg][1..] == [msg, msg] && [msg, msg][1..] == [msg] && [msg][1..] == [];
    assert c3 == AfterMessages(one, [msg, msg]) == AfterMessages(two, [msg]) == map[u := Stat(3, 0)];
    JoinThenLeave(c3, map[], g, u, t, t + 125 * MicrosPerSecond);
    var join := VoiceEvent(g, u, false, true);
    var leave := VoiceEvent(g, u, true, false);
    var c5 := StatsAfterVoice(StatsAfterVoice(c3, map[], join, t), SessionsAfter(map[], join, t), leave, t + 125 * MicrosPerSecond);
    assert c5 == map[u := Stat(3, 125)];
    assert c5[u].voiceSeconds == 125;
    TwoMinutesFiveText();
  }

  /** `format_voice_time(125)` prints two minutes and five seconds. */
  lemma TwoMinutesFiveText()
    ensures FormatVoiceTime(125) == "0d 0h 2m 5s"
  {
    assert Decompose(125) == Duration(0, 0, 2, 5);
    assert NatToString(0) == "0" && NatToString(2) == "2" && NatToString(5) == "5";
    assert DurationText(Duration(0, 0, 2, 5)) == "0d 0h 2m 5s";
  }

  class Bot {
    /** The `user_stats` table. */
    var userStats: StatTable
    /** `bot.join_times`: open voice sessions, held in memory only. */
    var joinTimes: JoinTimes
    /** The `settings` table. */
    var settings: Settings
    /** `leaderboard_data`, as loaded from and saved to its file. */
    var leaderboardData: Registry

    /** A process start: the tables and the registry persist, open sessions do not. */
    constructor (stats: StatTable, stored: Settings, loaded: Registry)
      ensures userStats == stats && settings == stored && leaderboardData == loaded
      ensures joinTimes == map[]
    {
      userStats := stats;
      joinTimes := map[];
      settings := stored;
      leaderboardData := loaded;
    }

    /** `on_message`. */
    method OnMessage(ev: MessageEvent)
      modifies this`userStats
      ensures userStats == AfterMessage(old(userStats), ev)
    {
      if ev.authorIsBot {
        return;
      }
      var uid := ev.author;
      if uid in userStats {
        var row := userStats[uid];
        userStats := userStats[uid := row.(messages := row.messages + 1)];
      } else {
        userStats := userStats[uid := Stat(1, 0)];
      }
    }

    /** `on_voice_state_update` at instant `now`. */
    method OnVoiceStateUpdate(ev: VoiceEvent, now: Instant)
      modifies this`userStats, this`joinTimes
      ensures joinTimes == SessionsAfter(old(joinTimes), ev, now)
      ensures userStats == StatsAfterVoice(old(userStats), old(joinTimes), ev, now)
    {
      var uid := ev.user;
      var key := SessionKey(ev.guild, uid);
      if !ev.hadChannelBefore && ev.hasChannelAfter {
        joinTimes := joinTimes[key := now];
      } else if ev.hadChannelBefore && !ev.hasChannelAfter && key in joinTimes {
        var seconds := WholeSeconds(now - joinTimes[key]);
        joinTimes := joinTimes - {key};
        if uid in userStats {
          var row := userStats[uid];
          userStats := userStats[uid := row.(voiceSeconds := row.voiceSeconds + seconds)];
        } else {
          userStats := userStats[uid := Stat(0, seconds)];
        }
      }
    }

    /** `/set_chat`: insert or replace the guild's message channel. */
    method SetChat(g: GuildId, channel: ChannelId)
      modifies this`settings
      ensures settings == old(settings)[(g, MessageChannel) := NatToString(channel)]
    {
      settings := settings[(g, MessageChannel) := NatToString(channel)];
    }

    /** `/set_vc`: insert or replace the guild's voice channel. */
    method SetVc(g: GuildId, channel: ChannelId)
      modifies this`settings
      ensures settings == old(settings)[(g, VoiceChannel) := NatToString(channel)]
    {
      settings := settings[(g, VoiceChannel) := NatToString(channel)];
    }

    /**
     * `/show_lbs`: check the settings, send both boards, and register the
     * two messages for the guild. `msgSent` and `vcSent` are the ids the
     * sends produced, `None` for a send that raised.
     */
    method ShowLbs(g: GuildId, p: Platform, topMsg: seq<Row>, topVc: seq<Row>,
                   msgSent: Option<MessageId>, vcSent: Option<MessageId>)
      returns (reply: ShowReply, effects: seq<Effect>)
      requires QueryResult(topMsg, userStats, false) && QueryResult(topVc, userStats, true)
      modifies this`leaderboardData
      ensures var setup := Destinations(settings, g, p);
        && (!setup.Ready? ==> reply == Rejected(setup) && effects == [] && leaderboardData == old(leaderboardData))
        && (setup.Ready? && msgSent.None? ==>
              reply == SendFailed && effects == [] && leaderboardData == old(leaderboardData))
        && (setup.Ready? && msgSent.Some? && vcSent.None? ==>
              && reply == SendFailed && leaderboardData == old(leaderboardData)
              && effects == [Post(setup.msgChannel, msgSent.value, BoardOf(topMsg, false, p.members(g)))])
        && (setup.Ready? && msgSent.Some? && vcSent.Some? ==>
              && reply == Posted
              && effects == [Post(setup.msgChannel, msgSent.value, BoardOf(topMsg, false, p.members(g))),
                             Post(setup.vcChannel, vcSent.value, BoardOf(topVc, true, p.members(g)))]
              && leaderboardData == old(leaderboardData)[g := Entry(msgSent.value, setup.msgChannel, vcSent.value, setup.vcChannel)])
    {
      var setup := Destinations(settings, g, p);
      if !setup.Ready? {
        return Rejected(setup), [];
      }
      var lookup := p.members(g);
      var msgBoard := FormatLeaderboard(topMsg, false, lookup);
      var vcBoard := FormatLeaderboard(topVc, true, lookup);
      if msgSent.None? {
        return SendFailed, [];
      }
      effects := [Post(setup.msgChannel, msgSent.value, msgBoard)];
      if vcSent.None? {
        return SendFailed, effects;
      }
      effects := effects + [Post(setup.vcChannel, vcSent.value, vcBoard)];
      leaderboardData := leaderboardData[g := Entry(msgSent.value, setup.msgChannel, vcSent.value, setup.vcChannel)];
      reply := Posted;
    }

    /** `/update`: refuse a guild with nothing published, otherwise refresh it now. */
    method Update(g: GuildId, p: Platform, topMsg: seq<Row>, topVc: seq<Row>)
      returns (reply: UpdateReply, effects: seq<Effect>)
      requires QueryResult(topMsg, userStats, false) && QueryResult(topVc, userStats, true)
      ensures g !in leaderboardData ==> reply == NotPublished && effects == []
      ensures g in leaderboardData ==>
        var t := Tick(leaderboardData, g, p, topMsg, topVc);
        && effects == t.effects
        && reply == (if t.outcome == Raised then CommandFailed else UpdatedManually)
    {
      if g !in leaderboardData {
        return NotPublished, [];
      }
      var outcome;
      outcome, effects := UpdateNowForGuild(g, p, topMsg, topVc);
      reply := if outcome == Raised then CommandFailed else UpdatedManually;
    }

    /**
     * The body of the `update_leaderboards` task: refresh every registered
     * guild, in the order of the registry's keys, catching each guild's
     * exception and carrying on with the next.
     */
    method UpdateLeaderboards(guilds: seq<GuildId>, p: Platform, topMsg: seq<Row>, topVc: seq<Row>)
      returns (results: seq<TickResult>)
      requires forall i, j :: 0 <= i < j < |guilds| ==> guilds[i] != guilds[j]
      requires forall g :: g in leaderboardData <==> g in guilds
      requires QueryResult(topMsg, userStats, false) && QueryResult(topVc, userStats, true)
      ensures |results| == |guilds|
      ensures forall i :: 0 <= i < |guilds| ==>
        results[i] == Tick(leaderboardData, guilds[i], p, topMsg, topVc) && results[i].outcome != NotRegistered
    {
      results := [];
      for i := 0 to |guilds|
        invariant |results| == i
        invariant forall k :: 0 <= k < i ==>
          results[k] == Tick(leaderboardData, guilds[k], p, topMsg, topVc) && results[k].outcome != NotRegistered
      {
        var outcome, done := UpdateNowForGuild(guilds[i], p, topMsg, topVc);
        results := results + [TickResult(outcome, done)];
      }
    }

    /**
     * `update_now_for_guild`: edit both registered messages in place when the
     * guild, both channels and both messages resolve; otherwise return
     * without doing anything. It never changes the registry.
     */
    method UpdateNowForGuild(g: GuildId, p: Platform, topMsg: seq<Row>, topVc: seq<Row>)
      returns (outcome: TickOutcome, effects: seq<Effect>)
      requires QueryResult(topMsg, userStats, false) && QueryResult(topVc, userStats, true)
      ensures TickResult(outcome, effects) == Tick(leaderboardData, g, p, topMsg, topVc)
    {
      if g !in leaderboardData {
        return NotRegistered, [];
      }
      var data := leaderboardData[g];
      if !p.guildExists(g) {
        return GuildMissing, [];
      }
      if !p.channelExists(data.msgChannel) || !p.channelExists(data.vcChannel) {
        return ChannelMissing, [];
      }
      var msgFetch := p.fetch(data.msgChannel, data.msgId);
      if msgFetch == NotFound {
        return MessageDeleted, [];
      } else if msgFetch == Failed {
        return Raised, [];
      }
      var vcFetch := p.fetch(data.vcChannel, data.vcId);
      if vcFetch == NotFound {
        return MessageDeleted, [];
      } else if vcFetch == Failed {
        return Raised, [];
      }
      var lookup := p.members(g);
      var msgBoard := FormatLeaderboard(topMsg, false, lookup);
      var vcBoard := FormatLeaderboard(topVc, true, lookup);
      outcome := Edited;
      effects := [Edit(data.msgChannel, data.msgId, msgBoard), Edit(data.vcChannel, data.vcId, vcBoard)];
    }
  }
}
