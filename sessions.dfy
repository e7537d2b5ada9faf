/**
 * The voice session tracker (`bot.join_times`) and the voice half of the
 * counter store: a map from the text key "<guild>-<user>" to the instant the
 * user joined a voice channel, turned into voice seconds on leaving.
 */
module Sessions {
  import opened Common
  import opened Decimal
  import opened Stats

  /** The key `f"{member.guild.id}-{uid}"`. */
  function SessionKey(guild: GuildId, user: UserId): string {
    NatToString(guild) + "-" + NatToString(user)
  }

  /** Splits a session key at its first '-' and reads both halves back. */
  function SplitSessionKey(key: string): Option<(GuildId, UserId)> {
    match IndexOf(key, '-')
    case None => None
    case Some(i) =>
      match (ParseNat(key[..i]), ParseNat(key[i + 1..]))
      case (Some(g), Some(u)) => Some((g, u))
      case _ => None
  }

  lemma {:induction false} SessionKeyRoundTrip(guild: GuildId, user: UserId)
    ensures SplitSessionKey(SessionKey(guild, user)) == Some((guild, user))
  {
    var a, b := NatToString(guild), NatToString(user);
    NoSeparatorInDigits(a, '-');
    IndexOfAfter(a, '-', b);
    var key := SessionKey(guild, user);
    assert key == a + ['-'] + b;
    assert key[..|a|] == a && key[|a| + 1..] == b;
    NatRoundTrip(guild);
    NatRoundTrip(user);
  }

  /** Different (guild, user) pairs never share a session. */
  lemma {:induction false} SessionKeyInjective(g1: GuildId, u1: UserId, g2: GuildId, u2: UserId)
    ensures SessionKey(g1, u1) == SessionKey(g2, u2) <==> g1 == g2 && u1 == u2
  {
    SessionKeyRoundTrip(g1, u1);
    SessionKeyRoundTrip(g2, u2);
  }

  type JoinTimes = map<string, Instant>

  /** `int(td.total_seconds())`: whole seconds of a span of microseconds, truncated toward zero. */
  function WholeSeconds(micros: int): (r: int)
    ensures micros >= 0 ==> 0 <= r && r * MicrosPerSecond <= micros < (r + 1) * MicrosPerSecond
    ensures micros < 0 ==> r <= 0 && -r * MicrosPerSecond <= -micros < (-r + 1) * MicrosPerSecond
  {
    if micros >= 0 then micros / MicrosPerSecond else -((-micros) / MicrosPerSecond)
  }

  /** The seconds credited for a session that started at `start` and ends at `now`. */
  function ElapsedSeconds(start: Instant, now: Instant): int {
    WholeSeconds(now - start)
  }

  /** What `on_voice_state_update` sees: who, where, and whether a channel was there before and after. */
  datatype VoiceEvent = VoiceEvent(guild: GuildId, user: UserId, hadChannelBefore: bool, hasChannelAfter: bool)

  function KeyOf(ev: VoiceEvent): string {
    SessionKey(ev.guild, ev.user)
  }

  /** No channel before, a channel after. */
  predicate IsJoin(ev: VoiceEvent) {
    !ev.hadChannelBefore && ev.hasChannelAfter
  }

  /** A channel before, none after. */
  predicate IsLeave(ev: VoiceEvent) {
    ev.hadChannelBefore && !ev.hasChannelAfter
  }

  /** A leave that finds its session open: the only transition that touches the counters. */
  predicate ClosesSession(sessions: JoinTimes, ev: VoiceEvent) {
    IsLeave(ev) && KeyOf(ev) in sessions
  }

  /** The tracker after the event at `now`. */
  function SessionsAfter(sessions: JoinTimes, ev: VoiceEvent, now: Instant): JoinTimes {
    if IsJoin(ev) then sessions[KeyOf(ev) := now]
    else if ClosesSession(sessions, ev) then sessions - {KeyOf(ev)}
    else sessions
  }

  /** The counter table after the event at `now`, given the tracker before it. */
  function StatsAfterVoice(stats: StatTable, sessions: JoinTimes, ev: VoiceEvent, now: Instant): StatTable {
    if !IsJoin(ev) && ClosesSession(sessions, ev) then
      Upsert(stats, ev.user, 0, ElapsedSeconds(sessions[KeyOf(ev)], now))
    else stats
  }

  /** A join records `now` for its key, replacing an open session's start, and leaves the counters alone. */
  lemma JoinOpens(stats: StatTable, sessions: JoinTimes, ev: VoiceEvent, now: Instant)
    requires IsJoin(ev)
    ensures SessionsAfter(sessions, ev, now) == sessions[KeyOf(ev) := now]
    ensures StatsAfterVoice(stats, sessions, ev, now) == stats
  {
  }

  /**
   * A leave with an open session removes it and credits its whole seconds
   * to the user's row (creating the row (0, delta) when absent); the
   * message count is untouched.
   */
  lemma LeaveCloses(stats: StatTable, sessions: JoinTimes, ev: VoiceEvent, now: Instant)
    requires ClosesSession(sessions, ev)
    ensures SessionsAfter(sessions, ev, now) == sessions - {KeyOf(ev)}
    ensures var delta := ElapsedSeconds(sessions[KeyOf(ev)], now);
      && StatsAfterVoice(stats, sessions, ev, now)[ev.user]
         == Stat(RowOf(stats, ev.user).messages, RowOf(stats, ev.user).voiceSeconds + delta)
      && (ev.user !in stats ==> StatsAfterVoice(stats, sessions, ev, now)[ev.user] == Stat(0, delta))
      && StatsAfterVoice(stats, sessions, ev, now).Keys == stats.Keys + {ev.user}
      && forall v :: v != ev.user ==> RowOf(StatsAfterVoice(stats, sessions, ev, now), v) == RowOf(stats, v)
  {
  }

  /** A leave without an open session, a move between channels, or no channel at all: nothing changes. */
  lemma OtherTransitionsIgnored(stats: StatTable, sessions: JoinTimes, ev: VoiceEvent, now: Instant)
    requires !IsJoin(ev) && !ClosesSession(sessions, ev)
    ensures SessionsAfter(sessions, ev, now) == sessions
    ensures StatsAfterVoice(stats, sessions, ev, now) == stats
  {
  }

  /**
   * A join at `t1` followed by the matching leave at `t2` closes the session
   * and credits exactly the whole seconds between them, whatever the tracker
   * held for that key before.
   */
  lemma {:induction false} JoinThenLeave(stats: StatTable, sessions: JoinTimes,
                                         guild: GuildId, user: UserId, t1: Instant, t2: Instant)
    requires t1 <= t2
    ensures var join := VoiceEvent(guild, user, false, true);
      var leave := VoiceEvent(guild, user, true, false);
      var s1 := SessionsAfter(sessions, join, t1);
      var c1 := StatsAfterVoice(stats, sessions, join, t1);
      && SessionsAfter(s1, leave, t2) == sessions - {SessionKey(guild, user)}
      && RowOf(StatsAfterVoice(c1, s1, leave, t2), user)
         == Stat(RowOf(stats, user).messages, RowOf(stats, user).voiceSeconds + (t2 - t1) / MicrosPerSecond)
  {
    var join := VoiceEvent(guild, user, false, true);
    var leave := VoiceEvent(guild, user, true, false);
    var key := SessionKey(guild, user);
    var s1 := SessionsAfter(sessions, join, t1);
    assert s1 == sessions[key := t1];
    assert ClosesSession(s1, leave) && s1[key] == t1;
    assert s1 - {key} == sessions - {key};
  }

  /** The tracker and the table are sane at `now`: no session starts in the future, no counter is negative. */
  predicate Sane(stats: StatTable, sessions: JoinTimes, now: Instant) {
    NonNegative(stats) && forall k :: k in sessions ==> sessions[k] <= now
  }

  /**
   * With a clock that does not go backwards, every voice event keeps the
   * counters non-negative and every open session in the past.
   */
  lemma {:induction false} VoicePreservesSane(stats: StatTable, sessions: JoinTimes, ev: VoiceEvent,
                                              now: Instant, later: Instant)
    requires Sane(stats, sessions, now) && now <= later
    ensures Sane(StatsAfterVoice(stats, sessions, ev, later), SessionsAfter(sessions, ev, later), later)
  {
    if !IsJoin(ev) && ClosesSession(sessions, ev) {
      var delta := ElapsedSeconds(sessions[KeyOf(ev)], later);
      assert delta >= 0;
      var r := StatsAfterVoice(stats, sessions, ev, later);
      forall u | u in r
        ensures r[u].messages >= 0 && r[u].voiceSeconds >= 0
      {
        assert RowOf(r, u) == r[u];
        if u != ev.user {
          assert RowOf(stats, u) == stats[u];
        }
      }
    }
  }

  /** A message event keeps the same state sane. */
  lemma {:induction false} MessagePreservesSane(stats: StatTable, sessions: JoinTimes, ev: MessageEvent, now: Instant)
    requires Sane(stats, sessions, now)
    ensures Sane(AfterMessage(stats, ev), sessions, now)
  {
    var r := AfterMessage(stats, ev);
    forall u | u in r
      ensures r[u].messages >= 0 && r[u].voiceSeconds >= 0
    {
      assert RowOf(r, u) == r[u];
      if u in stats {
        assert RowOf(stats, u) == stats[u];
      }
    }
  }
}
