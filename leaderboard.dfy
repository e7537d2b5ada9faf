/**
 * `format_leaderboard`: walks stat rows already ordered by one metric,
 * skips users it cannot resolve in the guild and bots, and numbers the
 * first ten it keeps.
 */
module Leaderboard {
  import opened Common
  import opened Decimal
  import opened VoiceTime

  /** A `user_stats` row as the query returns it: (user_id, messages, voice_seconds). */
  datatype Row = Row(user: UserId, messages: int, voiceSeconds: int)

  /** What the guild's member lookup tells about a user. */
  datatype Member = Member(isBot: bool)

  /**
   * `guild.get_member`, falling back to `guild.fetch_member`; `None` when
   * both fail (the bare `except` in `main.py`).
   */
  type MemberLookup = UserId -> Option<Member>

  /** Number of rank emojis (`len(rank_emojis)`). */
  const RankEmojiCount: nat := 10
  /** The loop stops after this many lines (`if count == 10: break`). */
  const MaxLines: nat := 10

  /** The rank marker: `rank_emojis[index]`, or the text `#rank` past the emoji list. */
  datatype Marker = Emoji(index: nat) | Numbered(rank: int)

  /** One line of the board: marker, the member it mentions, the formatted value. */
  datatype Line = Line(marker: Marker, user: UserId, value: string)

  /** The board text: "No data yet!" or the lines joined by newlines. */
  datatype Board = NoData | Ranked(lines: seq<Line>)

  function Metric(row: Row, isVoice: bool): int {
    if isVoice then row.voiceSeconds else row.messages
  }

  /** Rows in non-increasing order of the metric, as `ORDER BY ... DESC` returns them. */
  predicate SortedDesc(rows: seq<Row>, isVoice: bool) {
    forall i, j :: 0 <= i < j < |rows| ==> Metric(rows[j], isVoice) <= Metric(rows[i], isVoice)
  }

  /** The user resolves to a guild member that is not a bot. */
  predicate IsHumanMember(lookup: MemberLookup, user: UserId) {
    lookup(user).Some? && !lookup(user).value.isBot
  }

  /** The rows the loop would accept if it never stopped, in their order. */
  function Eligible(rows: seq<Row>, lookup: MemberLookup): seq<Row>
    decreases |rows|
  {
    if rows == [] then []
    else
      var last := rows[|rows| - 1];
      Eligible(rows[..|rows| - 1], lookup) + (if IsHumanMember(lookup, last.user) then [last] else [])
  }

  /** The rows that get a line: the first `MaxLines` accepted ones. */
  function Kept(rows: seq<Row>, lookup: MemberLookup): seq<Row> {
    var e := Eligible(rows, lookup);
    if |e| <= MaxLines then e else e[..MaxLines]
  }

  /** `format_voice_time(u[2])` or `f"{u[1]} messages"`. */
  function ValueText(row: Row, isVoice: bool): string {
    if isVoice then FormatVoiceTime(row.voiceSeconds) else IntToString(row.messages) + " messages"
  }

  /** The lines for kept rows, ranked by their position among the kept rows. */
  function LinesOf(kept: seq<Row>, isVoice: bool): seq<Line> {
    seq(|kept|, i requires 0 <= i < |kept| => Line(Emoji(i), kept[i].user, ValueText(kept[i], isVoice)))
  }

  /** The board `format_leaderboard` in `main.py` builds for `rows`. */
  function BoardOf(rows: seq<Row>, isVoice: bool, lookup: MemberLookup): Board {
    var kept := Kept(rows, lookup);
    if kept == [] then NoData else Ranked(LinesOf(kept, isVoice))
  }

  /** The loop of `format_leaderboard`. */
  method FormatLeaderboard(users: seq<Row>, isVoice: bool, lookup: MemberLookup) returns (board: Board)
    ensures board == BoardOf(users, isVoice, lookup)
    ensures board.NoData? <==> Eligible(users, lookup) == []
    ensures board.Ranked? ==>
      && 1 <= |board.lines| <= MaxLines
      && forall i :: 0 <= i < |board.lines| ==>
           board.lines[i].marker == Emoji(i) && IsHumanMember(lookup, board.lines[i].user)
  {
    var lines: seq<Line> := [];
    var count := 0;
    var i := 0;
    ghost var kept: seq<Row> := [];
    while i < |users| && count < MaxLines
      invariant 0 <= i <= |users|
      invariant kept == Eligible(users[..i], lookup)
      invariant count == |kept| == |lines| <= MaxLines
      invariant lines == LinesOf(kept, isVoice)
    {
      var u := users[i];
      EligibleStep(users, lookup, i);
      var member := lookup(u.user);
      if member.Some? && !member.value.isBot {
        var value := ValueText(u, isVoice);
        var marker := if count < RankEmojiCount then Emoji(count) else Numbered(count + 1);
        LinesOfSnoc(kept, u, isVoice);
        lines := lines + [Line(marker, u.user, value)];
        kept := kept + [u];
        count := count + 1;
      }
      i := i + 1;
    }
    KeptAtExit(users, lookup, i);
    if lines == [] {
      board := NoData;
    } else {
      board := Ranked(lines);
    }
  }

  /** One more row of the input adds that row to the accepted ones exactly when it is accepted. */
  lemma EligibleStep(rows: seq<Row>, lookup: MemberLookup, i: nat)
    requires i < |rows|
    ensures Eligible(rows[..i + 1], lookup)
            == Eligible(rows[..i], lookup) + (if IsHumanMember(lookup, rows[i].user) then [rows[i]] else [])
  {
    assert rows[..i + 1][..i] == rows[..i];
  }

  lemma LinesOfSnoc(kept: seq<Row>, u: Row, isVoice: bool)
    ensures LinesOf(kept + [u], isVoice) == LinesOf(kept, isVoice) + [Line(Emoji(|kept|), u.user, ValueText(u, isVoice))]
  {
  }

  /** Where the loop stops, the rows accepted so far are the kept rows, all of them human members. */
  lemma KeptAtExit(rows: seq<Row>, lookup: MemberLookup, i: nat)
    requires i <= |rows| && |Eligible(rows[..i], lookup)| <= MaxLines
    requires i == |rows| || |Eligible(rows[..i], lookup)| == MaxLines
    ensures Kept(rows, lookup) == Eligible(rows[..i], lookup)
    ensures Eligible(rows, lookup) == [] <==> Eligible(rows[..i], lookup) == []
    ensures forall k :: 0 <= k < |Kept(rows, lookup)| ==> IsHumanMember(lookup, Kept(rows, lookup)[k].user)
  {
    EligiblePrefix(rows, lookup, i);
    if i == |rows| {
      assert rows[..i] == rows;
    }
    var kept := Eligible(rows[..i], lookup);
    forall k | 0 <= k < |kept|
      ensures IsHumanMember(lookup, kept[k].user)
    {
      EligibleMembership(rows[..i], lookup, kept[k]);
    }
  }

  /** The accepted rows of a prefix are a prefix of the accepted rows. */
  lemma {:induction false} EligiblePrefix(rows: seq<Row>, lookup: MemberLookup, n: nat)
    requires n <= |rows|
    ensures Eligible(rows[..n], lookup) <= Eligible(rows, lookup)
    decreases |rows| - n
  {
    if n < |rows| {
      EligiblePrefix(rows[..|rows| - 1], lookup, n);
      assert rows[..|rows| - 1][..n] == rows[..n];
    } else {
      assert rows[..n] == rows;
    }
  }

  /** A row is accepted exactly when it is in the input and its user is a resolvable human. */
  lemma {:induction false} EligibleMembership(rows: seq<Row>, lookup: MemberLookup, r: Row)
    ensures r in Eligible(rows, lookup) <==> r in rows && IsHumanMember(lookup, r.user)
    decreases |rows|
  {
    if rows != [] {
      var init := rows[..|rows| - 1];
      EligibleMembership(init, lookup, r);
      assert rows == init + [rows[|rows| - 1]];
    }
  }

  /** Skipping rows keeps the input order, so a sorted input gives a sorted board. */
  lemma {:induction false} EligibleSorted(rows: seq<Row>, isVoice: bool, lookup: MemberLookup)
    requires SortedDesc(rows, isVoice)
    ensures SortedDesc(Eligible(rows, lookup), isVoice)
    decreases |rows|
  {
    if rows != [] {
      var init := rows[..|rows| - 1];
      var last := rows[|rows| - 1];
      EligibleSorted(init, isVoice, lookup);
      var e := Eligible(init, lookup);
      forall k | 0 <= k < |e|
        ensures Metric(last, isVoice) <= Metric(e[k], isVoice)
      {
        EligibleMembership(init, lookup, e[k]);
        var j :| 0 <= j < |init| && init[j] == e[k];
      }
    }
  }

  /**
   * Rank numbering counts accepted rows only: an accepted row with fewer
   * than `MaxLines` accepted rows before it gets the line whose rank index
   * is that number, and skipped rows consume no rank.
   */
  lemma {:induction false} RankOfAccepted(rows: seq<Row>, isVoice: bool, lookup: MemberLookup, i: nat)
    requires i < |rows| && IsHumanMember(lookup, rows[i].user)
    requires |Eligible(rows[..i], lookup)| < MaxLines
    ensures var k := |Eligible(rows[..i], lookup)|;
      && BoardOf(rows, isVoice, lookup).Ranked?
      && k < |BoardOf(rows, isVoice, lookup).lines|
      && BoardOf(rows, isVoice, lookup).lines[k] == Line(Emoji(k), rows[i].user, ValueText(rows[i], isVoice))
  {
    var k := |Eligible(rows[..i], lookup)|;
    assert rows[..i + 1][..i] == rows[..i];
    assert Eligible(rows[..i + 1], lookup) == Eligible(rows[..i], lookup) + [rows[i]];
    EligiblePrefix(rows, lookup, i + 1);
    assert Eligible(rows, lookup)[k] == rows[i];
    var kept := Kept(rows, lookup);
    assert k < |kept| && kept[k] == rows[i];
    assert LinesOf(kept, isVoice)[k] == Line(Emoji(k), rows[i].user, ValueText(rows[i], isVoice));
  }

  /** The board is "No data yet!" exactly when no row is accepted. */
  lemma NoDataWhenAllSkipped(rows: seq<Row>, isVoice: bool, lookup: MemberLookup)
    ensures BoardOf(rows, isVoice, lookup) == NoData <==> forall r :: r in rows ==> !IsHumanMember(lookup, r.user)
  {
    var e := Eligible(rows, lookup);
    if e != [] {
      EligibleMembership(rows, lookup, e[0]);
    } else {
      forall r | r in rows
        ensures !IsHumanMember(lookup, r.user)
      {
        EligibleMembership(rows, lookup, r);
      }
    }
  }

  /**
   * With ten or more accepted rows the board has exactly ten lines; with
   * fewer it has one per accepted row, so the "#N" marker never appears.
   */
  lemma BoardSize(rows: seq<Row>, isVoice: bool, lookup: MemberLookup)
    ensures var n := |Eligible(rows, lookup)|;
      BoardOf(rows, isVoice, lookup).Ranked? ==>
        && |BoardOf(rows, isVoice, lookup).lines| == (if n < MaxLines then n else MaxLines)
        && forall i :: 0 <= i < |BoardOf(rows, isVoice, lookup).lines| ==>
             !BoardOf(rows, isVoice, lookup).lines[i].marker.Numbered?
  {
  }

  /** The kept rows are the accepted rows the board shows, in the same order as their lines. */
  lemma {:induction false} KeptSorted(rows: seq<Row>, isVoice: bool, lookup: MemberLookup)
    requires SortedDesc(rows, isVoice)
    ensures SortedDesc(Kept(rows, lookup), isVoice)
    ensures forall r :: r in Kept(rows, lookup) ==> r in rows && IsHumanMember(lookup, r.user)
  {
    EligibleSorted(rows, isVoice, lookup);
    var e := Eligible(rows, lookup);
    forall r | r in Kept(rows, lookup)
      ensures r in rows && IsHumanMember(lookup, r.user)
    {
      assert r in e;
      EligibleMembership(rows, lookup, r);
    }
  }
}
