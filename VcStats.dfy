/**
 * The figures of commands/vcstats.js: the clear-monthly guard, the day and
 * month keys cut from an ISO timestamp, the average session, the period
 * figures with their plural suffix, the last-24-hours loop, and the top
 * channels.
 *
 * The clock is an input: `now` in milliseconds and `iso`, the text
 * `new Date().toISOString()` gives for it.
 */
module VcStats {
  import opened JsText
  import Duration
  import Ranking
  import VoiceTracking

  type ChannelStat = VoiceTracking.ChannelStat

  const ClearMonthly: Text := Lit("clear_monthly")
  const DayMs: nat := 86_400_000

  // ---------------------------------------------------------------------------
  // The clear action

  datatype Outcome =
    | RefuseClear                          // "You can only clear your own stats!"
    | ClearMonth(userId: Text, monthKey: Text)
    | ShowStats(userId: Text)

  /** The user the command is about: the chosen one, else the caller. */
  function Target(chosen: Option<Text>, caller: Text): Text
  {
    if chosen.Some? then chosen.value else caller
  }

  function Dispatch(action: Option<Text>, chosen: Option<Text>, caller: Text, iso: Text): Outcome
  {
    if action == Some(ClearMonthly) then
      if Target(chosen, caller) != caller then RefuseClear
      else ClearMonth(caller, MonthKey(iso))
    else ShowStats(Target(chosen, caller))
  }

  /** Only the caller's own month can be cleared, and anyone else's is refused. */
  lemma ClearOnlyOwn(action: Option<Text>, chosen: Option<Text>, caller: Text, iso: Text)
    ensures Dispatch(action, chosen, caller, iso) == RefuseClear <==>
      action == Some(ClearMonthly) && chosen.Some? && chosen.value != caller
    ensures Dispatch(action, chosen, caller, iso).ClearMonth? <==>
      action == Some(ClearMonthly) && (chosen.None? || chosen.value == caller)
    ensures Dispatch(action, chosen, caller, iso).ClearMonth? ==>
      Dispatch(action, chosen, caller, iso) == ClearMonth(caller, MonthKey(iso))
    ensures Dispatch(action, chosen, caller, iso).ShowStats? <==> action != Some(ClearMonthly)
  {
  }

  // ---------------------------------------------------------------------------
  // Day and month keys

  const T: CodeUnit := 0x54
  const Dash: CodeUnit := 0x2D

  /** The index of the first 'T', or the length when there is none. */
  function TIndex(t: Text): (k: nat)
    ensures k <= |t|
    ensures forall i :: 0 <= i < k ==> t[i] != T
    ensures k < |t| ==> t[k] == T
  {
    if t == [] || t[0] == T then 0 else 1 + TIndex(t[1..])
  }

  /** `iso.split('T')[0]`, "YYYY-MM-DD". */
  function DayKey(iso: Text): Text
  {
    iso[..TIndex(iso)]
  }

  /** `DayKey(iso).substring(0, 7)`, "YYYY-MM". */
  function MonthKey(iso: Text): Text
  {
    Take(DayKey(iso), 7)
  }

  /** What `toISOString` gives for years 0 to 9999: "YYYY-MM-DDTHH:mm:ss.sssZ". */
  predicate IsoTimestamp(iso: Text)
  {
    |iso| == 24
    && (forall i :: 0 <= i < 4 ==> IsDigit(iso[i]))
    && iso[4] == Dash && IsDigit(iso[5]) && IsDigit(iso[6])
    && iso[7] == Dash && IsDigit(iso[8]) && IsDigit(iso[9])
    && iso[10] == T
  }

  /** For such a timestamp the keys are its first ten and first seven code units, and the month key starts the day key. */
  lemma IsoKeys(iso: Text)
    requires IsoTimestamp(iso)
    ensures DayKey(iso) == iso[..10]
    ensures MonthKey(iso) == iso[..7]
    ensures StartsWith(DayKey(iso), MonthKey(iso))
  {
    assert forall i :: 0 <= i < 10 ==> iso[i] != T by {
      forall i | 0 <= i < 10 ensures iso[i] != T {
        if i != 4 && i != 7 { assert IsDigit(iso[i]); }
      }
    }
    var k := TIndex(iso);
    assert k == 10;
  }

  // ---------------------------------------------------------------------------
  // The "Currently Active" field

  /** The channel of the open session and how long it has been open, formatted. */
  datatype ActiveNote = ActiveNote(channelName: Text, openFor: Text)

  /**
   * Shown exactly when the tracker holds an open session under the user's
   * `guildId-userId` key; the time shown reads back as the whole seconds
   * since that session's join.
   */
  function CurrentlyActive(activeSessions: map<Text, VoiceTracking.VoiceSession>, guildId: Text, userId: Text, now: int): (r: Option<ActiveNote>)
    ensures r.Some? <==> VoiceTracking.SessionKey(guildId, userId) in activeSessions
    ensures r.Some? ==> r.value.channelName == activeSessions[VoiceTracking.SessionKey(guildId, userId)].channelName
    ensures r.Some? ==>
      Duration.ParseDuration(r.value.openFor) == Some((now - activeSessions[VoiceTracking.SessionKey(guildId, userId)].joinTime) / 1000)
  {
    var key := VoiceTracking.SessionKey(guildId, userId);
    if key !in activeSessions then None else Some(NoteFor(activeSessions[key], now))
  }

  /** The note for one open session. */
  function NoteFor(session: VoiceTracking.VoiceSession, now: int): (n: ActiveNote)
    ensures n.channelName == session.channelName
    ensures Duration.ParseDuration(n.openFor) == Some((now - session.joinTime) / 1000)
  {
    ActiveNote(session.channelName, OpenFor(now - session.joinTime))
  }

  /** `formatDuration(Date.now() - joinTime)` */
  function OpenFor(elapsed: int): (t: Text)
    ensures Duration.ParseDuration(t) == Some(elapsed / 1000)
  {
    Duration.FormatDurationRoundTrip(elapsed);
    Duration.FormatDuration(elapsed)
  }

  // ---------------------------------------------------------------------------
  // Averages and period figures

  /** `Math.floor(totalTime / sessionCount)`; with no sessions the quotient is not a number. */
  function AverageSession(totalTime: int, sessionCount: nat): (r: Option<int>)
    ensures r.None? <==> sessionCount == 0
  {
    if sessionCount == 0 then None else Some(totalTime / sessionCount)
  }

  /** The average is the largest whole number of milliseconds that every session could have had. */
  lemma AverageBounds(totalTime: int, sessionCount: nat)
    requires sessionCount > 0
    ensures AverageSession(totalTime, sessionCount).value * sessionCount <= totalTime
    ensures totalTime < (AverageSession(totalTime, sessionCount).value + 1) * sessionCount
  {
    var q := totalTime / sessionCount;
    var r := totalTime % sessionCount;
    assert totalTime == q * sessionCount + r && 0 <= r < sessionCount;
    assert (q + 1) * sessionCount == q * sessionCount + sessionCount;
  }

  /** `count !== 1 ? 's' : ''` */
  function Plural(count: int): (r: Text)
    ensures r == Lit("s") <==> count != 1
    ensures r == [] <==> count == 1
  {
    if count != 1 then Lit("s") else []
  }

  /** A dailyStats or monthlyStats entry. */
  datatype PeriodStat = PeriodStat(time: int, sessions: int)

  /** The figures for `key`: the stored entry, else zero time and no sessions. */
  function PeriodFigures(stats: Option<map<Text, PeriodStat>>, key: Text): (r: PeriodStat)
    ensures stats.Some? && key in stats.value ==> r == stats.value[key]
    ensures !(stats.Some? && key in stats.value) ==> r == PeriodStat(0, 0)
  {
    if stats.Some? && key in stats.value then stats.value[key] else PeriodStat(0, 0)
  }

  /** "<duration> (<n> session[s])" when time was spent, else the field's fallback text. */
  function ActivityText(p: PeriodStat, fallback: Text): Text
  {
    if p.time > 0 then
      Duration.FormatDuration(p.time) + Lit(" (") + IntText(p.sessions) + Lit(" session") + Plural(p.sessions) + Lit(")")
    else fallback
  }

  /** The fallback is shown exactly when no time was spent; otherwise the figure names the sessions, in singular for one. */
  lemma ActivityTextCases(p: PeriodStat, fallback: Text)
    ensures p.time <= 0 ==> ActivityText(p, fallback) == fallback
    ensures p.time > 0 ==> (ActivityText(p, fallback) ==
      Duration.FormatDuration(p.time) + Lit(" (") + IntText(p.sessions)
      + (if p.sessions == 1 then Lit(" session)") else Lit(" sessions)")))
  {
    if p.time > 0 {
      var head := Duration.FormatDuration(p.time) + Lit(" (") + IntText(p.sessions);
      SessionWord(p.sessions);
      assert ActivityText(p, fallback) == head + (Lit(" session") + Plural(p.sessions) + Lit(")"));
    }
  }

  lemma SessionWord(count: int)
    ensures Lit(" session") + Plural(count) + Lit(")") == (if count == 1 then Lit(" session)") else Lit(" sessions)"))
  {
    if count == 1 {
      SingularWord();
    } else {
      PluralWord();
    }
  }

  lemma SingularWord()
    ensures Lit(" session") + [] + Lit(")") == Lit(" session)")
  {
  }

  lemma PluralWord()
    ensures Lit(" session") + Lit("s") + Lit(")") == Lit(" sessions)")
  {
  }

  // ---------------------------------------------------------------------------
  // The last 24 hours

  /** A recentSessions entry. */
  datatype RecentSession = RecentSession(joinTime: int, duration: int)

  /** Whether a session counts: it began at or after the cutoff. */
  predicate InWindow(s: RecentSession, cutoff: int)
  {
    s.joinTime >= cutoff
  }

  /** The sessions in the window, in order. */
  function Recent(ss: seq<RecentSession>, cutoff: int): (r: seq<RecentSession>)
    ensures |r| <= |ss|
    ensures forall x :: x in r <==> x in ss && InWindow(x, cutoff)
  {
    if ss == [] then []
    else
      var last := ss[|ss| - 1];
      var init := Recent(ss[..|ss| - 1], cutoff);
      assert ss == ss[..|ss| - 1] + [last];
      if InWindow(last, cutoff) then init + [last] else init
  }

  function TotalTime(ss: seq<RecentSession>): int
  {
    if ss == [] then 0 else TotalTime(ss[..|ss| - 1]) + ss[|ss| - 1].duration
  }

  /** The loop over recentSessions, accumulating `last24hTime` and `last24hSessions`. */
  method Last24Hours(recentSessions: seq<RecentSession>, now: int) returns (time: int, sessions: nat)
    ensures time == TotalTime(Recent(recentSessions, now - DayMs))
    ensures sessions == |Recent(recentSessions, now - DayMs)|
  {
    var cutoff := now - DayMs;
    time, sessions := 0, 0;
    var i := 0;
    while i < |recentSessions|
      invariant 0 <= i <= |recentSessions|
      invariant time == TotalTime(Recent(recentSessions[..i], cutoff))
      invariant sessions == |Recent(recentSessions[..i], cutoff)|
    {
      var s := recentSessions[i];
      assert recentSessions[..i + 1][..i] == recentSessions[..i];
      if s.joinTime >= cutoff {
        time := time + s.duration;
        sessions := sessions + 1;
      }
      i := i + 1;
    }
    assert recentSessions[..i] == recentSessions;
  }

  /** With non-negative durations, a later cutoff never shows more time or more sessions. */
  lemma {:induction false} RecentMonotone(ss: seq<RecentSession>, c1: int, c2: int)
    requires c1 <= c2
    requires forall i :: 0 <= i < |ss| ==> ss[i].duration >= 0
    ensures |Recent(ss, c2)| <= |Recent(ss, c1)|
    ensures TotalTime(Recent(ss, c2)) <= TotalTime(Recent(ss, c1))
  {
    if ss != [] {
      var init := ss[..|ss| - 1];
      var last := ss[|ss| - 1];
      RecentMonotone(init, c1, c2);
      var r1, r2 := Recent(init, c1), Recent(init, c2);
      if InWindow(last, c2) {
        assert Recent(ss, c2) == r2 + [last] && Recent(ss, c1) == r1 + [last];
        assert (r2 + [last])[..|r2|] == r2 && (r1 + [last])[..|r1|] == r1;
      } else if InWindow(last, c1) {
        assert Recent(ss, c2) == r2 && Recent(ss, c1) == r1 + [last];
        assert (r1 + [last])[..|r1|] == r1;
      }
    }
  }

  /** Every session is counted when the cutoff is before all of them. */
  lemma {:induction false} RecentAll(ss: seq<RecentSession>, cutoff: int)
    requires forall i :: 0 <= i < |ss| ==> ss[i].joinTime >= cutoff
    ensures Recent(ss, cutoff) == ss
  {
    if ss != [] {
      RecentAll(ss[..|ss| - 1], cutoff);
      assert ss == ss[..|ss| - 1] + [ss[|ss| - 1]];
    }
  }

  // ---------------------------------------------------------------------------
  // Top channels

  /** An entry of `channelBreakdown`: the channel id and its figures. */
  type ChannelEntry = (Text, ChannelStat)

  function ByTime(e: ChannelEntry): int
  {
    e.1.time
  }

  /** "<medal> **#<name>**: <duration> (<n> sessions)" */
  function ChannelLine(rank: nat, e: ChannelEntry): (r: Text)
    ensures StartsWith(r, Ranking.Medal(rank))
  {
    var rest := Lit(" **#") + e.1.name + Lit("**: ") + Duration.FormatDuration(e.1.time)
      + Lit(" (") + NatText(e.1.sessions) + Lit(" sessions)");
    assert (Ranking.Medal(rank) + rest)[..|Ranking.Medal(rank)|] == Ranking.Medal(rank);
    Ranking.Medal(rank) + rest
  }

  function TopChannelLines(entries: seq<ChannelEntry>): (r: seq<Text>)
    ensures |r| == |Ranking.Top(entries, ByTime)|
    ensures forall i :: 0 <= i < |r| ==> StartsWith(r[i], Ranking.Medal(i))
    ensures forall i :: 0 <= i < |r| ==> r[i] == ChannelLine(i, Ranking.Top(entries, ByTime)[i])
  {
    var top := Ranking.Top(entries, ByTime);
    seq(|top|, i requires 0 <= i < |top| => ChannelLine(i, top[i]))
  }

  /**
   * At most five channels are listed, line i showing the i-th of them; they are
   * channels of the breakdown, the longest total time first, and no channel
   * left out has more time than a channel listed.
   */
  lemma TopChannelsRanked(entries: seq<ChannelEntry>)
    ensures |TopChannelLines(entries)| == |Ranking.Top(entries, ByTime)|
    ensures |Ranking.Top(entries, ByTime)| == (if |entries| < Ranking.TopCount then |entries| else Ranking.TopCount)
    ensures forall i :: 0 <= i < |Ranking.Top(entries, ByTime)| ==>
      TopChannelLines(entries)[i] == ChannelLine(i, Ranking.Top(entries, ByTime)[i])
    ensures forall i :: 0 <= i < |Ranking.Top(entries, ByTime)| ==> Ranking.Top(entries, ByTime)[i] in entries
    ensures forall i, j :: 0 <= i < j < |Ranking.Top(entries, ByTime)| ==>
      Ranking.Top(entries, ByTime)[i].1.time >= Ranking.Top(entries, ByTime)[j].1.time
    ensures forall e :: e in entries && e !in Ranking.Top(entries, ByTime) ==>
      forall i :: 0 <= i < |Ranking.Top(entries, ByTime)| ==> e.1.time <= Ranking.Top(entries, ByTime)[i].1.time
  {
    Ranking.TopIsTop(entries, ByTime);
    ShownFromInput(entries);
    ShownOmitted(entries);
  }

  lemma ShownFromInput(entries: seq<ChannelEntry>)
    ensures forall i :: 0 <= i < |Ranking.Top(entries, ByTime)| ==> Ranking.Top(entries, ByTime)[i] in entries
  {
    var top := Ranking.Top(entries, ByTime);
    Ranking.TopIsTop(entries, ByTime);
    forall i | 0 <= i < |top| ensures top[i] in entries {
      assert top[i] in multiset(top);
    }
  }

  lemma ShownOmitted(entries: seq<ChannelEntry>)
    ensures forall e :: e in entries && e !in Ranking.Top(entries, ByTime) ==>
      forall i :: 0 <= i < |Ranking.Top(entries, ByTime)| ==> e.1.time <= Ranking.Top(entries, ByTime)[i].1.time
  {
    var top := Ranking.Top(entries, ByTime);
    forall e | e in entries && e !in top ensures forall i :: 0 <= i < |top| ==> e.1.time <= top[i].1.time {
      Ranking.TopNOmitted(entries, ByTime, Ranking.TopCount, e);
      forall i | 0 <= i < |top| ensures e.1.time <= top[i].1.time {
        assert ByTime(e) <= ByTime(top[i]);
      }
    }
  }

  const NoData: Text := Lit("No data")

  /** The "Top Channels" field: absent for an empty breakdown, else the lines or 'No data'. */
  function TopChannelsField(entries: seq<ChannelEntry>): (r: Option<Text>)
    ensures r.Some? <==> entries != []
  {
    if entries == [] then None
    else
      var list := Join(TopChannelLines(entries), Lit("\n"));
      Some(if list == [] then NoData else list)
  }

  /** 'No data' is never shown: a non-empty breakdown always has a first line. */
  lemma NoDataNeverShown(entries: seq<ChannelEntry>)
    requires entries != []
    ensures TopChannelsField(entries).value != NoData
    ensures StartsWith(TopChannelsField(entries).value, Ranking.Medal(0))
  {
    var lines := TopChannelLines(entries);
    assert |lines| >= 1;
    var m := Ranking.Medal(0);
    assert m == [0xD83E, 0xDD47];
    assert StartsWith(lines[0], m);
    var list := Join(lines, Lit("\n"));
    JoinStartsWithFirst(lines, Lit("\n"));
    PrefixOfPrefix(list, lines[0], m);
    assert list[0] == 0xD83E;
  }

  lemma PrefixOfPrefix(a: Text, b: Text, c: Text)
    requires StartsWith(a, b) && StartsWith(b, c)
    ensures StartsWith(a, c)
  {
    assert a[..|c|] == a[..|b|][..|c|];
  }

  lemma JoinStartsWithFirst(parts: seq<Text>, sep: Text)
    requires parts != []
    ensures StartsWith(Join(parts, sep), parts[0])
  {
    if |parts| > 1 {
      assert Join(parts, sep) == parts[0] + (sep + Join(parts[1..], sep));
    }
  }
}
