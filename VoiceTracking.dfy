/**
 * The voice-membership tracker of index.js: the VoiceStateUpdate handler
 * keeps one open session per `guildId-userId`, and every session it closes
 * (on a leave or a switch) is logged to VCLog and added to the user's VCStat
 * totals with an upsert.
 *
 * The clock readings and the success of the two database writes are inputs.
 */
module VoiceTracking {
  import opened JsText
  import Duration

  datatype ChannelRef = ChannelRef(id: Text, name: Text)

  /** The parts of (oldState, newState) the handler reads; the ids are already `new || old`. */
  datatype VoiceUpdate = VoiceUpdate(
    userId: Option<Text>, userName: Text, guildId: Option<Text>,
    oldChannel: Option<ChannelRef>, newChannel: Option<ChannelRef>)

  datatype VoiceSession = VoiceSession(
    userId: Text, userName: Text, channelId: Text, channelName: Text, guildId: Text, joinTime: int)

  /** A VCLog document. */
  datatype VcLogEntry = VcLogEntry(
    userId: Text, userName: Text, channelId: Text, channelName: Text, guildId: Text,
    joinTime: int, leaveTime: int, duration: int, durationFormatted: Text, switchedTo: Option<Text>)

  datatype ChannelStat = ChannelStat(name: Text, time: int, sessions: nat)

  /** A VCStat document (one per guild and user). */
  datatype VcStat = VcStat(userName: Text, totalTime: int, sessionCount: nat, channelBreakdown: map<Text, ChannelStat>)

  type StatKey = (Text, Text)

  function KeyOf(e: VcLogEntry): StatKey
  {
    (e.guildId, e.userId)
  }

  /** `${guildId}-${userId}` */
  function SessionKey(guildId: Text, userId: Text): Text
  {
    guildId + Lit("-") + userId
  }

  /** Guild ids are decimal snowflakes, so a session key names one guild and one user. */
  lemma SessionKeyInjective(g1: Text, u1: Text, g2: Text, u2: Text)
    requires forall i :: 0 <= i < |g1| ==> IsDigit(g1[i])
    requires forall i :: 0 <= i < |g2| ==> IsDigit(g2[i])
    requires SessionKey(g1, u1) == SessionKey(g2, u2)
    ensures g1 == g2 && u1 == u2
  {
    var k := SessionKey(g1, u1);
    assert Lit("-") == [Minus];
    assert k == g1 + ([Minus] + u1);
    assert k == g2 + ([Minus] + u2);
    DigitRunOfDigits(g1, [Minus] + u1);
    DigitRunOfDigits(g2, [Minus] + u2);
    assert g1 == k[..|g1|] && g2 == k[..|g2|];
    assert u1 == k[|g1| + 1..] && u2 == k[|g2| + 1..];
  }

  predicate IsJoin(e: VoiceUpdate)
  {
    e.oldChannel.None? && e.newChannel.Some?
  }

  predicate IsLeave(e: VoiceUpdate)
  {
    e.oldChannel.Some? && e.newChannel.None?
  }

  predicate IsSwitch(e: VoiceUpdate)
  {
    e.oldChannel.Some? && e.newChannel.Some? && e.oldChannel.value.id != e.newChannel.value.id
  }

  /** The log entry for a session that ends at `leaveTime`; `switchedTo` names the channel moved to. */
  function Closing(s: VoiceSession, e: VoiceUpdate, leaveTime: int, switchedTo: Option<Text>): (r: VcLogEntry)
    requires e.userId.Some? && e.guildId.Some?
    ensures r.duration == leaveTime - s.joinTime && r.joinTime == s.joinTime && r.leaveTime == leaveTime
    ensures r.channelId == s.channelId && r.switchedTo == switchedTo
    ensures KeyOf(r) == (e.guildId.value, e.userId.value)
  {
    var duration := leaveTime - s.joinTime;
    VcLogEntry(e.userId.value, e.userName, s.channelId, s.channelName, e.guildId.value,
               s.joinTime, leaveTime, duration, Duration.FormatDuration(duration), switchedTo)
  }

  /** The upsert: `$inc` the totals and the channel's figures from zero if absent, `$set` the names. */
  function AddToStats(prev: Option<VcStat>, e: VcLogEntry): (r: VcStat)
    ensures r.totalTime == (if prev.Some? then prev.value.totalTime else 0) + e.duration
    ensures r.sessionCount == (if prev.Some? then prev.value.sessionCount else 0) + 1
    ensures r.userName == e.userName
  {
    var base := if prev.Some? then prev.value else VcStat(e.userName, 0, 0, map[]);
    var ch := if e.channelId in base.channelBreakdown then base.channelBreakdown[e.channelId]
              else ChannelStat(e.channelName, 0, 0);
    VcStat(e.userName, base.totalTime + e.duration, base.sessionCount + 1,
           base.channelBreakdown[e.channelId := ChannelStat(e.channelName, ch.time + e.duration, ch.sessions + 1)])
  }

  // ---------------------------------------------------------------------------
  // The totals are the sums of the logged sessions

  /** The stats document built by upserting these entries in order (none when there are none). */
  function Replay(es: seq<VcLogEntry>): Option<VcStat>
  {
    if es == [] then None else Some(AddToStats(Replay(es[..|es| - 1]), es[|es| - 1]))
  }

  function TotalDuration(es: seq<VcLogEntry>): int
  {
    if es == [] then 0 else TotalDuration(es[..|es| - 1]) + es[|es| - 1].duration
  }

  /** The entries of one channel, in order. */
  function InChannel(es: seq<VcLogEntry>, c: Text): seq<VcLogEntry>
  {
    if es == [] then []
    else InChannel(es[..|es| - 1], c) + (if es[|es| - 1].channelId == c then [es[|es| - 1]] else [])
  }

  /**
   * Upserting closed sessions one by one leaves a total time that is the sum of
   * their durations, a session count that is their number, and a breakdown
   * entry for exactly the channels used, each with that channel's sum, count
   * and latest name.
   */
  lemma ReplayTotals(es: seq<VcLogEntry>)
    requires es != []
    ensures Replay(es).Some?
    ensures Replay(es).value.totalTime == TotalDuration(es)
    ensures Replay(es).value.sessionCount == |es|
    ensures Replay(es).value.userName == es[|es| - 1].userName
    ensures forall c :: c in Replay(es).value.channelBreakdown <==> InChannel(es, c) != []
    ensures forall c :: c in Replay(es).value.channelBreakdown ==>
      Replay(es).value.channelBreakdown[c].time == TotalDuration(InChannel(es, c))
      && Replay(es).value.channelBreakdown[c].sessions == |InChannel(es, c)|
      && Replay(es).value.channelBreakdown[c].name == InChannel(es, c)[|InChannel(es, c)| - 1].channelName
  {
    ReplayScalars(es);
    forall c ensures c in Replay(es).value.channelBreakdown <==> InChannel(es, c) != [] {
      ReplayChannel(es, c);
    }
    forall c | c in Replay(es).value.channelBreakdown
      ensures Replay(es).value.channelBreakdown[c].time == TotalDuration(InChannel(es, c))
      && Replay(es).value.channelBreakdown[c].sessions == |InChannel(es, c)|
      && Replay(es).value.channelBreakdown[c].name == InChannel(es, c)[|InChannel(es, c)| - 1].channelName
    {
      ReplayChannel(es, c);
    }
  }

  lemma {:induction false} ReplayScalars(es: seq<VcLogEntry>)
    requires es != []
    ensures Replay(es).Some?
    ensures Replay(es).value.totalTime == TotalDuration(es)
    ensures Replay(es).value.sessionCount == |es|
  {
    var init := es[..|es| - 1];
    if init != [] {
      ReplayScalars(init);
    }
  }

  lemma TotalDurationAppend(es: seq<VcLogEntry>, e: VcLogEntry)
    ensures TotalDuration(es + [e]) == TotalDuration(es) + e.duration
  {
    assert (es + [e])[..|es|] == es;
  }

  lemma {:induction false} ReplayChannel(es: seq<VcLogEntry>, c: Text)
    requires es != []
    ensures Replay(es).Some?
    ensures c in Replay(es).value.channelBreakdown <==> InChannel(es, c) != []
    ensures c in Replay(es).value.channelBreakdown ==>
      var ch := Replay(es).value.channelBreakdown[c];
      var ic := InChannel(es, c);
      ch.time == TotalDuration(ic) && ch.sessions == |ic| && ch.name == ic[|ic| - 1].channelName
  {
    var init := es[..|es| - 1];
    var e := es[|es| - 1];
    if init == [] {
      assert InChannel(init, c) == [];
      TotalDurationAppend([], e);
    } else {
      ReplayChannel(init, c);
      var prev := InChannel(init, c);
      if e.channelId == c {
        assert InChannel(es, c) == prev + [e];
        TotalDurationAppend(prev, e);
      } else {
        assert InChannel(es, c) == prev;
      }
    }
  }

  /** The log entries of one guild and user, in order. */
  function EntriesOf(log: seq<VcLogEntry>, k: StatKey): seq<VcLogEntry>
  {
    if log == [] then []
    else EntriesOf(log[..|log| - 1], k) + (if KeyOf(log[|log| - 1]) == k then [log[|log| - 1]] else [])
  }

  lemma {:induction false} EntriesOfNone(log: seq<VcLogEntry>, k: StatKey)
    requires forall i :: 0 <= i < |log| ==> KeyOf(log[i]) != k
    ensures EntriesOf(log, k) == []
  {
    if log != [] {
      EntriesOfNone(log[..|log| - 1], k);
    }
  }

  /** Every stats document is what upserting its user's logged sessions gives, and every logged user has one. */
  ghost predicate Accounted(log: seq<VcLogEntry>, stats: map<StatKey, VcStat>)
  {
    (forall k :: k in stats ==> Replay(EntriesOf(log, k)) == Some(stats[k]))
    && (forall i :: 0 <= i < |log| ==> KeyOf(log[i]) in stats)
  }

  function Get(stats: map<StatKey, VcStat>, k: StatKey): Option<VcStat>
  {
    if k in stats then Some(stats[k]) else None
  }

  /** Logging a closed session and upserting its stats together keep the stats accounted for. */
  lemma RecordKeepsAccounted(log: seq<VcLogEntry>, stats: map<StatKey, VcStat>, e: VcLogEntry)
    requires Accounted(log, stats)
    ensures Accounted(log + [e], stats[KeyOf(e) := AddToStats(Get(stats, KeyOf(e)), e)])
  {
    var log' := log + [e];
    var stats' := stats[KeyOf(e) := AddToStats(Get(stats, KeyOf(e)), e)];
    assert log'[..|log'| - 1] == log;
    forall k | k in stats' ensures Replay(EntriesOf(log', k)) == Some(stats'[k]) {
      if k == KeyOf(e) {
        var prev := EntriesOf(log, k);
        assert EntriesOf(log', k) == prev + [e];
        assert (prev + [e])[..|prev|] == prev;
        if k !in stats {
          EntriesOfNone(log, k);
        }
      } else {
        assert EntriesOf(log', k) == EntriesOf(log, k);
      }
    }
  }

  // ---------------------------------------------------------------------------
  // The handler

  /** Logs a closed session, and upserts the stats only if the log write succeeded first. */
  function RecordedLog(log: seq<VcLogEntry>, e: VcLogEntry, logOk: bool): seq<VcLogEntry>
  {
    if logOk then log + [e] else log
  }

  function RecordedStats(stats: map<StatKey, VcStat>, e: VcLogEntry, logOk: bool, statOk: bool): map<StatKey, VcStat>
  {
    if logOk && statOk then stats[KeyOf(e) := AddToStats(Get(stats, KeyOf(e)), e)] else stats
  }

  class VoiceTracker {
    var activeSessions: map<Text, VoiceSession>
    /** The VCLog collection, in insertion order. */
    var vcLog: seq<VcLogEntry>
    /** The VCStat collection. */
    var vcStats: map<StatKey, VcStat>

    /** Each session is stored under its own guild and user. */
    ghost predicate Valid()
      reads this
    {
      forall k :: k in activeSessions ==> k == SessionKey(activeSessions[k].guildId, activeSessions[k].userId)
    }

    constructor ()
      ensures activeSessions == map[] && vcLog == [] && vcStats == map[]
      ensures Valid() && Accounted(vcLog, vcStats)
    {
      activeSessions := map[];
      vcLog := [];
      vcStats := map[];
    }

    /**
     * One VoiceStateUpdate: `now` is the Date.now() read when the change is
     * handled, `later` the one read when a switch opens the new session.
     */
    method HandleVoiceStateUpdate(e: VoiceUpdate, now: int, later: int, logOk: bool, statOk: bool)
      requires Valid()
      modifies this
      ensures Valid()
      ensures !Truthy(e.userId) || !Truthy(e.guildId) || !(IsJoin(e) || IsLeave(e) || IsSwitch(e)) ==>
        activeSessions == old(activeSessions) && vcLog == old(vcLog) && vcStats == old(vcStats)
      ensures Truthy(e.userId) && Truthy(e.guildId) ==>
        var u, g := e.userId.value, e.guildId.value;
        var key := SessionKey(g, u);
        (IsJoin(e) ==>
          activeSessions == old(activeSessions)[key := VoiceSession(u, e.userName, e.newChannel.value.id, e.newChannel.value.name, g, now)]
          && vcLog == old(vcLog) && vcStats == old(vcStats))
        && (IsLeave(e) && key !in old(activeSessions) ==>
          activeSessions == old(activeSessions) && vcLog == old(vcLog) && vcStats == old(vcStats))
        && (IsLeave(e) && key in old(activeSessions) ==>
          var entry := Closing(old(activeSessions)[key], e, now, None);
          activeSessions == old(activeSessions) - {key}
          && vcLog == RecordedLog(old(vcLog), entry, logOk)
          && vcStats == RecordedStats(old(vcStats), entry, logOk, statOk))
        && (IsSwitch(e) ==>
          activeSessions == old(activeSessions)[key := VoiceSession(u, e.userName, e.newChannel.value.id, e.newChannel.value.name, g, later)]
          && (key !in old(activeSessions) ==> vcLog == old(vcLog) && vcStats == old(vcStats))
          && (key in old(activeSessions) ==>
            var entry := Closing(old(activeSessions)[key], e, now, Some(e.newChannel.value.name));
            vcLog == RecordedLog(old(vcLog), entry, logOk)
            && vcStats == RecordedStats(old(vcStats), entry, logOk, statOk)))
      ensures old(Accounted(vcLog, vcStats)) && logOk && statOk ==> Accounted(vcLog, vcStats)
    {
      if !Truthy(e.userId) || !Truthy(e.guildId) {
        return;
      }
      var u, g := e.userId.value, e.guildId.value;
      var key := SessionKey(g, u);
      if IsJoin(e) {
        activeSessions := activeSessions[key := VoiceSession(u, e.userName, e.newChannel.value.id, e.newChannel.value.name, g, now)];
      } else if IsLeave(e) {
        if key in activeSessions {
          var entry := Closing(activeSessions[key], e, now, None);
          Record(entry, logOk, statOk);
          activeSessions := activeSessions - {key};
        }
      } else if IsSwitch(e) {
        if key in activeSessions {
          var entry := Closing(activeSessions[key], e, now, Some(e.newChannel.value.name));
          Record(entry, logOk, statOk);
        }
        activeSessions := activeSessions[key := VoiceSession(u, e.userName, e.newChannel.value.id, e.newChannel.value.name, g, later)];
      }
    }

    /** `VCLog.create` then `VCStat.updateOne` inside one try: a failed log write skips the stats. */
    method Record(entry: VcLogEntry, logOk: bool, statOk: bool)
      modifies this`vcLog, this`vcStats
      ensures vcLog == RecordedLog(old(vcLog), entry, logOk)
      ensures vcStats == RecordedStats(old(vcStats), entry, logOk, statOk)
      ensures old(Accounted(vcLog, vcStats)) && logOk && statOk ==> Accounted(vcLog, vcStats)
    {
      if !logOk {
        return;
      }
      ghost var log0, stats0 := vcLog, vcStats;
      vcLog := vcLog + [entry];
      if statOk {
        vcStats := vcStats[KeyOf(entry) := AddToStats(Get(vcStats, KeyOf(entry)), entry)];
        if Accounted(log0, stats0) {
          RecordKeepsAccounted(log0, stats0, entry);
        }
      }
    }
  }
}
