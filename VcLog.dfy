/**
 * commands/vclog.js: the query built from the options (a default limit of
 * 10, a user filter only when a user is chosen), the numbered entries, and
 * the field value cut to 4000 code units.
 *
 * The database's `find(query).sort({ leaveTime: -1 }).limit(limit)` is
 * modelled on a given list of VCLog documents.
 */
module VcLog {
  import opened JsText
  import Ranking
  import TimeAgo
  import VoiceTracking

  type VcLogEntry = VoiceTracking.VcLogEntry

  const DefaultLimit: nat := 10
  const FieldLimit: nat := 4000

  /** `getInteger('limit') || 10`: an absent option, or 0, gives the default. */
  function Limit(given: Option<nat>): (r: nat)
    ensures given.None? || given == Some(0) ==> r == DefaultLimit
    ensures given.Some? && given.value > 0 ==> r == given.value
  {
    if given.None? || given.value == 0 then DefaultLimit else given.value
  }

  /** `{ guildId }`, with `userId` set only when a user is chosen. */
  datatype LogQuery = LogQuery(guildId: Text, userId: Option<Text>)

  function Query(guildId: Text, filterUser: Option<Text>): LogQuery
  {
    LogQuery(guildId, filterUser)
  }

  predicate Matches(q: LogQuery, e: VcLogEntry)
  {
    e.guildId == q.guildId && (q.userId.Some? ==> e.userId == q.userId.value)
  }

  /** Without a user every entry of the guild matches; with one, only that user's. */
  lemma QueryFilter(guildId: Text, filterUser: Option<Text>, e: VcLogEntry)
    ensures filterUser.None? ==> (Matches(Query(guildId, filterUser), e) <==> e.guildId == guildId)
    ensures filterUser.Some? ==>
      (Matches(Query(guildId, filterUser), e) <==> e.guildId == guildId && e.userId == filterUser.value)
  {
  }

  function Filter(all: seq<VcLogEntry>, q: LogQuery): (r: seq<VcLogEntry>)
    ensures forall e :: e in r <==> e in all && Matches(q, e)
    ensures |r| <= |all|
  {
    if all == [] then []
    else (if Matches(q, all[0]) then [all[0]] else []) + Filter(all[1..], q)
  }

  function ByLeaveTime(e: VcLogEntry): int
  {
    e.leaveTime
  }

  /** The documents the query returns: the matching ones, latest leave first, at most `limit`. */
  function Fetch(all: seq<VcLogEntry>, q: LogQuery, limit: nat): seq<VcLogEntry>
  {
    Ranking.TopN(Filter(all, q), ByLeaveTime, limit)
  }

  /** At most `limit` matching documents, latest first, and none left out that left later than one shown. */
  lemma FetchSpec(all: seq<VcLogEntry>, q: LogQuery, limit: nat)
    ensures |Fetch(all, q, limit)| <= limit
    ensures |Fetch(all, q, limit)| == if |Filter(all, q)| < limit then |Filter(all, q)| else limit
    ensures forall e :: e in Fetch(all, q, limit) ==> e in all && Matches(q, e)
    ensures Ranking.SortedDesc(Fetch(all, q, limit), ByLeaveTime)
    ensures forall e :: e in all && Matches(q, e) && e !in Fetch(all, q, limit) ==>
      forall i :: 0 <= i < |Fetch(all, q, limit)| ==> e.leaveTime <= Fetch(all, q, limit)[i].leaveTime
  {
    Ranking.TopNIsTop(Filter(all, q), ByLeaveTime, limit);
    FetchFromQuery(all, q, limit);
    FetchOmitted(all, q, limit);
  }

  lemma FetchFromQuery(all: seq<VcLogEntry>, q: LogQuery, limit: nat)
    ensures forall e :: e in Fetch(all, q, limit) ==> e in all && Matches(q, e)
  {
    var r := Fetch(all, q, limit);
    Ranking.TopNIsTop(Filter(all, q), ByLeaveTime, limit);
    forall e | e in r ensures e in Filter(all, q) {
      assert e in multiset(r);
    }
  }

  lemma FetchOmitted(all: seq<VcLogEntry>, q: LogQuery, limit: nat)
    ensures forall e :: e in all && Matches(q, e) && e !in Fetch(all, q, limit) ==>
      forall i :: 0 <= i < |Fetch(all, q, limit)| ==> e.leaveTime <= Fetch(all, q, limit)[i].leaveTime
  {
    var f := Filter(all, q);
    var r := Fetch(all, q, limit);
    forall e | e in all && Matches(q, e) && e !in r
      ensures forall i :: 0 <= i < |r| ==> e.leaveTime <= r[i].leaveTime
    {
      Ranking.TopNOmitted(f, ByLeaveTime, limit, e);
      forall i | 0 <= i < |r| ensures e.leaveTime <= r[i].leaveTime {
        assert ByLeaveTime(e) <= ByLeaveTime(r[i]);
      }
    }
  }

  // ---------------------------------------------------------------------------
  // Entries

  /** ` → #<channel>` when the session ended by a switch. */
  function SwitchNote(switchedTo: Option<Text>): (r: Text)
    ensures r == [] <==> !Truthy(switchedTo)
  {
    if Truthy(switchedTo) then Lit(" → #") + switchedTo.value else []
  }

  /** "**<n>.**" */
  function Number(index: nat): Text
  {
    Lit("**") + NatText(index + 1) + Lit(".**")
  }

  /** What follows the number: " <@user> in **#<channel>**<note>\n   ⏱️ <duration> • <time ago>" */
  function EntryBody(log: VcLogEntry, now: int): Text
  {
    Lit(" <@") + log.userId + Lit("> in **#") + log.channelName + Lit("**") + SwitchNote(log.switchedTo)
      + Lit("\n   ⏱️ ") + log.durationFormatted + Lit(" • ") + TimeAgo.FormatTimeAgo(now, log.leaveTime, TimeAgo.JustNowLower)
  }

  /** "**<n>.** <@user> in **#<channel>**<note>\n   ⏱️ <duration> • <time ago>" */
  function EntryText(index: nat, log: VcLogEntry, now: int): (r: Text)
    ensures StartsWith(r, Number(index))
  {
    var rest := EntryBody(log, now);
    assert (Number(index) + rest)[..|Number(index)|] == Number(index);
    Number(index) + rest
  }

  /** The number an entry starts with reads back as its position counted from 1. */
  lemma EntryNumbered(index: nat, log: VcLogEntry, now: int)
    ensures ReadNat(EntryText(index, log, now)[2..]).Some?
    ensures ReadNat(EntryText(index, log, now)[2..]).value.0 == index + 1
  {
    NumberReads(index, EntryBody(log, now));
  }

  lemma NumberReads(index: nat, rest: Text)
    ensures ReadNat((Number(index) + rest)[2..]) == Some((index + 1, Lit(".**") + rest))
  {
    var n := NatText(index + 1);
    var tail := Lit(".**") + rest;
    assert Number(index) + rest == Lit("**") + (n + tail);
    assert (Number(index) + rest)[2..] == n + tail;
    assert tail[0] == 0x2E;
    ReadNatText(index + 1, tail);
  }

  function Entries(logs: seq<VcLogEntry>, now: int): (r: seq<Text>)
    ensures |r| == |logs|
    ensures forall i :: 0 <= i < |logs| ==> r[i] == EntryText(i, logs[i], now)
  {
    seq(|logs|, i requires 0 <= i < |logs| => EntryText(i, logs[i], now))
  }

  /** The entries joined by blank lines. */
  function Journal(logs: seq<VcLogEntry>, now: int): Text
  {
    Join(Entries(logs, now), Lit("\n\n"))
  }

  /**
   * The "Recent Activity" field: none when nothing was returned; else a
   * prefix of the journal of at most 4000 code units, all of it when it fits.
   */
  function ActivityField(logs: seq<VcLogEntry>, now: int): (r: Option<Text>)
    ensures r.Some? <==> logs != []
    ensures r.Some? ==> |r.value| <= FieldLimit && StartsWith(Journal(logs, now), r.value)
    ensures r.Some? && |Journal(logs, now)| <= FieldLimit ==> r.value == Journal(logs, now)
  {
    if logs == [] then None else Some(Take(Journal(logs, now), FieldLimit))
  }
}
