/**
 * The figures of commands/messagestats.js: the last-active time and the
 * top channels by message count, with a medal per rank.
 */
module MessageStats {
  import opened JsText
  import Ranking
  import TimeAgo

  /** A `channelBreakdown` entry of a MessageStat document. */
  datatype ChannelCount = ChannelCount(id: Text, name: Text, count: int)

  function ByCount(c: ChannelCount): int
  {
    c.count
  }

  /** `formatTimeAgo(userStats.lastActive)`, with the capitalised phrase. */
  function LastActive(now: int, lastActive: int): Text
  {
    TimeAgo.FormatTimeAgo(now, lastActive, TimeAgo.JustNowCapital)
  }

  /** The last-active field reads back to the elapsed time it was made from. */
  lemma LastActiveReadsBack(now: int, lastActive: int)
    ensures TimeAgo.ParseAgo(LastActive(now, lastActive), TimeAgo.JustNowCapital)
      == Some(TimeAgo.Classify(TimeAgo.ElapsedSeconds(now, lastActive)))
  {
    TimeAgo.BothPhrasesOk();
    TimeAgo.FormatTimeAgoReadsBack(now, lastActive, TimeAgo.JustNowCapital);
  }

  /** One line of the Top Channels field: its medal and the channel it names (the counts' locale formatting is not modelled). */
  datatype RankedLine = RankedLine(medal: Text, channel: ChannelCount)

  /** The lines for the first five channels by count. */
  function TopLines(breakdown: seq<ChannelCount>): (lines: seq<RankedLine>)
    ensures |lines| == |Ranking.Top(breakdown, ByCount)|
    ensures forall i :: 0 <= i < |lines| ==> lines[i] == RankedLine(Ranking.Medal(i), Ranking.Top(breakdown, ByCount)[i])
  {
    var top := Ranking.Top(breakdown, ByCount);
    seq(|top|, i requires 0 <= i < |top| => RankedLine(Ranking.Medal(i), top[i]))
  }

  /** The Top Channels field's lines; no field is added when the breakdown is empty. */
  function TopChannels(breakdown: seq<ChannelCount>): Option<seq<RankedLine>>
  {
    if breakdown == [] then None else Some(TopLines(breakdown))
  }

  /**
   * At most five channels are shown, with the most messages first, each with
   * the medal of its rank, and no channel left out has more messages than a
   * channel shown.
   */
  lemma TopChannelsRanked(breakdown: seq<ChannelCount>)
    ensures TopChannels(breakdown).Some? <==> breakdown != []
    ensures breakdown != [] ==> TopChannels(breakdown) == Some(TopLines(breakdown))
    ensures |TopLines(breakdown)| == (if |breakdown| < Ranking.TopCount then |breakdown| else Ranking.TopCount)
    ensures forall i :: 0 <= i < |TopLines(breakdown)| ==> TopLines(breakdown)[i].medal == Ranking.Medal(i)
    ensures forall i, j :: 0 <= i < j < |TopLines(breakdown)| ==>
      TopLines(breakdown)[i].channel.count >= TopLines(breakdown)[j].channel.count
    ensures forall i :: 0 <= i < |TopLines(breakdown)| ==> TopLines(breakdown)[i].channel in breakdown
    ensures forall c :: c in breakdown && Omitted(TopLines(breakdown), c) ==>
      forall i :: 0 <= i < |TopLines(breakdown)| ==> c.count <= TopLines(breakdown)[i].channel.count
  {
    Ranking.TopIsTop(breakdown, ByCount);
    LinesFromInput(breakdown);
    LinesOmitted(breakdown);
  }

  predicate Omitted(lines: seq<RankedLine>, c: ChannelCount)
  {
    forall i :: 0 <= i < |lines| ==> lines[i].channel != c
  }

  lemma LinesFromInput(breakdown: seq<ChannelCount>)
    ensures forall i :: 0 <= i < |TopLines(breakdown)| ==> TopLines(breakdown)[i].channel in breakdown
  {
    var top := Ranking.Top(breakdown, ByCount);
    Ranking.TopIsTop(breakdown, ByCount);
    forall i | 0 <= i < |top| ensures top[i] in breakdown {
      assert top[i] in multiset(top);
    }
  }

  lemma LinesOmitted(breakdown: seq<ChannelCount>)
    ensures forall c :: c in breakdown && Omitted(TopLines(breakdown), c) ==>
      forall i :: 0 <= i < |TopLines(breakdown)| ==> c.count <= TopLines(breakdown)[i].channel.count
  {
    var top := Ranking.Top(breakdown, ByCount);
    var lines := TopLines(breakdown);
    Ranking.TopIsTop(breakdown, ByCount);
    forall c | c in breakdown && Omitted(lines, c)
      ensures forall i :: 0 <= i < |lines| ==> c.count <= lines[i].channel.count
    {
      assert c !in multiset(top);
      assert c in multiset(breakdown) - multiset(top);
      forall i | 0 <= i < |lines| ensures c.count <= lines[i].channel.count {
        assert ByCount(c) <= ByCount(top[i]);
      }
    }
  }
}
