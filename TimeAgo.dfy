/**
 * `formatTimeAgo(timestamp)` of commands/messagestats.js and
 * commands/vclog.js: whole seconds elapsed by floor division, shown as the
 * phrase for under a minute, else in whole minutes, hours or days. The two
 * copies differ only in the phrase ('Just now' and 'just now'), which is a
 * parameter here, as is the clock reading `now`.
 */
module TimeAgo {
  import opened JsText

  const Minute: nat := 60
  const Hour: nat := 3600
  const Day: nat := 86400

  /** messagestats.js's phrase for a recent time. */
  const JustNowCapital: Text := Lit("Just now")
  /** vclog.js's phrase for a recent time. */
  const JustNowLower: Text := Lit("just now")

  /** The unit a recent time is shown in. */
  datatype Ago = JustNow | MinutesAgo(minutes: nat) | HoursAgo(hours: nat) | DaysAgo(days: nat)

  /** `Math.floor((now - timestamp) / 1000)`: Dafny's `/` rounds down for a positive divisor. */
  function ElapsedSeconds(now: int, timestamp: int): int
  {
    (now - timestamp) / 1000
  }

  /** The source's four comparisons, in order. */
  function Classify(seconds: int): (a: Ago)
    ensures a == JustNow <==> seconds < Minute
    ensures a.MinutesAgo? <==> Minute <= seconds < Hour
    ensures a.HoursAgo? <==> Hour <= seconds < Day
    ensures a.DaysAgo? <==> Day <= seconds
    ensures a.MinutesAgo? ==> 1 <= a.minutes < 60 && a.minutes * Minute <= seconds < a.minutes * Minute + Minute
    ensures a.HoursAgo? ==> 1 <= a.hours < 24 && a.hours * Hour <= seconds < a.hours * Hour + Hour
    ensures a.DaysAgo? ==> 1 <= a.days && a.days * Day <= seconds < a.days * Day + Day
  {
    if seconds < Minute then JustNow
    else if seconds < Hour then MinutesAgo(seconds / Minute)
    else if seconds < Day then HoursAgo(seconds / Hour)
    else DaysAgo(seconds / Day)
  }

  const MinutesSuffix: Text := Lit("m ago")
  const HoursSuffix: Text := Lit("h ago")
  const DaysSuffix: Text := Lit("d ago")

  function Render(a: Ago, justNow: Text): Text
  {
    match a
    case JustNow => justNow
    case MinutesAgo(m) => NatText(m) + MinutesSuffix
    case HoursAgo(h) => NatText(h) + HoursSuffix
    case DaysAgo(d) => NatText(d) + DaysSuffix
  }

  function FormatTimeAgo(now: int, timestamp: int, justNow: Text): Text
  {
    Render(Classify(ElapsedSeconds(now, timestamp)), justNow)
  }

  /** Reads a rendered time back; the phrase is recognised as itself. */
  function ParseAgo(t: Text, justNow: Text): Option<Ago>
  {
    if t == justNow then Some(JustNow)
    else match ReadNat(t)
      case None => None
      case Some((n, rest)) =>
        if rest == MinutesSuffix then Some(MinutesAgo(n))
        else if rest == HoursSuffix then Some(HoursAgo(n))
        else if rest == DaysSuffix then Some(DaysAgo(n))
        else None
  }

  /** A phrase that does not start with a digit cannot be mistaken for a count. */
  predicate PhraseOk(justNow: Text)
  {
    justNow == [] || !IsDigit(justNow[0])
  }

  lemma BothPhrasesOk()
    ensures PhraseOk(JustNowCapital) && PhraseOk(JustNowLower)
  {
  }

  /** Nothing is lost in rendering: the unit and the count read back. */
  lemma RenderRoundTrip(a: Ago, justNow: Text)
    requires PhraseOk(justNow)
    ensures ParseAgo(Render(a, justNow), justNow) == Some(a)
  {
    assert MinutesSuffix != HoursSuffix by { assert MinutesSuffix[0] != HoursSuffix[0]; }
    assert MinutesSuffix != DaysSuffix by { assert MinutesSuffix[0] != DaysSuffix[0]; }
    assert HoursSuffix != DaysSuffix by { assert HoursSuffix[0] != DaysSuffix[0]; }
    match a
    case JustNow =>
    case MinutesAgo(m) => CountRoundTrip(m, MinutesSuffix, justNow);
    case HoursAgo(h) => CountRoundTrip(h, HoursSuffix, justNow);
    case DaysAgo(d) => CountRoundTrip(d, DaysSuffix, justNow);
  }

  lemma CountRoundTrip(n: nat, suffix: Text, justNow: Text)
    requires PhraseOk(justNow)
    requires suffix != [] && !IsDigit(suffix[0])
    ensures NatText(n) + suffix != justNow
    ensures ReadNat(NatText(n) + suffix) == Some((n, suffix))
  {
    ReadNatText(n, suffix);
    assert (NatText(n) + suffix)[0] == NatText(n)[0];
  }

  /** The shown time reads back to the unit and count of the elapsed seconds. */
  lemma FormatTimeAgoReadsBack(now: int, timestamp: int, justNow: Text)
    requires PhraseOk(justNow)
    ensures ParseAgo(FormatTimeAgo(now, timestamp, justNow), justNow) == Some(Classify(ElapsedSeconds(now, timestamp)))
  {
    RenderRoundTrip(Classify(ElapsedSeconds(now, timestamp)), justNow);
  }

  /** The least number of seconds a shown time stands for. */
  function Floor(a: Ago): nat
  {
    match a
    case JustNow => 0
    case MinutesAgo(m) => m * Minute
    case HoursAgo(h) => h * Hour
    case DaysAgo(d) => d * Day
  }

  /** The shown time never exceeds the elapsed time, and misses it by less than one of its unit. */
  lemma ClassifyBounds(seconds: int)
    requires seconds >= Minute
    ensures Floor(Classify(seconds)) <= seconds
    ensures Classify(seconds).MinutesAgo? ==> seconds - Floor(Classify(seconds)) < Minute
    ensures Classify(seconds).HoursAgo? ==> seconds - Floor(Classify(seconds)) < Hour
    ensures Classify(seconds).DaysAgo? ==> seconds - Floor(Classify(seconds)) < Day
  {
  }

  /** As the clock advances the shown time never goes back. */
  lemma ClassifyMonotone(s1: int, s2: int)
    requires s1 <= s2
    ensures Floor(Classify(s1)) <= Floor(Classify(s2))
  {
    var a1, a2 := Classify(s1), Classify(s2);
    if a1.MinutesAgo? && a2.MinutesAgo? {
      assert s1 / 60 <= s2 / 60;
    } else if a1.HoursAgo? && a2.HoursAgo? {
      assert s1 / 3600 <= s2 / 3600;
    } else if a1.DaysAgo? && a2.DaysAgo? {
      assert s1 / 86400 <= s2 / 86400;
    }
  }
}
