/**
 * `formatDuration(ms)` from index.js (voice/VoiceRecorder.js carries an
 * identical copy): whole seconds, minutes and hours by floor division, shown
 * as "Hh Mm Ss", "Mm Ss" or "Ss".
 */
module Duration {
  import opened JsText

  /** Math.floor(x / d) for a positive divisor: Dafny's `/` already rounds down when d > 0. */
  function FloorDiv(x: int, d: int): (q: int)
    requires d > 0
    ensures q * d <= x < q * d + d
  {
    x / d
  }

  /** "<s>s" */
  function SecondsText(s: int): Text
  {
    IntText(s) + Lit("s")
  }

  /** "<m>m <s>s" */
  function MinutesText(m: nat, s: nat): Text
  {
    NatText(m) + Lit("m ") + SecondsText(s)
  }

  /** "<h>h <m>m <s>s" */
  function HoursText(h: nat, m: nat, s: nat): Text
  {
    NatText(h) + Lit("h ") + MinutesText(m, s)
  }

  function FormatDuration(ms: int): Text
  {
    var seconds := FloorDiv(ms, 1000);
    var minutes := FloorDiv(seconds, 60);
    var hours := FloorDiv(minutes, 60);
    // hours > 0 implies minutes and seconds are positive, where JavaScript's `%` agrees with Dafny's
    if hours > 0 then HoursText(hours, minutes % 60, seconds % 60)
    else if minutes > 0 then MinutesText(minutes, seconds % 60)
    else SecondsText(seconds)
  }

  /** Reads a number followed by `suffix` at the front of `t`, returning the number and what follows. */
  function AfterNumber(t: Text, suffix: Text): Option<(nat, Text)>
  {
    match ReadNat(t)
    case None => None
    case Some((n, r)) => if StartsWith(r, suffix) then Some((n, r[|suffix|..])) else None
  }

  /** "<s>s" */
  function SecondsForm(t: Text): Option<nat>
  {
    match AfterNumber(t, Lit("s"))
    case Some((s, rest)) => if rest == [] then Some(s) else None
    case None => None
  }

  /** "<m>m <s>s", as seconds */
  function MinutesForm(t: Text): Option<nat>
  {
    match AfterNumber(t, Lit("m "))
    case Some((m, rest)) => (match SecondsForm(rest) case Some(s) => Some(m * 60 + s) case None => None)
    case None => None
  }

  /** "<h>h <m>m <s>s", as seconds */
  function HoursForm(t: Text): Option<nat>
  {
    match AfterNumber(t, Lit("h "))
    case Some((h, rest)) => (match MinutesForm(rest) case Some(ms) => Some(h * 3600 + ms) case None => None)
    case None => None
  }

  /** Reads a rendered duration back to the number of whole seconds it shows. */
  function ParseDuration(t: Text): Option<int>
  {
    if t != [] && t[0] == Minus then
      match SecondsForm(t[1..])
      case Some(n) => if n > 0 then Some(0 - n) else None
      case None => None
    else if SecondsForm(t).Some? then Some(SecondsForm(t).value as int)
    else if MinutesForm(t).Some? then Some(MinutesForm(t).value as int)
    else match HoursForm(t)
      case Some(n) => Some(n as int)
      case None => None
  }

  lemma LitFacts()
    ensures Lit("s") == [115]
    ensures Lit("m ") == [109, 32]
    ensures Lit("h ") == [104, 32]
  {
  }

  lemma AfterNumberText(n: nat, suffix: Text, rest: Text)
    requires suffix != [] && !IsDigit(suffix[0])
    ensures AfterNumber(NatText(n) + suffix + rest, suffix) == Some((n, rest))
  {
    var r := suffix + rest;
    assert NatText(n) + suffix + rest == NatText(n) + r;
    ReadNatText(n, r);
    assert r[..|suffix|] == suffix && r[|suffix|..] == rest;
  }

  lemma AfterNumberMismatch(n: nat, suffix: Text, other: Text, rest: Text)
    requires suffix != [] && other != [] && !IsDigit(other[0]) && other[0] != suffix[0]
    ensures AfterNumber(NatText(n) + other + rest, suffix) == None
  {
    var r := other + rest;
    assert NatText(n) + other + rest == NatText(n) + r;
    ReadNatText(n, r);
    assert r[0] == other[0];
  }

  lemma SecondsFormText(s: nat)
    ensures SecondsForm(SecondsText(s)) == Some(s)
  {
    LitFacts();
    assert SecondsText(s) == NatText(s) + Lit("s") + [];
    AfterNumberText(s, Lit("s"), []);
  }

  lemma MinutesFormText(m: nat, s: nat, n: nat)
    requires n == m * 60 + s
    ensures MinutesForm(MinutesText(m, s)) == Some(n)
    ensures SecondsForm(MinutesText(m, s)) == None
  {
    MinutesFormOf(m, s, n);
    MinutesNotSeconds(m, s);
  }

  lemma MinutesFormOf(m: nat, s: nat, n: nat)
    requires n == m * 60 + s
    ensures MinutesForm(MinutesText(m, s)) == Some(n)
  {
    SecondsFormText(s);
    MinutesFormOn(m, SecondsText(s), s, n);
  }

  /** The minutes form over any tail that reads as seconds. */
  lemma MinutesFormOn(m: nat, tail: Text, s: nat, n: nat)
    requires SecondsForm(tail) == Some(s)
    requires n == m * 60 + s
    ensures MinutesForm(NatText(m) + Lit("m ") + tail) == Some(n)
  {
    LitFacts();
    AfterNumberText(m, Lit("m "), tail);
  }

  lemma MinutesNotSeconds(m: nat, s: nat)
    ensures SecondsForm(MinutesText(m, s)) == None
  {
    LitFacts();
    AfterNumberMismatch(m, Lit("s"), Lit("m "), SecondsText(s));
  }

  lemma HoursFormText(h: nat, m: nat, s: nat, n: nat)
    requires n == h * 3600 + m * 60 + s
    ensures HoursForm(HoursText(h, m, s)) == Some(n)
    ensures SecondsForm(HoursText(h, m, s)) == None
    ensures MinutesForm(HoursText(h, m, s)) == None
  {
    HoursFormOf(h, m, s, n);
    HoursNotShorter(h, m, s);
  }

  lemma HoursFormOf(h: nat, m: nat, s: nat, n: nat)
    requires n == h * 3600 + m * 60 + s
    ensures HoursForm(HoursText(h, m, s)) == Some(n)
  {
    var k := m * 60 + s;
    assert n == h * 3600 + k;
    MinutesFormOf(m, s, k);
    assert HoursText(h, m, s) == NatText(h) + Lit("h ") + MinutesText(m, s);
    HoursFormOn(h, MinutesText(m, s), k, n);
  }

  /** The hours form over any tail that reads as minutes and seconds. */
  lemma HoursFormOn(h: nat, tail: Text, k: nat, n: nat)
    requires MinutesForm(tail) == Some(k)
    requires n == h * 3600 + k
    ensures HoursForm(NatText(h) + Lit("h ") + tail) == Some(n)
  {
    LitFacts();
    AfterNumberText(h, Lit("h "), tail);
  }

  lemma HoursNotShorter(h: nat, m: nat, s: nat)
    ensures SecondsForm(HoursText(h, m, s)) == None
    ensures MinutesForm(HoursText(h, m, s)) == None
  {
    LitFacts();
    var tail := MinutesText(m, s);
    AfterNumberMismatch(h, Lit("s"), Lit("h "), tail);
    AfterNumberMismatch(h, Lit("m "), Lit("h "), tail);
  }

  /** The rendering loses nothing but the milliseconds: it reads back to floor(ms / 1000). */
  lemma FormatDurationRoundTrip(ms: int)
    ensures ParseDuration(FormatDuration(ms)) == Some(ms / 1000)
  {
    var seconds := ms / 1000;
    var minutes := seconds / 60;
    if minutes / 60 > 0 {
      HoursRoundTrip(ms);
    } else if minutes > 0 {
      MinutesRoundTrip(ms);
    } else if seconds >= 0 {
      var s: nat := seconds;
      assert FormatDuration(ms) == SecondsText(s);
      SecondsParse(s);
    } else {
      assert FormatDuration(ms) == SecondsText(seconds);
      NegativeSeconds(seconds);
    }
  }

  lemma HoursRoundTrip(ms: int)
    requires ms / 1000 / 60 / 60 > 0
    ensures ParseDuration(FormatDuration(ms)) == Some(ms / 1000)
  {
    HoursChosen(ms);
    SplitSeconds(ms / 1000);
    HoursParse(ms / 1000 / 60 / 60, ms / 1000 / 60 % 60, ms / 1000 % 60, ms / 1000);
  }

  /** The hours form is the one chosen, with the fields the body computes. */
  lemma HoursChosen(ms: int)
    requires ms / 1000 / 60 / 60 > 0
    ensures ms / 1000 / 60 % 60 >= 0 && ms / 1000 % 60 >= 0
    ensures FormatDuration(ms) == HoursText(ms / 1000 / 60 / 60, ms / 1000 / 60 % 60, ms / 1000 % 60)
  {
  }

  /** The minutes form is the one chosen, with the fields the body computes. */
  lemma MinutesChosen(ms: int)
    requires ms / 1000 / 60 / 60 <= 0 < ms / 1000 / 60
    ensures FormatDuration(ms) == MinutesText(ms / 1000 / 60, ms / 1000 % 60)
  {
  }

  /** Whole seconds are the sum of their hour, minute and second fields. */
  lemma SplitSeconds(seconds: int)
    ensures seconds / 60 / 60 * 3600 + seconds / 60 % 60 * 60 + seconds % 60 == seconds
    ensures seconds / 60 * 60 + seconds % 60 == seconds
  {
    var minutes := seconds / 60;
    assert seconds == minutes * 60 + seconds % 60;
    assert minutes == minutes / 60 * 60 + minutes % 60;
  }

  lemma MinutesRoundTrip(ms: int)
    requires ms / 1000 / 60 / 60 <= 0 < ms / 1000 / 60
    ensures ParseDuration(FormatDuration(ms)) == Some(ms / 1000)
  {
    MinutesChosen(ms);
    SplitSeconds(ms / 1000);
    MinutesParse(ms / 1000 / 60, ms / 1000 % 60, ms / 1000);
  }

  /** The hours form reads back as its total, `n`. */
  lemma HoursParse(h: nat, m: nat, s: nat, n: nat)
    requires n == h * 3600 + m * 60 + s
    ensures ParseDuration(HoursText(h, m, s)) == Some(n)
  {
    HoursFormText(h, m, s, n);
    assert HoursText(h, m, s)[0] == NatText(h)[0];
  }

  /** The minutes form reads back as its total, `n`. */
  lemma MinutesParse(m: nat, s: nat, n: nat)
    requires n == m * 60 + s
    ensures ParseDuration(MinutesText(m, s)) == Some(n)
  {
    MinutesFormText(m, s, n);
    assert MinutesText(m, s)[0] == NatText(m)[0];
  }

  lemma SecondsParse(s: nat)
    ensures ParseDuration(SecondsText(s)) == Some(s)
  {
    SecondsFormText(s);
    assert SecondsText(s)[0] == NatText(s)[0];
  }

  lemma NegativeSeconds(seconds: int)
    requires seconds < 0
    ensures ParseDuration(SecondsText(seconds)) == Some(seconds)
  {
    var k: nat := -seconds;
    NegativeText(seconds, k);
    SecondsFormText(k);
  }

  /** A negative count of seconds renders as the minus sign and its magnitude. */
  lemma NegativeText(seconds: int, k: nat)
    requires seconds < 0 && k == -seconds
    ensures SecondsText(seconds) != [] && SecondsText(seconds)[0] == Minus
    ensures SecondsText(seconds)[1..] == SecondsText(k)
  {
    var t := [Minus] + SecondsText(k);
    assert SecondsText(seconds) == t;
    assert t[1..] == SecondsText(k);
  }

  /** Two durations render alike exactly when they have the same number of whole seconds. */
  lemma FormatDurationInjective(a: int, b: int)
    ensures FormatDuration(a) == FormatDuration(b) <==> a / 1000 == b / 1000
  {
    FormatDurationRoundTrip(a);
    FormatDurationRoundTrip(b);
  }

  /** Which of the three forms is chosen, and the bounds of the shown fields. */
  lemma FormatDurationFields(ms: int)
    ensures ms >= 3_600_000 ==>
      exists h: nat, m: nat, s: nat :: h >= 1 && m < 60 && s < 60 && h * 3600 + m * 60 + s == ms / 1000
        && FormatDuration(ms) == HoursText(h, m, s)
    ensures 60_000 <= ms < 3_600_000 ==>
      exists m: nat, s: nat :: 1 <= m < 60 && s < 60 && m * 60 + s == ms / 1000
        && FormatDuration(ms) == MinutesText(m, s)
    ensures ms < 60_000 ==> ms / 1000 < 60 && FormatDuration(ms) == SecondsText(ms / 1000)
  {
    var seconds := ms / 1000;
    var minutes := seconds / 60;
    var hours := minutes / 60;
    if ms >= 3_600_000 {
      assert hours >= 1;
      var m: nat, s: nat := minutes % 60, seconds % 60;
      assert hours * 3600 + m * 60 + s == seconds;
      assert FormatDuration(ms) == HoursText(hours, m, s);
    } else if ms >= 60_000 {
      assert hours == 0 && minutes >= 1;
      var s: nat := seconds % 60;
      assert minutes * 60 + s == seconds;
      assert FormatDuration(ms) == MinutesText(minutes, s);
    }
  }
}
