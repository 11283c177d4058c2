/**
 * The prefix commands of index.js: a message from a human that starts with
 * '!' is trimmed after the prefix, its first word (up to the first space) is
 * lower-cased, and 'ping' and 'help' get a fixed reply.
 */
module PrefixCommands {
  import opened JsText

  const Prefix: Text := Lit("!")
  const Space: CodeUnit := 0x20

  const Ping: Text := Lit("ping")
  const Help: Text := Lit("help")
  const PongReply: Text := Lit("Pong!")
  const HelpReply: Text := Lit("Use slash commands!")

  /** The index of the first space, or the length when there is none. */
  function SpaceIndex(t: Text): (k: nat)
    ensures k <= |t|
    ensures forall i :: 0 <= i < k ==> t[i] != Space
    ensures k < |t| ==> t[k] == Space
  {
    if t == [] || t[0] == Space then 0 else 1 + SpaceIndex(t[1..])
  }

  /** `t.split(/ +/)[0]`, the first element `args.shift()` takes. */
  function FirstWord(t: Text): Text
  {
    t[..SpaceIndex(t)]
  }

  /** Lower-casing of one code unit, on the ASCII letters. */
  function LowerUnit(u: CodeUnit): CodeUnit
  {
    if 0x41 <= u <= 0x5A then u + 0x20 else u
  }

  function AsciiLower(t: Text): (r: Text)
    ensures |r| == |t|
    ensures forall i :: 0 <= i < |t| ==> r[i] == LowerUnit(t[i])
  {
    seq(|t|, i requires 0 <= i < |t| => LowerUnit(t[i]))
  }

  /** The command a message names, or None when it does not start with the prefix. */
  function CommandName(content: Text): (r: Option<Text>)
    ensures r.Some? <==> StartsWith(content, Prefix)
  {
    if StartsWith(content, Prefix) then Some(AsciiLower(FirstWord(Trim(content[|Prefix|..])))) else None
  }

  /**
   * The reply to a message, if any. `returnedEarly` says that the AI chat
   * channel's handler already returned: after a PDF summary, a GitHub answer,
   * an image description or an image generation.
   */
  function PrefixReply(authorIsBot: bool, returnedEarly: bool, content: Text): Option<Text>
  {
    if authorIsBot || returnedEarly then None
    else match CommandName(content)
      case None => None
      case Some(name) =>
        if name == Ping then Some(PongReply)
        else if name == Help then Some(HelpReply)
        else None
  }

  /** Which replies are given, and when. */
  lemma PrefixReplyCases(authorIsBot: bool, returnedEarly: bool, content: Text)
    ensures PrefixReply(authorIsBot, returnedEarly, content) == Some(PongReply)
      <==> !authorIsBot && !returnedEarly && CommandName(content) == Some(Ping)
    ensures PrefixReply(authorIsBot, returnedEarly, content) == Some(HelpReply)
      <==> !authorIsBot && !returnedEarly && CommandName(content) == Some(Help)
    ensures PrefixReply(authorIsBot, returnedEarly, content).None? <==>
      authorIsBot || returnedEarly || CommandName(content).None?
      || (CommandName(content).value != Ping && CommandName(content).value != Help)
  {
    assert PongReply != HelpReply by { assert PongReply[0] != HelpReply[0]; }
    assert Ping != Help by { assert Ping[0] != Help[0]; }
  }

  /** Leading whitespace before a non-whitespace code unit is what trimStart removes. */
  lemma {:induction false} TrimStartSkips(ws: Text, s: Text)
    requires forall i :: 0 <= i < |ws| ==> IsJsWhitespace(ws[i])
    requires s == [] || !IsJsWhitespace(s[0])
    ensures TrimStart(ws + s) == s
    decreases |ws|
  {
    if ws != [] {
      assert (ws + s)[1..] == ws[1..] + s;
      TrimStartSkips(ws[1..], s);
    }
  }

  /** A word whose lower-case form is 'ping' or 'help' is made of letters. */
  lemma CommandWordIsLetters(w: Text)
    requires AsciiLower(w) == Ping || AsciiLower(w) == Help
    ensures |w| == 4
    ensures forall i :: 0 <= i < |w| ==> !IsJsWhitespace(w[i]) && w[i] != Space
  {
    forall i | 0 <= i < |w|
      ensures !IsJsWhitespace(w[i]) && w[i] != Space
    {
      assert 0x61 <= LowerUnit(w[i]) <= 0x7A;
    }
  }

  /**
   * A message "!", then any whitespace, then the command in any ASCII case,
   * then either nothing or a space and any arguments, names that command.
   */
  lemma CommandRecognised(ws: Text, w: Text, tail: Text)
    requires forall i :: 0 <= i < |ws| ==> IsJsWhitespace(ws[i])
    requires AsciiLower(w) == Ping || AsciiLower(w) == Help
    requires tail == [] || tail[0] == Space
    ensures CommandName(Prefix + ws + w + tail) == Some(AsciiLower(w))
  {
    CommandWordIsLetters(w);
    WordRecognised(ws, w, tail);
  }

  /** The first word after the prefix and the whitespace, for a word free of whitespace. */
  lemma WordRecognised(ws: Text, w: Text, tail: Text)
    requires forall i :: 0 <= i < |ws| ==> IsJsWhitespace(ws[i])
    requires w != [] && forall i :: 0 <= i < |w| ==> !IsJsWhitespace(w[i]) && w[i] != Space
    requires tail == [] || tail[0] == Space
    ensures CommandName(Prefix + ws + w + tail) == Some(AsciiLower(w))
  {
    var x := ws + w + tail;
    assert Prefix + ws + w + tail == Prefix + x;
    AfterPrefix(x);
    var kept := TrimmedWord(ws, w, tail);
    SpaceIndexAfter(w, kept);
  }

  lemma AfterPrefix(x: Text)
    ensures CommandName(Prefix + x) == Some(AsciiLower(FirstWord(Trim(x))))
  {
    assert (Prefix + x)[..|Prefix|] == Prefix;
    assert (Prefix + x)[|Prefix|..] == x;
  }

  /** Trimming removes the leading whitespace and keeps the word. */
  lemma TrimmedWord(ws: Text, w: Text, tail: Text) returns (kept: Text)
    requires forall i :: 0 <= i < |ws| ==> IsJsWhitespace(ws[i])
    requires w != [] && !IsJsWhitespace(w[0]) && !IsJsWhitespace(w[|w| - 1])
    requires tail == [] || tail[0] == Space
    ensures Trim(ws + w + tail) == w + kept
    ensures kept == [] || kept[0] == Space
  {
    var s := w + tail;
    assert ws + w + tail == ws + s;
    TrimStartSkips(ws, s);
    TrimIsTrimEnd(ws + s, s);
    kept := KeptTail(w, tail);
  }

  lemma TrimIsTrimEnd(t: Text, s: Text)
    requires TrimStart(t) == s
    ensures Trim(t) == TrimEnd(s)
  {
  }

  lemma KeptTail(w: Text, tail: Text) returns (kept: Text)
    requires w != [] && !IsJsWhitespace(w[|w| - 1])
    requires tail == [] || tail[0] == Space
    ensures TrimEnd(w + tail) == w + kept
    ensures kept == [] || kept[0] == Space
  {
    var s := w + tail;
    var r := TrimEnd(s);
    TrimEndKeeps(w, tail);
    kept := tail[..|r| - |w|];
    assert r == s[..|r|] == w + kept;
  }

  /** Trailing whitespace removal stops at a word whose last code unit is not whitespace. */
  lemma TrimEndKeeps(w: Text, tail: Text)
    requires w != [] && !IsJsWhitespace(w[|w| - 1])
    ensures |TrimEnd(w + tail)| >= |w|
  {
    assert (w + tail)[|w| - 1] == w[|w| - 1];
  }

  /** A word without spaces, then nothing or a space: the first space is right after the word. */
  lemma {:induction false} SpaceIndexAfter(w: Text, tail: Text)
    requires forall i :: 0 <= i < |w| ==> w[i] != Space
    requires tail == [] || tail[0] == Space
    ensures FirstWord(w + tail) == w
  {
    assert (w + tail)[..|w|] == w;
  }

  /** The replies, for the messages the previous lemma describes, from a human and not answered earlier. */
  lemma PingAndHelpAnswered(ws: Text, w: Text, tail: Text)
    requires forall i :: 0 <= i < |ws| ==> IsJsWhitespace(ws[i])
    requires tail == [] || tail[0] == Space
    ensures AsciiLower(w) == Ping ==> PrefixReply(false, false, Prefix + ws + w + tail) == Some(PongReply)
    ensures AsciiLower(w) == Help ==> PrefixReply(false, false, Prefix + ws + w + tail) == Some(HelpReply)
  {
    if AsciiLower(w) == Ping || AsciiLower(w) == Help {
      CommandRecognised(ws, w, tail);
      PrefixReplyCases(false, false, Prefix + ws + w + tail);
    }
  }

  /**
   * Conversely, the name of a command is the lower-cased text of a run of
   * the message after the prefix that holds no space and is preceded only by
   * whitespace.
   */
  lemma CommandNameShape(content: Text)
    requires CommandName(content).Some?
    ensures exists a, b :: (1 <= a <= b <= |content|
      && (forall i :: 1 <= i < a ==> IsJsWhitespace(content[i]))
      && (forall i :: a <= i < b ==> content[i] != Space)
      && CommandName(content).value == AsciiLower(content[a..b]))
  {
    var a, b := CommandBounds(content);
  }

  /** Where the command name sits in the message. */
  lemma CommandBounds(content: Text) returns (a: nat, b: nat)
    requires CommandName(content).Some?
    ensures 1 <= a <= b <= |content|
    ensures forall i :: 1 <= i < a ==> IsJsWhitespace(content[i])
    ensures forall i :: a <= i < b ==> content[i] != Space
    ensures CommandName(content).value == AsciiLower(content[a..b])
  {
    PrefixBody(content);
    var k, e := WordBounds(content[1..]);
    a, b := k + 1, e + 1;
    ShiftRuns(content, k, e);
  }

  /** A named command is the first word of the trimmed text after the one-unit prefix. */
  lemma PrefixBody(content: Text)
    requires CommandName(content).Some?
    ensures |content| >= 1
    ensures CommandName(content).value == AsciiLower(FirstWord(Trim(content[1..])))
  {
    assert |Prefix| == 1;
  }

  /** The runs found in the text after the prefix, in the positions of the whole message. */
  lemma ShiftRuns(content: Text, k: nat, e: nat)
    requires 1 <= |content| && k <= e <= |content| - 1
    requires forall i :: 0 <= i < k ==> IsJsWhitespace(content[1..][i])
    requires forall i :: k <= i < e ==> content[1..][i] != Space
    ensures forall i :: 1 <= i < k + 1 ==> IsJsWhitespace(content[i])
    ensures forall i :: k + 1 <= i < e + 1 ==> content[i] != Space
    ensures content[k + 1..e + 1] == content[1..][k..e]
  {
    var body := content[1..];
    forall i | 1 <= i < k + 1 ensures IsJsWhitespace(content[i]) {
      assert content[i] == body[i - 1];
    }
    forall i | k + 1 <= i < e + 1 ensures content[i] != Space {
      assert content[i] == body[i - 1];
    }
  }

  /** The first word of a trimmed text is a space-free run preceded only by whitespace. */
  lemma WordBounds(body: Text) returns (a: nat, b: nat)
    ensures a <= b <= |body|
    ensures forall i :: 0 <= i < a ==> IsJsWhitespace(body[i])
    ensures forall i :: a <= i < b ==> body[i] != Space
    ensures FirstWord(Trim(body)) == body[a..b]
  {
    a := TrimBounds(body);
    var r := Trim(body);
    var k := SpaceIndex(r);
    b := a + k;
    assert FirstWord(r) == r[..k];
    assert r[..k] == body[a..b];
    forall i | a <= i < b ensures body[i] != Space {
      assert body[i] == r[i - a];
    }
  }

  /** The trimmed text is the run that starts after the leading whitespace. */
  lemma TrimBounds(body: Text) returns (a: nat)
    ensures a + |Trim(body)| <= |body|
    ensures forall i :: 0 <= i < a ==> IsJsWhitespace(body[i])
    ensures Trim(body) == body[a..a + |Trim(body)|]
  {
    var s := TrimStart(body);
    a := |body| - |s|;
    assert Trim(body) == TrimEnd(s);
    assert TrimEnd(s) == s[..|TrimEnd(s)|];
  }

  /** "!" alone names the empty command, which has no reply. */
  lemma BarePrefix()
    ensures CommandName(Prefix) == Some([])
    ensures PrefixReply(false, false, Prefix) == None
  {
    assert Prefix[|Prefix|..] == [];
  }
}
