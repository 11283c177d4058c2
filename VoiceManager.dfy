/**
 * The conversation turn gate of voice/VoiceManager.js: a user who starts
 * speaking is taken into `processingUsers`, their decoded audio is buffered
 * until the end of the turn, and the turn is dropped, or transcribed,
 * answered and spoken. The user is released on every exit of the end handler.
 *
 * Speech-to-text and the language model are inputs (their replies or their
 * failure); what the handler passes to them and what it speaks is recorded.
 */
module VoiceManager {
  import opened JsText

  type UserId = Text

  /** Buffers under this many bytes are taken for noise. */
  const MinTurnBytes: nat := 50000
  /** Transcripts shorter than this (after trimming) are ignored. */
  const MinTranscriptUnits: nat := 2

  const Greeting: Text := Lit("Hello! I am ready to listen.")
  const Apology: Text := Lit("Sorry, I can't think right now.")

  /** What the transcription request gave: an error, or a response whose `text` may be missing. */
  datatype SttResult = SttError | SttResponse(text: Option<Text>)

  /** What the chat completion request gave: an error, or a response whose content may be missing. */
  datatype LlmResult = LlmError | LlmResponse(content: Option<Text>)

  /** transcribeAudio: the response's text, or null on any error. */
  function TranscribeAudio(r: SttResult): (t: Option<Text>)
    ensures r == SttError ==> t == None
    ensures r.SttResponse? ==> t == r.text
  {
    match r
    case SttError => None
    case SttResponse(text) => text
  }

  /** getAIResponse: the reply's content, or the fixed apology on any error. */
  function GetAIResponse(r: LlmResult): (t: Option<Text>)
    ensures r == LlmError ==> t == Some(Apology)
    ensures r.LlmResponse? ==> t == r.content
  {
    match r
    case LlmError => Some(Apology)
    case LlmResponse(content) => content
  }

  /** How a turn ends. */
  datatype TurnOutcome =
    | NoAudio                                        // no decoder chunk arrived
    | TooShort                                       // the concatenated audio is under MinTurnBytes
    | NoSpeech                                       // no transcript, or under MinTranscriptUnits once trimmed
    | Answered(transcript: Text, reply: Option<Text>)

  /** The end handler's staged checks, in the source's order. */
  function TurnPlan(chunks: seq<seq<Byte>>, stt: SttResult, llm: LlmResult): TurnOutcome
  {
    if chunks == [] then NoAudio
    else if |Concat(chunks)| < MinTurnBytes then TooShort
    else
      var transcript := TranscribeAudio(stt);
      if !Audible(transcript) then NoSpeech
      else Answered(transcript.value, GetAIResponse(llm))
  }

  /** `transcription && transcription.trim().length >= 2` */
  predicate Audible(transcript: Option<Text>)
  {
    Truthy(transcript) && |Trim(transcript.value)| >= MinTranscriptUnits
  }

  /** Each exit of the end handler by the condition that selects it. */
  lemma TurnPlanCases(chunks: seq<seq<Byte>>, stt: SttResult, llm: LlmResult)
    ensures TurnPlan(chunks, stt, llm) == NoAudio <==> chunks == []
    ensures TurnPlan(chunks, stt, llm) == TooShort <==> chunks != [] && |Concat(chunks)| < MinTurnBytes
    ensures TurnPlan(chunks, stt, llm) == NoSpeech <==>
      chunks != [] && |Concat(chunks)| >= MinTurnBytes
      && (TranscribeAudio(stt).None? || |Trim(TranscribeAudio(stt).value)| < MinTranscriptUnits)
    ensures TurnPlan(chunks, stt, llm).Answered? ==>
      |Concat(chunks)| >= MinTurnBytes
      && TranscribeAudio(stt) == Some(TurnPlan(chunks, stt, llm).transcript)
      && |Trim(TurnPlan(chunks, stt, llm).transcript)| >= MinTranscriptUnits
      && TurnPlan(chunks, stt, llm).reply == GetAIResponse(llm)
  {
    var t := TranscribeAudio(stt);
    if t.Some? && t.value == [] {
      assert |Trim(t.value)| == 0;
    }
  }

  /** A transcription failure always drops the turn. */
  lemma SttFailureDrops(chunks: seq<seq<Byte>>, llm: LlmResult)
    ensures TurnPlan(chunks, SttError, llm) in {NoAudio, TooShort, NoSpeech}
  {
  }

  /** A model failure is answered with the apology, which is a text that gets spoken. */
  lemma LlmFailureApologises(chunks: seq<seq<Byte>>, stt: SttResult)
    ensures TurnPlan(chunks, stt, LlmError).Answered? ==> TurnPlan(chunks, stt, LlmError).reply == Some(Apology)
  {
  }

  /** The apology is not empty, so speak does say it. */
  lemma ApologySpoken()
    ensures Truthy(Some(Apology))
  {
  }

  /** The buffer handed to transcription is every chunk's bytes, in arrival order. */
  lemma {:induction false} BufferInArrivalOrder(chunks: seq<seq<Byte>>, chunk: seq<Byte>)
    ensures Concat(chunks + [chunk]) == Concat(chunks) + chunk
    ensures |Concat(chunks + [chunk])| == |Concat(chunks)| + |chunk|
  {
    ConcatAppend(chunks, chunk);
  }

  /** One handleUserSpeaking call: the user it serves and the decoder chunks received so far. */
  class Turn {
    const userId: UserId
    var chunks: seq<seq<Byte>>
    var ended: bool

    constructor (userId: UserId)
      ensures this.userId == userId && chunks == [] && !ended
    {
      this.userId := userId;
      chunks := [];
      ended := false;
    }

    /** The decoder's 'data' event. */
    method OnData(chunk: seq<Byte>)
      requires !ended
      modifies this`chunks
      ensures chunks == old(chunks) + [chunk]
    {
      chunks := chunks + [chunk];
    }
  }

  class VoiceManager {
    /** Never set after construction: only the per-user gate is effective. */
    var isProcessing: bool
    var processingUsers: set<UserId>
    /** The audio buffers sent for transcription, in order. */
    var transcribed: seq<seq<Byte>>
    /** The transcripts sent to the language model, in order. */
    var asked: seq<Text>
    /** The texts spoken into the channel, in order. */
    var spoken: seq<Text>

    constructor ()
      ensures !isProcessing && processingUsers == {}
      ensures transcribed == [] && asked == [] && spoken == []
    {
      isProcessing := false;
      processingUsers := {};
      transcribed := [];
      asked := [];
      spoken := [];
    }

    /** speak: an absent or empty text is not spoken. */
    method Speak(text: Option<Text>)
      modifies this`spoken
      ensures spoken == old(spoken) + if Truthy(text) then [text.value] else []
    {
      if !Truthy(text) {
        return;
      }
      spoken := spoken + [text.value];
    }

    /** setupVoiceHandling: the greeting is spoken. */
    method SetupVoiceHandling()
      modifies this`spoken
      ensures spoken == old(spoken) + [Greeting]
    {
      Speak(Some(Greeting));
    }

    /** The speaking 'start' listener: a user already being served (or any user while busy) is ignored. */
    method OnSpeakingStart(userId: UserId) returns (turn: Turn?)
      modifies this`processingUsers
      ensures isProcessing == old(isProcessing)
      ensures userId in old(processingUsers) || isProcessing ==>
        turn == null && processingUsers == old(processingUsers)
      ensures userId !in old(processingUsers) && !isProcessing ==>
        turn != null && fresh(turn) && turn.userId == userId && turn.chunks == [] && !turn.ended
        && processingUsers == old(processingUsers) + {userId}
    {
      if userId in processingUsers || isProcessing {
        return null;
      }
      turn := HandleUserSpeaking(userId);
    }

    /** handleUserSpeaking: the user is marked busy and a turn begins. */
    method HandleUserSpeaking(userId: UserId) returns (turn: Turn)
      modifies this`processingUsers
      ensures fresh(turn) && turn.userId == userId && turn.chunks == [] && !turn.ended
      ensures processingUsers == old(processingUsers) + {userId}
    {
      processingUsers := processingUsers + {userId};
      turn := new Turn(userId);
    }

    /** The decoder's 'end' event. */
    method OnTurnEnd(turn: Turn, stt: SttResult, llm: LlmResult)
      requires !turn.ended
      modifies this`processingUsers, this`transcribed, this`asked, this`spoken, turn`ended
      ensures turn.ended
      ensures processingUsers == old(processingUsers) - {turn.userId}
      ensures var out := TurnPlan(turn.chunks, stt, llm);
        transcribed == old(transcribed) + (if out == NoAudio || out == TooShort then [] else [Concat(turn.chunks)])
        && asked == old(asked) + (if out.Answered? then [out.transcript] else [])
        && spoken == old(spoken) + (if out.Answered? && Truthy(out.reply) then [out.reply.value] else [])
    {
      turn.ended := true;
      ghost var out := TurnPlan(turn.chunks, stt, llm);
      if turn.chunks == [] {
        assert out == NoAudio;
        processingUsers := processingUsers - {turn.userId};
        return;
      }
      var buffer := Concat(turn.chunks);
      if |buffer| < MinTurnBytes {
        assert out == TooShort;
        processingUsers := processingUsers - {turn.userId};
        return;
      }
      transcribed := transcribed + [buffer];
      var transcription := TranscribeAudio(stt);
      if !Audible(transcription) {
        assert out == NoSpeech;
        processingUsers := processingUsers - {turn.userId};
        return;
      }
      var reply := GetAIResponse(llm);
      assert out == Answered(transcription.value, reply);
      asked := asked + [transcription.value];
      Speak(reply);
      processingUsers := processingUsers - {turn.userId};
    }
  }
}
