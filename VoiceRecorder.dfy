/**
 * The recording supervisor of voice/VoiceRecorder.js: one recording session
 * per guild, the per-guild auto-record switch, the outcome sequence of
 * stopping a recording and the auto-record transition table.
 *
 * Everything the source hands to a library or to the operating system is an
 * input here: whether the voice connection became ready, the clock readings,
 * the database's answers, whether the raw file could be stat-ed, how ffmpeg
 * exited and what the upload returned.
 */
module VoiceRecorder {
  import opened JsText
  import Duration

  type GuildId = Text
  type ChannelId = Text
  type UserId = Text
  /** The `_id` the database gives a new recording document. */
  type RecordingId = nat

  /** Raw files smaller than this many bytes are discarded as too short. */
  const MinRawBytes: nat := 1000
  /** Discord's channel type for a guild voice channel. */
  const GuildVoiceType: nat := 2

  // ---------------------------------------------------------------------------
  // Files of a session

  /** path.join(dir, name), for a directory written without a trailing separator. */
  function PathJoin(dir: Text, name: Text): Text
  {
    dir + Lit("/") + name
  }

  /** `${guildId}_${channelId}_${startTime}` */
  function SessionFileName(guildId: GuildId, channelId: ChannelId, startTime: int): Text
  {
    guildId + Lit("_") + channelId + Lit("_") + IntText(startTime)
  }

  function PcmPath(dir: Text, guildId: GuildId, channelId: ChannelId, startTime: int): Text
  {
    PathJoin(dir, SessionFileName(guildId, channelId, startTime)) + Lit(".pcm")
  }

  function Mp3Path(dir: Text, guildId: GuildId, channelId: ChannelId, startTime: int): Text
  {
    PathJoin(dir, SessionFileName(guildId, channelId, startTime)) + Lit(".mp3")
  }

  /** A session's raw file and its MP3 are different files. */
  lemma PcmMp3Distinct(dir: Text, guildId: GuildId, channelId: ChannelId, startTime: int)
    ensures PcmPath(dir, guildId, channelId, startTime) != Mp3Path(dir, guildId, channelId, startTime)
  {
    var stem := PathJoin(dir, SessionFileName(guildId, channelId, startTime));
    assert Lit(".pcm")[1] == 112 && Lit(".mp3")[1] == 109;
    assert PcmPath(dir, guildId, channelId, startTime)[|stem| + 1] == Lit(".pcm")[1];
    assert Mp3Path(dir, guildId, channelId, startTime)[|stem| + 1] == Lit(".mp3")[1];
  }

  // ---------------------------------------------------------------------------
  // Database rows (models/Recording.js)

  /** The statuses the recorder writes; the schema's 'processing' is never written. */
  datatype RecordingStatus = Recording | Uploaded | Failed

  /** The fields of a finished recording that the schema declares and so keeps. */
  datatype Summary = Summary(
    endTime: int, duration: int, durationFormatted: Text,
    participants: set<UserId>, participantCount: nat, fileSize: nat)

  datatype RecordingRow = RecordingRow(
    guildId: GuildId, channelId: ChannelId, startTime: int,
    status: RecordingStatus, summary: Option<Summary>)

  // ---------------------------------------------------------------------------
  // Stopping: the outcome sequence

  /** How the ffmpeg child process ended: its exit code, killed by a signal (code null), or not spawned. */
  datatype FfmpegExit = Exited(code: int) | Signalled | SpawnFailed

  /** convertToMp3 resolves on exit code 0 and rejects on anything else. */
  predicate Mp3Converted(x: FfmpegExit)
  {
    x == Exited(0)
  }

  /** Which exit of stopRecording is taken once the streams are closed. */
  datatype StopPath = NoRawFile | TooShort | ConversionFailed | Converted(upload: Option<Text>)

  function StopPlan(rawFileFound: bool, rawSize: nat, ffmpeg: FfmpegExit, upload: Option<Text>): StopPath
  {
    if !rawFileFound then NoRawFile
    else if rawSize < MinRawBytes then TooShort
    else if !Mp3Converted(ffmpeg) then ConversionFailed
    else Converted(upload)
  }

  /** What stopRecording returns: null, or duration, participant count, link and the two flags. */
  datatype StopReport = StopReport(
    duration: int, participants: nat, driveLink: Option<Text>, tooShort: bool, conversionFailed: bool)

  function ReportFor(path: StopPath, duration: int, participants: nat): Option<StopReport>
  {
    match path
    case NoRawFile => None
    case TooShort => Some(StopReport(duration, participants, None, true, false))
    case ConversionFailed => Some(StopReport(duration, participants, None, false, true))
    case Converted(upload) => Some(StopReport(duration, participants, upload, false, false))
  }

  /** The recording files on disk after the stop: unlinks are best effort and taken to succeed. */
  function FilesAfterStop(path: StopPath, files: set<Text>, pcm: Text, mp3: Text): set<Text>
  {
    match path
    case Converted(None) => (files - {pcm}) + {mp3}
    case Converted(Some(_)) => files - {pcm} - {mp3}
    case _ => files - {pcm}
  }

  function StatusFor(upload: Option<Text>): RecordingStatus
  {
    if upload.Some? then Uploaded else Failed
  }

  /** The document a finished conversion sends to `findByIdAndUpdate`: the summary, the upload URL and the status. */
  datatype StopUpdate = StopUpdate(summary: Summary, fileUrl: Option<Text>, status: RecordingStatus)

  function UpdateFor(
    upload: Option<Text>, endTime: int, duration: int, participants: set<UserId>, mp3Size: nat): StopUpdate
  {
    StopUpdate(Summary(endTime, duration, Duration.FormatDuration(duration), participants, |participants|, mp3Size),
               upload, StatusFor(upload))
  }

  /** The row the update leaves: models/Recording.js declares no `fileUrl`, so strict mode drops the URL. */
  function ApplyUpdate(row: RecordingRow, u: StopUpdate): RecordingRow
  {
    row.(status := u.status, summary := Some(u.summary))
  }

  /** The database update: only a converted recording with a stored id is updated, and only if the write succeeds. */
  function LogAfterStop(
    path: StopPath, log: map<RecordingId, RecordingRow>, id: Option<RecordingId>, dbOk: bool,
    endTime: int, duration: int, participants: set<UserId>, mp3Size: nat): map<RecordingId, RecordingRow>
  {
    if path.Converted? && dbOk && id.Some? && id.value in log then
      log[id.value := ApplyUpdate(log[id.value], UpdateFor(path.upload, endTime, duration, participants, mp3Size))]
    else log
  }

  /** The recording files on disk after a start that made a session exactly when the connection became ready. */
  function FilesAfterStart(files: set<Text>, dir: Text, guildId: GuildId, channelId: ChannelId, o: StartOracle): set<Text>
  {
    if o.ready then files + {PcmPath(dir, guildId, channelId, o.startTime)} else files
  }

  /** A started session gets a 'recording' row when the database gave it an id. */
  function LogAfterStart(
    log: map<RecordingId, RecordingRow>, guildId: GuildId, channelId: ChannelId, o: StartOracle): map<RecordingId, RecordingRow>
  {
    if o.ready && o.recordingDoc.Some?
    then log[o.recordingDoc.value := RecordingRow(guildId, channelId, o.startTime, Recording, None)]
    else log
  }

  /** An external program run or service call the recorder makes. */
  datatype Attempt = Convert(pcm: Text, mp3: Text) | Upload(mp3: Text)

  function AttemptsFor(path: StopPath, pcm: Text, mp3: Text): seq<Attempt>
  {
    match path
    case NoRawFile => []
    case TooShort => []
    case ConversionFailed => [Convert(pcm, mp3)]
    case Converted(_) => [Convert(pcm, mp3), Upload(mp3)]
  }

  /** The four exits, each by the condition that selects it. */
  lemma StopPlanCases(found: bool, size: nat, ffmpeg: FfmpegExit, upload: Option<Text>)
    ensures StopPlan(found, size, ffmpeg, upload) == NoRawFile <==> !found
    ensures StopPlan(found, size, ffmpeg, upload) == TooShort <==> found && size < MinRawBytes
    ensures StopPlan(found, size, ffmpeg, upload) == ConversionFailed
        <==> found && size >= MinRawBytes && ffmpeg != Exited(0)
    ensures StopPlan(found, size, ffmpeg, upload).Converted?
        <==> found && size >= MinRawBytes && ffmpeg == Exited(0)
    ensures StopPlan(found, size, ffmpeg, upload).Converted? ==> StopPlan(found, size, ffmpeg, upload).upload == upload
  {
  }

  /** Conversion is attempted only for a large enough raw file, and upload only after a conversion that exited 0. */
  lemma AttemptsOrder(found: bool, size: nat, ffmpeg: FfmpegExit, upload: Option<Text>, pcm: Text, mp3: Text)
    ensures var a := AttemptsFor(StopPlan(found, size, ffmpeg, upload), pcm, mp3);
      (Convert(pcm, mp3) in a <==> found && size >= MinRawBytes)
      && (Upload(mp3) in a <==> found && size >= MinRawBytes && ffmpeg == Exited(0))
      && (forall i :: 0 <= i < |a| && a[i].Upload? ==> i > 0 && a[i - 1].Convert?)
  {
  }

  /** The returned report: null exactly when the raw file was missing, the flags and the link by exit. */
  lemma ReportShape(path: StopPath, duration: int, participants: nat)
    ensures ReportFor(path, duration, participants).None? <==> path == NoRawFile
    ensures ReportFor(path, duration, participants).Some? ==>
      var r := ReportFor(path, duration, participants).value;
      r.duration == duration && r.participants == participants
      && (r.tooShort <==> path == TooShort)
      && (r.conversionFailed <==> path == ConversionFailed)
      && (r.driveLink.Some? <==> path.Converted? && path.upload.Some?)
      && (r.driveLink.Some? ==> r.driveLink == path.upload)
  {
  }

  /** No raw file outlives a stop; the MP3 stays exactly when it was made and not uploaded; nothing else changes. */
  lemma StopCleanup(path: StopPath, files: set<Text>, pcm: Text, mp3: Text)
    requires pcm != mp3
    ensures pcm !in FilesAfterStop(path, files, pcm, mp3)
    ensures mp3 in FilesAfterStop(path, files, pcm, mp3)
        <==> path == Converted(None) || (!path.Converted? && mp3 in files)
    ensures forall f :: f != pcm && f != mp3 ==> (f in FilesAfterStop(path, files, pcm, mp3) <==> f in files)
  {
  }

  /** Only the session's own row changes, to 'uploaded' exactly when the upload returned a result. */
  lemma StopStatus(
    path: StopPath, log: map<RecordingId, RecordingRow>, id: Option<RecordingId>, dbOk: bool,
    endTime: int, duration: int, participants: set<UserId>, mp3Size: nat)
    ensures path.Converted? ==> UpdateFor(path.upload, endTime, duration, participants, mp3Size).fileUrl == path.upload
    ensures var after := LogAfterStop(path, log, id, dbOk, endTime, duration, participants, mp3Size);
      after.Keys == log.Keys
      && (forall k :: k in log && id != Some(k) ==> after[k] == log[k])
      && (!path.Converted? ==> after == log)
      && (path.Converted? && dbOk && id.Some? && id.value in log ==>
            (after[id.value].status == Uploaded <==> path.upload.Some?)
            && (after[id.value].status == Failed <==> path.upload.None?)
            && after[id.value].summary.Some?
            && after[id.value].summary.value.fileSize == mp3Size
            && after[id.value].summary.value.participantCount == |participants|
            && after[id.value].summary.value.durationFormatted == Duration.FormatDuration(duration)
            && after[id.value].guildId == log[id.value].guildId
            && after[id.value].startTime == log[id.value].startTime)
  {
  }

  // ---------------------------------------------------------------------------
  // Auto-record: the transition table over a membership snapshot

  /** A voice state change: the guild, the channel before and after, and whether the member is a bot. */
  datatype VoiceStateEvent = VoiceStateEvent(
    guild: Option<GuildId>, oldChannel: Option<ChannelId>, newChannel: Option<ChannelId>, memberIsBot: bool)

  /** One channel of the guild's channel cache: id, type and the number of non-bot members in it. */
  datatype ChannelInfo = ChannelInfo(id: ChannelId, kind: nat, humans: nat)

  datatype AutoAction = StartIn(channel: ChannelId) | Stop

  /** Non-bot members of the channel with this id (the first cache entry with it); none if it is not cached. */
  function HumansIn(channels: seq<ChannelInfo>, id: ChannelId): (n: nat)
    ensures n > 0 ==> exists i :: 0 <= i < |channels| && channels[i].id == id && channels[i].humans == n
  {
    if channels == [] then 0
    else if channels[0].id == id then channels[0].humans
    else HumansIn(channels[1..], id)
  }

  predicate OtherActiveVoice(c: ChannelInfo, except: ChannelId)
  {
    c.kind == GuildVoiceType && c.id != except && c.humans > 0
  }

  /** `channels.find(...)`: the first voice channel other than `except` with a non-bot member. */
  function FirstOtherActive(channels: seq<ChannelInfo>, except: ChannelId): (r: Option<ChannelId>)
    ensures r.None? <==> forall i :: 0 <= i < |channels| ==> !OtherActiveVoice(channels[i], except)
    ensures r.Some? ==> exists i :: (0 <= i < |channels| && channels[i].id == r.value
      && OtherActiveVoice(channels[i], except)
      && forall j :: 0 <= j < i ==> !OtherActiveVoice(channels[j], except))
  {
    if channels == [] then None
    else if OtherActiveVoice(channels[0], except) then Some(channels[0].id)
    else
      var r := FirstOtherActive(channels[1..], except);
      if r.Some? then
        ghost var i :| 0 <= i < |channels[1..]| && channels[1..][i].id == r.value
          && OtherActiveVoice(channels[1..][i], except)
          && forall j :: 0 <= j < i ==> !OtherActiveVoice(channels[1..][j], except);
        assert channels[i + 1].id == r.value && OtherActiveVoice(channels[i + 1], except);
        assert forall j :: 0 <= j < i + 1 ==> !OtherActiveVoice(channels[j], except) by {
          forall j | 0 <= j < i + 1 ensures !OtherActiveVoice(channels[j], except) {
            if j > 0 { assert channels[j] == channels[1..][j - 1]; }
          }
        }
        r
      else
        assert forall i :: 0 <= i < |channels| ==> !OtherActiveVoice(channels[i], except) by {
          forall i | 0 <= i < |channels| ensures !OtherActiveVoice(channels[i], except) {
            if i > 0 { assert channels[i] == channels[1..][i - 1]; }
          }
        }
        r
  }

  predicate IsJoin(e: VoiceStateEvent)
  {
    e.oldChannel.None? && e.newChannel.Some?
  }

  predicate IsLeave(e: VoiceStateEvent)
  {
    e.oldChannel.Some? && e.newChannel.None?
  }

  predicate IsSwitch(e: VoiceStateEvent)
  {
    e.oldChannel.Some? && e.newChannel.Some? && e.oldChannel.value != e.newChannel.value
  }

  /**
   * What handleVoiceStateUpdate does for the event's guild, given whether
   * auto-record is on there and the channel it is recording, if any.
   */
  function AutoRecordPlan(
    enabled: bool, recording: Option<ChannelId>, e: VoiceStateEvent, channels: seq<ChannelInfo>): seq<AutoAction>
  {
    if !enabled then []
    else if IsJoin(e) && !e.memberIsBot then
      if recording.None? then [StartIn(e.newChannel.value)] else []
    else if IsLeave(e) then
      if recording.Some? && HumansIn(channels, recording.value) == 0 then
        match FirstOtherActive(channels, recording.value)
        case Some(c) => [Stop, StartIn(c)]
        case None => [Stop]
      else []
    else if IsSwitch(e) then
      if recording == e.oldChannel && HumansIn(channels, e.oldChannel.value) == 0 then
        [Stop, StartIn(e.newChannel.value)]
      else []
    else []
  }

  /** With auto-record off for the guild (the default), nothing happens. */
  lemma AutoRecordOff(recording: Option<ChannelId>, e: VoiceStateEvent, channels: seq<ChannelInfo>)
    ensures AutoRecordPlan(false, recording, e, channels) == []
  {
  }

  /** A join starts a recording in the joined channel exactly when the member is not a bot and none is running. */
  lemma JoinRule(recording: Option<ChannelId>, e: VoiceStateEvent, channels: seq<ChannelInfo>)
    requires IsJoin(e)
    ensures AutoRecordPlan(true, recording, e, channels) == (if !e.memberIsBot && recording.None? then [StartIn(e.newChannel.value)] else [])
  {
  }

  /** A leave (by anyone) stops the recording once the recorded channel has no non-bot member, then moves to the first other occupied voice channel. */
  lemma LeaveRule(recorded: ChannelId, e: VoiceStateEvent, channels: seq<ChannelInfo>)
    requires IsLeave(e)
    ensures HumansIn(channels, recorded) > 0 ==> AutoRecordPlan(true, Some(recorded), e, channels) == []
    ensures HumansIn(channels, recorded) == 0 ==>
      var plan := AutoRecordPlan(true, Some(recorded), e, channels);
      plan[0] == Stop
      && (|plan| == 1 <==> forall i :: 0 <= i < |channels| ==> !OtherActiveVoice(channels[i], recorded))
      && (|plan| == 2 ==> exists i :: (0 <= i < |channels| && plan[1] == StartIn(channels[i].id)
            && OtherActiveVoice(channels[i], recorded)
            && forall j :: 0 <= j < i ==> !OtherActiveVoice(channels[j], recorded)))
    ensures AutoRecordPlan(true, None, e, channels) == []
  {
  }

  /** A switch out of the recorded channel that leaves it without non-bot members moves the recording to the new channel. */
  lemma SwitchRule(recording: Option<ChannelId>, e: VoiceStateEvent, channels: seq<ChannelInfo>)
    requires IsSwitch(e)
    ensures AutoRecordPlan(true, recording, e, channels)
      == if recording == e.oldChannel && HumansIn(channels, e.oldChannel.value) == 0
         then [Stop, StartIn(e.newChannel.value)] else []
  {
  }

  /**
   * Whatever the event: a start only happens with no recording running or right
   * after a stop, a stop only when the recorded channel has no non-bot member,
   * and a moved recording never restarts in the channel it left.
   */
  lemma PlanShape(enabled: bool, recording: Option<ChannelId>, e: VoiceStateEvent, channels: seq<ChannelInfo>)
    ensures var plan := AutoRecordPlan(enabled, recording, e, channels);
      |plan| <= 2
      && (|plan| == 2 ==> plan[0] == Stop && plan[1].StartIn?)
      && (|plan| == 1 && plan[0].StartIn? ==> recording.None?)
      && (plan != [] && plan[0] == Stop ==> recording.Some? && HumansIn(channels, recording.value) == 0)
      && (|plan| == 2 ==> plan[1].channel != recording.value)
      && (plan != [] ==> enabled)
  {
    var plan := AutoRecordPlan(enabled, recording, e, channels);
    if enabled && IsLeave(e) && !(IsJoin(e) && !e.memberIsBot) && |plan| == 2 {
      var c := FirstOtherActive(channels, recording.value);
      assert c.Some?;
    }
  }

  // ---------------------------------------------------------------------------
  // The session object

  /** The receive stream subscribed for one speaker and its Opus decoder. */
  datatype StreamPair = StreamPair(audioOpen: bool, decoderOpen: bool)

  const Live := StreamPair(true, true)
  const Destroyed := StreamPair(false, false)

  /** The inputs of one startRecording call. */
  datatype StartOracle = StartOracle(ready: bool, startTime: int, recordingDoc: Option<RecordingId>)

  /** The inputs of one stopRecording call; `mp3Size` is the size `fs.statSync` reports for the MP3. */
  datatype StopOracle = StopOracle(
    endTime: int, rawFileFound: bool, ffmpeg: FfmpegExit, upload: Option<Text>, mp3Size: nat, dbUpdateOk: bool)

  class RecordingSession {
    const guildId: GuildId
    const channelId: ChannelId
    const startTime: int
    const pcmPath: Text
    const mp3Path: Text
    var recordingId: Option<RecordingId>
    var participants: set<UserId>
    var userStreams: map<UserId, StreamPair>
    /** The bytes the decoders have written to the raw file, in arrival order. */
    var written: seq<Byte>
    var writeOpen: bool
    var connected: bool

    /**
     * Every subscribed speaker is a participant, the raw file stays open while
     * connected, and an open decoder means the file and the connection are open.
     */
    ghost predicate Valid()
      reads this
    {
      userStreams.Keys <= participants
      && (connected ==> writeOpen)
      && forall u :: u in userStreams && userStreams[u].decoderOpen ==> writeOpen && connected
    }

    /** All streams destroyed, the file ended and the connection gone. */
    ghost predicate Closed()
      reads this
    {
      !writeOpen && !connected && forall u :: u in userStreams ==> userStreams[u] == Destroyed
    }

    constructor (guildId: GuildId, channelId: ChannelId, startTime: int, dir: Text, recordingId: Option<RecordingId>)
      ensures this.guildId == guildId && this.channelId == channelId && this.startTime == startTime
      ensures pcmPath == PcmPath(dir, guildId, channelId, startTime)
      ensures mp3Path == Mp3Path(dir, guildId, channelId, startTime)
      ensures this.recordingId == recordingId
      ensures participants == {} && userStreams == map[] && written == [] && writeOpen && connected
      ensures Valid()
    {
      this.guildId := guildId;
      this.channelId := channelId;
      this.startTime := startTime;
      pcmPath := PcmPath(dir, guildId, channelId, startTime);
      mp3Path := Mp3Path(dir, guildId, channelId, startTime);
      this.recordingId := recordingId;
      participants := {};
      userStreams := map[];
      written := [];
      writeOpen := true;
      connected := true;
    }

    /** The receiver's speaking 'start' event; `subscribed` says whether subscribing to the user's audio succeeded. */
    method OnSpeakingStart(userId: UserId, subscribed: bool)
      requires Valid() && connected
      modifies this`participants, this`userStreams
      ensures Valid()
      ensures userId in old(userStreams) ==> participants == old(participants) && userStreams == old(userStreams)
      ensures userId !in old(userStreams) ==>
        participants == old(participants) + {userId}
        && userStreams == if subscribed then old(userStreams)[userId := Live] else old(userStreams)
    {
      if userId in userStreams {
        return;
      }
      participants := participants + {userId};
      if subscribed {
        userStreams := userStreams[userId := Live];
      }
    }

    /** A decoder 'data' event: the chunk is appended to the raw file. */
    method OnDecoderData(userId: UserId, chunk: seq<Byte>)
      requires Valid() && userId in userStreams && userStreams[userId].decoderOpen
      modifies this`written
      ensures Valid()
      ensures written == old(written) + chunk
    {
      written := written + chunk;
    }

    /** Destroys every user's decoder and stream, ends the raw file and leaves the channel. */
    method Close()
      requires Valid()
      modifies this`userStreams, this`writeOpen, this`connected
      ensures Valid() && Closed()
      ensures userStreams.Keys == old(userStreams.Keys)
    {
      var pending := userStreams.Keys;
      while pending != {}
        invariant pending <= userStreams.Keys
        invariant userStreams.Keys == old(userStreams.Keys)
        invariant forall u :: u in userStreams && u !in pending ==> userStreams[u] == Destroyed
        invariant Valid()
        decreases pending
      {
        var u :| u in pending;
        userStreams := userStreams[u := Destroyed];
        pending := pending - {u};
      }
      writeOpen := false;
      connected := false;
    }
  }

  // ---------------------------------------------------------------------------
  // The recorder

  class Recorder {
    const recordingsDir: Text
    var activeRecordings: map<GuildId, RecordingSession>
    var autoRecordEnabled: map<GuildId, bool>
    /** The recording files on disk. */
    var files: set<Text>
    /** The Recording collection. */
    var recordingLog: map<RecordingId, RecordingRow>
    /** The ffmpeg runs and uploads made so far, in order. */
    var attempts: seq<Attempt>

    /** Each slot holds the session of its own guild. */
    ghost predicate Valid()
      reads this
    {
      forall g :: g in activeRecordings ==> activeRecordings[g].guildId == g
    }

    constructor (recordingsDir: Text)
      ensures this.recordingsDir == recordingsDir
      ensures activeRecordings == map[] && autoRecordEnabled == map[]
      ensures files == {} && recordingLog == map[] && attempts == []
      ensures Valid()
    {
      this.recordingsDir := recordingsDir;
      activeRecordings := map[];
      autoRecordEnabled := map[];
      files := {};
      recordingLog := map[];
      attempts := [];
    }

    /** A guild that never set the switch is off. */
    function IsAutoRecordEnabled(guildId: GuildId): (r: bool)
      reads this
      ensures r ==> guildId in autoRecordEnabled
    {
      guildId in autoRecordEnabled && autoRecordEnabled[guildId]
    }

    function IsRecording(guildId: GuildId): bool
      reads this
    {
      guildId in activeRecordings
    }

    /** The channel being recorded in the guild, if any. */
    function RecordingChannel(guildId: GuildId): (r: Option<ChannelId>)
      reads this, activeRecordings.Values
      ensures r.Some? <==> IsRecording(guildId)
    {
      if guildId in activeRecordings then Some(activeRecordings[guildId].channelId) else None
    }

    method SetAutoRecord(guildId: GuildId, enabled: bool) returns (r: bool)
      modifies this`autoRecordEnabled
      ensures r == enabled
      ensures IsAutoRecordEnabled(guildId) == enabled
      ensures forall g :: g != guildId ==> IsAutoRecordEnabled(g) == old(IsAutoRecordEnabled(g))
      ensures autoRecordEnabled == old(autoRecordEnabled)[guildId := enabled]
    {
      autoRecordEnabled := autoRecordEnabled[guildId := enabled];
      r := enabled;
    }

    method StartRecording(guildId: GuildId, channelId: ChannelId, oracle: StartOracle)
      returns (session: RecordingSession?)
      requires Valid()
      modifies this`activeRecordings, this`files, this`recordingLog
      ensures Valid()
      ensures guildId in old(activeRecordings) || !oracle.ready ==>
        session == null && activeRecordings == old(activeRecordings)
        && files == old(files) && recordingLog == old(recordingLog)
      ensures guildId !in old(activeRecordings) && oracle.ready ==>
        session != null && fresh(session)
        && activeRecordings == old(activeRecordings)[guildId := session]
        && session.guildId == guildId && session.channelId == channelId
        && session.startTime == oracle.startTime
        && session.pcmPath == PcmPath(recordingsDir, guildId, channelId, oracle.startTime)
        && session.mp3Path == Mp3Path(recordingsDir, guildId, channelId, oracle.startTime)
        && session.recordingId == oracle.recordingDoc
        && session.participants == {} && session.userStreams == map[] && session.written == []
        && session.writeOpen && session.connected && session.Valid()
        && files == old(files) + {session.pcmPath}
        && recordingLog == if oracle.recordingDoc.Some?
           then old(recordingLog)[oracle.recordingDoc.value :=
                  RecordingRow(guildId, channelId, oracle.startTime, Recording, None)]
           else old(recordingLog)
    {
      if guildId in activeRecordings {
        return null;
      }
      if !oracle.ready {
        return null;
      }
      session := new RecordingSession(guildId, channelId, oracle.startTime, recordingsDir, oracle.recordingDoc);
      files := files + {session.pcmPath};
      activeRecordings := activeRecordings[guildId := session];
      if oracle.recordingDoc.Some? {
        recordingLog := recordingLog[oracle.recordingDoc.value :=
          RecordingRow(guildId, channelId, oracle.startTime, Recording, None)];
      }
    }

    /** The session objects a stop of this guild may change. */
    function Slot(guildId: GuildId): set<RecordingSession>
      reads this
    {
      if guildId in activeRecordings then {activeRecordings[guildId]} else {}
    }

    method StopRecording(guildId: GuildId, oracle: StopOracle) returns (report: Option<StopReport>)
      requires Valid()
      requires guildId in activeRecordings ==> activeRecordings[guildId].Valid()
      modifies this`activeRecordings, this`files, this`recordingLog, this`attempts, Slot(guildId)
      ensures Valid()
      ensures guildId !in old(activeRecordings) ==>
        report == None && activeRecordings == old(activeRecordings) && files == old(files)
        && recordingLog == old(recordingLog) && attempts == old(attempts)
      ensures guildId in old(activeRecordings) ==>
        var s := old(activeRecordings[guildId]);
        var path := StopPlan(oracle.rawFileFound, |s.written|, oracle.ffmpeg, oracle.upload);
        activeRecordings == old(activeRecordings) - {guildId}
        && s.Valid() && s.Closed()
        && s.userStreams.Keys == old(s.userStreams.Keys)
        && s.participants == old(s.participants) && s.written == old(s.written)
        && s.recordingId == old(s.recordingId)
        && report == ReportFor(path, oracle.endTime - s.startTime, |s.participants|)
        && files == FilesAfterStop(path, old(files), s.pcmPath, s.mp3Path)
        && attempts == old(attempts) + AttemptsFor(path, s.pcmPath, s.mp3Path)
        && recordingLog == LogAfterStop(path, old(recordingLog), s.recordingId, oracle.dbUpdateOk,
                                        oracle.endTime, oracle.endTime - s.startTime, s.participants, oracle.mp3Size)
    {
      if guildId !in activeRecordings {
        return None;
      }
      var s := activeRecordings[guildId];
      var duration := oracle.endTime - s.startTime;
      s.Close();
      var path := StopPlan(oracle.rawFileFound, |s.written|, oracle.ffmpeg, oracle.upload);
      if path == NoRawFile {
        files := files - {s.pcmPath};
        activeRecordings := activeRecordings - {guildId};
        return None;
      }
      if path == TooShort {
        files := files - {s.pcmPath};
        activeRecordings := activeRecordings - {guildId};
        return Some(StopReport(duration, |s.participants|, None, true, false));
      }
      attempts := attempts + [Convert(s.pcmPath, s.mp3Path)];
      if path == ConversionFailed {
        files := files - {s.pcmPath};
        activeRecordings := activeRecordings - {guildId};
        return Some(StopReport(duration, |s.participants|, None, false, true));
      }
      files := files - {s.pcmPath};
      attempts := attempts + [Upload(s.mp3Path)];
      var upload := oracle.upload;
      recordingLog := LogAfterStop(path, recordingLog, s.recordingId, oracle.dbUpdateOk,
                                   oracle.endTime, duration, s.participants, oracle.mp3Size);
      if upload.Some? {
        files := files - {s.mp3Path};
      } else {
        files := files + {s.mp3Path};
      }
      activeRecordings := activeRecordings - {guildId};
      report := Some(StopReport(duration, |s.participants|, upload, false, false));
    }

    /** The plan handleVoiceStateUpdate follows for this event, from the recorder's current state. */
    function Plan(e: VoiceStateEvent, channels: seq<ChannelInfo>): seq<AutoAction>
      reads this, activeRecordings.Values
    {
      if e.guild.None? then []
      else AutoRecordPlan(IsAutoRecordEnabled(e.guild.value), RecordingChannel(e.guild.value), e, channels)
    }

    method HandleVoiceStateUpdate(e: VoiceStateEvent, channels: seq<ChannelInfo>, stop: StopOracle, start: StartOracle)
      requires Valid()
      requires e.guild.Some? && e.guild.value in activeRecordings ==> activeRecordings[e.guild.value].Valid()
      modifies this`activeRecordings, this`files, this`recordingLog, this`attempts
      modifies if e.guild.Some? then Slot(e.guild.value) else {}
      ensures Valid()
      ensures old(Plan(e, channels)) == [] ==>
        activeRecordings == old(activeRecordings) && files == old(files)
        && recordingLog == old(recordingLog) && attempts == old(attempts)
      ensures e.guild.Some? && old(Plan(e, channels)) != [] ==>
        var g := e.guild.value;
        var plan := old(Plan(e, channels));
        var last := plan[|plan| - 1];
        (plan[0] == Stop ==> old(activeRecordings[g]).Closed())
        && (forall h :: h != g ==> (h in activeRecordings <==> h in old(activeRecordings)))
        && (forall h :: h != g && h in activeRecordings ==> activeRecordings[h] == old(activeRecordings[h]))
        && (last == Stop ==> g !in activeRecordings)
        && (last.StartIn? ==> (g in activeRecordings <==> start.ready))
        && (last.StartIn? && g in activeRecordings ==>
              activeRecordings[g].channelId == last.channel && fresh(activeRecordings[g]))
      ensures e.guild.Some? && old(Plan(e, channels)) != [] && old(Plan(e, channels))[0] == Stop ==>
        var g := e.guild.value;
        var plan := old(Plan(e, channels));
        var last := plan[|plan| - 1];
        var s := old(activeRecordings[g]);
        var path := StopPlan(stop.rawFileFound, |old(s.written)|, stop.ffmpeg, stop.upload);
        var stoppedFiles := FilesAfterStop(path, old(files), s.pcmPath, s.mp3Path);
        var stoppedLog := LogAfterStop(path, old(recordingLog), old(s.recordingId), stop.dbUpdateOk,
                                       stop.endTime, stop.endTime - s.startTime, old(s.participants), stop.mp3Size);
        attempts == old(attempts) + AttemptsFor(path, s.pcmPath, s.mp3Path)
        && (last == Stop ==> files == stoppedFiles && recordingLog == stoppedLog)
        && (last.StartIn? ==>
              files == FilesAfterStart(stoppedFiles, recordingsDir, g, last.channel, start)
              && recordingLog == LogAfterStart(stoppedLog, g, last.channel, start))
      ensures e.guild.Some? && old(Plan(e, channels)) != [] && old(Plan(e, channels))[0].StartIn? ==>
        var g := e.guild.value;
        var c := old(Plan(e, channels))[0].channel;
        attempts == old(attempts)
        && files == FilesAfterStart(old(files), recordingsDir, g, c, start)
        && recordingLog == LogAfterStart(old(recordingLog), g, c, start)
    {
      if e.guild.None? {
        return;
      }
      var g := e.guild.value;
      var plan := AutoRecordPlan(IsAutoRecordEnabled(g), RecordingChannel(g), e, channels);
      PlanShape(IsAutoRecordEnabled(g), RecordingChannel(g), e, channels);
      if plan == [] {
        return;
      }
      if plan[0] == Stop {
        var _ := StopRecording(g, stop);
        if |plan| == 2 {
          var _ := StartRecording(g, plan[1].channel, start);
        }
      } else {
        var _ := StartRecording(g, plan[0].channel, start);
      }
    }
  }
}
