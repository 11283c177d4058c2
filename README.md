# Discord bot core, modelled in Dafny

This project models the core of a Discord bot written in JavaScript.

- **Voice recorder** (voice/VoiceRecorder.js). It records a voice channel to a raw PCM file. On stop, it converts the file to MP3 with ffmpeg, uploads it and updates the Recording row. It can also follow members between channels ("auto-record").
- **Voice assistant** (voice/VoiceManager.js). It buffers one speaker's audio until a silence. Then it transcribes the audio, asks a language model and speaks the answer.
- **Bot entry point** (index.js). Modelled parts:
  - the voice-channel tracker, which keeps one open session per `guildId-userId` and logs and totals every session that ends;
  - `formatDuration`;
  - the ten-message chat history;
  - the provider fallback loop;
  - the Gemini request contents;
  - the reply chunking;
  - the regenerate truncation;
  - the `!ping` / `!help` prefix commands.
- **Slash commands** `/vcstats`, `/messagestats` and `/vclog` (commands/). These cover:
  - the clear guard and the date keys;
  - the averages, the period and last-24-hours figures, and the "Currently Active" field;
  - the top-five channel rankings with their medals;
  - `formatTimeAgo`;
  - the log query, the numbered entries and the 4000-unit field cut.

Modules:

| module | file | models |
|---|---|---|
| `JsText` | Text.dfy | JavaScript strings as sequences of UTF-16 code units; `trim`, `startsWith`, `slice`, `join`, decimal rendering and reading |
| `Duration` | Duration.dfy | `formatDuration` and a parser that reads its output back |
| `VoiceRecorder` | VoiceRecorder.dfy | the recording session and recorder classes, the stop sequence, the auto-record rules |
| `VoiceManager` | VoiceManager.dfy | the speaking turn, transcription and answer fallbacks, `speak` |
| `VoiceTracking` | VoiceTracking.dfy | the VoiceStateUpdate tracker, the VCLog and VCStat documents |
| `AiChat` | AiChat.dfy | chat history window, provider fallback, Gemini contents, reply chunks, regenerate truncation |
| `PrefixCommands` | PrefixCommands.dfy | `!` command parsing and the two replies |
| `TimeAgo` | TimeAgo.dfy | `formatTimeAgo` (both copies) and its read-back |
| `Ranking` | Ranking.dfy | the stable descending sort, `slice(0, 5)` and the rank medals |
| `VcStats` | VcStats.dfy | `/vcstats` |
| `MessageStats` | MessageStats.dfy | `/messagestats` |
| `VcLog` | VcLog.dfy | `/vclog` |

**Text.** A JavaScript string is a sequence of UTF-16 code units, and `.length`, `.slice`, `substring` and the chunking regular expression all count those units. The model therefore uses `seq<CodeUnit>`, where a code unit is 0..0xFFFF. Literals are encoded with `Utf16`, so an emoji such as 🥇 is two units, as in JavaScript.

**Inputs instead of effects.** Where the source makes an outside call, the model takes that call's result as a parameter:
- clock readings (`Date.now()` and the ISO text of `new Date()`);
- whether the voice connection became ready;
- whether the raw file exists, and the MP3's size;
- how ffmpeg exited;
- what the upload, the speech-to-text service and the language model returned;
- which database writes succeeded.

**Time arithmetic.** `Math.floor` of a quotient by a positive constant is Dafny's `/`. Every divisor in the core is a positive constant, so the model needs no negative-operand adjustment.

**Where two copies of a function exist.**
- VoiceRecorder.js:390-402 repeats index.js:58-70 character for character. `formatDuration` is therefore defined once, in `Duration`.
- The two `formatTimeAgo` copies differ only in the phrase for "under a minute": 'Just now' in messagestats.js and 'just now' in vclog.js. The phrase is a parameter of `TimeAgo.FormatTimeAgo`.

**Where the schema and the code disagree.** /vcstats reads `dailyStats`, `monthlyStats` and `recentSessions` from VCStat. The tracker in index.js never writes those fields, and models/VCStat.js does not declare them. The model follows the command code and takes those fields as given inputs (`VcStats.PeriodFigures`, `VcStats.Last24Hours`). What the tracker writes is modelled by `VoiceTracking.VcStat`.

The update that finishes a recording (voice/VoiceRecorder.js:266-275) also sends `fileUrl`, but models/Recording.js declares no such field, so Mongoose's strict mode drops it. The model separates the update sent (`VoiceRecorder.StopUpdate`, with the URL) from the row kept (`VoiceRecorder.ApplyUpdate`, without it). The kept row has `fileSize`, the MP3's size from `fs.statSync`, which the model takes as an input.

## Model

| member | source | states |
|---|---|---|
| Duration.FormatDurationRoundTrip | index.js:58-70 | The formatted text reads back to the whole seconds of the duration, `Math.floor(ms / 1000)`. Nothing but the milliseconds is lost, for every duration, negative ones included. |
| Duration.FormatDurationInjective | index.js:58-70 | Two durations format to the same text exactly when they have the same number of whole seconds. |
| Duration.FormatDurationFields | index.js:59-69 | One hour or more gives "h m s" with hours at least 1 and minutes and seconds under 60. One minute or more gives "m s" with 1 to 59 minutes. Anything less gives plain seconds. The fields always add up to the whole seconds. |
| VoiceRecorder.PcmMp3Distinct | voice/VoiceRecorder.js:94-97 | A session's raw-file path and its MP3 path are different files. |
| VoiceRecorder.StopPlanCases | voice/VoiceRecorder.js:216-258 | Each exit of the stop sequence is selected by its own condition. These are: no raw file; under 1000 bytes; ffmpeg not exiting with code 0; converted, with the upload result carried over. |
| VoiceRecorder.AttemptsOrder | voice/VoiceRecorder.js:234-255 | ffmpeg runs exactly when a raw file of at least 1000 bytes exists. An upload is attempted exactly when ffmpeg also exited with 0, and it always comes right after the conversion. |
| VoiceRecorder.ReportShape | voice/VoiceRecorder.js:223-294 | The stop returns null exactly when no raw file was found. Otherwise it returns the duration and the participant count. `tooShort` and `conversionFailed` are each set exactly on their own exit, and the link is present exactly when a converted file was uploaded. |
| VoiceRecorder.StopCleanup | voice/VoiceRecorder.js:229-284 | No raw file is left after any stop. The MP3 remains exactly when it was converted and not uploaded. No other file changes. |
| VoiceRecorder.StopStatus | voice/VoiceRecorder.js:260-279 | Only the session's own Recording row changes, and only after a conversion, with a stored id and a successful write. That row becomes 'uploaded' exactly when the upload returned a result, 'failed' otherwise. The update sends the upload URL. The row keeps the MP3's size, the participant count and the formatted duration. |
| VoiceRecorder.HumansIn | voice/VoiceRecorder.js:356 | A non-zero count of non-bot members is the count of a cached channel with that id. |
| VoiceRecorder.FirstOtherActive | voice/VoiceRecorder.js:361-365 | `find` gives none exactly when no other voice channel (type 2) has a non-bot member. Otherwise it gives the first such channel in cache order. |
| VoiceRecorder.AutoRecordOff | voice/VoiceRecorder.js:340 | With auto-record off for the guild, a voice change does nothing. |
| VoiceRecorder.JoinRule | voice/VoiceRecorder.js:345-349 | A join starts a recording in the joined channel exactly when the member is not a bot and nothing is being recorded. |
| VoiceRecorder.LeaveRule | voice/VoiceRecorder.js:352-373 | A leave stops the recording exactly when the recorded channel has no non-bot member left. The recording then restarts in the first other occupied voice channel, exactly when one exists. With nothing recorded, a leave does nothing. |
| VoiceRecorder.SwitchRule | voice/VoiceRecorder.js:376-387 | A switch moves the recording to the new channel exactly when the member left the recorded channel and it has no non-bot member left. |
| VoiceRecorder.PlanShape | voice/VoiceRecorder.js:333-388 | For any event: at most a stop and then a start. A lone start happens only with nothing recorded. A stop happens only when the recorded channel is empty of humans. A moved recording never restarts in the channel it left. |
| VoiceRecorder.RecordingSession.constructor | voice/VoiceRecorder.js:94-149 | A new session has the paths `<guild>_<channel>_<start>.pcm` / `.mp3` in the recordings directory. It has no participants and no streams, and its file and connection are open. |
| VoiceRecorder.RecordingSession.OnSpeakingStart | voice/VoiceRecorder.js:107-134 | A user already subscribed changes nothing. Anyone else becomes a participant, even if subscribing fails, and gets a live stream pair only if it succeeds. |
| VoiceRecorder.RecordingSession.OnDecoderData | voice/VoiceRecorder.js:122-124 | A decoded chunk is appended to the raw file. |
| VoiceRecorder.RecordingSession.Close | voice/VoiceRecorder.js:197-211 | Every user's decoder and stream is destroyed, the file is ended and the connection is gone. The set of users is unchanged. |
| VoiceRecorder.Recorder.constructor | voice/VoiceRecorder.js:16-20 | No recordings, auto-record off everywhere, no files. |
| VoiceRecorder.Recorder.SetAutoRecord | voice/VoiceRecorder.js:33-36 | The guild's switch becomes `enabled` and is returned. Other guilds are unchanged. |
| VoiceRecorder.Recorder.IsAutoRecordEnabled | voice/VoiceRecorder.js:41-43 | A guild that never set the switch is off. |
| VoiceRecorder.Recorder.RecordingChannel | voice/VoiceRecorder.js:404-410 | There is a recorded channel exactly when the guild has an active recording. |
| VoiceRecorder.Recorder.StartRecording | voice/VoiceRecorder.js:48-179 | Returns null, with nothing changed, when the guild already records or the connection never becomes ready. Otherwise a fresh session fills the guild's slot, with its raw file created. A Recording row with status 'recording' is added when the database gave an id. |
| VoiceRecorder.Recorder.StopRecording | voice/VoiceRecorder.js:184-301 | Without an active recording: null, and nothing changes. With one: the slot is emptied and the session is closed. The report, the files, the external calls and the Recording rows are those of the exit its raw-file size and the oracles select. |
| VoiceRecorder.Recorder.HandleVoiceStateUpdate | voice/VoiceRecorder.js:333-388 | An event whose plan is empty changes nothing. Otherwise: a stop closes the old session; other guilds are untouched; the guild ends with no recording after a final stop; after a final start it has a fresh session in the planned channel exactly when the connection became ready. A plan that starts with a stop leaves the files, the external calls and the Recording rows that the stop of the old session produces. A final start then adds the new raw file and, when the database gave an id, a 'recording' row. A lone start changes only those two and makes no external call. |
| VoiceManager.TranscribeAudio | voice/VoiceManager.js:102-119 | A failed request gives null; otherwise the service's text. |
| VoiceManager.GetAIResponse | voice/VoiceManager.js:121-141 | A failed request gives the fixed apology; otherwise the model's content. |
| VoiceManager.TurnPlanCases | voice/VoiceManager.js:59-98 | Each exit of the end handler by its condition: no chunks; under 50000 bytes; no transcript, or under 2 units once trimmed. An answered turn asks the model with exactly the transcript. |
| VoiceManager.SttFailureDrops | voice/VoiceManager.js:79-83 | A turn whose transcription failed is never answered. |
| VoiceManager.LlmFailureApologises | voice/VoiceManager.js:137-140 | When the model call fails, an answered turn replies with the apology. |
| VoiceManager.ApologySpoken | voice/VoiceManager.js:139-144 | The apology is a non-empty text, so `speak` says it. |
| VoiceManager.BufferInArrivalOrder | voice/VoiceManager.js:55-65 | The buffer transcribed is every chunk's bytes, in arrival order. |
| VoiceManager.Turn.constructor | voice/VoiceManager.js:47 | A new turn has no chunks. |
| VoiceManager.Turn.OnData | voice/VoiceManager.js:55-57 | A decoded chunk is appended to the turn's buffer. |
| VoiceManager.VoiceManager.constructor | voice/VoiceManager.js:18-23 | Not processing, and no user in progress. |
| VoiceManager.VoiceManager.Speak | voice/VoiceManager.js:143-144 | A falsy text is not spoken; any other is spoken once. |
| VoiceManager.VoiceManager.SetupVoiceHandling | voice/VoiceManager.js:25-29 | The greeting is spoken. |
| VoiceManager.VoiceManager.OnSpeakingStart | voice/VoiceManager.js:31-33 | A user already in progress, or a busy assistant, starts nothing. Otherwise a turn starts for the user. |
| VoiceManager.VoiceManager.HandleUserSpeaking | voice/VoiceManager.js:37-47 | The user is marked in progress and gets a fresh, empty turn. |
| VoiceManager.VoiceManager.OnTurnEnd | voice/VoiceManager.js:59-98 | The user is released on every exit. The transcription service is called exactly when the audio is long enough. The model is asked exactly for an audible transcript, and its non-empty reply is spoken. |
| VoiceTracking.SessionKey | index.js:80 | The `guildId-userId` key. |
| VoiceTracking.SessionKeyInjective | index.js:80 | With decimal guild ids, a session key names exactly one guild and user. |
| VoiceTracking.Closing | index.js:99-169 | The logged entry covers the stored session's channel and join time. Its duration is leave minus join, and `switchedTo` is set on a switch only. |
| VoiceTracking.AddToStats | index.js:118-189 | The upsert adds the duration to the total and one to the session count, and sets the user name. |
| VoiceTracking.ReplayTotals | index.js:118-136 | Replaying a user's logged sessions through the upsert gives a total equal to the sum of their durations, one session per entry and the latest name. Each channel's time and session count are those of its own entries. |
| VoiceTracking.RecordKeepsAccounted | index.js:104-136 | Logging an entry and upserting it keeps every VCStat equal to the replay of that user's VCLog entries. |
| VoiceTracking.VoiceTracker.constructor | index.js:55 | No open sessions, an empty log and no stats. |
| VoiceTracking.VoiceTracker.HandleVoiceStateUpdate | index.js:73-208 | A missing user or guild id, or an update that is not a join, leave or switch, changes nothing. A join opens a session under the key. A leave closes the stored session, logging and totalling it, or does nothing without one. A switch closes any stored session and opens one in the new channel. With both writes succeeding, the stats stay the replay of the log. |
| VoiceTracking.VoiceTracker.Record | index.js:104-193 | The log write comes first; a failed log write skips the stats; a failed stats write keeps the log entry. |
| AiChat.LastN | index.js:484 | The last `n` messages, or all when fewer. |
| AiChat.WindowCompose | index.js:481-484 | Pushing one message and trimming to ten gives the last ten of the whole history. |
| AiChat.PushAllWindow | index.js:481-484 | Any number of pushes onto a trimmed history keeps exactly the last ten messages of everything pushed. |
| AiChat.ChatHistory.constructor | index.js:473 | The history starts as the stored one. |
| AiChat.ChatHistory.Add | index.js:481-484 | The new message is always last, and the history is the last ten of the old one plus it. |
| AiChat.ApiProviders | index.js:686-716 | Four providers, tried in this order: OpenRouter, Groq-1, Groq-2, then Gemini, the only one that speaks Gemini's protocol. |
| AiChat.QueryProviders | index.js:718-782 | There is an answer exactly when some configured provider returned non-empty content. It is the first such provider's content and name. Requests go, in order, to every configured provider up to it. |
| AiChat.FirstUserIndex | index.js:734-738 | The first message whose role is not 'assistant', or none when every message is the assistant's. |
| AiChat.BuildGeminiContents | index.js:731-743 | One content per history message, with 'assistant' mapped to 'model' and every other role to 'user'. The system prompt is prepended to the first user message only. When there is no user message, a final "Hello" user content carries the prompt. |
| AiChat.ContentStep | index.js:734-738 | One turn of the loop: the flag stays set until the first user message, and only that message gets the prompt. |
| AiChat.Chunks | index.js:788 | The chunks concatenate back to the reply. Each has 1 to 1990 code units, and all but the last exactly 1990. |
| AiChat.ChunkCount | index.js:788 | k chunks of n units cover the reply and k - 1 would not, so k is the reply's length divided by n, rounded up. An empty text has no chunks. |
| AiChat.ReplyMessagesFit | index.js:787-792 | Every message sent fits Discord's 2000-unit limit, and together they are the whole reply. A reply of at most 2000 units is sent as it is. |
| AiChat.ChatReplies | index.js:784-795 | With no answer, the single failure message is sent. Otherwise the messages sent are the answer. |
| AiChat.TruncateRegenerated | index.js:349 | A regenerated reply of at most 1900 units is kept. A longer one becomes its first 1900 units plus "...". |
| PrefixCommands.SpaceIndex | index.js:830 | The first space, or the end. |
| PrefixCommands.AsciiLower | index.js:831 | Lower-casing maps each code unit on its own. |
| PrefixCommands.CommandName | index.js:829-831 | A command word is read exactly when the message starts with "!". |
| PrefixCommands.PrefixReplyCases | index.js:829-834 | Bots get no reply (the check at line 448), and neither does a message the AI chat channel's handler returned on earlier (lines 505-678). Otherwise "Pong!" is replied exactly to the `ping` command word, "Use slash commands!" exactly to `help`, and nothing else. |
| PrefixCommands.CommandRecognised | index.js:829-831 | "!" then any whitespace, then any capitalisation of `ping` or `help`, ended by the message end or a space, is read as that word in lower case. |
| PrefixCommands.PingAndHelpAnswered | index.js:829-834 | Such a message from a human, not returned on earlier, gets the matching reply. |
| PrefixCommands.AfterPrefix | index.js:830-831 | The command word is the lower-cased first space-separated word of the trimmed text after "!". |
| PrefixCommands.CommandNameShape | index.js:829-831 | Every command word read is the lower-cased form of a contiguous run of the message after the "!". |
| PrefixCommands.BarePrefix | index.js:829-834 | "!" alone gives the empty command word and no reply. |
| TimeAgo.Classify | commands/messagestats.js:76-80 | Under a minute gives the phrase; under an hour, whole minutes (1-59); under a day, whole hours (1-23); else whole days. Each count is the floor of the elapsed time in its unit. |
| TimeAgo.RenderRoundTrip | commands/messagestats.js:77-80 | Every rendered time reads back to its unit and count. |
| TimeAgo.FormatTimeAgoReadsBack | commands/vclog.js:76-83 | The shown time reads back to the classification of the whole seconds elapsed. |
| TimeAgo.ClassifyBounds | commands/messagestats.js:78-80 | The shown time never exceeds the elapsed time and falls short of it by less than one of its unit. |
| TimeAgo.ClassifyMonotone | commands/messagestats.js:76-80 | As the clock advances, the time shown never decreases. |
| TimeAgo.BothPhrasesOk | commands/messagestats.js:77 | Neither copy's phrase starts with a digit, so neither is mistaken for a count. |
| Ranking.SortDesc | commands/vcstats.js:156-157 | The channels in descending key order, as a permutation of the input. |
| Ranking.InsertSorted | commands/vcstats.js:157 | Inserting into a sorted list keeps it sorted. |
| Ranking.SortDescSorted | commands/messagestats.js:50 | Sorting a list already in order changes nothing. |
| Ranking.TopNIsTop | commands/vcstats.js:156-158 | The first `n` are sorted and drawn from the input. No entry left out has a larger key than one kept. All are kept when there are at most `n`. |
| Ranking.TopNOmitted | commands/vclog.js:36-38 | An entry of the input that is not among the first `n` has no larger key than any entry kept. |
| Ranking.TopIsTop | commands/messagestats.js:49-51 | The same, for the five shown. |
| Ranking.MedalsDistinct | commands/vcstats.js:160 | The first three ranks get three different medals; every later rank gets ▪️. |
| VcStats.ClearOnlyOwn | commands/vcstats.js:23-33 | Clearing someone else's month is refused. The caller's own month, keyed by the current date, is cleared. Without the action, the target's stats are shown. |
| VcStats.TIndex | commands/vcstats.js:37 | The position of the first 'T'. |
| VcStats.IsoKeys | commands/vcstats.js:91-93 | For an ISO timestamp, the day key is "YYYY-MM-DD", the month key is "YYYY-MM", and the month key starts the day key. |
| VcStats.CurrentlyActive | commands/vcstats.js:58-75 | The field is shown exactly when the tracker holds a session under the user's key. It names that session's channel, and its time reads back as the whole seconds since the join. |
| VcStats.OpenFor | commands/vcstats.js:69-72 | The time shown reads back as the whole seconds open. |
| VcStats.NoteFor | commands/vcstats.js:69-74 | The note names the session's channel, and its time reads back as the whole seconds since that session's join. |
| VcStats.AverageSession | commands/vcstats.js:87 | The average is undefined exactly when there are no sessions. |
| VcStats.AverageBounds | commands/vcstats.js:87 | The average is the largest whole number of milliseconds that fits `sessionCount` times into the total. |
| VcStats.Plural | commands/vcstats.js:106 | "s" for every count except one. |
| VcStats.PeriodFigures | commands/vcstats.js:95-101 | The stored day or month entry, else zero time and zero sessions. |
| VcStats.ActivityTextCases | commands/vcstats.js:103-109 | The fallback text is shown exactly when no time was spent. Otherwise the duration and "(n session)" for one or "(n sessions)" for any other count. The month and 24-hour fields at lines 120-126 and 142-148 have the same shape. |
| VcStats.Recent | commands/vcstats.js:133-139 | The sessions kept are exactly those that joined at or after the cutoff. |
| VcStats.Last24Hours | commands/vcstats.js:129-140 | The loop's time and count are the total duration and the number of the sessions that joined in the last 24 hours. |
| VcStats.RecentMonotone | commands/vcstats.js:135 | A later cutoff never counts more sessions or more time. |
| VcStats.RecentAll | commands/vcstats.js:135 | When every session joined after the cutoff, all are counted. |
| VcStats.ChannelLine | commands/vcstats.js:159-161 | Each line starts with its rank's medal. |
| VcStats.TopChannelLines | commands/vcstats.js:156-163 | One line per shown channel, at most five. Line i starts with rank i's medal and shows the i-th of the ranked channels. |
| VcStats.TopChannelsRanked | commands/vcstats.js:151-161 | At most five channels are listed, each a channel of the breakdown, the most time first. No channel left out has more time than a channel listed. |
| VcStats.TopChannelsField | commands/vcstats.js:151-170 | The field is added exactly when the breakdown has an entry. |
| VcStats.NoDataNeverShown | commands/vcstats.js:163-168 | With any entry, the list starts with 🥇, so the "No data" fallback never appears. |
| MessageStats.LastActiveReadsBack | commands/messagestats.js:75-81 | "Last Active" reads back to the classification of the seconds since the last message. |
| MessageStats.TopLines | commands/messagestats.js:49-57 | One line per shown channel, with its rank's medal. |
| MessageStats.TopChannelsRanked | commands/messagestats.js:45-63 | The field is added only when there is a channel. It shows at most five channels, most messages first, each an input channel with its rank's medal. No channel left out has more messages than one shown. |
| VcLog.Limit | commands/vclog.js:22 | An absent or zero limit gives 10; any other is used as given. |
| VcLog.QueryFilter | commands/vclog.js:30-33 | Without a user every entry of the guild matches; with one, only that user's entries in the guild. |
| VcLog.Filter | commands/vclog.js:36 | The entries kept are exactly the matching ones. |
| VcLog.FetchSpec | commands/vclog.js:36-38 | Exactly `limit` matching entries, or all of them when fewer match, latest leave first. No matching entry left out left later than one shown. |
| VcLog.SwitchNote | commands/vclog.js:57 | The note is empty exactly when the entry has no `switchedTo`. |
| VcLog.EntryText | commands/vclog.js:58 | Each entry starts with its bold number. |
| VcLog.EntryNumbered | commands/vclog.js:55-58 | The number an entry starts with reads back as its position counted from one. |
| VcLog.Entries | commands/vclog.js:55-59 | One entry text per log, in the fetched order. |
| VcLog.ActivityField | commands/vclog.js:50-65 | There is no field exactly when nothing was fetched. The field is a prefix of the joined entries of at most 4000 units, and all of them when they fit. |

## Left out

- Voice connection plumbing: joining, the 60-second ready wait, reconnect on disconnect and connection errors. The model reduces it to a `ready` input of `StartRecording`.
- Opus decoding, WAV encoding, file streams, the one-second wait before the size check and `path.join` normalisation. Paths are joined with "/" as text.
- The raw file's size is taken to be the number of bytes the decoders wrote; `fs.statSync` is not modelled.
- HTTP services: the speech-to-text, chat-completion, Gemini, text-to-speech and file upload calls. Their results are inputs; request headers and bodies other than the Gemini contents are not modelled.
- Persistence: MongoDB reads and writes are modelled as in-memory collections with a success flag per write. The conversation save in `addToHistory` (index.js:486-492) and the per-message MessageStat upsert (index.js:802-824) are not modelled.
- Concurrency: `startRecording` checks and then sets the slot across `await`s. Two concurrent calls could both pass the check. Each model call is atomic.
- VoiceRecorder.Recorder.StopRecording: an MP3 that ffmpeg partly wrote before a failed conversion is not tracked as a file. The outer `catch` (VoiceRecorder.js:296-300), which needs a thrown exception after the streams are closed, is not modelled.
- The status 'processing' of models/Recording.js is never written by the recorder and is not modelled.
- VoiceRecorder.RecordingSession.OnSpeakingStart: participants form a set, so their insertion order (`Array.from`) is not kept.
- google-tts-api's text-length limit and audio playback.
- PrefixCommands.AsciiLower: `toLowerCase` is modelled for ASCII letters only. No non-ASCII character lower-cases to a letter of `ping` or `help`, so which commands are recognised does not change.
- `toLocaleString`, `toFixed` and the percentages of /messagestats are not rendered; `MessageStats.RankedLine` keeps the channel instead.
- The calendar: the ISO text of the current date is an input, not computed from the clock.
- Embed layout, colours, titles, footers, thumbnails, the "no history" descriptions and the error replies of the three commands.
- Ranking.SortDesc: its stability (equal keys keep their order) holds by construction but is not stated as a contract.
- VcLog.Fetch: the database's order among entries with the same leave time is unspecified, so the model's stable order is one of the allowed ones.
- PrefixCommands.PrefixReply: when the AI chat channel's handler returns before the prefix commands is an input, `returnedEarly`. The conditions are not modelled: a PDF attachment, a GitHub link, an image to describe, or an image request such as "!ping generate an image".
- PDF analysis, image generation, GitHub context, the regenerate buttons other than the truncation, and the other slash commands are outside the modelled core.
