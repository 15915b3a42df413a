/**
 * The voice assistant panel: a status machine driven by the orb button, one chat query at
 * a time guarded by a processing flag, the conversation history sent with each query, the
 * one-second recording timer with its 60-second limit, and the silence detector that stops
 * a hands-free recording.  Each timer tick, detector tick and awaited request is an
 * explicit method call; clock readings and request outcomes are parameters.
 */
module VoiceSession {
  import opened Wrappers
  import Text
  import Numbers

  const RecordingLimit: nat := 60
  const WarningTime: nat := 30
  const CriticalTime: nat := 50
  const MaxHistoryLength: nat := 6
  const MaxMessageLength: nat := 500
  const SilenceThreshold: real := 0.025
  const SilenceDurationMs: int := 1500
  const MinSpeechDurationMs: int := 500
  const DuplicateWindowMs: int := 2000
  const RingLength: real := 289.0

  datatype Status = Idle | Listening | Processing | Speaking

  datatype Role = User | Assistant | ErrorRole

  /**
   * A chat message.  User and assistant turns and the microphone error carry their time; the
   * offline and failed-query errors are built without one, and the latter may offer a retry.
   */
  datatype Message = Message(role: Role, text: string, timestamp: Option<int>, retryable: bool, originalInput: Option<string>)

  /** The speech-to-text request's outcome: a failure, or the response's optional transcription. */
  datatype SttOutcome = SttFailed | SttReply(transcription: Option<string>)

  /** `transcription?.trim()`, read as "" when it is missing or the request failed. */
  function Heard(outcome: SttOutcome): string
  {
    if outcome.SttReply? then Text.Strip(outcome.transcription.GetOr("")) else ""
  }

  datatype HistoryEntry = HistoryEntry(role: Role, text: string)

  /** The body of a chat request: the question, the diagnosis context and the history. */
  datatype ChatRequest = ChatRequest(message: string, context: Option<string>, history: seq<HistoryEntry>)

  /** A failed request: the HTTP status when a response arrived, and the client's error code. */
  datatype HttpError = HttpError(status: Option<int>, code: string)

  // ---- History payload -------------------------------------------------------------

  /** Texts over 500 characters are cut to 500 and marked with "...". */
  function Truncate(text: string): (r: string)
    ensures |text| <= MaxMessageLength ==> r == text
    ensures |text| > MaxMessageLength ==> |r| == MaxMessageLength + 3 && r[..MaxMessageLength] == text[..MaxMessageLength]
    ensures |text| > MaxMessageLength ==> r[MaxMessageLength..] == "..."
  {
    if |text| > MaxMessageLength then text[..MaxMessageLength] + "..." else text
  }

  /** The messages that are not errors, in order. */
  function NonErrors(ms: seq<Message>): (r: seq<Message>)
    ensures |r| <= |ms|
    ensures forall i :: 0 <= i < |r| ==> r[i].role != ErrorRole && r[i] in ms
    ensures (forall i :: 0 <= i < |ms| ==> ms[i].role != ErrorRole) ==> r == ms
  {
    if ms == [] then []
    else
      var rest := NonErrors(ms[..|ms| - 1]);
      assert forall m :: m in ms[..|ms| - 1] ==> m in ms;
      if ms[|ms| - 1].role == ErrorRole then rest else rest + [ms[|ms| - 1]]
  }

  /** `slice(-n)`: the last `n` elements, or all of them when there are fewer. */
  function LastN<T>(s: seq<T>, n: nat): (r: seq<T>)
    ensures |r| == if |s| < n then |s| else n
    ensures r == s[|s| - |r|..]
  {
    if |s| <= n then s else s[|s| - n..]
  }

  /** The history sent with a query: the last six non-error messages, each text truncated. */
  function HistoryPayload(ms: seq<Message>): (r: seq<HistoryEntry>)
    ensures |r| <= MaxHistoryLength
    ensures var kept := LastN(NonErrors(ms), MaxHistoryLength);
      |r| == |kept| && forall i :: 0 <= i < |r| ==> r[i] == HistoryEntry(kept[i].role, Truncate(kept[i].text))
  {
    var kept := LastN(NonErrors(ms), MaxHistoryLength);
    seq(|kept|, i requires 0 <= i < |kept| => HistoryEntry(kept[i].role, Truncate(kept[i].text)))
  }

  /** No error reaches the history, and no text in it is longer than 503 characters. */
  lemma HistoryBounds(ms: seq<Message>, i: nat)
    requires i < |HistoryPayload(ms)|
    ensures HistoryPayload(ms)[i].role != ErrorRole
    ensures |HistoryPayload(ms)[i].text| <= MaxMessageLength + 3
  {
    var kept := LastN(NonErrors(ms), MaxHistoryLength);
    var nonErrors := NonErrors(ms);
    assert kept[i] == nonErrors[|nonErrors| - |kept| + i];
  }

  /** A conversation of no more than six plain messages is sent whole. */
  lemma ShortHistoryWhole(ms: seq<Message>)
    requires |ms| <= MaxHistoryLength
    requires forall i :: 0 <= i < |ms| ==> ms[i].role != ErrorRole && |ms[i].text| <= MaxMessageLength
    ensures |HistoryPayload(ms)| == |ms|
    ensures forall i :: 0 <= i < |ms| ==> HistoryPayload(ms)[i] == HistoryEntry(ms[i].role, ms[i].text)
  {
  }

  /** The user turn being asked is a repeat of the last message, sent less than two seconds ago. */
  predicate IsDuplicate(ms: seq<Message>, text: string, now: int)
  {
    |ms| > 0 && ms[|ms| - 1].role == User && ms[|ms| - 1].text == text
    && ms[|ms| - 1].timestamp.Some? && now - ms[|ms| - 1].timestamp.value < DuplicateWindowMs
  }

  /**
   * A user turn sent at `t1` makes the same text a duplicate exactly while less than two
   * seconds have passed; a different text, or an empty conversation, never is one.
   */
  lemma DuplicateWindow(ms: seq<Message>, text: string, t1: int, t2: int)
    ensures IsDuplicate(ms + [Message(User, text, Some(t1), false, None)], text, t2) <==> t2 - t1 < DuplicateWindowMs
    ensures forall other :: other != text ==> !IsDuplicate(ms + [Message(User, text, Some(t1), false, None)], other, t2)
    ensures !IsDuplicate([], text, t2)
  {
  }

  // ---- Errors ------------------------------------------------------------------------

  /** The error message shown when a query fails. */
  function ErrorText(e: HttpError): (m: string)
    ensures e.status == Some(401) ==> m == "Session expired. Please " + "refresh the page."
    ensures e.status == Some(503) ==> m == "Server is unavailable. " + "Please try again later."
    ensures e.status != Some(401) && e.status != Some(503) && e.code == "ERR_NETWORK" ==>
      m == "Network error. Please " + "check your connection."
    ensures e.status != Some(401) && e.status != Some(503) && e.code != "ERR_NETWORK" ==>
      m == "Something went wrong. " + "Please try again."
  {
    if e.status == Some(401) then "Session expired. Please " + "refresh the page."
    else if e.status == Some(503) then "Server is unavailable. " + "Please try again later."
    else if e.code == "ERR_NETWORK" then "Network error. Please " + "check your connection."
    else "Something went wrong. " + "Please try again."
  }

  function OfflineText(): string
  {
    "You appear to be offline. " + "Please check your " + "connection."
  }

  /** The error after a recording whose transcription came back empty. */
  function NotCaughtText(): string
  {
    "I didn't catch that. Please try again."
  }

  /** The error after a failed transcription request. */
  function AudioFailedText(): string
  {
    "Couldn't process audio. Please try again."
  }

  function MicrophoneDeniedText(): string
  {
    "Microphone access denied. " + "Please check permissions."
  }

  /** The diagnosis context of a query, with the confidence as a one-decimal percentage. */
  function ContextOf(diagnosis: Option<(string, real)>): (c: Option<string>)
    ensures c.Some? <==> diagnosis.Some?
    ensures diagnosis.Some? ==> Text.StartsWith(c.value, "Diagnosis: " + diagnosis.value.0)
  {
    match diagnosis
    case None => None
    case Some(d) =>
      var head := "Diagnosis: " + d.0;
      var tail := ", Confidence: " + Numbers.FormatFixed(d.1 * 100.0, 1, Numbers.HalfUp) + "%";
      assert (head + tail)[..|head|] == head;
      Some(head + tail)
  }

  // ---- Recording timer, ring and silence detector -----------------------------------

  /** One second of recording: up to the limit, where the time stays and the recorder is stopped. */
  function TickTime(t: nat): (r: nat)
    ensures t < RecordingLimit ==> r == t + 1
    ensures t >= RecordingLimit ==> r == t
  {
    if t >= RecordingLimit then t else t + 1
  }

  /** The time shown after `n` ticks of a fresh recording. */
  function TimeAfter(n: nat): nat
  {
    if n == 0 then 0 else TickTime(TimeAfter(n - 1))
  }

  /** The timer counts the seconds and stops at 60. */
  lemma {:induction false} TimeAfterTicks(n: nat)
    ensures TimeAfter(n) == if n < RecordingLimit then n else RecordingLimit
  {
    if n > 0 {
      TimeAfterTicks(n - 1);
    }
  }

  /** The progress ring's drawn length, `min(t / 60 * 289, 289)`. */
  function RingProgress(t: nat): (p: real)
    ensures 0.0 <= p <= RingLength
    ensures t >= RecordingLimit ==> p == RingLength
    ensures t < RecordingLimit ==> p == (t as real) / 60.0 * RingLength
  {
    var x := (t as real) / (RecordingLimit as real) * RingLength;
    if x < RingLength then x else RingLength
  }

  lemma RingMonotone(a: nat, b: nat)
    requires a <= b
    ensures RingProgress(a) <= RingProgress(b)
  {
  }

  datatype Stroke = Critical | Warning | Gradient

  /** Red from 50 seconds, amber from 30, the gradient before. */
  function StrokeColor(t: nat): (s: Stroke)
    ensures s == Critical <==> t >= CriticalTime
    ensures s == Warning <==> WarningTime <= t < CriticalTime
  {
    if t >= CriticalTime then Critical else if t >= WarningTime then Warning else Gradient
  }

  /** What one detector tick decides: the new silence start, and whether to stop the recorder. */
  datatype VadDecision = VadDecision(silenceStart: Option<int>, stop: bool)

  /**
   * One detector tick at `now` with loudness `rms`: ignored in the first half second; a quiet
   * tick starts the silence timer or, after 1.5 s of silence, stops; a loud tick clears it.
   */
  function VadStep(silenceStart: Option<int>, recordingStart: Option<int>, now: int, rms: real): (d: VadDecision)
    ensures now - recordingStart.GetOr(now) < MinSpeechDurationMs ==> d == VadDecision(silenceStart, false)
    ensures now - recordingStart.GetOr(now) >= MinSpeechDurationMs && rms >= SilenceThreshold ==>
      d == VadDecision(None, false)
    ensures now - recordingStart.GetOr(now) >= MinSpeechDurationMs && rms < SilenceThreshold ==>
      d.stop == (silenceStart.Some? && now - silenceStart.value >= SilenceDurationMs)
      && d.silenceStart == Some(silenceStart.GetOr(now))
  {
    if now - recordingStart.GetOr(now) < MinSpeechDurationMs then VadDecision(silenceStart, false)
    else if rms < SilenceThreshold then
      if silenceStart.None? then VadDecision(Some(now), false)
      else VadDecision(silenceStart, now - silenceStart.value >= SilenceDurationMs)
    else VadDecision(None, false)
  }

  /** Whether any of a run of detector ticks `(time, rms)` stops the recorder. */
  function VadRun(silenceStart: Option<int>, recordingStart: Option<int>, ticks: seq<(int, real)>): (stops: bool)
    decreases |ticks|
  {
    if ticks == [] then false
    else
      var d := VadStep(silenceStart, recordingStart, ticks[0].0, ticks[0].1);
      d.stop || VadRun(d.silenceStart, recordingStart, ticks[1..])
  }

  /**
   * Continuous silence stops the recording: once the silence timer runs from `s`, a run of
   * quiet ticks past the first half second stops exactly when one of them is 1.5 s after `s`.
   */
  lemma {:induction false} SilenceStops(s: int, recordingStart: Option<int>, ticks: seq<(int, real)>)
    requires forall i :: 0 <= i < |ticks| ==>
      ticks[i].1 < SilenceThreshold && ticks[i].0 - recordingStart.GetOr(ticks[i].0) >= MinSpeechDurationMs
    ensures VadRun(Some(s), recordingStart, ticks) <==>
      exists i :: 0 <= i < |ticks| && ticks[i].0 - s >= SilenceDurationMs
  {
    if ticks != [] {
      SilenceStops(s, recordingStart, ticks[1..]);
      if VadRun(Some(s), recordingStart, ticks) && ticks[0].0 - s < SilenceDurationMs {
        var j :| 0 <= j < |ticks[1..]| && ticks[1..][j].0 - s >= SilenceDurationMs;
        assert ticks[j + 1].0 - s >= SilenceDurationMs;
      }
      if exists i :: 0 <= i < |ticks| && ticks[i].0 - s >= SilenceDurationMs {
        var i :| 0 <= i < |ticks| && ticks[i].0 - s >= SilenceDurationMs;
        if i > 0 {
          assert ticks[1..][i - 1] == ticks[i];
        }
      }
    }
  }

  /** A loud tick anywhere restarts the count: the silence timer is cleared. */
  lemma LoudClears(silenceStart: Option<int>, recordingStart: Option<int>, now: int, rms: real)
    requires now - recordingStart.GetOr(now) >= MinSpeechDurationMs && rms >= SilenceThreshold
    ensures !VadStep(silenceStart, recordingStart, now, rms).stop
    ensures VadStep(silenceStart, recordingStart, now, rms).silenceStart.None?
  {
  }

  // ---- The panel ---------------------------------------------------------------------

  /** Every field of the panel, so that a method can state its whole new state at once. */
  datatype PanelFields = PanelFields(
    status: Status, messages: seq<Message>, processing: bool, recordingTime: nat, recording: bool,
    vadActive: bool, recordingStart: Option<int>, silenceStart: Option<int>, sent: seq<ChatRequest>)

  /** The message shown when the audio element cannot play an answer. */
  function PlaybackErrorText(): string
  {
    "Failed to play " + "audio response."
  }

  /** The question the hands-free mode asks on its own when a diagnosis arrives. */
  function AutoPromptText(): string
  {
    "Explain the findings " + "detected in this scan"
  }

  class Panel {
    var status: Status
    var messages: seq<Message>
    /** `isProcessingRef`: a query is in flight. */
    var processing: bool
    var recordingTime: nat
    /** The recorder's state is "recording". */
    var recording: bool
    /** The silence detector's interval is running. */
    var vadActive: bool
    var recordingStart: Option<int>
    var silenceStart: Option<int>
    /** Every chat request sent so far, oldest first. */
    var sent: seq<ChatRequest>

    /** The timer shows zero outside recording and never passes the limit. */
    predicate Valid()
      reads this
    {
      (status != Listening ==> recordingTime == 0) && recordingTime <= RecordingLimit
    }

    function Fields(): PanelFields
      reads this
    {
      PanelFields(status, messages, processing, recordingTime, recording, vadActive, recordingStart, silenceStart, sent)
    }

    /** The recorder has stopped, and its stop handler has shut the silence detector down. */
    function StoppedFrom(f: PanelFields): PanelFields
    {
      f.(recording := false, vadActive := false, silenceStart := None, recordingStart := None)
    }

    /** The hands-free mode answers an assistant turn by listening again. */
    predicate AutoListenDue(sterileMode: bool)
      reads this
    {
      sterileMode && status == Idle && |messages| > 0 && messages[|messages| - 1].role == Assistant
    }

    /** The hands-free mode asks about a fresh diagnosis by itself. */
    predicate AutoPromptDue(sterileMode: bool, diagnosis: Option<(string, real)>)
      reads this
    {
      sterileMode && diagnosis.Some? && status == Idle && |messages| == 0
    }

    constructor ()
      ensures Valid()
      ensures Fields() == PanelFields(Idle, [], false, 0, false, false, None, None, [])
    {
      status := Idle;
      messages := [];
      processing := false;
      recordingTime := 0;
      recording := false;
      vadActive := false;
      recordingStart := None;
      silenceStart := None;
      sent := [];
    }

    /** A status change; the timer effect resets the time whenever the status is not listening. */
    method SetStatus(s: Status)
      requires Valid()
      modifies this
      ensures Valid() && status == s
      ensures s != Listening ==> recordingTime == 0
      ensures s == Listening ==> recordingTime == (if old(status) == Listening then old(recordingTime) else 0)
      ensures Fields() == old(Fields()).(status := s, recordingTime := recordingTime)
    {
      if s != status {
        recordingTime := 0;
      }
      status := s;
    }

    /**
     * The synchronous start of `processTextQuery(text)`, up to the awaited chat request:
     * ignored while a query is in flight, an error message when offline; otherwise the guard
     * is set, the user turn appended unless it repeats the last one, and the request sent
     * with the history of the messages before this turn.
     */
    method BeginQuery(text: string, now: int, online: bool, diagnosis: Option<(string, real)>) returns (started: bool)
      requires Valid()
      modifies this
      ensures Valid()
      ensures started <==> !old(processing) && online
      ensures old(processing) ==> Fields() == old(Fields())
      ensures !old(processing) && !online ==>
        Fields() == old(Fields()).(messages := old(messages) + [Message(ErrorRole, OfflineText(), None, false, None)])
      ensures started ==>
        Fields() == old(Fields()).(status := Processing, processing := true, recordingTime := 0,
          messages := messages, sent := old(sent) + [ChatRequest(text, ContextOf(diagnosis), HistoryPayload(old(messages)))])
      ensures started && IsDuplicate(old(messages), text, now) ==> messages == old(messages)
      ensures started && !IsDuplicate(old(messages), text, now) ==>
        messages == old(messages) + [Message(User, text, Some(now), false, None)]
    {
      if processing {
        return false;
      }
      if !online {
        messages := messages + [Message(ErrorRole, OfflineText(), None, false, None)];
        return false;
      }
      processing := true;
      SetStatus(Processing);
      var currentMessages := messages;
      if !IsDuplicate(currentMessages, text, now) {
        messages := messages + [Message(User, text, Some(now), false, None)];
      }
      sent := sent + [ChatRequest(text, ContextOf(diagnosis), HistoryPayload(currentMessages))];
      started := true;
    }

    /**
     * The rest of `processTextQuery(text)` once the chat and speech requests have settled
     * (`reply` is the assistant's text, or the first failure): the answer is spoken, or the
     * mapped error is shown (retryable unless the session expired); the guard is released.
     */
    method FinishQuery(text: string, now: int, reply: Result<string, HttpError>, playbackStarted: bool)
      requires Valid()
      modifies this
      ensures Valid()
      ensures Fields() == old(Fields()).(status := status, messages := messages, processing := false, recordingTime := 0)
      ensures reply.Success? ==> messages == old(messages) + [Message(Assistant, reply.value, Some(now), false, None)]
      ensures reply.Success? ==> status == (if playbackStarted then Speaking else Idle)
      ensures reply.Failure? ==> status == Idle
      ensures reply.Failure? ==>
        messages == old(messages) + [Message(ErrorRole, ErrorText(reply.error), None, reply.error.status != Some(401), Some(text))]
    {
      match reply {
        case Success(aiText) =>
          messages := messages + [Message(Assistant, aiText, Some(now), false, None)];
          SetStatus(Speaking);
          if !playbackStarted {
            SetStatus(Idle);
          }
        case Failure(e) =>
          SetStatus(Idle);
          messages := messages + [Message(ErrorRole, ErrorText(e), None, e.status != Some(401), Some(text))];
      }
      processing := false;
    }

    /**
     * `startRecording`: only from idle; a denied microphone shows an error instead.  In sterile
     * mode the silence detector starts too, unless its audio set-up fails (`vadSetupOk`), in
     * which case the recording goes on without it.
     */
    method StartRecording(microphoneGranted: bool, now: int, sterileMode: bool, vadSetupOk: bool)
      requires Valid()
      modifies this
      ensures Valid()
      ensures old(status) != Idle ==> Fields() == old(Fields())
      ensures old(status) == Idle && !microphoneGranted ==>
        Fields() == old(Fields()).(messages := old(messages) + [Message(ErrorRole, MicrophoneDeniedText(), Some(now), false, None)])
      ensures old(status) == Idle && microphoneGranted ==>
        Fields() == old(Fields()).(status := Listening, recording := true, recordingTime := 0, recordingStart := Some(now),
          vadActive := old(vadActive) || (sterileMode && vadSetupOk),
          silenceStart := if sterileMode && vadSetupOk then None else old(silenceStart))
    {
      if status != Idle {
        return;
      }
      if !microphoneGranted {
        messages := messages + [Message(ErrorRole, MicrophoneDeniedText(), Some(now), false, None)];
        return;
      }
      recording := true;
      SetStatus(Listening);
      recordingStart := Some(now);
      if sterileMode && vadSetupOk {
        silenceStart := None;
        vadActive := true;
      }
    }

    /** `stopVAD`: the detector stops and forgets its timers. */
    method StopVad()
      modifies this
      ensures Fields() == old(Fields()).(vadActive := false, silenceStart := None, recordingStart := None)
    {
      vadActive := false;
      silenceStart := None;
      recordingStart := None;
    }

    /**
     * `mediaRecorder.stop()` and the recorder's "stop" handler, which shuts the detector down
     * before the recording is processed.
     */
    method StopRecorder()
      modifies this
      ensures Fields() == StoppedFrom(old(Fields()))
    {
      recording := false;
      StopVad();
    }

    /** `stopRecording`: the detector stops, then the recorder if it is recording. */
    method StopRecording()
      requires Valid()
      modifies this
      ensures Valid()
      ensures Fields() == StoppedFrom(old(Fields()))
    {
      StopVad();
      if recording {
        StopRecorder();
      }
    }

    /**
     * The synchronous start of `processAudioBlob`, which the recorder's stop handler calls
     * after `StopRecorder`: no recorded chunk returns to idle; a query in flight is left
     * alone; otherwise the guard is set and the panel shows processing while the audio is
     * transcribed.
     */
    method BeginTranscription(hasChunks: bool) returns (transcribing: bool)
      requires Valid()
      modifies this
      ensures Valid()
      ensures transcribing <==> hasChunks && !old(processing)
      ensures !hasChunks ==> Fields() == old(Fields()).(status := Idle, recordingTime := 0)
      ensures hasChunks && old(processing) ==> Fields() == old(Fields())
      ensures transcribing ==> Fields() == old(Fields()).(status := Processing, processing := true, recordingTime := 0)
    {
      if !hasChunks {
        SetStatus(Idle);
        return false;
      }
      if processing {
        return false;
      }
      processing := true;
      SetStatus(Processing);
      transcribing := true;
    }

    /**
     * The rest of `processAudioBlob` once the transcription request has settled: a failure or
     * an empty transcription returns to idle with its error; otherwise the guard is released
     * and the stripped text goes to `processTextQuery` (`BeginQuery`).  Offline, that query
     * only appends its error, so the panel keeps showing processing.
     */
    method FinishTranscription(outcome: SttOutcome, now: int, online: bool, diagnosis: Option<(string, real)>)
      returns (started: bool)
      requires Valid()
      modifies this
      ensures Valid()
      ensures started <==> outcome.SttReply? && |Heard(outcome)| > 0 && online
      ensures outcome.SttFailed? ==>
        Fields() == old(Fields()).(status := Idle, recordingTime := 0, processing := false,
          messages := old(messages) + [Message(ErrorRole, AudioFailedText(), Some(now), false, None)])
      ensures outcome.SttReply? && |Heard(outcome)| == 0 ==>
        Fields() == old(Fields()).(status := Idle, recordingTime := 0, processing := false,
          messages := old(messages) + [Message(ErrorRole, NotCaughtText(), Some(now), false, None)])
      ensures outcome.SttReply? && |Heard(outcome)| > 0 && !online ==>
        Fields() == old(Fields()).(processing := false,
          messages := old(messages) + [Message(ErrorRole, OfflineText(), None, false, None)])
      ensures started ==>
        Fields() == old(Fields()).(status := Processing, processing := true, recordingTime := 0, messages := messages,
          sent := old(sent) + [ChatRequest(Heard(outcome), ContextOf(diagnosis), HistoryPayload(old(messages)))])
      ensures started && IsDuplicate(old(messages), Heard(outcome), now) ==> messages == old(messages)
      ensures started && !IsDuplicate(old(messages), Heard(outcome), now) ==>
        messages == old(messages) + [Message(User, Heard(outcome), Some(now), false, None)]
    {
      if outcome.SttFailed? {
        AbandonTranscription(AudioFailedText(), now);
        return false;
      }
      var heard := Heard(outcome);
      if |heard| == 0 {
        AbandonTranscription(NotCaughtText(), now);
        return false;
      }
      processing := false;
      ghost var before := Fields();
      assert before == old(Fields()).(processing := false);
      started := BeginQuery(heard, now, online, diagnosis);
      assert messages == Fields().messages && sent == Fields().sent;
    }

    /** A transcription that yields no query: back to idle with the error, the guard released. */
    method AbandonTranscription(error: string, now: int)
      requires Valid()
      modifies this
      ensures Valid()
      ensures Fields() == old(Fields()).(status := Idle, recordingTime := 0, processing := false,
        messages := old(messages) + [Message(ErrorRole, error, Some(now), false, None)])
    {
      SetStatus(Idle);
      messages := messages + [Message(ErrorRole, error, Some(now), false, None)];
      processing := false;
    }

    /** `stopPlayback`: back to idle. */
    method StopPlayback()
      requires Valid()
      modifies this
      ensures Valid()
      ensures Fields() == old(Fields()).(status := Idle, recordingTime := 0)
    {
      SetStatus(Idle);
    }

    /**
     * The audio element's `onEnded`: a spoken answer has finished, so the panel is idle again.
     * After an assistant turn this is the state in which the hands-free mode listens again.
     */
    method PlaybackEnded()
      requires Valid()
      modifies this
      ensures Valid()
      ensures Fields() == old(Fields()).(status := Idle, recordingTime := 0)
      ensures |messages| > 0 && messages[|messages| - 1].role == Assistant ==> AutoListenDue(true)
    {
      SetStatus(Idle);
    }

    /** The audio element's `onError`: idle, with a non-retryable error message that carries no timestamp. */
    method PlaybackFailed()
      requires Valid()
      modifies this
      ensures Valid()
      ensures Fields() == old(Fields()).(status := Idle, recordingTime := 0,
        messages := old(messages) + [Message(ErrorRole, PlaybackErrorText(), None, false, None)])
      ensures !AutoListenDue(true)
    {
      SetStatus(Idle);
      messages := messages + [Message(ErrorRole, PlaybackErrorText(), None, false, None)];
    }

    /** `clearMessages`: the conversation is emptied; an idle panel is then ready for the automatic prompt again. */
    method ClearMessages()
      requires Valid()
      modifies this
      ensures Valid()
      ensures Fields() == old(Fields()).(messages := [])
      ensures forall d: Option<(string, real)> :: AutoPromptDue(true, d) <==> d.Some? && status == Idle
    {
      messages := [];
    }

    /** `handleOrbClick`: start from idle, stop from listening, silence from speaking, nothing while processing. */
    method OrbClick(microphoneGranted: bool, now: int, sterileMode: bool, vadSetupOk: bool)
      requires Valid()
      modifies this
      ensures Valid()
      ensures old(status) == Idle && !microphoneGranted ==>
        Fields() == old(Fields()).(messages := old(messages) + [Message(ErrorRole, MicrophoneDeniedText(), Some(now), false, None)])
      ensures old(status) == Idle && microphoneGranted ==>
        Fields() == old(Fields()).(status := Listening, recording := true, recordingTime := 0, recordingStart := Some(now),
          vadActive := old(vadActive) || (sterileMode && vadSetupOk),
          silenceStart := if sterileMode && vadSetupOk then None else old(silenceStart))
      ensures old(status) == Listening ==> Fields() == StoppedFrom(old(Fields()))
      ensures old(status) == Speaking ==> Fields() == old(Fields()).(status := Idle, recordingTime := 0)
      ensures old(status) == Processing ==> Fields() == old(Fields())
    {
      if status == Idle {
        StartRecording(microphoneGranted, now, sterileMode, vadSetupOk);
      } else if status == Listening {
        StopRecording();
      } else if status == Speaking {
        StopPlayback();
      }
    }

    /**
     * The auto-listen timer of sterile mode firing two seconds after an assistant turn left
     * the panel idle: it starts a recording; when the turn or the status has moved on, the
     * timer was cancelled and nothing happens.
     */
    method AutoListen(sterileMode: bool, microphoneGranted: bool, now: int, vadSetupOk: bool)
      requires Valid()
      modifies this
      ensures Valid()
      ensures !old(AutoListenDue(sterileMode)) ==> Fields() == old(Fields())
      ensures old(AutoListenDue(sterileMode)) && !microphoneGranted ==>
        Fields() == old(Fields()).(messages := old(messages) + [Message(ErrorRole, MicrophoneDeniedText(), Some(now), false, None)])
      ensures old(AutoListenDue(sterileMode)) && microphoneGranted ==>
        Fields() == old(Fields()).(status := Listening, recording := true, recordingTime := 0, recordingStart := Some(now),
          vadActive := old(vadActive) || vadSetupOk, silenceStart := if vadSetupOk then None else old(silenceStart))
    {
      if AutoListenDue(sterileMode) {
        StartRecording(microphoneGranted, now, sterileMode, vadSetupOk);
      }
    }

    /**
     * The auto-prompt timer of sterile mode firing a second after a diagnosis arrived at an
     * idle, empty conversation: it asks the fixed question about the scan.
     */
    method AutoPrompt(sterileMode: bool, diagnosis: Option<(string, real)>, now: int, online: bool) returns (started: bool)
      requires Valid()
      modifies this
      ensures Valid()
      ensures started <==> old(AutoPromptDue(sterileMode, diagnosis)) && !old(processing) && online
      ensures !old(AutoPromptDue(sterileMode, diagnosis)) || old(processing) ==> Fields() == old(Fields())
      ensures old(AutoPromptDue(sterileMode, diagnosis)) && !old(processing) && !online ==>
        Fields() == old(Fields()).(messages := [Message(ErrorRole, OfflineText(), None, false, None)])
      ensures started ==>
        Fields() == old(Fields()).(status := Processing, processing := true,
          messages := [Message(User, AutoPromptText(), Some(now), false, None)],
          sent := old(sent) + [ChatRequest(AutoPromptText(), ContextOf(diagnosis), [])])
    {
      if AutoPromptDue(sterileMode, diagnosis) {
        started := BeginQuery(AutoPromptText(), now, online, diagnosis);
      } else {
        started := false;
      }
    }

    /** One second of the recording timer; at the limit the recorder is stopped instead. */
    method TimerTick()
      requires Valid()
      modifies this
      ensures Valid()
      ensures old(status) == Listening ==> recordingTime == TickTime(old(recordingTime))
      ensures old(status) != Listening ==> Fields() == old(Fields())
      ensures old(status) == Listening && old(recordingTime) < RecordingLimit ==>
        Fields() == old(Fields()).(recordingTime := old(recordingTime) + 1)
      ensures old(status) == Listening && old(recordingTime) >= RecordingLimit && old(recording) ==>
        Fields() == StoppedFrom(old(Fields()))
      ensures old(status) == Listening && old(recordingTime) >= RecordingLimit && !old(recording) ==>
        Fields() == old(Fields())
    {
      if status != Listening {
        return;
      }
      if recordingTime >= RecordingLimit {
        if recording {
          StopRecorder();
        }
      } else {
        recordingTime := recordingTime + 1;
      }
    }

    /** One tick of the silence detector, while it runs; a decided stop stops the recorder. */
    method VadTick(now: int, rms: real)
      modifies this
      ensures !old(vadActive) ==> Fields() == old(Fields())
      ensures old(vadActive) ==>
        var d := VadStep(old(silenceStart), old(recordingStart), now, rms);
        if d.stop && old(recording) then Fields() == StoppedFrom(old(Fields()))
        else Fields() == old(Fields()).(silenceStart := d.silenceStart)
    {
      if !vadActive {
        return;
      }
      var recordingDuration := now - recordingStart.GetOr(now);
      if recordingDuration < MinSpeechDurationMs {
        return;
      }
      if rms < SilenceThreshold {
        if silenceStart.None? {
          silenceStart := Some(now);
        } else if now - silenceStart.value >= SilenceDurationMs {
          if recording {
            StopRecorder();
          }
        }
      } else {
        silenceStart := None;
      }
    }
  }
}
