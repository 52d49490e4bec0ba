// The microphone and preview controller: src/adapters/media/audio-capture-controller.ts.
// Listeners do not call back in, preview URLs are fresh, and a recorder may fire any of its callbacks
// at any time, including from inside its own start() and stop().
module AudioCapture {
  import opened Common
  import opened Text

  type Byte = bv8

  datatype Blob = Blob(bytes: seq<Byte>, mime: string)

  datatype FailureReason =
    | RecordingUnsupported | MicrophoneUnavailable | PermissionDenied | RecordingFailed | EmptyRecording | FileNotAudio

  datatype Phase = Ready | RequestingPermission | Recording | Recorded | Error

  datatype Source = Microphone | ChosenFile

  datatype CapturedAudio = CapturedAudio(blob: Blob, previewUrl: nat, source: Source, fileName: Option<string>)

  datatype CaptureState = CaptureState(phase: Phase, recording: Option<CapturedAudio>, failure: Option<FailureReason>)

  const READY := CaptureState(Ready, None, None)

  // ---------------------------------------------------------------- the browser

  datatype RecorderEvent = DataAvailable(chunk: Blob) | Stopped | Errored

  /** One MediaRecorder: its stream, whether the controller's handlers are on it, every chunk it ever
      produced, and how many of them it had produced when it first stopped. */
  datatype Recorder = Recorder(stream: nat, attached: bool, output: seq<Blob>, stoppedAt: Option<nat>)

  /** One request for the microphone and the generation it was made in. */
  datatype Acquisition = Acquisition(generation: nat, answered: bool)

  /** Everything borrowed so far. Streams and URLs are numbered as they are handed out; `origin` says
      which recorder a microphone recording's URL came from. */
  datatype Browser = Browser(
    granted: nat,
    stopped: set<nat>,
    recorders: seq<Recorder>,
    acquisitions: seq<Acquisition>,
    created: seq<nat>,
    revoked: seq<nat>,
    origin: map<nat, nat>)

  /** The controller's private fields, and the browser it borrows from. */
  datatype State = State(
    state: CaptureState,
    stream: Option<nat>,
    recorder: Option<nat>,
    chunks: seq<Blob>,
    generation: nat,
    browser: Browser)

  const START := State(READY, None, None, [], 0, Browser(0, {}, [], [], [], [], map[]))

  // ---------------------------------------------------------------- the controller's private steps

  function StopStream(s: State): State {
    if s.stream.None? then s
    else s.(stream := None, browser := s.browser.(stopped := s.browser.stopped + {s.stream.value}))
  }

  function DetachRecorder(s: State): State {
    if s.recorder.None? || s.recorder.value >= |s.browser.recorders| then s
    else
      var r := s.recorder.value;
      s.(browser := s.browser.(recorders := s.browser.recorders[r := s.browser.recorders[r].(attached := false)]))
  }

  function ReleaseMicrophone(s: State): State {
    DetachRecorder(StopStream(s))
  }

  function Publish(s: State, phase: Phase, recording: Option<CapturedAudio>, failure: Option<FailureReason>): State {
    s.(state := CaptureState(phase, recording, failure))
  }

  function Fail(s: State, failure: FailureReason): State {
    Publish(s, if s.state.recording.None? then Error else Recorded, s.state.recording, Some(failure))
  }

  function RevokePreview(s: State): State {
    if s.state.recording.None? then s
    else s.(browser := s.browser.(revoked := s.browser.revoked + [s.state.recording.value.previewUrl]))
  }

  function CancelCapture(s: State): State {
    StopStream(DetachRecorder(s.(generation := s.generation + 1))).(recorder := None, chunks := [])
  }

  function Concat(chunks: seq<Blob>): seq<Byte> {
    if chunks == [] then [] else Concat(Init(chunks)) + Last(chunks).bytes
  }

  function NonEmpty(chunks: seq<Blob>): seq<Blob> {
    if chunks == [] then []
    else if Last(chunks).bytes != [] then NonEmpty(Init(chunks)) + [Last(chunks)]
    else NonEmpty(Init(chunks))
  }

  /** One chunk with a type is passed straight through; several are joined. */
  function Joined(chunks: seq<Blob>, mime: string): Blob {
    if |chunks| == 1 && chunks[0].mime != "" then chunks[0] else Blob(Concat(chunks), mime)
  }

  /** A new preview replaces whatever is shown. */
  function ShowRecording(s: State, blob: Blob, source: Source, fileName: Option<string>, origin: Option<nat>): State {
    var revoked := RevokePreview(s);
    var url := |revoked.browser.created|;
    Publish(revoked, Recorded, Some(CapturedAudio(blob, url, source, fileName)), None)
      .(browser := revoked.browser.(
          created := revoked.browser.created + [url],
          origin := if origin.Some? then revoked.browser.origin[url := origin.value] else revoked.browser.origin))
  }

  function Finish(s: State, mime: string): State {
    var released := ReleaseMicrophone(s);
    if forall k :: 0 <= k < |released.chunks| ==> released.chunks[k].bytes == []
    then Fail(released.(chunks := []), EmptyRecording)
    else ShowRecording(released.(chunks := [], recorder := None), Joined(released.chunks, mime), Microphone, None,
      released.recorder)
  }

  // ---------------------------------------------------------------- recorder callbacks

  /** A recorder fires: the browser's record of it changes, and the handlers run if they are attached. */
  function Fire(s: State, r: nat, e: RecorderEvent, mime: string): State {
    if r >= |s.browser.recorders| then s
    else
      var rec := s.browser.recorders[r];
      var rec' := match e
                  case DataAvailable(chunk) => rec.(output := rec.output + [chunk])
                  case Stopped => if rec.stoppedAt.None? then rec.(stoppedAt := Some(|rec.output|)) else rec
                  case Errored => rec;
      var fired := s.(browser := s.browser.(recorders := s.browser.recorders[r := rec']));
      if !rec.attached then fired
      else
        match e
        case DataAvailable(chunk) => if chunk.bytes != [] then fired.(chunks := fired.chunks + [chunk]) else fired
        case Stopped => Finish(fired, mime)
        case Errored => Fail(ReleaseMicrophone(fired), RecordingFailed)
  }

  /** Several callbacks in a row. */
  function FireAll(s: State, r: nat, events: seq<RecorderEvent>, mime: string): State {
    if events == [] then s else Fire(FireAll(s, r, Init(events), mime), r, Last(events), mime)
  }

  // ---------------------------------------------------------------- the entry points

  /** How one call into the browser's recorder goes: it may fire callbacks before it returns or throws. */
  datatype Behaviour = Behaviour(events: seq<RecorderEvent>, throws: bool, mime: string)

  function AfterStart(s: State, supported: bool): State {
    if s.state.phase.RequestingPermission? || s.state.phase.Recording? then s
    else if !supported then Fail(s, RecordingUnsupported)
    else
      Publish(s, RequestingPermission, s.state.recording, None)
        .(browser := s.browser.(acquisitions := s.browser.acquisitions + [Acquisition(s.generation, false)]))
  }

  function Answered(s: State, a: nat): State
    requires a < |s.browser.acquisitions|
  {
    s.(browser := s.browser.(acquisitions := s.browser.acquisitions[a := s.browser.acquisitions[a].(answered := true)]))
  }

  function AfterRefusal(s: State, a: nat, reason: FailureReason): State {
    if a >= |s.browser.acquisitions| || s.browser.acquisitions[a].answered then s
    else if s.browser.acquisitions[a].generation == s.generation then Fail(Answered(s, a), reason)
    else Answered(s, a)
  }

  /** The microphone is granted: given straight back when the controller has moved on, recorded from
      otherwise. `start` is None when the recorder cannot even be created. */
  function AfterGrant(s: State, a: nat, start: Option<Behaviour>): State {
    if a >= |s.browser.acquisitions| || s.browser.acquisitions[a].answered then s
    else
      var granted := Granted(Answered(s, a));
      var stream := s.browser.granted;
      if s.browser.acquisitions[a].generation != s.generation
      then granted.(browser := granted.browser.(stopped := granted.browser.stopped + {stream}))
      else BeginCapture(granted.(stream := Some(stream), chunks := []), stream, start)
  }

  function Granted(s: State): State {
    s.(browser := s.browser.(granted := s.browser.granted + 1))
  }

  function Attach(s: State, stream: nat): State {
    s.(recorder := Some(|s.browser.recorders|),
       browser := s.browser.(recorders := s.browser.recorders + [Recorder(stream, true, [], None)]))
  }

  function BeginCapture(s: State, stream: nat, start: Option<Behaviour>): State {
    match start
    case None => Fail(ReleaseMicrophone(s), RecordingFailed)
    case Some(behaviour) =>
      var announced := Attach(s, stream);
      var started := FireAll(announced, announced.recorder.value, behaviour.events, behaviour.mime);
      if behaviour.throws then Fail(ReleaseMicrophone(started), RecordingFailed)
      else if started.generation == announced.generation && started.recorder == announced.recorder
        && started.state == announced.state
      then Publish(started, Recording, started.state.recording, None)
      else started
  }

  function AfterStop(s: State, stop: Behaviour): State {
    if !s.state.phase.Recording? || s.recorder.None? then s
    else
      var stopped := FireAll(s, s.recorder.value, stop.events, stop.mime);
      if stop.throws then Fail(ReleaseMicrophone(stopped), RecordingFailed) else stopped
  }

  function AfterDiscard(s: State): State {
    RevokePreview(CancelCapture(s)).(state := READY)
  }

  const AUDIO_FILE_ENDINGS :=
    [".mp3", ".m4a", ".aac", ".wav", ".ogg", ".oga", ".opus", ".weba", ".webm", ".flac", ".caf", ".amr"]

  predicate EndsWith(s: string, ending: string) {
    |ending| <= |s| && s[|s| - |ending|..] == ending
  }

  predicate IsAudioFile(file: Blob, name: Option<string>) {
    if file.bytes == [] then false
    else if file.mime != "" then "audio/" <= Lower(file.mime)
    else
      var lower := Lower(if name.Some? then name.value else "");
      exists k :: 0 <= k < |AUDIO_FILE_ENDINGS| && EndsWith(lower, AUDIO_FILE_ENDINGS[k])
  }

  function AfterChoice(s: State, file: Blob, name: Option<string>): State {
    if IsAudioFile(file, name) then ShowRecording(CancelCapture(s), file, ChosenFile, name, None)
    else if s.state.phase.RequestingPermission? || s.state.phase.Recording?
    then Publish(s, s.state.phase, s.state.recording, Some(FileNotAudio))
    else Fail(s, FileNotAudio)
  }

  function AfterRelease(s: State): State {
    RevokePreview(CancelCapture(s)).(state := READY)
  }

  // ---------------------------------------------------------------- the class

  class AudioCaptureController {
    var state: CaptureState
    var stream: Option<nat>
    var recorder: Option<nat>
    var chunks: seq<Blob>
    var generation: nat
    var browser: Browser

    constructor ()
      ensures Model() == START
    {
      state, stream, recorder, chunks, generation := READY, None, None, [], 0;
      browser := Browser(0, {}, [], [], [], [], map[]);
    }

    ghost function Model(): State
      reads this
    {
      State(state, stream, recorder, chunks, generation, browser)
    }

    method StartRecording(supported: bool)
      modifies this
      ensures Model() == AfterStart(old(Model()), supported)
    {
      if state.phase.RequestingPermission? || state.phase.Recording? {
        return;
      }
      if !supported {
        FailWith(RecordingUnsupported);
        return;
      }
      state := CaptureState(RequestingPermission, state.recording, None);
      browser := browser.(acquisitions := browser.acquisitions + [Acquisition(generation, false)]);
    }

    method MicrophoneRefused(a: nat, reason: FailureReason)
      requires a < |browser.acquisitions| && !browser.acquisitions[a].answered
      modifies this
      ensures Model() == AfterRefusal(old(Model()), a, reason)
    {
      browser := browser.(acquisitions := browser.acquisitions[a := browser.acquisitions[a].(answered := true)]);
      if browser.acquisitions[a].generation == generation {
        FailWith(reason);
      }
    }

    method MicrophoneGranted(a: nat, start: Option<Behaviour>)
      requires a < |browser.acquisitions| && !browser.acquisitions[a].answered
      modifies this
      ensures Model() == AfterGrant(old(Model()), a, start)
    {
      var granted := browser.granted;
      browser := browser.(acquisitions := browser.acquisitions[a := browser.acquisitions[a].(answered := true)]);
      browser := browser.(granted := browser.granted + 1);
      if browser.acquisitions[a].generation != generation {
        browser := browser.(stopped := browser.stopped + {granted});
        return;
      }
      stream := Some(granted);
      chunks := [];
      StartRecorder(granted, start);
    }

    method StartRecorder(granted: nat, start: Option<Behaviour>)
      modifies this
      ensures Model() == BeginCapture(old(Model()), granted, start)
    {
      if start.None? {
        FreeMicrophone();
        FailWith(RecordingFailed);
        return;
      }
      var behaviour := start.value;
      var created := |browser.recorders|;
      browser := browser.(recorders := browser.recorders + [Recorder(granted, true, [], None)]);
      recorder := Some(created);
      var announced := state;
      var generationThen := generation;
      Callbacks(created, behaviour.events, behaviour.mime);
      if behaviour.throws {
        FreeMicrophone();
        FailWith(RecordingFailed);
        return;
      }
      if generation == generationThen && recorder == Some(created) && state == announced {
        state := CaptureState(Recording, state.recording, None);
      }
    }

    method StopRecording(stop: Behaviour)
      modifies this
      ensures Model() == AfterStop(old(Model()), stop)
    {
      if !state.phase.Recording? || recorder.None? {
        return;
      }
      Callbacks(recorder.value, stop.events, stop.mime);
      if stop.throws {
        FreeMicrophone();
        FailWith(RecordingFailed);
      }
    }

    method Discard()
      modifies this
      ensures Model() == AfterDiscard(old(Model()))
    {
      Cancel();
      Revoke();
      state := READY;
    }

    method ChooseFile(file: Blob, name: Option<string>)
      modifies this
      ensures Model() == AfterChoice(old(Model()), file, name)
    {
      if !IsAudioFile(file, name) {
        if state.phase.RequestingPermission? || state.phase.Recording? {
          state := CaptureState(state.phase, state.recording, Some(FileNotAudio));
        } else {
          FailWith(FileNotAudio);
        }
        return;
      }
      Cancel();
      Revoke();
      var url := |browser.created|;
      browser := browser.(created := browser.created + [url]);
      state := CaptureState(Recorded, Some(CapturedAudio(file, url, ChosenFile, name)), None);
    }

    method Release()
      modifies this
      ensures Model() == AfterRelease(old(Model()))
    {
      Cancel();
      Revoke();
      state := READY;
    }

    /** The browser's side of one callback, then the handler if it is still attached. */
    method Callback(r: nat, e: RecorderEvent, mime: string)
      modifies this
      ensures Model() == Fire(old(Model()), r, e, mime)
    {
      if r >= |browser.recorders| {
        return;
      }
      var rec := browser.recorders[r];
      match e {
        case DataAvailable(chunk) =>
          browser := browser.(recorders := browser.recorders[r := rec.(output := rec.output + [chunk])]);
          if rec.attached && chunk.bytes != [] {
            chunks := chunks + [chunk];
          }
        case Stopped =>
          var rec' := if rec.stoppedAt.None? then rec.(stoppedAt := Some(|rec.output|)) else rec;
          browser := browser.(recorders := browser.recorders[r := rec']);
          if rec.attached {
            FinishCapture(mime);
          }
        case Errored =>
          browser := browser.(recorders := browser.recorders[r := rec]);
          if rec.attached {
            FreeMicrophone();
            FailWith(RecordingFailed);
          }
      }
    }

    method Callbacks(r: nat, events: seq<RecorderEvent>, mime: string)
      modifies this
      ensures Model() == FireAll(old(Model()), r, events, mime)
    {
      for i := 0 to |events|
        invariant Model() == FireAll(old(Model()), r, events[..i], mime)
      {
        Callback(r, events[i], mime);
        assert Init(events[..i + 1]) == events[..i];
      }
      assert events[..|events|] == events;
    }

    method FinishCapture(mime: string)
      modifies this
      ensures Model() == Finish(old(Model()), mime)
    {
      FreeMicrophone();
      var taken := chunks;
      var from := recorder;
      chunks := [];
      if forall k :: 0 <= k < |taken| ==> taken[k].bytes == [] {
        FailWith(EmptyRecording);
        return;
      }
      var blob := Joined(taken, mime);
      recorder := None;
      Revoke();
      var url := |browser.created|;
      browser := browser.(created := browser.created + [url],
                          origin := if from.Some? then browser.origin[url := from.value] else browser.origin);
      state := CaptureState(Recorded, Some(CapturedAudio(blob, url, Microphone, None)), None);
    }

    method Cancel()
      modifies this
      ensures Model() == CancelCapture(old(Model()))
    {
      generation := generation + 1;
      Detach();
      StopTracks();
      recorder := None;
      chunks := [];
    }

    method FreeMicrophone()
      modifies this
      ensures Model() == ReleaseMicrophone(old(Model()))
    {
      StopTracks();
      Detach();
    }

    method StopTracks()
      modifies this
      ensures Model() == StopStream(old(Model()))
    {
      if stream.Some? {
        browser := browser.(stopped := browser.stopped + {stream.value});
      }
      stream := None;
    }

    method Detach()
      modifies this
      ensures Model() == DetachRecorder(old(Model()))
    {
      if recorder.Some? && recorder.value < |browser.recorders| {
        var r := recorder.value;
        browser := browser.(recorders := browser.recorders[r := browser.recorders[r].(attached := false)]);
      }
    }

    method Revoke()
      modifies this
      ensures Model() == RevokePreview(old(Model()))
    {
      if state.recording.Some? {
        browser := browser.(revoked := browser.revoked + [state.recording.value.previewUrl]);
      }
    }

    method FailWith(failure: FailureReason)
      modifies this
      ensures Model() == Fail(old(Model()), failure)
    {
      state := CaptureState(if state.recording.None? then Error else Recorded, state.recording, Some(failure));
    }
  }

  // ---------------------------------------------------------------- runs

  datatype Step =
    | PressRecord(supported: bool)
    | Refused(acquisition: nat, reason: FailureReason)
    | Grant(acquisition: nat, start: Option<Behaviour>)
    | PressStop(stop: Behaviour)
    | PressDiscard
    | PickFile(file: Blob, name: Option<string>)
    | Unmount
    | RecorderFires(recorder: nat, event: RecorderEvent, mime: string)

  function Next(s: State, step: Step): State {
    match step
    case PressRecord(supported) => AfterStart(s, supported)
    case Refused(a, reason) => AfterRefusal(s, a, reason)
    case Grant(a, start) => AfterGrant(s, a, start)
    case PressStop(stop) => AfterStop(s, stop)
    case PressDiscard => AfterDiscard(s)
    case PickFile(file, name) => AfterChoice(s, file, name)
    case Unmount => AfterRelease(s)
    case RecorderFires(r, e, mime) => Fire(s, r, e, mime)
  }

  function Run(steps: seq<Step>): State {
    if steps == [] then START else Next(Run(Init(steps)), Last(steps))
  }

  // ---------------------------------------------------------------- the invariant

  /** An acquisition still waiting for an answer in the current generation. */
  predicate Pending(s: State, a: nat) {
    a < |s.browser.acquisitions| && !s.browser.acquisitions[a].answered
    && s.browser.acquisitions[a].generation == s.generation
  }

  /** Every stream ever granted has been stopped, except the controller's own; that one has a recorder
      with the handlers on it, and no other recorder has them. */
  predicate MicrophoneOk(s: State) {
    && (forall n :: 0 <= n < s.browser.granted ==> n in s.browser.stopped || s.stream == Some(n))
    && (s.recorder.Some? ==> s.recorder.value < |s.browser.recorders|)
    && (s.stream.Some? ==>
          && s.stream.value < s.browser.granted && s.recorder.Some?
          && s.browser.recorders[s.recorder.value].attached
          && s.browser.recorders[s.recorder.value].stream == s.stream.value)
    && (forall r :: 0 <= r < |s.browser.recorders| && s.browser.recorders[r].attached ==>
          s.recorder == Some(r) && s.stream.Some?)
  }

  /** The URLs handed out are those revoked, in order, and then the one on show. */
  predicate PreviewsOk(s: State) {
    && s.browser.created == s.browser.revoked
       + (if s.state.recording.Some? then [s.state.recording.value.previewUrl] else [])
    && (forall k :: 0 <= k < |s.browser.created| ==> s.browser.created[k] == k)
  }

  /** While a capture runs its chunks are what its recorder produced; a finished microphone recording is
      what one recorder had produced when it stopped. */
  predicate BytesOk(s: State) {
    && (s.stream.Some? && s.recorder.Some? && s.recorder.value < |s.browser.recorders| ==>
          && s.chunks == NonEmpty(s.browser.recorders[s.recorder.value].output)
          && s.browser.recorders[s.recorder.value].stoppedAt == None)
    && (forall r :: 0 <= r < |s.browser.recorders| && s.browser.recorders[r].stoppedAt.Some? ==>
          s.browser.recorders[r].stoppedAt.value <= |s.browser.recorders[r].output|)
    && (s.state.recording.Some? && s.state.recording.value.source == Microphone ==>
          FaithfulTo(s.browser, s.state.recording.value))
  }

  predicate FaithfulTo(b: Browser, recording: CapturedAudio) {
    && recording.previewUrl in b.origin
    && b.origin[recording.previewUrl] < |b.recorders|
    && var rec := b.recorders[b.origin[recording.previewUrl]];
       rec.stoppedAt.Some? && rec.stoppedAt.value <= |rec.output|
       && recording.blob.bytes == Concat(NonEmpty(rec.output[..rec.stoppedAt.value]))
  }

  predicate PhaseHoldsContents(s: State) {
    && (s.state.phase.Recorded? ==> s.state.recording.Some?)
    && (s.state.phase.Error? ==> s.state.recording.None? && s.state.failure.Some?)
    && (s.state.phase.Ready? ==> s.state == READY)
  }

  /** What holds even while a recorder's start() or stop() is running. */
  predicate Core(s: State) {
    && MicrophoneOk(s) && PreviewsOk(s) && BytesOk(s) && PhaseHoldsContents(s)
    && (forall a :: 0 <= a < |s.browser.acquisitions| ==> s.browser.acquisitions[a].generation <= s.generation)
  }

  /** Whenever no method is on the stack. */
  predicate Inv(s: State) {
    && Core(s)
    && (s.state.phase.Recording? <==> s.stream.Some?)
    && (s.state.phase.RequestingPermission? <==> exists a :: 0 <= a < |s.browser.acquisitions| && Pending(s, a))
    && (forall a, b :: 0 <= a < b < |s.browser.acquisitions| && Pending(s, a) ==> !Pending(s, b))
  }

  /** Between two callbacks of a running capture: either it still runs, or it has published its end. */
  predicate Between(s: State) {
    && Core(s)
    && (forall a :: 0 <= a < |s.browser.acquisitions| ==> !Pending(s, a))
    && (s.stream.Some? ==> s.state.phase.RequestingPermission? || s.state.phase.Recording?)
    && (s.stream.None? ==> s.state.phase.Recorded? || s.state.phase.Error?)
  }

  // ---------------------------------------------------------------- bytes

  lemma {:induction false} ConcatNonEmpty(chunks: seq<Blob>)
    ensures Concat(NonEmpty(chunks)) == Concat(chunks)
  {
    if chunks != [] {
      ConcatNonEmpty(Init(chunks));
      if Last(chunks).bytes != [] {
        assert Init(NonEmpty(Init(chunks)) + [Last(chunks)]) == NonEmpty(Init(chunks));
      }
    }
  }

  lemma {:induction false} NonEmptyHasBytes(chunks: seq<Blob>)
    ensures forall k :: 0 <= k < |NonEmpty(chunks)| ==> NonEmpty(chunks)[k].bytes != []
  {
    if chunks != [] {
      NonEmptyHasBytes(Init(chunks));
    }
  }

  /** Joining never changes the bytes, whether it copies or passes a single chunk through. */
  lemma JoinedBytes(chunks: seq<Blob>, mime: string)
    ensures Joined(chunks, mime).bytes == Concat(chunks)
  {
    if |chunks| == 1 {
      assert Init(chunks) == [];
      assert Concat(chunks) == [] + chunks[0].bytes;
    }
  }

  /** A finished recording stays what it was while recorders only gain chunks, handlers come and go, and
      other URLs get origins. */
  lemma FaithfulStays(b: Browser, b': Browser, recording: CapturedAudio)
    requires FaithfulTo(b, recording) && |b.recorders| <= |b'.recorders|
    requires recording.previewUrl in b'.origin && b'.origin[recording.previewUrl] == b.origin[recording.previewUrl]
    requires forall r :: 0 <= r < |b.recorders| ==>
               && b.recorders[r].output <= b'.recorders[r].output
               && (b.recorders[r].stoppedAt.Some? ==> b'.recorders[r].stoppedAt == b.recorders[r].stoppedAt)
    ensures FaithfulTo(b', recording)
  {
    var rec, rec' := b.recorders[b.origin[recording.previewUrl]], b'.recorders[b.origin[recording.previewUrl]];
    assert rec'.output[..rec.stoppedAt.value] == rec.output[..rec.stoppedAt.value];
  }

  // ---------------------------------------------------------------- preservation

  /** Nothing the child sees has changed, and the capture is the same. */
  predicate Quiet(s: State, t: State) {
    && t.state == s.state && t.stream == s.stream && t.recorder == s.recorder && t.generation == s.generation
    && t.browser.acquisitions == s.browser.acquisitions && t.browser.granted == s.browser.granted
  }

  predicate NothingPending(s: State) {
    forall a :: 0 <= a < |s.browser.acquisitions| ==> !Pending(s, a)
  }

  lemma PendingSame(s: State, t: State)
    requires t.browser.acquisitions == s.browser.acquisitions && t.generation == s.generation
    ensures forall a :: 0 <= a < |s.browser.acquisitions| ==> Pending(t, a) == Pending(s, a)
    ensures NothingPending(s) ==> NothingPending(t)
  {
    if NothingPending(s) {
      forall a | 0 <= a < |t.browser.acquisitions| ensures !Pending(t, a) { assert !Pending(s, a); }
    }
  }

  /** Stopping the stream and taking the handlers off leaves everything in order. */
  lemma ReleaseKeepsCore(s: State)
    requires Core(s)
    ensures var r := ReleaseMicrophone(s);
            Core(r) && r.stream.None? && r.state == s.state && r.generation == s.generation
            && r.browser.acquisitions == s.browser.acquisitions
  {
    var r := ReleaseMicrophone(s);
    if s.state.recording.Some? && s.state.recording.value.source == Microphone {
      FaithfulStays(s.browser, r.browser, s.state.recording.value);
    }
    ReleaseKeepsMicrophone(s);
    assert BytesOk(r);
  }

  lemma ReleaseKeepsMicrophone(s: State)
    requires MicrophoneOk(s)
    ensures MicrophoneOk(ReleaseMicrophone(s))
  {
  }

  lemma FailKeepsCore(s: State, failure: FailureReason)
    requires Core(s) && s.stream.None? && NothingPending(s)
    ensures Between(Fail(s, failure))
  {
    PendingSame(s, Fail(s, failure));
  }

  /** A capture that ends by failing. */
  lemma FailingCapture(s: State, failure: FailureReason)
    requires Core(s) && NothingPending(s)
    ensures var f := Fail(ReleaseMicrophone(s), failure);
            Between(f) && f.stream.None?
  {
    ReleaseKeepsCore(s);
    PendingSame(s, ReleaseMicrophone(s));
    FailKeepsCore(ReleaseMicrophone(s), failure);
  }

  /** Replacing what is shown revokes one URL and creates one. */
  lemma ShowKeepsCore(s: State, blob: Blob, source: Source, name: Option<string>, origin: Option<nat>)
    requires Core(s) && s.stream.None? && NothingPending(s)
    requires source == Microphone ==>
               && origin.Some? && origin.value < |s.browser.recorders|
               && var rec := s.browser.recorders[origin.value];
                  rec.stoppedAt.Some? && rec.stoppedAt.value <= |rec.output|
                  && blob.bytes == Concat(NonEmpty(rec.output[..rec.stoppedAt.value]))
    ensures var t := ShowRecording(s, blob, source, name, origin);
            Between(t) && t.stream.None?
  {
    PendingSame(s, ShowRecording(s, blob, source, name, origin));
  }

  lemma DetachedFireKeepsCore(s: State, r: nat, e: RecorderEvent, mime: string)
    requires Core(s) && r < |s.browser.recorders| && !s.browser.recorders[r].attached
    ensures Core(Fire(s, r, e, mime)) && Quiet(s, Fire(s, r, e, mime))
  {
    if s.state.recording.Some? && s.state.recording.value.source == Microphone {
      FaithfulStays(s.browser, Fire(s, r, e, mime).browser, s.state.recording.value);
    }
  }

  lemma DataKeepsCore(s: State, r: nat, chunk: Blob, mime: string)
    requires Core(s) && r < |s.browser.recorders| && s.browser.recorders[r].attached
    ensures Core(Fire(s, r, DataAvailable(chunk), mime)) && Quiet(s, Fire(s, r, DataAvailable(chunk), mime))
  {
    var t := Fire(s, r, DataAvailable(chunk), mime);
    assert MicrophoneOk(t) && PreviewsOk(t);
    DataKeepsBytes(s, r, chunk, mime);
  }

  lemma DataOnlyAppends(s: State, r: nat, chunk: Blob, mime: string)
    requires r < |s.browser.recorders| && s.browser.recorders[r].attached
    ensures var t := Fire(s, r, DataAvailable(chunk), mime);
            && t.state == s.state && t.stream == s.stream && t.recorder == s.recorder
            && t.browser.origin == s.browser.origin
            && |t.browser.recorders| == |s.browser.recorders|
            && t.browser.recorders[r] == s.browser.recorders[r].(output := s.browser.recorders[r].output + [chunk])
            && (forall q :: 0 <= q < |s.browser.recorders| && q != r ==>
              t.browser.recorders[q] == s.browser.recorders[q])
            && (forall q :: 0 <= q < |s.browser.recorders| ==>
                  && s.browser.recorders[q].output <= t.browser.recorders[q].output
                  && t.browser.recorders[q].stoppedAt == s.browser.recorders[q].stoppedAt)
  {
  }

  lemma DataKeepsBytes(s: State, r: nat, chunk: Blob, mime: string)
    requires MicrophoneOk(s) && BytesOk(s) && r < |s.browser.recorders| && s.browser.recorders[r].attached
    ensures BytesOk(Fire(s, r, DataAvailable(chunk), mime))
  {
    var t := Fire(s, r, DataAvailable(chunk), mime);
    var output := s.browser.recorders[r].output;
    assert Init(output + [chunk]) == output && Last(output + [chunk]) == chunk;
    DataOnlyAppends(s, r, chunk, mime);
    assert t.chunks == NonEmpty(output + [chunk]);
    if s.state.recording.Some? && s.state.recording.value.source == Microphone {
      FaithfulStays(s.browser, t.browser, s.state.recording.value);
    }
  }

  /** The recorder's record of its first stop; the controller has not reacted yet. */
  function MarkStopped(s: State, r: nat): State
    requires r < |s.browser.recorders|
  {
    var rec := s.browser.recorders[r];
    s.(browser := s.browser.(recorders := s.browser.recorders[r :=
         if rec.stoppedAt.None? then rec.(stoppedAt := Some(|rec.output|)) else rec]))
  }

  lemma MarkedFinishKeepsCore(s: State, r: nat, mime: string)
    requires Core(s) && NothingPending(s) && r < |s.browser.recorders| && s.browser.recorders[r].attached
    ensures var t := Finish(MarkStopped(s, r), mime);
            Between(t) && t.stream.None?
  {
    var rec := s.browser.recorders[r];
    var released := ReleaseMicrophone(MarkStopped(s, r)).(chunks := []);
    assert s.recorder == Some(r) && s.chunks == NonEmpty(rec.output);
    NonEmptyHasBytes(rec.output);
    JoinedBytes(s.chunks, mime);
    assert rec.output[..|rec.output|] == rec.output;
    MarkedReleaseKeepsCore(s, r);
    PendingSame(s, released);
    if s.chunks == [] {
      FailKeepsCore(released, EmptyRecording);
    } else {
      assert s.chunks[0].bytes != [];
      var empty := released.(recorder := None);
      assert Core(empty);
      PendingSame(released, empty);
      ShowKeepsCore(empty, Joined(s.chunks, mime), Microphone, None, Some(r));
    }
  }

  lemma MarkedReleaseKeepsCore(s: State, r: nat)
    requires Core(s) && r < |s.browser.recorders| && s.browser.recorders[r].attached
    ensures var t := ReleaseMicrophone(MarkStopped(s, r)).(chunks := []);
            Core(t) && t.stream.None? && t.state == s.state && t.generation == s.generation && t.recorder == s.recorder
            && t.browser.acquisitions == s.browser.acquisitions
            && t.browser.recorders[r].output == s.browser.recorders[r].output
            && t.browser.recorders[r].stoppedAt == Some(|s.browser.recorders[r].output|)
            && forall k :: 0 <= k < |t.browser.recorders| ==> !t.browser.recorders[k].attached
  {
    var t := ReleaseMicrophone(MarkStopped(s, r)).(chunks := []);
    if s.state.recording.Some? && s.state.recording.value.source == Microphone {
      FaithfulStays(s.browser, t.browser, s.state.recording.value);
    }
  }

  lemma ErrorIsPlain(s: State, r: nat, mime: string)
    requires r < |s.browser.recorders| && s.browser.recorders[r].attached
    ensures Fire(s, r, Errored, mime) == Fail(ReleaseMicrophone(s), RecordingFailed)
  {
    assert s.browser.recorders[r := s.browser.recorders[r]] == s.browser.recorders;
    assert s.(browser := s.browser.(recorders := s.browser.recorders)) == s;
  }

  /** One callback either changes nothing the child sees, or ends the capture. */
  lemma FireKeepsBetween(s: State, r: nat, e: RecorderEvent, mime: string)
    requires Between(s)
    ensures var t := Fire(s, r, e, mime);
            Between(t) && (Quiet(s, t) || t.stream.None?)
  {
    var t := Fire(s, r, e, mime);
    if r < |s.browser.recorders| {
      if !s.browser.recorders[r].attached {
        DetachedFireKeepsCore(s, r, e, mime);
        PendingSame(s, t);
      } else {
        match e
        case DataAvailable(chunk) =>
          DataKeepsCore(s, r, chunk, mime);
          PendingSame(s, t);
        case Stopped =>
          assert t == Finish(MarkStopped(s, r), mime);
          MarkedFinishKeepsCore(s, r, mime);
        case Errored =>
          ErrorIsPlain(s, r, mime);
          FailingCapture(s, RecordingFailed);
      }
    }
  }

  lemma {:induction false} FireAllKeepsBetween(s: State, r: nat, events: seq<RecorderEvent>, mime: string)
    requires Between(s)
    ensures var t := FireAll(s, r, events, mime);
            Between(t) && (Quiet(s, t) || t.stream.None?)
  {
    if events != [] {
      FireAllKeepsBetween(s, r, Init(events), mime);
      FireKeepsBetween(FireAll(s, r, Init(events), mime), r, Last(events), mime);
    }
  }

  /** Once no start() or stop() is running, the invariant holds again. */
  lemma BetweenIsInv(s: State)
    requires Between(s) && !s.state.phase.RequestingPermission?
    ensures Inv(s)
  {
  }

  lemma InvIsBetween(s: State)
    requires Inv(s) && s.stream.Some?
    ensures Between(s)
  {
    forall a | 0 <= a < |s.browser.acquisitions| ensures !Pending(s, a) {
      assert Pending(s, a) ==> s.state.phase.RequestingPermission?;
    }
  }

  lemma RecorderFiresKeepsInv(s: State, r: nat, e: RecorderEvent, mime: string)
    requires Inv(s)
    ensures Inv(Fire(s, r, e, mime))
  {
    var t := Fire(s, r, e, mime);
    if r < |s.browser.recorders| {
      if s.browser.recorders[r].attached {
        InvIsBetween(s);
        FireKeepsBetween(s, r, e, mime);
        BetweenIsInv(t);
      } else {
        DetachedFireKeepsCore(s, r, e, mime);
        PendingSame(s, t);
      }
    }
  }

  lemma StopKeepsInv(s: State, stop: Behaviour)
    requires Inv(s)
    ensures Inv(AfterStop(s, stop))
  {
    if s.state.phase.Recording? && s.recorder.Some? {
      InvIsBetween(s);
      var t := FireAll(s, s.recorder.value, stop.events, stop.mime);
      FireAllKeepsBetween(s, s.recorder.value, stop.events, stop.mime);
      if stop.throws {
        FailingCapture(t, RecordingFailed);
        BetweenIsInv(AfterStop(s, stop));
      } else {
        BetweenIsInv(t);
      }
    }
  }

  lemma StartKeepsInv(s: State, supported: bool)
    requires Inv(s)
    ensures Inv(AfterStart(s, supported))
  {
    var t := AfterStart(s, supported);
    if !s.state.phase.RequestingPermission? && !s.state.phase.Recording? {
      forall a | 0 <= a < |s.browser.acquisitions| ensures !Pending(s, a) {
        assert Pending(s, a) ==> s.state.phase.RequestingPermission?;
      }
      if !supported {
        FailKeepsCore(s, RecordingUnsupported);
        BetweenIsInv(t);
      } else {
        forall a | 0 <= a < |s.browser.acquisitions| ensures !Pending(t, a) { assert !Pending(s, a); }
        assert Pending(t, |s.browser.acquisitions|);
      }
    }
  }

  /** An answered acquisition leaves nothing pending when it was current, and changes nothing when not. */
  lemma AnsweredPending(s: State, a: nat)
    requires Inv(s) && a < |s.browser.acquisitions| && !s.browser.acquisitions[a].answered
    ensures Core(Answered(s, a))
    ensures s.browser.acquisitions[a].generation == s.generation ==>
              NothingPending(Answered(s, a)) && s.state.phase.RequestingPermission? && s.stream.None?
    ensures s.browser.acquisitions[a].generation != s.generation ==> Inv(Answered(s, a))
  {
    var t := Answered(s, a);
    if s.browser.acquisitions[a].generation == s.generation {
      assert Pending(s, a);
      forall b | 0 <= b < |t.browser.acquisitions| ensures !Pending(t, b) {
        if b < a { assert !(Pending(s, b) && Pending(s, a)); }
        if a < b { assert !(Pending(s, a) && Pending(s, b)); }
      }
    } else {
      forall b | 0 <= b < |t.browser.acquisitions| ensures Pending(t, b) == Pending(s, b) {
      }
    }
  }

  lemma RefusalKeepsInv(s: State, a: nat, reason: FailureReason)
    requires Inv(s)
    ensures Inv(AfterRefusal(s, a, reason))
  {
    if a < |s.browser.acquisitions| && !s.browser.acquisitions[a].answered {
      AnsweredPending(s, a);
      if s.browser.acquisitions[a].generation == s.generation {
        FailKeepsCore(Answered(s, a), reason);
        BetweenIsInv(AfterRefusal(s, a, reason));
      }
    }
  }

  lemma GrantKeepsInv(s: State, a: nat, start: Option<Behaviour>)
    requires Inv(s)
    ensures Inv(AfterGrant(s, a, start))
  {
    if a < |s.browser.acquisitions| && !s.browser.acquisitions[a].answered {
      AnsweredPending(s, a);
      var t := AfterGrant(s, a, start);
      if s.browser.acquisitions[a].generation != s.generation {
        PendingSame(Answered(s, a), t);
      } else {
        CaptureKeepsInv(Answered(s, a), start);
      }
    }
  }

  /** A grant the controller still wants: whatever the recorder does inside start(), the capture runs or
      has ended properly. */
  lemma CaptureKeepsInv(s: State, start: Option<Behaviour>)
    requires Core(s) && NothingPending(s) && s.stream.None? && s.state.phase.RequestingPermission?
    ensures var stream := s.browser.granted;
            Inv(BeginCapture(Granted(s).(stream := Some(stream), chunks := []), stream, start))
  {
    var stream := s.browser.granted;
    var held := Granted(s).(stream := Some(stream), chunks := []);
    var end := BeginCapture(held, stream, start);
    match start
    case None =>
      UnattachedReleaseKeepsCore(s);
      PendingSame(s, ReleaseMicrophone(held));
      FailKeepsCore(ReleaseMicrophone(held), RecordingFailed);
      BetweenIsInv(end);
    case Some(behaviour) =>
      AttachIsBetween(s);
      var announced := Attach(held, stream);
      var started := FireAll(announced, announced.recorder.value, behaviour.events, behaviour.mime);
      FireAllKeepsBetween(announced, announced.recorder.value, behaviour.events, behaviour.mime);
      if behaviour.throws {
        FailingCapture(started, RecordingFailed);
        BetweenIsInv(end);
      } else if started.stream.Some? {
        PendingSame(started, end);
        BetweenIsInv(end);
      } else {
        BetweenIsInv(end);
      }
  }

  /** No recorder could be made: the stream goes straight back. */
  lemma UnattachedReleaseKeepsCore(s: State)
    requires Core(s) && s.stream.None?
    ensures var held := Granted(s).(stream := Some(s.browser.granted), chunks := []);
            var t := ReleaseMicrophone(held);
            Core(t) && t.stream.None? && t.state == s.state && t.generation == s.generation
            && t.browser.acquisitions == s.browser.acquisitions
  {
    var held := Granted(s).(stream := Some(s.browser.granted), chunks := []);
    if s.state.recording.Some? && s.state.recording.value.source == Microphone {
      FaithfulStays(s.browser, ReleaseMicrophone(held).browser, s.state.recording.value);
    }
  }

  lemma AttachIsBetween(s: State)
    requires Core(s) && NothingPending(s) && s.stream.None? && s.state.phase.RequestingPermission?
    ensures Between(Attach(Granted(s).(stream := Some(s.browser.granted), chunks := []), s.browser.granted))
  {
    var t := Attach(Granted(s).(stream := Some(s.browser.granted), chunks := []), s.browser.granted);
    PendingSame(s, t);
    if s.state.recording.Some? && s.state.recording.value.source == Microphone {
      FaithfulStays(s.browser, t.browser, s.state.recording.value);
    }
  }

  /** Cancelling gives the microphone back and outdates every pending acquisition. */
  lemma CancelKeepsCore(s: State)
    requires Core(s)
    ensures var t := CancelCapture(s);
            Core(t) && t.stream.None? && NothingPending(t) && t.state == s.state
  {
    var t := CancelCapture(s);
    if s.state.recording.Some? && s.state.recording.value.source == Microphone {
      FaithfulStays(s.browser, t.browser, s.state.recording.value);
    }
  }

  lemma DiscardKeepsInv(s: State)
    requires Inv(s)
    ensures Inv(AfterDiscard(s)) && Inv(AfterRelease(s))
    ensures AfterRelease(s).browser.created == AfterRelease(s).browser.revoked
    ensures forall n :: 0 <= n < AfterRelease(s).browser.granted ==> n in AfterRelease(s).browser.stopped
  {
    CancelKeepsCore(s);
    PendingSame(CancelCapture(s), AfterDiscard(s));
  }

  lemma ChoiceKeepsInv(s: State, file: Blob, name: Option<string>)
    requires Inv(s)
    ensures Inv(AfterChoice(s, file, name))
  {
    var t := AfterChoice(s, file, name);
    if IsAudioFile(file, name) {
      CancelKeepsCore(s);
      ShowKeepsCore(CancelCapture(s), file, ChosenFile, name, None);
      BetweenIsInv(t);
    } else if s.state.phase.RequestingPermission? || s.state.phase.Recording? {
      PendingSame(s, t);
    } else {
      forall a | 0 <= a < |s.browser.acquisitions| ensures !Pending(s, a) {
        assert Pending(s, a) ==> s.state.phase.RequestingPermission?;
      }
      FailKeepsCore(s, FileNotAudio);
      BetweenIsInv(t);
    }
  }

  lemma NextKeepsInv(s: State, step: Step)
    requires Inv(s)
    ensures Inv(Next(s, step))
  {
    match step
    case PressRecord(supported) => StartKeepsInv(s, supported);
    case Refused(a, reason) => RefusalKeepsInv(s, a, reason);
    case Grant(a, start) => GrantKeepsInv(s, a, start);
    case PressStop(stop) => StopKeepsInv(s, stop);
    case PressDiscard => DiscardKeepsInv(s);
    case PickFile(file, name) => ChoiceKeepsInv(s, file, name);
    case Unmount => DiscardKeepsInv(s);
    case RecorderFires(r, e, mime) => RecorderFiresKeepsInv(s, r, e, mime);
  }

  // ---------------------------------------------------------------- main results

  lemma {:induction false} EveryRunKeepsInv(steps: seq<Step>)
    ensures Inv(Run(steps))
  {
    if steps != [] {
      EveryRunKeepsInv(Init(steps));
      NextKeepsInv(Run(Init(steps)), Last(steps));
    }
  }

  /** No microphone leak in any run: every stream ever granted has been stopped or is the controller's own,
      which it holds exactly while it shows "recording"; only that capture's recorder has handlers; and
      exactly one acquisition of the current generation is open while it shows "requesting permission",
      none otherwise. */
  lemma NoMicrophoneLeak(steps: seq<Step>)
    ensures var s := Run(steps);
            && (forall n :: 0 <= n < s.browser.granted && n !in s.browser.stopped ==>
                  s.stream == Some(n) && s.state.phase.Recording?)
            && (s.state.phase.Recording? <==> s.stream.Some?)
            && (forall r :: 0 <= r < |s.browser.recorders| && s.browser.recorders[r].attached ==>
                  s.recorder == Some(r) && s.stream == Some(s.browser.recorders[r].stream))
            && (s.state.phase.RequestingPermission? <==>
                  exists a :: 0 <= a < |s.browser.acquisitions| && Pending(s, a))
            && (forall a, b :: 0 <= a < b < |s.browser.acquisitions| && Pending(s, a) ==> !Pending(s, b))
  {
    EveryRunKeepsInv(steps);
  }

  /** Every preview URL is created once and revoked once, in the order of creation, except the one on show;
      and the phases agree with what is in hand. */
  lemma PreviewsAreConserved(steps: seq<Step>)
    ensures var s := Run(steps);
            && s.browser.created == s.browser.revoked
               + (if s.state.recording.Some? then [s.state.recording.value.previewUrl] else [])
            && (forall i, j :: 0 <= i < j < |s.browser.created| ==> s.browser.created[i] != s.browser.created[j])
            && (s.state.phase.Recorded? ==> s.state.recording.Some?)
            && (s.state.phase.Ready? || s.state.phase.Error? ==> s.state.recording.None?)
  {
    EveryRunKeepsInv(steps);
  }

  /** A microphone recording on show is, byte for byte and in order, what one recorder had produced when it
      stopped: nothing lost, added or taken from another capture. */
  lemma RecordingsAreFaithful(steps: seq<Step>)
    requires Run(steps).state.recording.Some? && Run(steps).state.recording.value.source == Microphone
    ensures var s := Run(steps);
            var recording := s.state.recording.value;
            && recording.previewUrl in s.browser.origin
            && var r := s.browser.origin[recording.previewUrl];
               r < |s.browser.recorders|
               && var rec := s.browser.recorders[r];
                  rec.stoppedAt.Some? && rec.stoppedAt.value <= |rec.output|
                  && recording.blob.bytes == Concat(rec.output[..rec.stoppedAt.value])
  {
    EveryRunKeepsInv(steps);
    var s := Run(steps);
    var rec := s.browser.recorders[s.browser.origin[s.state.recording.value.previewUrl]];
    ConcatNonEmpty(rec.output[..rec.stoppedAt.value]);
  }

  /** Leaving the page gives everything back that has been answered; a grant still to come is given back
      the moment it arrives. */
  lemma UnmountGivesEverythingBack(steps: seq<Step>, a: nat, start: Option<Behaviour>)
    ensures var s := Run(steps + [Unmount]);
            && s.browser.created == s.browser.revoked
            && (forall n :: 0 <= n < s.browser.granted ==> n in s.browser.stopped)
            && var later := Next(s, Grant(a, start));
               later.state == READY && forall n :: 0 <= n < later.browser.granted ==> n in later.browser.stopped
  {
    EveryRunKeepsInv(steps);
    assert Init(steps + [Unmount]) == steps;
    DiscardKeepsInv(Run(steps));
    CancelKeepsCore(Run(steps));
    var s := Run(steps + [Unmount]);
    PendingSame(CancelCapture(Run(steps)), s);
    LateGrantIsGivenBack(s, a, start);
  }

  lemma LateGrantIsGivenBack(s: State, a: nat, start: Option<Behaviour>)
    requires s.state == READY && (forall n :: 0 <= n < s.browser.granted ==> n in s.browser.stopped)
    requires a < |s.browser.acquisitions| ==> !Pending(s, a)
    ensures var later := Next(s, Grant(a, start));
            later.state == READY && forall n :: 0 <= n < later.browser.granted ==> n in later.browser.stopped
  {
  }
}
