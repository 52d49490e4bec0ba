// What each entry point of src/adapters/media/audio-capture-controller.ts comes to, from every state a run can reach:
// stated about the next state of a run, with nothing taken from the bodies of the steps.
module CaptureEffects {
  import opened Common
  import opened Text
  import opened AudioCapture

  // ---------------------------------------------------------------- words for what is seen

  /** What the child sees after a failure: whatever was in hand stays in hand. */
  function Failed(before: CaptureState, reason: FailureReason): CaptureState {
    CaptureState(if before.recording.Some? then Recorded else Error, before.recording, Some(reason))
  }

  /** The chunks among some callbacks. */
  function Produced(events: seq<RecorderEvent>): seq<Blob> {
    if events == [] then []
    else Produced(Init(events)) + (if Last(events).DataAvailable? then [Last(events).chunk] else [])
  }

  /** The first `k` callbacks bring data and nothing else, and the next one, if there is one, ends the capture. */
  predicate FirstEnding(events: seq<RecorderEvent>, k: nat) {
    && k <= |events| && (forall j :: 0 <= j < k ==> events[j].DataAvailable?)
    && (k < |events| ==> !events[k].DataAvailable?)
  }

  /** The microphone is given back and the recorder has no handlers left. */
  predicate Freed(t: State, r: nat, n: nat) {
    n in t.browser.stopped && t.stream.None? && r < |t.browser.recorders| && !t.browser.recorders[r].attached
  }

  /** One chunk with bytes and a type is the recording; otherwise the recorder's own type labels the bytes. */
  predicate TypedAs(blob: Blob, chunks: seq<Blob>, mime: string) {
    var filled := NonEmpty(chunks);
    if |filled| == 1 && filled[0].mime != "" then blob == filled[0] else blob.mime == mime
  }

  /** A new recording is on show: the bytes of these chunks, from this recorder. */
  predicate Shows(s: State, t: State, r: nat, chunks: seq<Blob>, mime: string) {
    && t.state.phase.Recorded? && t.state.recording.Some?
    && var shown := t.state.recording.value;
       && shown.source == Microphone && shown.fileName.None?
       && shown.blob.bytes == Concat(chunks) && TypedAs(shown.blob, chunks, mime)
       && shown.previewUrl !in s.browser.created
       && shown.previewUrl in t.browser.origin && t.browser.origin[shown.previewUrl] == r
  }

  /** How a capture ends when, of what its recorder fires, the first ending is `e` - or when the call throws. */
  predicate Ended(s: State, t: State, r: nat, n: nat, chunks: seq<Blob>, e: Option<RecorderEvent>, throws: bool,
                  mime: string) {
    && Freed(t, r, n) && t.generation == s.generation
    && if e == Some(Stopped) && Concat(chunks) != []
       then Shows(s, t, r, chunks, mime) && t.state.failure == (if throws then Some(RecordingFailed) else None)
       else t.state == Failed(s.state, if e == Some(Stopped) && !throws then EmptyRecording else RecordingFailed)
  }

  /** The microphone was asked for and granted no more often. */
  predicate SameAsked(s: State, t: State) {
    t.browser.granted == s.browser.granted && t.browser.acquisitions == s.browser.acquisitions
  }

  /** Nothing but the recorder's own output has moved. */
  predicate SameShown(s: State, t: State) {
    && Quiet(s, t) && t.browser.stopped == s.browser.stopped && t.browser.created == s.browser.created
    && t.browser.revoked == s.browser.revoked && t.browser.origin == s.browser.origin
    && |t.browser.recorders| == |s.browser.recorders|
  }

  // ---------------------------------------------------------------- callbacks in a row

  lemma {:induction false} FireAllAppend(
      s: State, r: nat, first: seq<RecorderEvent>, more: seq<RecorderEvent>, mime: string)
    ensures FireAll(s, r, first + more, mime) == FireAll(FireAll(s, r, first, mime), r, more, mime)
  {
    if more == [] {
      assert first + more == first;
    } else {
      assert Init(first + more) == first + Init(more) && Last(first + more) == Last(more);
      FireAllAppend(s, r, first, Init(more), mime);
    }
  }

  /** Data reaches the capture, and nothing else changes. */
  lemma {:induction false} DataArrives(s: State, r: nat, events: seq<RecorderEvent>, mime: string)
    requires Core(s) && r < |s.browser.recorders| && s.browser.recorders[r].attached && FirstEnding(events, |events|)
    ensures var t := FireAll(s, r, events, mime);
            && Core(t) && SameShown(s, t) && r < |t.browser.recorders|
            && t.browser.recorders[r]
               == s.browser.recorders[r].(output := s.browser.recorders[r].output + Produced(events))
  {
    if events != [] {
      assert FirstEnding(Init(events), |Init(events)|);
      DataArrives(s, r, Init(events), mime);
      var u := FireAll(s, r, Init(events), mime);
      DataKeepsCore(u, r, Last(events).chunk, mime);
      OneMore(u, r, Last(events).chunk, mime);
    }
  }

  lemma OneMore(s: State, r: nat, chunk: Blob, mime: string)
    requires r < |s.browser.recorders| && s.browser.recorders[r].attached
    ensures var t := Fire(s, r, DataAvailable(chunk), mime);
            && SameShown(s, t)
            && t.browser.recorders[r] == s.browser.recorders[r].(output := s.browser.recorders[r].output + [chunk])
  {
  }

  /** A recorder without handlers reaches nothing. */
  lemma {:induction false} LateCallbacks(s: State, r: nat, events: seq<RecorderEvent>, mime: string)
    requires r < |s.browser.recorders| && !s.browser.recorders[r].attached
    ensures var t := FireAll(s, r, events, mime);
            SameShown(s, t) && t.chunks == s.chunks && !t.browser.recorders[r].attached
  {
    if events != [] {
      LateCallbacks(s, r, Init(events), mime);
      OneLate(FireAll(s, r, Init(events), mime), r, Last(events), mime);
    }
  }

  lemma OneLate(s: State, r: nat, e: RecorderEvent, mime: string)
    requires r < |s.browser.recorders| && !s.browser.recorders[r].attached
    ensures var t := Fire(s, r, e, mime);
            SameShown(s, t) && t.chunks == s.chunks && !t.browser.recorders[r].attached
  {
  }

  /** A capture is running: recorder `r` records stream `n`. */
  predicate Capturing(s: State, r: nat, n: nat) {
    s.recorder == Some(r) && s.stream == Some(n)
  }

  lemma ErrorEnds(s: State, r: nat, n: nat, mime: string)
    requires Core(s) && Capturing(s, r, n)
    ensures Ended(s, Fire(s, r, Errored, mime), r, n, s.browser.recorders[r].output, Some(Errored), false, mime)
    ensures SameAsked(s, Fire(s, r, Errored, mime))
  {
    ErrorIsPlain(s, r, mime);
  }

  lemma StopEnds(s: State, r: nat, n: nat, mime: string)
    requires Core(s) && Capturing(s, r, n)
    ensures Ended(s, Fire(s, r, Stopped, mime), r, n, s.browser.recorders[r].output, Some(Stopped), false, mime)
    ensures SameAsked(s, Fire(s, r, Stopped, mime))
  {
    var marked, output := MarkStopped(s, r), s.browser.recorders[r].output;
    var released := ReleaseMicrophone(marked);
    assert Fire(s, r, Stopped, mime) == Finish(marked, mime);
    ConcatNonEmpty(output);
    NonEmptyHasBytes(output);
    ConcatEmpty(NonEmpty(output));
    JoinedBytes(s.chunks, mime);
    assert released.chunks == NonEmpty(output) && Freed(released, r, n);
  }

  lemma {:induction false} ConcatEmpty(chunks: seq<Blob>)
    ensures Concat(chunks) == [] <==> forall k :: 0 <= k < |chunks| ==> chunks[k].bytes == []
  {
    if chunks != [] {
      ConcatEmpty(Init(chunks));
    }
  }

  /** What is only output, before or after, does not change how a capture ended. */
  lemma EndedAllTheSame(s: State, before: State, ended: State, t: State, r: nat, n: nat, chunks: seq<Blob>,
                        e: RecorderEvent, mime: string)
    requires SameShown(s, before) && Ended(before, ended, r, n, chunks, Some(e), false, mime)
    requires SameShown(ended, t) && r < |t.browser.recorders| && !t.browser.recorders[r].attached
    ensures Ended(s, t, r, n, chunks, Some(e), false, mime)
  {
  }

  /** Callbacks before the ending one, the ending one, and those after it. */
  lemma SplitAt(s: State, r: nat, events: seq<RecorderEvent>, k: nat, mime: string)
    requires k < |events|
    ensures FireAll(s, r, events, mime)
        == FireAll(Fire(FireAll(s, r, events[..k], mime), r, events[k], mime), r, events[k + 1..], mime)
  {
    var upto := events[..k + 1];
    assert Init(upto) == events[..k] && Last(upto) == events[k] && events == upto + events[k + 1..];
    FireAllAppend(s, r, upto, events[k + 1..], mime);
    Unfolded(s, r, upto, mime);
  }

  lemma Unfolded(s: State, r: nat, events: seq<RecorderEvent>, mime: string)
    requires events != []
    ensures FireAll(s, r, events, mime) == Fire(FireAll(s, r, Init(events), mime), r, Last(events), mime)
  {
  }

  lemma EndingEnds(s: State, r: nat, n: nat, e: RecorderEvent, mime: string)
    requires Core(s) && Capturing(s, r, n) && !e.DataAvailable?
    ensures Ended(s, Fire(s, r, e, mime), r, n, s.browser.recorders[r].output, Some(e), false, mime)
    ensures SameAsked(s, Fire(s, r, e, mime))
  {
    if e.Stopped? { StopEnds(s, r, n, mime); } else { ErrorEnds(s, r, n, mime); }
  }

  /** Everything a recorder may fire in one go, and how it leaves the capture. */
  lemma CallbacksEnd(s: State, r: nat, n: nat, events: seq<RecorderEvent>, k: nat, mime: string)
    requires Core(s) && Capturing(s, r, n) && FirstEnding(events, k) && k < |events|
    ensures var chunks := s.browser.recorders[r].output + Produced(events[..k]);
            Ended(s, FireAll(s, r, events, mime), r, n, chunks, Some(events[k]), false, mime)
            && SameAsked(s, FireAll(s, r, events, mime))
  {
    SplitAt(s, r, events, k, mime);
    assert FirstEnding(events[..k], k);
    DataArrives(s, r, events[..k], mime);
    var before := FireAll(s, r, events[..k], mime);
    EndingEnds(before, r, n, events[k], mime);
    var ended := Fire(before, r, events[k], mime);
    LateCallbacks(ended, r, events[k + 1..], mime);
    EndedAllTheSame(s, before, ended, FireAll(ended, r, events[k + 1..], mime), r, n,
                    before.browser.recorders[r].output, events[k], mime);
  }

  /** A call that throws after its callbacks leaves the capture ended too, whatever they were. */
  lemma ThrowEnds(s: State, r: nat, n: nat, behaviour: Behaviour, k: nat)
    requires Core(s) && Capturing(s, r, n) && FirstEnding(behaviour.events, k) && behaviour.throws
    ensures var chunks := s.browser.recorders[r].output + Produced(behaviour.events[..k]);
            var e := if k < |behaviour.events| then Some(behaviour.events[k]) else None;
            var fired := FireAll(s, r, behaviour.events, behaviour.mime);
            Ended(s, Fail(ReleaseMicrophone(fired), RecordingFailed), r, n, chunks, e, true, behaviour.mime)
            && SameAsked(s, ReleaseMicrophone(fired))
  {
    var fired := FireAll(s, r, behaviour.events, behaviour.mime);
    if k < |behaviour.events| {
      CallbacksEnd(s, r, n, behaviour.events, k, behaviour.mime);
      FailedAfterTheEnd(s, fired, r, n, s.browser.recorders[r].output + Produced(behaviour.events[..k]),
                        behaviour.events[k], behaviour.mime);
    } else {
      assert behaviour.events[..k] == behaviour.events;
      DataArrives(s, r, behaviour.events, behaviour.mime);
      FailedBeforeAnyEnd(s, fired, r, n, s.browser.recorders[r].output + Produced(behaviour.events), behaviour.mime);
    }
  }

  lemma FailedAfterTheEnd(s: State, fired: State, r: nat, n: nat, chunks: seq<Blob>, e: RecorderEvent, mime: string)
    requires Ended(s, fired, r, n, chunks, Some(e), false, mime) && SameAsked(s, fired)
    ensures Ended(s, Fail(ReleaseMicrophone(fired), RecordingFailed), r, n, chunks, Some(e), true, mime)
    ensures SameAsked(s, ReleaseMicrophone(fired))
  {
    assert ReleaseMicrophone(fired).state == fired.state && Freed(ReleaseMicrophone(fired), r, n);
  }

  lemma FailedBeforeAnyEnd(s: State, fired: State, r: nat, n: nat, chunks: seq<Blob>, mime: string)
    requires Core(fired) && Capturing(s, r, n) && SameShown(s, fired)
    ensures Ended(s, Fail(ReleaseMicrophone(fired), RecordingFailed), r, n, chunks, None, true, mime)
    ensures SameAsked(s, ReleaseMicrophone(fired))
  {
  }

  // ---------------------------------------------------------------- the stop button

  lemma RunStep(steps: seq<Step>, step: Step)
    ensures Run(steps + [step]) == Next(Run(steps), step)
  {
    assert Init(steps + [step]) == steps;
  }

  lemma RecordingIsCapturing(steps: seq<Step>)
    requires Run(steps).state.phase.Recording?
    ensures var s := Run(steps);
            && Core(s) && s.stream.Some? && s.recorder.Some? && s.recorder.value < |s.browser.recorders|
            && Capturing(s, s.recorder.value, s.stream.value) && s.browser.recorders[s.recorder.value].attached
  {
    EveryRunKeepsInv(steps);
  }

  /** Pressing stop while recording: unless the recorder stays silent about its end, the microphone is given back, the
      handlers are off and the phase is left - for the recording itself, byte for byte, when the recorder's first word
      about its end was "stop" and any bytes had come; otherwise for what was in hand before, with the reason. */
  lemma StopEndsTheCapture(steps: seq<Step>, stop: Behaviour, k: nat)
    requires Run(steps).state.phase.Recording? && FirstEnding(stop.events, k)
    ensures var s, t := Run(steps), Run(steps + [PressStop(stop)]);
            && s.recorder.Some? && s.stream.Some? && s.recorder.value < |s.browser.recorders|
            && var r, n := s.recorder.value, s.stream.value;
               var chunks := s.browser.recorders[r].output + Produced(stop.events[..k]);
               var e := if k < |stop.events| then Some(stop.events[k]) else None;
               if e.None? && !stop.throws
               then SameShown(s, t) && t.browser.recorders[r] == s.browser.recorders[r].(output := chunks)
               else Ended(s, t, r, n, chunks, e, stop.throws, stop.mime) && !t.state.phase.Recording?
  {
    RecordingIsCapturing(steps);
    RunStep(steps, PressStop(stop));
    var s := Run(steps);
    var r, n := s.recorder.value, s.stream.value;
    if stop.throws {
      ThrowEnds(s, r, n, stop, k);
    } else if k < |stop.events| {
      CallbacksEnd(s, r, n, stop.events, k, stop.mime);
    } else {
      assert stop.events[..k] == stop.events;
      DataArrives(s, r, stop.events, stop.mime);
    }
  }

  /** A recorder that ends on its own ends the capture as if the button had been pressed; one whose capture is over
      reaches nothing the child sees. */
  lemma RecorderEndsTheCapture(steps: seq<Step>, r: nat, e: RecorderEvent, mime: string)
    ensures var s, t := Run(steps), Run(steps + [RecorderFires(r, e, mime)]);
            if s.state.phase.Recording? && s.recorder == Some(r)
            then t == Run(steps + [PressStop(Behaviour([e], false, mime))])
            else SameShown(s, t) && t.chunks == s.chunks
  {
    RunStep(steps, RecorderFires(r, e, mime));
    RunStep(steps, PressStop(Behaviour([e], false, mime)));
    EveryRunKeepsInv(steps);
    Unfolded(Run(steps), r, [e], mime);
    assert Init([e]) == [];
    if r < |Run(steps).browser.recorders| && !Run(steps).browser.recorders[r].attached {
      OneLate(Run(steps), r, e, mime);
    }
  }

  /** Without a recording under way the stop button does nothing. */
  lemma StopIsIdleOtherwise(steps: seq<Step>, stop: Behaviour)
    requires !Run(steps).state.phase.Recording?
    ensures Run(steps + [PressStop(stop)]) == Run(steps)
  {
    RunStep(steps, PressStop(stop));
  }

  // ---------------------------------------------------------------- the record button

  /** Pressing record: ignored while a capture is being asked for or made; otherwise the microphone is asked for once,
      and what was in hand stays in hand - or the child is told at once that this browser cannot record. */
  lemma RecordAsksOnce(steps: seq<Step>, supported: bool)
    ensures var s, t := Run(steps), Run(steps + [PressRecord(supported)]);
            && t.browser.created == s.browser.created && t.browser.revoked == s.browser.revoked
            && if s.state.phase.RequestingPermission? || s.state.phase.Recording? then t == s
               else if !supported
               then t.state == Failed(s.state, RecordingUnsupported) && SameShown(s.(state := t.state), t)
               else && t.state == CaptureState(RequestingPermission, s.state.recording, None)
                    && Pending(t, |s.browser.acquisitions|)
                    && t.browser.acquisitions[..|s.browser.acquisitions|] == s.browser.acquisitions
                    && (forall a :: 0 <= a < |s.browser.acquisitions| ==> !Pending(s, a))
  {
    RunStep(steps, PressRecord(supported));
    EveryRunKeepsInv(steps);
    forall a | 0 <= a < |Run(steps).browser.acquisitions| && Pending(Run(steps), a)
      ensures Run(steps).state.phase.RequestingPermission? {
    }
  }

  /** A refusal is told to the one who waits for it; to anybody else it says nothing. */
  lemma RefusalIsTold(steps: seq<Step>, a: nat, reason: FailureReason)
    requires a < |Run(steps).browser.acquisitions| && !Run(steps).browser.acquisitions[a].answered
    ensures var s, t := Run(steps), Run(steps + [Refused(a, reason)]);
            && t.state == (if Pending(s, a) then Failed(s.state, reason) else s.state)
            && t.stream == s.stream && t.recorder == s.recorder && !Pending(t, a)
            && t.browser.created == s.browser.created && t.browser.revoked == s.browser.revoked
            && t.browser.granted == s.browser.granted && t.browser.stopped == s.browser.stopped
  {
    RunStep(steps, Refused(a, reason));
  }

  /** A grant nobody waits for any more is given straight back, unseen. */
  lemma LateGrant(steps: seq<Step>, a: nat, start: Option<Behaviour>)
    requires a < |Run(steps).browser.acquisitions| && !Run(steps).browser.acquisitions[a].answered
    requires !Pending(Run(steps), a)
    ensures var s, t := Run(steps), Run(steps + [Grant(a, start)]);
            && t.state == s.state && t.stream == s.stream && t.recorder == s.recorder && t.chunks == s.chunks
            && t.browser.recorders == s.browser.recorders
            && t.browser.granted == s.browser.granted + 1 && s.browser.granted in t.browser.stopped
  {
    RunStep(steps, Grant(a, start));
  }

  /** A grant that is waited for becomes a capture of that very stream, with a recorder of its own: under way when the
      recorder neither throws nor ends inside its own start, and otherwise ended as a stop would have ended it. */
  lemma GrantStartsACapture(steps: seq<Step>, a: nat, start: Option<Behaviour>, k: nat)
    requires Pending(Run(steps), a) && (start.Some? ==> FirstEnding(start.value.events, k))
    ensures var s, t := Run(steps), Run(steps + [Grant(a, start)]);
            var r, n := |s.browser.recorders|, s.browser.granted;
            && t.browser.granted == n + 1 && !Pending(t, a)
            && match start
               case None => t.state == Failed(s.state, RecordingFailed) && t.stream.None? && n in t.browser.stopped
               case Some(behaviour) => (
                 var e := if k < |behaviour.events| then Some(behaviour.events[k]) else None;
                 var chunks := Produced(behaviour.events[..k]);
                 if e.None? && !behaviour.throws
                 then && t.state == CaptureState(Recording, s.state.recording, None) && Capturing(t, r, n)
                      && |t.browser.recorders| == r + 1 && t.browser.recorders[r] == Recorder(n, true, chunks, None)
                 else Ended(s, t, r, n, chunks, e, behaviour.throws, behaviour.mime))
  {
    RunStep(steps, Grant(a, start));
    EveryRunKeepsInv(steps);
    var s := Run(steps);
    AnsweredPending(s, a);
    if start.Some? {
      AttachIsBetween(Answered(s, a));
      StartedCapture(Announced(s, a), |s.browser.recorders|, s.browser.granted, start.value, k);
    }
  }

  /** The capture as it stands when the recorder's start is called. */
  function Announced(s: State, a: nat): State
    requires a < |s.browser.acquisitions|
  {
    Attach(Granted(Answered(s, a)).(stream := Some(s.browser.granted), chunks := []), s.browser.granted)
  }

  /** The part of a grant from the recorder's start on. */
  function Started(announced: State, r: nat, behaviour: Behaviour): State {
    var fired := FireAll(announced, r, behaviour.events, behaviour.mime);
    if behaviour.throws then Fail(ReleaseMicrophone(fired), RecordingFailed)
    else if fired.generation == announced.generation && fired.recorder == announced.recorder
            && fired.state == announced.state
    then Publish(fired, Recording, fired.state.recording, None)
    else fired
  }

  lemma StartedCapture(announced: State, r: nat, n: nat, behaviour: Behaviour, k: nat)
    requires Core(announced) && Capturing(announced, r, n) && announced.browser.recorders[r].output == []
    requires announced.state.phase.RequestingPermission? && FirstEnding(behaviour.events, k)
    ensures var t := Started(announced, r, behaviour);
            var e := if k < |behaviour.events| then Some(behaviour.events[k]) else None;
            if e.None? && !behaviour.throws
            then && SameShown(announced.(state := t.state), t)
                 && t.state == CaptureState(Recording, announced.state.recording, None)
                 && t.browser.recorders[r]
                    == announced.browser.recorders[r].(output := Produced(behaviour.events[..k]))
            else && Ended(announced, t, r, n, Produced(behaviour.events[..k]), e, behaviour.throws, behaviour.mime)
                 && SameAsked(announced, t)
  {
    assert [] + Produced(behaviour.events[..k]) == Produced(behaviour.events[..k]);
    if behaviour.throws {
      ThrowEnds(announced, r, n, behaviour, k);
    } else if k < |behaviour.events| {
      CallbacksEnd(announced, r, n, behaviour.events, k, behaviour.mime);
    } else {
      assert behaviour.events[..k] == behaviour.events;
      DataArrives(announced, r, behaviour.events, behaviour.mime);
    }
  }

  // ---------------------------------------------------------------- throwing away, choosing, leaving

  /** Everything borrowed so far is given back: streams, handlers, and every preview but the one on show. */
  predicate NothingRuns(t: State) {
    && t.stream.None? && t.recorder.None? && t.chunks == [] && NothingPending(t)
    && (forall n :: 0 <= n < t.browser.granted ==> n in t.browser.stopped)
    && (forall r :: 0 <= r < |t.browser.recorders| ==> !t.browser.recorders[r].attached)
  }

  /** Throwing the recording away also ends a capture under way; leaving the page does the same. */
  lemma DiscardGivesBack(steps: seq<Step>, step: Step)
    requires step == PressDiscard || step == Unmount
    ensures var t := Run(steps + [step]);
            t.state == READY && NothingRuns(t) && t.browser.created == t.browser.revoked
  {
    RunStep(steps, step);
    EveryRunKeepsInv(steps);
    CancelKeepsCore(Run(steps));
    DiscardKeepsInv(Run(steps));
    PendingSame(CancelCapture(Run(steps)), Run(steps + [step]));
  }

  /** A chosen audio file replaces what is shown and whatever was being recorded; any other file takes nothing away:
      neither the recording in hand nor a capture under way. */
  lemma ChoiceReplacesOrRefuses(steps: seq<Step>, file: Blob, name: Option<string>)
    ensures var s, t := Run(steps), Run(steps + [PickFile(file, name)]);
            if IsAudioFile(file, name)
            then && NothingRuns(t) && t.state.phase.Recorded? && t.state.failure.None? && t.state.recording.Some?
                 && t.state.recording.value.blob == file && t.state.recording.value.fileName == name
                 && t.state.recording.value.source == ChosenFile
                 && t.state.recording.value.previewUrl !in s.browser.created
                 && t.browser.created == t.browser.revoked + [t.state.recording.value.previewUrl]
            else && SameShown(s.(state := t.state), t)
                 && t.state == if s.state.phase.RequestingPermission? || s.state.phase.Recording?
                               then s.state.(failure := Some(FileNotAudio)) else Failed(s.state, FileNotAudio)
  {
    RunStep(steps, PickFile(file, name));
    EveryRunKeepsInv(steps);
    ChoiceKeepsInv(Run(steps), file, name);
    CancelKeepsCore(Run(steps));
    if IsAudioFile(file, name) {
      PendingSame(CancelCapture(Run(steps)), Run(steps + [PickFile(file, name)]));
    }
  }

  /** The name ends so, in upper or lower case. */
  predicate EndsLike(name: string, ending: string) {
    |ending| <= |name| && Lower(name[|name| - |ending|..]) == ending
  }

  /** Only a file that declares no type is judged by its name; case never matters, and an empty file is never audio. */
  lemma AudioFiles(file: Blob, name: Option<string>)
    ensures file.bytes == [] ==> !IsAudioFile(file, name)
    ensures file.bytes != [] && file.mime != "" ==>
              (IsAudioFile(file, name) <==> |file.mime| >= 6 && Lower(file.mime[..6]) == "audio/")
    ensures file.bytes != [] && file.mime == "" ==>
              (IsAudioFile(file, name) <==>
                 name.Some? && exists k :: 0 <= k < |AUDIO_FILE_ENDINGS| && EndsLike(name.value, AUDIO_FILE_ENDINGS[k]))
  {
  }

  // ---------------------------------------------------------------- the microphone really runs

  /** Only what was granted is stopped, and the controller's own stream is not. */
  predicate Unstopped(s: State) {
    && (forall n :: n in s.browser.stopped ==> n < s.browser.granted)
    && (s.stream.Some? ==> s.stream.value < s.browser.granted && s.stream.value !in s.browser.stopped)
  }

  lemma {:induction false} FireAllKeepsUnstopped(s: State, r: nat, events: seq<RecorderEvent>, mime: string)
    requires Unstopped(s)
    ensures Unstopped(FireAll(s, r, events, mime))
  {
    if events != [] {
      FireAllKeepsUnstopped(s, r, Init(events), mime);
    }
  }

  lemma NextKeepsUnstopped(s: State, step: Step)
    requires Unstopped(s) && (s.stream.Some? ==> NothingPending(s))
    ensures Unstopped(Next(s, step))
  {
    match step
    case PressStop(stop) =>
      if s.recorder.Some? { FireAllKeepsUnstopped(s, s.recorder.value, stop.events, stop.mime); }
    case Grant(a, start) => if a < |s.browser.acquisitions| { GrantKeepsUnstopped(s, a, start); }
    case RecorderFires(r, e, mime) => FireAllKeepsUnstopped(s, r, [e], mime); Unfolded(s, r, [e], mime);
                                      assert Init([e]) == [];
    case _ =>
  }

  lemma GrantKeepsUnstopped(s: State, a: nat, start: Option<Behaviour>)
    requires Unstopped(s) && (s.stream.Some? ==> NothingPending(s)) && a < |s.browser.acquisitions|
    ensures Unstopped(AfterGrant(s, a, start))
  {
    if Pending(s, a) && start.Some? {
      FireAllKeepsUnstopped(Announced(s, a), |s.browser.recorders|, start.value.events, start.value.mime);
    }
  }

  /** While the page shows "recording" its microphone is open; a stopped stream is never recorded from, and none is
      stopped that was never granted. */
  lemma OwnStreamIsOpen(steps: seq<Step>)
    ensures var s := Run(steps);
            && (forall n :: n in s.browser.stopped ==> n < s.browser.granted)
            && (s.state.phase.Recording? ==> s.stream.Some? && s.stream.value !in s.browser.stopped)
  {
    EveryRunIsUnstopped(steps);
    EveryRunKeepsInv(steps);
  }

  lemma {:induction false} EveryRunIsUnstopped(steps: seq<Step>)
    ensures Unstopped(Run(steps))
  {
    if steps != [] {
      EveryRunIsUnstopped(Init(steps));
      EveryRunKeepsInv(Init(steps));
      if Run(Init(steps)).stream.Some? { InvIsBetween(Run(Init(steps))); }
      NextKeepsUnstopped(Run(Init(steps)), Last(steps));
    }
  }
}
