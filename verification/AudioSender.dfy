// The browser half of sending a recording: src/adapters/media/audio-answer-sender.ts.
// A recording is an object, so two recordings are the same only if their handles are. `createId` is
// fresh, and listeners do not call back in.
module AudioSender {
  import opened Common
  import opened Http
  import Audio = AudioArtifact

  datatype Recording = Recording(handle: nat, bytes: seq<Audio.Byte>)

  datatype Phase = Idle | Sending | Sent | Failed

  datatype SendState = SendState(
    phase: Phase, failure: Option<Failure>, receipt: Option<ServerReceipt>, recording: Option<Recording>)

  const IDLE := SendState(Idle, None, None, None)

  datatype Identity = Identity(recording: Recording, submissionId: string, createdAt: string, questionId: string)

  /** The sender's private fields. */
  datatype Fields = Fields(state: SendState, identity: Option<Identity>, generation: nat)

  const NEW := Fields(IDLE, None, 0)

  /** One call of `send` that has not returned: the generation it started with and what it carries. */
  datatype Attempt = Attempt(generation: nat, identity: Identity)

  datatype Outcome = Arrived(receipt: ServerReceipt) | FailedWith(failure: Failure)

  // ---------------------------------------------------------------- the steps of the class

  predicate BoundTo(f: Fields, recording: Recording) {
    f.identity.Some? && f.identity.value.recording == recording
  }

  function Prepare(f: Fields, recording: Recording, questionId: string, id: string, now: string): Fields {
    if BoundTo(f, recording) then f
    else Fields(IDLE.(recording := Some(recording)), Some(Identity(recording, id, now, questionId)), f.generation + 1)
  }

  predicate SendIgnored(f: Fields, recording: Recording) {
    || (f.state.recording == Some(recording) && (f.state.phase == Sending || f.state.phase == Sent))
    || !BoundTo(f, recording)
  }

  /** Up to the first await: the attempt that is now open, if one is. */
  function Send(f: Fields, recording: Recording): (Fields, Option<Attempt>) {
    if SendIgnored(f, recording) then (f, None)
    else
      var f' := f.(generation := f.generation + 1, state := SendState(Sending, None, None, Some(recording)));
      if |recording.bytes| > Audio.MAX_AUDIO_BYTES
      then (Settle(f', f'.generation, recording, FailedWith(AudioTooLarge)), None)
      else (f', Some(Attempt(f'.generation, f'.identity.value)))
  }

  /** After the first sixteen bytes were read, or could not be: the draft that goes on the wire. */
  function Sniffed(f: Fields, a: Attempt, readable: bool): (Fields, Option<Draft>) {
    if !readable then (Settle(f, a.generation, a.identity.recording, FailedWith(AudioUnreadable)), None)
    else
      match Audio.Sniff(Audio.Head(a.identity.recording.bytes, Audio.SNIFF_BYTES))
      case None => (Settle(f, a.generation, a.identity.recording, FailedWith(AudioTypeUnsupported)), None)
      case Some(mimeType) => (f, Some(DraftOf(a.identity, mimeType)))
  }

  function DraftOf(identity: Identity, mimeType: Audio.MimeType): Draft {
    Draft(identity.submissionId, identity.questionId, identity.createdAt, mimeType, identity.recording.bytes)
  }

  function OutcomeOf(delivery: Delivery): Outcome {
    match delivery
    case Delivered(receipt) => Arrived(receipt)
    case NotDelivered(reason) => FailedWith(reason)
  }

  function Settle(f: Fields, generation: nat, recording: Recording, outcome: Outcome): Fields {
    if generation != f.generation then f
    else
      match outcome
      case Arrived(receipt) => f.(state := SendState(Sent, None, Some(receipt), Some(recording)))
      case FailedWith(failure) => f.(state := SendState(Failed, Some(failure), None, Some(recording)))
  }

  function DismissFailure(f: Fields): Fields {
    if f.state.phase != Failed then f else f.(state := IDLE.(recording := f.state.recording))
  }

  class AudioAnswerSender {
    var state: SendState
    var identity: Option<Identity>
    var generation: nat

    constructor ()
      ensures Model() == NEW
    {
      state, identity, generation := IDLE, None, 0;
    }

    ghost function Model(): Fields
      reads this
    {
      Fields(state, identity, generation)
    }

    method PrepareRecording(recording: Recording, questionId: string, id: string, now: string)
      modifies this
      ensures Model() == Prepare(old(Model()), recording, questionId, id, now)
    {
      if identity.Some? && identity.value.recording == recording {
        return;
      }
      identity := Some(Identity(recording, id, now, questionId));
      generation := generation + 1;
      state := IDLE.(recording := Some(recording));
    }

    method SendRecording(recording: Recording) returns (attempt: Option<Attempt>)
      modifies this
      ensures (Model(), attempt) == Send(old(Model()), recording)
    {
      if state.recording == Some(recording) {
        if state.phase == Sending || state.phase == Sent {
          return None;
        }
      }
      if identity.None? || identity.value.recording != recording {
        return None;
      }
      generation := generation + 1;
      state := SendState(Sending, None, None, Some(recording));
      if |recording.bytes| > Audio.MAX_AUDIO_BYTES {
        SettleAttempt(generation, recording, FailedWith(AudioTooLarge));
        return None;
      }
      attempt := Some(Attempt(generation, identity.value));
    }

    method ResumeAfterSniff(a: Attempt, readable: bool) returns (draft: Option<Draft>)
      modifies this
      ensures (Model(), draft) == Sniffed(old(Model()), a, readable)
    {
      if !readable {
        SettleAttempt(a.generation, a.identity.recording, FailedWith(AudioUnreadable));
        return None;
      }
      var mimeType := Audio.Sniff(Audio.Head(a.identity.recording.bytes, Audio.SNIFF_BYTES));
      if mimeType.None? {
        SettleAttempt(a.generation, a.identity.recording, FailedWith(AudioTypeUnsupported));
        return None;
      }
      draft := Some(Draft(a.identity.submissionId, a.identity.questionId, a.identity.createdAt, mimeType.value,
                          a.identity.recording.bytes));
    }

    method SettleAttempt(attemptGeneration: nat, recording: Recording, outcome: Outcome)
      modifies this
      ensures Model() == Settle(old(Model()), attemptGeneration, recording, outcome)
    {
      if attemptGeneration != generation {
        return;
      }
      match outcome {
        case Arrived(receipt) => state := SendState(Sent, None, Some(receipt), Some(recording));
        case FailedWith(failure) => state := SendState(Failed, Some(failure), None, Some(recording));
      }
    }

    method Dismiss()
      modifies this
      ensures Model() == DismissFailure(old(Model()))
    {
      if state.phase != Failed {
        return;
      }
      state := IDLE.(recording := state.recording);
    }
  }

  // ---------------------------------------------------------------- runs

  /** Where an open attempt is: reading the first bytes, waiting for the inbox, or returned. */
  datatype Stage = Sniffing | Delivering(draft: Draft) | Returned

  datatype Run = Run(fields: Fields, attempts: seq<Attempt>, stages: seq<Stage>)

  datatype Step =
    | PrepareStep(recording: Recording, questionId: string, id: string, now: string)
    | SendStep(recording: Recording)
    | SniffStep(attempt: nat, readable: bool)
    | DeliverStep(attempt: nat, delivery: Delivery)
    | DismissStep

  function Next(r: Run, step: Step): Run
    requires |r.attempts| == |r.stages|
    ensures |Next(r, step).attempts| == |Next(r, step).stages|
  {
    match step
    case PrepareStep(recording, questionId, id, now) => r.(fields := Prepare(r.fields, recording, questionId, id, now))
    case SendStep(recording) =>
      var (fields, attempt) := Send(r.fields, recording);
      if attempt.None? then r.(fields := fields)
      else Run(fields, r.attempts + [attempt.value], r.stages + [Sniffing])
    case SniffStep(a, readable) =>
      if a < |r.stages| && r.stages[a].Sniffing? then
        var (fields, draft) := Sniffed(r.fields, r.attempts[a], readable);
        Run(fields, r.attempts, r.stages[a := if draft.Some? then Delivering(draft.value) else Returned])
      else r
    case DeliverStep(a, delivery) =>
      if a < |r.stages| && r.stages[a].Delivering? then
        var at := r.attempts[a];
        Run(Settle(r.fields, at.generation, at.identity.recording, OutcomeOf(delivery)), r.attempts,
          r.stages[a := Returned])
      else r
    case DismissStep => r.(fields := DismissFailure(r.fields))
  }

  const BEGIN := Run(NEW, [], [])

  function After(steps: seq<Step>): (r: Run)
    ensures |r.attempts| == |r.stages|
  {
    if steps == [] then BEGIN else Next(After(steps[..|steps| - 1]), steps[|steps| - 1])
  }

  /** Open, and started with the generation the sender has now. */
  predicate Current(r: Run, a: nat)
    requires |r.attempts| == |r.stages|
  {
    a < |r.attempts| && !r.stages[a].Returned? && r.attempts[a].generation == r.fields.generation
  }

  predicate Coherent(r: Run) {
    var f := r.fields;
    && |r.attempts| == |r.stages|
    && (f.identity.None? ==> f.state == IDLE && r.attempts == [])
    && (f.identity.Some? ==> f.state.recording == Some(f.identity.value.recording))
    && (f.state.phase == Sent <==> f.state.receipt.Some?)
    && (f.state.phase == Failed <==> f.state.failure.Some?)
    && (forall a :: 0 <= a < |r.attempts| ==> r.attempts[a].generation <= f.generation)
    && (forall a, b :: 0 <= a < b < |r.attempts| ==> r.attempts[a].generation < r.attempts[b].generation)
    && (f.state.phase == Sending <==> exists a :: 0 <= a < |r.attempts| && Current(r, a))
    && (forall a :: 0 <= a < |r.attempts| && r.attempts[a].generation == f.generation ==>
          f.identity == Some(r.attempts[a].identity))
    && (forall a :: 0 <= a < |r.attempts| && r.stages[a].Delivering? ==>
          r.stages[a].draft == DraftOf(r.attempts[a].identity, r.stages[a].draft.mimeType))
  }

  /** Settling the current attempt, or any other. */
  lemma SettleKeepsCoherent(r: Run, a: nat, outcome: Outcome)
    requires Coherent(r) && a < |r.attempts| && !r.stages[a].Returned?
    ensures var at := r.attempts[a];
            Coherent(Run(Settle(r.fields, at.generation, at.identity.recording, outcome), r.attempts,
              r.stages[a := Returned]))
  {
    var at := r.attempts[a];
    var r' := Run(Settle(r.fields, at.generation, at.identity.recording, outcome), r.attempts, r.stages[a := Returned]);
    if at.generation == r.fields.generation {
      forall b | 0 <= b < |r'.attempts| ensures !Current(r', b) {
      }
    } else {
      forall b | 0 <= b < |r'.attempts| ensures Current(r', b) == Current(r, b) {
      }
    }
  }

  lemma StepKeepsCoherent(r: Run, step: Step)
    requires Coherent(r)
    ensures Coherent(Next(r, step))
  {
    var r' := Next(r, step);
    match step
    case PrepareStep(recording, questionId, id, now) =>
      if !BoundTo(r.fields, recording) {
        forall b | 0 <= b < |r'.attempts| ensures !Current(r', b) { }
      }
    case SendStep(recording) => SendKeepsCoherent(r, recording);
    case SniffStep(a, readable) =>
      if a < |r.stages| && r.stages[a].Sniffing? {
        var (fields, draft) := Sniffed(r.fields, r.attempts[a], readable);
        if draft.None? {
          SettleKeepsCoherent(r, a, if readable then FailedWith(AudioTypeUnsupported) else FailedWith(AudioUnreadable));
        } else {
          forall b | 0 <= b < |r'.attempts| ensures Current(r', b) == Current(r, b) { }
        }
      }
    case DeliverStep(a, delivery) =>
      if a < |r.stages| && r.stages[a].Delivering? {
        SettleKeepsCoherent(r, a, OutcomeOf(delivery));
      }
    case DismissStep =>
      if r.fields.state.phase == Failed {
        forall b | 0 <= b < |r'.attempts| ensures !Current(r', b) { assert Current(r', b) == Current(r, b); }
      }
  }

  lemma SendKeepsCoherent(r: Run, recording: Recording)
    requires Coherent(r)
    ensures Coherent(Next(r, SendStep(recording)))
  {
    var r' := Next(r, SendStep(recording));
    var (fields, attempt) := Send(r.fields, recording);
    if !SendIgnored(r.fields, recording) {
      if attempt.None? {
        forall b | 0 <= b < |r'.attempts| ensures !Current(r', b) { }
      } else {
        assert Current(r', |r.attempts|);
      }
    }
  }

  lemma {:induction false} AlwaysCoherent(steps: seq<Step>)
    ensures Coherent(After(steps))
  {
    if steps != [] {
      AlwaysCoherent(steps[..|steps| - 1]);
      StepKeepsCoherent(After(steps[..|steps| - 1]), steps[|steps| - 1]);
    }
  }

  // ---------------------------------------------------------------- main results

  /** In every run: the published state is about the bound recording; "sent" exactly when a receipt is
      present, "failed" exactly when a failure is; and "sending" exactly when one attempt of the current
      generation is open - never two. */
  lemma StateIsCoherent(steps: seq<Step>)
    ensures var r := After(steps);
            && (r.fields.identity.Some? ==> r.fields.state.recording == Some(r.fields.identity.value.recording))
            && (r.fields.state.phase == Sent <==> r.fields.state.receipt.Some?)
            && (r.fields.state.phase == Failed <==> r.fields.state.failure.Some?)
            && (r.fields.state.phase == Sending <==> exists a :: 0 <= a < |r.attempts| && Current(r, a))
            && (forall a, b :: 0 <= a < b < |r.attempts| && Current(r, a) ==> !Current(r, b))
  {
    AlwaysCoherent(steps);
  }

  /** A superseded attempt changes nothing but its own stage when it comes back. */
  lemma SupersededAttemptsAreSilent(steps: seq<Step>, step: Step, a: nat)
    requires step.SniffStep? || step.DeliverStep?
    requires a == step.attempt < |After(steps).attempts|
    requires After(steps).attempts[a].generation != After(steps).fields.generation
    ensures Next(After(steps), step).fields == After(steps).fields
  {
  }

  /** Rotation re-runs `prepare`: once a recording is bound, preparing it again - under any question, with
      any new id - changes nothing at all, in every run. */
  lemma PrepareBindsOnce(steps: seq<Step>, recording: Recording, questionId: string, id: string, now: string,
                         questionId': string, id': string, now': string)
    ensures var once := After(steps + [PrepareStep(recording, questionId, id, now)]);
            && Next(once, PrepareStep(recording, questionId', id', now')) == once
            && BoundTo(once.fields, recording)
  {
    var step := PrepareStep(recording, questionId, id, now);
    assert (steps + [step])[..|steps|] == steps;
  }

  /** "Sent" is reached from one place only: the receipt of the current attempt's own delivery. */
  lemma OnlyAReceiptSends(steps: seq<Step>, step: Step)
    requires After(steps).fields.state.phase != Sent && Next(After(steps), step).fields.state.phase == Sent
    ensures step.DeliverStep? && step.delivery.Delivered? && Current(After(steps), step.attempt)
    ensures Next(After(steps), step).fields.state.receipt == Some(step.delivery.receipt)
  {
  }

  // ---------------------------------------------------------------- what each step comes to

  lemma Stepped(steps: seq<Step>, step: Step)
    ensures After(steps + [step]) == Next(After(steps), step)
  {
    assert (steps + [step])[..|steps|] == steps;
  }

  /** A recording not bound yet is bound under the id, question and time given now, with nothing said about it; every
      attempt still open is superseded. */
  lemma PrepareBinds(steps: seq<Step>, recording: Recording, questionId: string, id: string, now: string)
    requires !BoundTo(After(steps).fields, recording)
    ensures var r := After(steps + [PrepareStep(recording, questionId, id, now)]);
            && r.fields.identity.Some?
            && r.fields.identity.value.recording == recording && r.fields.identity.value.questionId == questionId
            && r.fields.identity.value.submissionId == id && r.fields.identity.value.createdAt == now
            && r.fields.state.phase == Idle && r.fields.state.receipt.None? && r.fields.state.failure.None?
            && (forall a :: 0 <= a < |r.attempts| ==> !Current(r, a))
  {
    Stepped(steps, PrepareStep(recording, questionId, id, now));
    AlwaysCoherent(steps);
  }

  /** Pressing send opens one attempt, about the bound recording under its bound identity, exactly when nothing is under
      way or sent yet and the recording is not too large; one that is too large fails at once, by that name; and every
      other press changes nothing. */
  lemma SendOpensOneAttempt(steps: seq<Step>, recording: Recording)
    ensures var r, r' := After(steps), After(steps + [SendStep(recording)]);
            if !BoundTo(r.fields, recording) || r.fields.state.phase in {Sending, Sent} then r' == r
            else && r'.fields.identity == r.fields.identity
                 && if |recording.bytes| > Audio.MAX_AUDIO_BYTES
                    then r'.attempts == r.attempts && r'.fields.state.failure == Some(AudioTooLarge)
                    else && r'.fields.state.phase == Sending && |r'.attempts| == |r.attempts| + 1
                         && r'.attempts[..|r.attempts|] == r.attempts && Current(r', |r.attempts|)
                         && r'.stages[|r.attempts|] == Sniffing
                         && Some(r'.attempts[|r.attempts|].identity) == r.fields.identity
  {
    Stepped(steps, SendStep(recording));
    AlwaysCoherent(steps);
  }

  /** The first bytes of the current attempt: a type they tell goes on the wire with everything the recording was bound
      to; bytes that cannot be read, or tell no type, fail under their own names. */
  lemma SniffDecides(steps: seq<Step>, a: nat, readable: bool)
    requires Current(After(steps), a) && After(steps).stages[a].Sniffing?
    ensures var r, r' := After(steps), After(steps + [SniffStep(a, readable)]);
            var identity := r.attempts[a].identity;
            var sniffed := Audio.Sniff(Audio.Head(identity.recording.bytes, Audio.SNIFF_BYTES));
            if readable && sniffed.Some?
            then && r'.fields == r.fields && r'.stages[a].Delivering?
                 && var d := r'.stages[a].draft;
                    && d.submissionId == identity.submissionId && d.questionId == identity.questionId
                    && d.createdAt == identity.createdAt && d.bytes == identity.recording.bytes
                    && d.mimeType == sniffed.value
            else r'.fields.state.failure == Some(if readable then AudioTypeUnsupported else AudioUnreadable)
  {
    Stepped(steps, SniffStep(a, readable));
  }

  /** What comes back to the current attempt is what is shown: a receipt, or the failure it was. */
  lemma DeliveryIsShown(steps: seq<Step>, a: nat, delivery: Delivery)
    requires Current(After(steps), a) && After(steps).stages[a].Delivering?
    ensures var r := After(steps + [DeliverStep(a, delivery)]);
            && r.fields.identity == After(steps).fields.identity && r.stages[a].Returned?
            && match delivery
               case Delivered(receipt) => r.fields.state.phase == Sent && r.fields.state.receipt == Some(receipt)
               case NotDelivered(reason) => r.fields.state.phase == Failed && r.fields.state.failure == Some(reason)
  {
    Stepped(steps, DeliverStep(a, delivery));
  }

  /** Dismissing takes the failure off the page and nothing else: the same recording may be sent again, as itself. */
  lemma DismissClears(steps: seq<Step>)
    ensures var r, r' := After(steps), After(steps + [DismissStep]);
            && r'.fields.identity == r.fields.identity && r'.attempts == r.attempts && r'.stages == r.stages
            && (r.fields.state.phase != Failed ==> r' == r)
            && (r.fields.state.phase == Failed ==>
                  && r'.fields.state.phase == Idle && r'.fields.state.failure.None?
                  && r'.fields.state.recording == r.fields.state.recording)
  {
    Stepped(steps, DismissStep);
  }
}
