// What each step of src/app/api/inbox/submissions/audio/route.ts answers, in any run, and what one undisturbed attempt
// of src/adapters/media/audio-answer-sender.ts comes to, whatever was lost, refused or half done before.
module AudioRetry {
  import opened Common
  import opened Http
  import opened AudioDelivery
  import opened Text
  import S = AudioSender
  import Audio = AudioArtifact

  // ---------------------------------------------------------------- the route, answer by answer

  /** What the client makes of a request's answer. */
  function Heard(w: World, i: nat): Option<Delivery>
    requires i < |w.requests|
  {
    if w.requests[i].stage.Answered? then Some(Deliver(w.requests[i].stage.answer)) else None
  }

  predicate InStage(w: World, i: nat, stage: Stage) {
    i < |w.requests| && w.requests[i].stage == stage
  }

  predicate Readable(receipt: ServerReceipt) {
    !Blank(receipt.receiptId) && !Blank(receipt.receivedAt)
  }

  /** The guards: each refusal under its own name, and past them only a whole request the route accepts. */
  lemma GuardsDecide(steps: seq<Step>, c: Setting, i: nat, access: Access, whole: bool)
    requires InStage(Run(steps, c), i, InFlight)
    ensures var w, w' := Run(steps, c), Run(steps + [Receive(i, access, whole)], c);
            && |w'.requests| == |w.requests| && w'.rows == w.rows && w'.blobs == w.blobs
            && Heard(w', i) == (match access
                 case GateUnavailable => Some(NotDelivered(Unavailable))
                 case NoSession => Some(NotDelivered(Unauthorized))
                 case TooMany => Some(NotDelivered(RateLimited))
                 case Granted =>
                   if whole && Accepts(w.requests[i].draft, w.maxBytes, c.platform) then None
                   else Some(NotDelivered(Refused)))
            && (Heard(w', i).None? ==> w'.requests[i].stage == Validated)
  {
    RunStep(steps, Receive(i, access, whole), c);
  }

  /** Stage one: past it the recording is stored; when it fails the client hears of an outage. */
  lemma BlobFirst(steps: seq<Step>, c: Setting, i: nat, fault: Fault)
    requires InStage(Run(steps, c), i, Validated)
    ensures var w, w' := Run(steps, c), Run(steps + [StoreBlob(i, fault)], c);
            && |w'.requests| == |w.requests| && w'.rows == w.rows
            && (if fault.NoFault? then w'.requests[i].stage == BlobHeld && w.requests[i].draft.bytes in w'.blobs
                else Heard(w', i) == Some(NotDelivered(Unavailable)))
  {
    RunStep(steps, StoreBlob(i, fault), c);
  }

  /** The fields of the draft, and this server's receipt. */
  predicate RowOf(row: Row, d: Draft, receipt: ServerReceipt) {
    && row.submissionId == d.submissionId && row.questionId == d.questionId && row.createdAt == d.createdAt
    && row.mimeType == d.mimeType && row.bytes == d.bytes && row.receipt == receipt
  }

  /** Stage two for an answer that is already filed: nothing is stored, and the client hears the receipt of the row that
      holds it - from the store that looks first, and from the one that inserts, loses and reads the winner. */
  lemma FiledAnswersItsReceipt(steps: seq<Step>, c: Setting, i: nat, k: nat, receipt: ServerReceipt)
    requires InStage(Run(steps, c), i, BlobHeld) && c.storable(Run(steps, c).requests[i].draft)
    requires k < |Run(steps, c).rows| && Readable(Run(steps, c).rows[k].receipt)
    requires Run(steps, c).rows[k].submissionId == Run(steps, c).requests[i].draft.submissionId
    ensures var w := Run(steps, c);
            var looked := Run(steps + [AppendRow(i, NoFault, receipt)], c);
            var lost := Run(steps + [InsertRow(i, NoFault, receipt)], c);
            var won := Run(steps + [InsertRow(i, NoFault, receipt), ReadWinner(i, false)], c);
            && looked.rows == lost.rows == won.rows == w.rows
            && InStage(lost, i, Lost) && |looked.requests| == |won.requests| == |w.requests|
            && Heard(looked, i) == Heard(won, i) == Some(Delivered(Tidied(w.rows[k].receipt)))
  {
    RunStep(steps, AppendRow(i, NoFault, receipt), c);
    RunStep(steps, InsertRow(i, NoFault, receipt), c);
    RunStep(steps + [InsertRow(i, NoFault, receipt)], ReadWinner(i, false), c);
    assert steps + [InsertRow(i, NoFault, receipt), ReadWinner(i, false)]
        == steps + [InsertRow(i, NoFault, receipt)] + [ReadWinner(i, false)];
    EveryRunKeepsInv(steps, c);
    FoundAt(Run(steps, c), k);
    LookedUp(Run(steps, c), c, i, receipt);
    LostAndRead(Run(steps, c), c, i, receipt);
  }

  /** A filed answer with a readable receipt. */
  predicate Found(w: World, i: nat) {
    InStage(w, i, BlobHeld) && FindRow(w.rows, w.requests[i].draft.submissionId).Some?
    && Readable(FindRow(w.rows, w.requests[i].draft.submissionId).value.receipt)
  }

  predicate HearsTheRow(w: World, w': World, i: nat)
    requires Found(w, i)
  {
    && |w'.requests| == |w.requests| && w'.rows == w.rows
    && Heard(w', i) == Some(Delivered(Tidied(FindRow(w.rows, w.requests[i].draft.submissionId).value.receipt)))
  }

  lemma LookedUp(w: World, c: Setting, i: nat, receipt: ServerReceipt)
    requires SenderOk(w) && Found(w, i) && c.storable(w.requests[i].draft)
    ensures HearsTheRow(w, Next(w, AppendRow(i, NoFault, receipt), c), i)
  {
    ReceiptRoundTrip(FindRow(w.rows, w.requests[i].draft.submissionId).value.receipt);
  }

  lemma LostAndRead(w: World, c: Setting, i: nat, receipt: ServerReceipt)
    requires SenderOk(w) && Found(w, i) && c.storable(w.requests[i].draft)
    ensures var lost := Next(w, InsertRow(i, NoFault, receipt), c);
            InStage(lost, i, Lost) && lost.rows == w.rows && HearsTheRow(w, Next(lost, ReadWinner(i, false), c), i)
  {
    ReceiptRoundTrip(FindRow(w.rows, w.requests[i].draft.submissionId).value.receipt);
  }

  lemma FoundAt(w: World, k: nat)
    requires SenderOk(w) && RowsOk(w) && k < |w.rows|
    ensures FindRow(w.rows, w.rows[k].submissionId) == Some(w.rows[k])
  {
    FindRowIs(w.rows, w.rows[k].submissionId);
  }

  predicate Unfiled(w: World, id: string) {
    forall k :: 0 <= k < |w.rows| ==> w.rows[k].submissionId != id
  }

  /** Stage two for a new answer: its row is stored unless the write failed first, and only an undisturbed write is
      answered with the receipt. What the store itself refuses is refused, and not stored. */
  lemma NewAnswerIsFiled(steps: seq<Step>, c: Setting, i: nat, fault: Fault, receipt: ServerReceipt)
    requires InStage(Run(steps, c), i, BlobHeld)
    requires Unfiled(Run(steps, c), Run(steps, c).requests[i].draft.submissionId)
    ensures var w, w' := Run(steps, c), Run(steps + [AppendRow(i, fault, receipt)], c);
            var d := w.requests[i].draft;
            && w' == Run(steps + [InsertRow(i, fault, receipt)], c) && |w'.requests| == |w.requests|
            && (if !c.storable(d) || fault.BeforeWrite? then w'.rows == w.rows
                else |w'.rows| == |w.rows| + 1 && w.rows <= w'.rows && RowOf(w'.rows[|w.rows|], d, receipt))
            && Heard(w', i) == Some(
                if !c.storable(d) then NotDelivered(Refused)
                else if !fault.NoFault? then NotDelivered(Unavailable)
                else if Readable(receipt) then Delivered(Tidied(receipt))
                else NotDelivered(Transport))
  {
    RunStep(steps, AppendRow(i, fault, receipt), c);
    RunStep(steps, InsertRow(i, fault, receipt), c);
    FindRowIs(Run(steps, c).rows, Run(steps, c).requests[i].draft.submissionId);
    InsertedIsAppended(Run(steps, c), c, i, fault, receipt);
    AppendedNew(Run(steps, c), c, i, fault, receipt);
    NewAnswerIsHeard(c.storable(Run(steps, c).requests[i].draft), fault, receipt);
  }

  lemma InsertedIsAppended(w: World, c: Setting, i: nat, fault: Fault, receipt: ServerReceipt)
    requires SenderOk(w) && InStage(w, i, BlobHeld) && FindRow(w.rows, w.requests[i].draft.submissionId).None?
    ensures Next(w, InsertRow(i, fault, receipt), c) == Next(w, AppendRow(i, fault, receipt), c)
  {
  }

  lemma AppendedNew(w: World, c: Setting, i: nat, fault: Fault, receipt: ServerReceipt)
    requires SenderOk(w) && InStage(w, i, BlobHeld) && FindRow(w.rows, w.requests[i].draft.submissionId).None?
    ensures var d, w' := w.requests[i].draft, Next(w, AppendRow(i, fault, receipt), c);
            && |w'.requests| == |w.requests|
            && (if !c.storable(d) || fault.BeforeWrite? then w'.rows == w.rows
                else |w'.rows| == |w.rows| + 1 && w.rows <= w'.rows && RowOf(w'.rows[|w.rows|], d, receipt))
            && w'.requests[i].stage == Answered(NewAnswer(c.storable(d), fault, receipt), false)
            && Heard(w', i) == Some(Deliver(NewAnswer(c.storable(d), fault, receipt)))
  {
  }

  function NewAnswer(storable: bool, fault: Fault, receipt: ServerReceipt): HttpAnswer {
    if !storable then Refuse(400)
    else if fault.NoFault? then HttpAnswer(201, Some(Acknowledge(receipt)))
    else Refuse(503)
  }

  lemma NewAnswerIsHeard(storable: bool, fault: Fault, receipt: ServerReceipt)
    ensures Deliver(NewAnswer(storable, fault, receipt)) ==
            if !storable then NotDelivered(Refused)
            else if !fault.NoFault? then NotDelivered(Unavailable)
            else if Readable(receipt) then Delivered(Tidied(receipt))
            else NotDelivered(Transport)
  {
    ReceiptRoundTrip(receipt);
  }

  // ---------------------------------------------------------------- one undisturbed attempt

  /** Nothing is under way: an answer not sent yet, or one whose last attempt failed. */
  predicate MayBeSent(w: World, identity: S.Identity) {
    w.sender.fields.identity == Some(identity) && w.sender.fields.state.phase in {S.Idle, S.Failed}
  }

  /** The recording the route and the store take, as the type its own bytes say. */
  predicate Deliverable(w: World, identity: S.Identity, m: Audio.MimeType, c: Setting) {
    && |identity.recording.bytes| <= Audio.MAX_AUDIO_BYTES
    && Audio.Sniff(Audio.Head(identity.recording.bytes, Audio.SNIFF_BYTES)) == Some(m)
    && Accepts(S.DraftOf(identity, m), w.maxBytes, c.platform) && c.storable(S.DraftOf(identity, m))
  }

  /** The receipt a filed answer has: that of the row under its id, or the one now minted. */
  function ReceiptFor(w: World, id: string, minted: ServerReceipt): ServerReceipt {
    match FindRow(w.rows, id)
    case Some(row) => row.receipt
    case None => minted
  }

  /** From the press of the button to the answer, with nothing lost and nothing failing: attempt `a`, request `i`. */
  function Undisturbed(recording: S.Recording, a: nat, i: nat, receipt: ServerReceipt): seq<Step> {
    [Press(recording), SniffReturns(a, true), Receive(i, Granted, true), StoreBlob(i, NoFault),
     AppendRow(i, NoFault, receipt), Arrive(a, FromServer(i))]
  }

  lemma RunPair(steps: seq<Step>, first: Step, second: Step, c: Setting)
    ensures Run(steps + [first, second], c) == Next(Next(Run(steps, c), first, c), second, c)
  {
    assert steps + [first, second] == steps + [first] + [second];
    RunStep(steps, first, c);
    RunStep(steps + [first], second, c);
  }

  /** The attempt's request at this stage, and the sender waiting for it. */
  function Waiting(w: World, identity: S.Identity, m: Audio.MimeType, stage: Stage): World
    requires SenderOk(w)
  {
    var g, d := w.sender.fields.generation + 1, S.DraftOf(identity, m);
    w.(sender := S.Run(S.Fields(S.SendState(S.Sending, None, None, Some(identity.recording)), Some(identity), g),
                       w.sender.attempts + [S.Attempt(g, identity)], w.sender.stages + [S.Delivering(d)]),
       requests := w.requests + [Request(|w.sender.attempts|, d, stage)])
  }

  lemma SniffedOrFailed(w: World, identity: S.Identity, c: Setting)
    requires SenderOk(w) && MayBeSent(w, identity)
    ensures var w' := Next(Next(w, Press(identity.recording), c), SniffReturns(|w.sender.attempts|, true), c);
            var sniffed := Audio.Sniff(Audio.Head(identity.recording.bytes, Audio.SNIFF_BYTES));
            if |identity.recording.bytes| <= Audio.MAX_AUDIO_BYTES && sniffed.Some?
            then w' == Waiting(w, identity, sniffed.value, InFlight)
            else w'.requests == w.requests && w'.sender.fields.state.phase == S.Failed && w'.rows == w.rows
  {
  }

  /** With no request on the wire the server does nothing, and nothing comes back. */
  lemma NothingToServe(w: World, i: nat, a: nat, receipt: ServerReceipt, c: Setting)
    requires SenderOk(w) && |w.requests| <= i
    ensures Next(w, Receive(i, Granted, true), c) == w && Next(w, StoreBlob(i, NoFault), c) == w
            && Next(w, AppendRow(i, NoFault, receipt), c) == w && Next(w, Arrive(a, FromServer(i)), c) == w
  {
  }

  lemma StoredOrRefused(w: World, identity: S.Identity, m: Audio.MimeType, c: Setting)
    requires SenderOk(w)
    ensures var d, i := S.DraftOf(identity, m), |w.requests|;
            var w' := Next(Next(Waiting(w, identity, m, InFlight), Receive(i, Granted, true), c),
                           StoreBlob(i, NoFault), c);
            w' == if Accepts(d, w.maxBytes, c.platform)
                  then Waiting(w, identity, m, BlobHeld).(blobs := w.blobs + {d.bytes})
                  else Waiting(w, identity, m, Answered(Refuse(400), false))
  {
    var i := |w.requests|;
    var w1 := Next(Waiting(w, identity, m, InFlight), Receive(i, Granted, true), c);
    assert w1.requests == w.requests + [w1.requests[i]];
  }

  lemma AppendedOrRefused(w: World, identity: S.Identity, m: Audio.MimeType, receipt: ServerReceipt, c: Setting)
    requires SenderOk(w)
    ensures var d, i := S.DraftOf(identity, m), |w.requests|;
            var w' := Next(Waiting(w, identity, m, BlobHeld).(blobs := w.blobs + {d.bytes}),
                           AppendRow(i, NoFault, receipt), c);
            && w'.sender == Waiting(w, identity, m, BlobHeld).sender
            && |w'.requests| == i + 1 && w'.requests[i].attempt == |w.sender.attempts|
            && w'.requests[i].stage.Answered? && !w'.requests[i].stage.cut
            && Deliver(w'.requests[i].stage.answer)
               == (if !c.storable(d) then NotDelivered(Refused)
                   else if Readable(ReceiptFor(w, d.submissionId, receipt))
                     then Delivered(Tidied(ReceiptFor(w, d.submissionId, receipt)))
                   else NotDelivered(Transport))
            && w'.rows == w.rows + (if c.storable(d) && FindRow(w.rows, d.submissionId).None?
                                    then [RowFor(d, receipt)] else [])
  {
    ReceiptRoundTrip(ReceiptFor(w, identity.submissionId, receipt));
  }

  /** The answer of the attempt the sender is waiting for decides what it shows. */
  lemma AnswerIsShown(w: World, a: nat, i: nat, c: Setting)
    requires SenderOk(w) && a < |w.sender.attempts| && w.sender.stages[a].Delivering?
    requires w.sender.attempts[a].generation == w.sender.fields.generation
    requires i < |w.requests| && w.requests[i].attempt == a && w.requests[i].stage.Answered? && !w.requests[i].stage.cut
    ensures var w', delivery := Next(w, Arrive(a, FromServer(i)), c), Deliver(w.requests[i].stage.answer);
            && w'.rows == w.rows
            && (delivery.Delivered? ==>
                  w'.sender.fields.state.phase == S.Sent && w'.sender.fields.state.receipt == Some(delivery.receipt))
            && (delivery.NotDelivered? ==>
                  w'.sender.fields.state.phase == S.Failed
                  && w'.sender.fields.state.failure == Some(delivery.reason))
  {
  }

  predicate DeliverableAsIs(w: World, identity: S.Identity, c: Setting) {
    var sniffed := Audio.Sniff(Audio.Head(identity.recording.bytes, Audio.SNIFF_BYTES));
    sniffed.Some? && Deliverable(w, identity, sniffed.value, c)
  }

  /** How an undisturbed attempt that began at `w` ends. */
  predicate Ends(w: World, w': World, c: Setting, identity: S.Identity, receipt: ServerReceipt) {
    var given := ReceiptFor(w, identity.submissionId, receipt);
    var state := w'.sender.fields.state;
    && (state.phase == S.Sent <==> DeliverableAsIs(w, identity, c) && Readable(given))
    && (state.phase == S.Sent ==> state.receipt == Some(Tidied(given)))
    && state.phase in {S.Sent, S.Failed}
    && (DeliverableAsIs(w, identity, c) ==>
          var m := Audio.Sniff(Audio.Head(identity.recording.bytes, Audio.SNIFF_BYTES)).value;
          w'.rows == w.rows + (if FindRow(w.rows, identity.submissionId).Some? then []
                               else [RowFor(S.DraftOf(identity, m), receipt)]))
    && (!DeliverableAsIs(w, identity, c) ==> w'.rows == w.rows)
  }

  lemma PressedAndSniffed(steps: seq<Step>, c: Setting, identity: S.Identity)
    requires MayBeSent(Run(steps, c), identity)
    ensures var w := Run(steps, c);
            var w' := Run(steps + [Press(identity.recording), SniffReturns(|w.sender.attempts|, true)], c);
            var sniffed := Audio.Sniff(Audio.Head(identity.recording.bytes, Audio.SNIFF_BYTES));
            if |identity.recording.bytes| <= Audio.MAX_AUDIO_BYTES && sniffed.Some?
            then w' == Waiting(w, identity, sniffed.value, InFlight)
            else w'.requests == w.requests && w'.sender.fields.state.phase == S.Failed && w'.rows == w.rows
  {
    RunPair(steps, Press(identity.recording), SniffReturns(|Run(steps, c).sender.attempts|, true), c);
    SniffedOrFailed(Run(steps, c), identity, c);
  }

  lemma ReceivedAndStored(steps: seq<Step>, w: World, c: Setting, identity: S.Identity, m: Audio.MimeType)
    requires SenderOk(w) && Run(steps, c) == Waiting(w, identity, m, InFlight)
    ensures var d, i := S.DraftOf(identity, m), |w.requests|;
            Run(steps + [Receive(i, Granted, true), StoreBlob(i, NoFault)], c)
            == if Accepts(d, w.maxBytes, c.platform)
               then Waiting(w, identity, m, BlobHeld).(blobs := w.blobs + {d.bytes})
               else Waiting(w, identity, m, Answered(Refuse(400), false))
  {
    RunPair(steps, Receive(|w.requests|, Granted, true), StoreBlob(|w.requests|, NoFault), c);
    StoredOrRefused(w, identity, m, c);
  }

  lemma NothingHappens(steps: seq<Step>, c: Setting, i: nat, a: nat, receipt: ServerReceipt)
    requires |Run(steps, c).requests| <= i
    ensures Run(steps + [Receive(i, Granted, true), StoreBlob(i, NoFault)], c) == Run(steps, c)
    ensures Run(steps + [AppendRow(i, NoFault, receipt), Arrive(a, FromServer(i))], c) == Run(steps, c)
  {
    NothingToServe(Run(steps, c), i, a, receipt, c);
    RunPair(steps, Receive(i, Granted, true), StoreBlob(i, NoFault), c);
    RunPair(steps, AppendRow(i, NoFault, receipt), Arrive(a, FromServer(i)), c);
  }

  lemma AnsweredAndShown(
      steps: seq<Step>, w: World, c: Setting, identity: S.Identity, m: Audio.MimeType, receipt: ServerReceipt)
    requires SenderOk(w) && Audio.Sniff(Audio.Head(identity.recording.bytes, Audio.SNIFF_BYTES)) == Some(m)
    requires |identity.recording.bytes| <= Audio.MAX_AUDIO_BYTES
    requires var d := S.DraftOf(identity, m);
             Run(steps, c) == if Accepts(d, w.maxBytes, c.platform)
                              then Waiting(w, identity, m, BlobHeld).(blobs := w.blobs + {d.bytes})
                              else Waiting(w, identity, m, Answered(Refuse(400), false))
    ensures var a, i := |w.sender.attempts|, |w.requests|;
            Ends(w, Run(steps + [AppendRow(i, NoFault, receipt), Arrive(a, FromServer(i))], c), c, identity, receipt)
  {
    var a, i := |w.sender.attempts|, |w.requests|;
    RunPair(steps, AppendRow(i, NoFault, receipt), Arrive(a, FromServer(i)), c);
    var answered := Next(Run(steps, c), AppendRow(i, NoFault, receipt), c);
    if Accepts(S.DraftOf(identity, m), w.maxBytes, c.platform) {
      AppendedOrRefused(w, identity, m, receipt, c);
    } else {
      assert answered == Run(steps, c);
    }
    AnswerIsShown(answered, a, i, c);
  }

  lemma UndisturbedEnds(steps: seq<Step>, c: Setting, identity: S.Identity, receipt: ServerReceipt)
    requires MayBeSent(Run(steps, c), identity)
    ensures var w := Run(steps, c);
            Ends(w, Run(steps + Undisturbed(identity.recording, |w.sender.attempts|, |w.requests|, receipt), c), c,
                 identity, receipt)
  {
    var w, recording := Run(steps, c), identity.recording;
    var a, i := |w.sender.attempts|, |w.requests|;
    var sniffed := Audio.Sniff(Audio.Head(recording.bytes, Audio.SNIFF_BYTES));
    var two := steps + [Press(recording), SniffReturns(a, true)];
    var four := two + [Receive(i, Granted, true), StoreBlob(i, NoFault)];
    assert steps + Undisturbed(recording, a, i, receipt)
        == four + [AppendRow(i, NoFault, receipt), Arrive(a, FromServer(i))];
    PressedAndSniffed(steps, c, identity);
    if |recording.bytes| > Audio.MAX_AUDIO_BYTES || sniffed.None? {
      NothingHappens(two, c, i, a, receipt);
      NothingHappens(four, c, i, a, receipt);
    } else {
      ReceivedAndStored(two, w, c, identity, sniffed.value);
      AnsweredAndShown(four, w, c, identity, sniffed.value, receipt);
    }
  }

  /** After any run - attempts lost, answers stripped, requests still in flight - one undisturbed attempt ends in "sent"
      exactly when the recording is one the route and the store take and the receipt is readable: the receipt of the row
      the answer had already, or of the one row now added under its id. Otherwise it ends in "failed". */
  lemma ArrivesExactlyWhen(steps: seq<Step>, c: Setting, identity: S.Identity, receipt: ServerReceipt)
    requires MayBeSent(Run(steps, c), identity)
    ensures var w := Run(steps, c);
            var w' := Run(steps + Undisturbed(identity.recording, |w.sender.attempts|, |w.requests|, receipt), c);
            var given := ReceiptFor(w, identity.submissionId, receipt);
            && w'.sender.fields.state.phase in {S.Sent, S.Failed}
            && (w'.sender.fields.state.phase == S.Sent <==>
                  (exists m :: Deliverable(w, identity, m, c)) && Readable(given))
            && (w'.sender.fields.state.phase == S.Sent ==>
                  && w'.sender.fields.state.receipt == Some(Tidied(given))
                  && (forall k :: 0 <= k < |w.rows| && w.rows[k].submissionId == identity.submissionId ==>
                        w'.rows == w.rows && given == w.rows[k].receipt)
                  && (Unfiled(w, identity.submissionId) ==>
                        && |w'.rows| == |w.rows| + 1 && w.rows <= w'.rows && given == receipt
                        && Holds(w'.rows[|w.rows|], identity) && w'.rows[|w.rows|].receipt == receipt))
  {
    EveryRunKeepsInv(steps, c);
    var w := Run(steps, c);
    UndisturbedEnds(steps, c, identity, receipt);
    var w' := Run(steps + Undisturbed(identity.recording, |w.sender.attempts|, |w.requests|, receipt), c);
    EndsMeans(w, w', c, identity, receipt);
  }

  lemma EndsMeans(w: World, w': World, c: Setting, identity: S.Identity, receipt: ServerReceipt)
    requires SenderOk(w) && RowsOk(w) && Ends(w, w', c, identity, receipt)
    ensures DeliverableAsIs(w, identity, c) <==> exists m :: Deliverable(w, identity, m, c)
    ensures var given := ReceiptFor(w, identity.submissionId, receipt);
            w'.sender.fields.state.phase == S.Sent ==>
              && (forall k :: 0 <= k < |w.rows| && w.rows[k].submissionId == identity.submissionId ==>
                    w'.rows == w.rows && given == w.rows[k].receipt)
              && (Unfiled(w, identity.submissionId) ==>
                    && |w'.rows| == |w.rows| + 1 && w.rows <= w'.rows && given == receipt
                    && Holds(w'.rows[|w.rows|], identity) && w'.rows[|w.rows|].receipt == receipt)
  {
    FindRowIs(w.rows, identity.submissionId);
    if DeliverableAsIs(w, identity, c) {
      var m := Audio.Sniff(Audio.Head(identity.recording.bytes, Audio.SNIFF_BYTES)).value;
      assert Deliverable(w, identity, m, c);
      Audio.HeadIsEnough(identity.recording.bytes, Audio.SNIFF_BYTES);
    }
  }

  /** The attempt after one that was filed but never heard of: "sent", under the receipt of the first row. */
  lemma RetryAfterSilence(c: Setting, identity: S.Identity, m: Audio.MimeType, receipt: ServerReceipt,
                          receipt': ServerReceipt) returns (steps: seq<Step>)
    requires Welcome(identity, m, c) && Readable(receipt)
    ensures var w := Run(steps, c);
            && w.sender.fields.state.phase == S.Failed && w.sender.fields.state.failure == Some(Transport)
            && |w.rows| == 1 && Holds(w.rows[0], identity) && w.rows[0].receipt == receipt
            && var w' := Run(steps + Undisturbed(identity.recording, |w.sender.attempts|, |w.requests|, receipt'), c);
               && w'.sender.fields.state.phase == S.Sent && w'.rows == w.rows
               && w'.sender.fields.state.receipt == Some(Tidied(receipt))
  {
    steps := FiledButUnheard(c, identity, m, receipt);
    var w := Run(steps, c);
    assert Deliverable(w, identity, m, c);
    ArrivesExactlyWhen(steps, c, identity, receipt');
    assert ReceiptFor(w, identity.submissionId, receipt') == receipt;
  }

  // ---------------------------------------------------------------- a child's own recording

  /** The identity this step bound. */
  predicate BoundBy(identity: S.Identity, step: Step) {
    && step.Prepare? && identity.submissionId == step.id && identity.recording == step.recording
    && identity.questionId == step.questionId && identity.createdAt == step.now
  }

  /** In every run each attempt sends what the one step that used its id bound - that recording, question and time -
      and so does every row filed under that id. */
  lemma SentAsBound(steps: seq<Step>, c: Setting, a: nat) returns (k: nat)
    requires a < |Run(steps, c).sender.attempts|
    ensures var w := Run(steps, c);
            var identity := w.sender.attempts[a].identity;
            && k < |steps| && BoundBy(identity, steps[k]) && identity.submissionId !in Run(steps[..k], c).used
            && (forall j :: 0 <= j < |w.rows| && w.rows[j].submissionId == identity.submissionId ==>
                  && w.rows[j].questionId == steps[k].questionId && w.rows[j].createdAt == steps[k].now
                  && w.rows[j].bytes == steps[k].recording.bytes)
  {
    var identity := Run(steps, c).sender.attempts[a].identity;
    k := BoundOnce(steps, c, identity);
    EveryRunKeepsInv(steps, c);
    forall j | 0 <= j < |Run(steps, c).rows| ensures RowIsFrom(Run(steps, c).rows[j], identity, Run(steps, c).blobs) {
    }
  }

  predicate Known(w: World, identity: S.Identity)
    requires SenderOk(w)
  {
    || w.sender.fields.identity == Some(identity)
    || exists a :: 0 <= a < |w.sender.attempts| && w.sender.attempts[a].identity == identity
  }

  lemma {:induction false} BoundOnce(steps: seq<Step>, c: Setting, identity: S.Identity) returns (k: nat)
    requires Known(Run(steps, c), identity)
    ensures k < |steps| && BoundBy(identity, steps[k]) && identity.submissionId !in Run(steps[..k], c).used
  {
    var before := steps[..|steps| - 1];
    if Known(Run(before, c), identity) {
      k := BoundOnce(before, c, identity);
      assert before[..k] == steps[..k];
    } else {
      NewlyKnown(Run(before, c), steps[|steps| - 1], c, identity);
      k := |steps| - 1;
    }
  }

  lemma NewlyKnown(w: World, step: Step, c: Setting, identity: S.Identity)
    requires SenderOk(w) && !Known(w, identity) && Known(Next(w, step, c), identity)
    ensures BoundBy(identity, step) && identity.submissionId !in w.used
  {
    var w' := Next(w, step, c);
    if w'.sender.fields.identity != Some(identity) {
      assert false;
    }
  }

  // ---------------------------------------------------------------- what may go wrong

  /** Nothing here is taken for granted: in any run a request may arrive twice, a server may die over it, an answer may
      never come - and then the attempt has failed for want of a connection - or come from something in between, and
      other rows may be filed. */
  lemma AnythingMayGoWrong(steps: seq<Step>, c: Setting, i: nat, a: nat, row: Row, answer: HttpAnswer)
    requires i < |Run(steps, c).requests|
    ensures Run(steps + [Duplicate(i)], c).requests
            == Run(steps, c).requests + [Run(steps, c).requests[i].(stage := InFlight)]
    ensures Run(steps, c).requests[i].stage.Answered? || InStage(Run(steps + [Crash(i)], c), i, Gone)
    ensures S.Current(Run(steps, c).sender, a) && Run(steps, c).sender.stages[a].Delivering? ==>
              Run(steps + [Arrive(a, TimedOut)], c).sender.fields.state.failure == Some(Transport)
    ensures S.Current(Run(steps, c).sender, a) && Run(steps, c).sender.stages[a].Delivering? && Outage(answer) ==>
              Run(steps + [Arrive(a, Intermediary(answer))], c).sender.fields.state.failure
              == Some(Deliver(answer).reason)
    ensures row.submissionId in Run(steps, c).used
            || Run(steps + [OthersFile(row)], c).rows == Run(steps, c).rows + [row]
  {
    MayRepeatOrDie(Run(steps, c), c, i);
    MayNeverAnswer(Run(steps, c), c, a, row);
    if Outage(answer) { MayAnswerInstead(Run(steps, c), c, a, answer); }
    RunStep(steps, Duplicate(i), c);
    RunStep(steps, Crash(i), c);
    RunStep(steps, Arrive(a, TimedOut), c);
    RunStep(steps, Arrive(a, Intermediary(answer)), c);
    RunStep(steps, OthersFile(row), c);
  }

  /** An answer something in between may give: no receipt, and no refusal of the recording. */
  predicate Outage(answer: HttpAnswer) {
    Deliver(answer).NotDelivered? && Deliver(answer).reason != Refused
  }

  lemma MayAnswerInstead(w: World, c: Setting, a: nat, answer: HttpAnswer)
    requires SenderOk(w) && Outage(answer)
    ensures S.Current(w.sender, a) && w.sender.stages[a].Delivering? ==>
              Next(w, Arrive(a, Intermediary(answer)), c).sender.fields.state.failure == Some(Deliver(answer).reason)
  {
  }

  lemma MayRepeatOrDie(w: World, c: Setting, i: nat)
    requires SenderOk(w) && i < |w.requests|
    ensures Next(w, Duplicate(i), c).requests == w.requests + [w.requests[i].(stage := InFlight)]
    ensures w.requests[i].stage.Answered? || InStage(Next(w, Crash(i), c), i, Gone)
  {
  }

  lemma MayNeverAnswer(w: World, c: Setting, a: nat, row: Row)
    requires SenderOk(w)
    ensures S.Current(w.sender, a) && w.sender.stages[a].Delivering? ==>
              Next(w, Arrive(a, TimedOut), c).sender.fields.state.failure == Some(Transport)
    ensures row.submissionId in w.used || Next(w, OthersFile(row), c).rows == w.rows + [row]
  {
  }

  lemma RunStep(steps: seq<Step>, step: Step, c: Setting)
    ensures Run(steps + [step], c) == Next(Run(steps, c), step, c)
  {
    assert (steps + [step])[..|steps + [step]| - 1] == steps;
  }
}
