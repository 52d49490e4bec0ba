// A spoken answer on its way to the project, end to end: the sender
// (src/adapters/media/audio-answer-sender.ts) over a lossy HTTP hop
// (src/adapters/http/http-audio-answer-inbox.ts) into the audio route
// (src/app/api/inbox/submissions/audio/route.ts) and an inbox that stores each submissionId once.
// Requests may be lost, delayed past the client's deadline or duplicated; answers may be lost,
// stripped of their receipt, or replaced by an intermediary's own outage or sign-in answer.
module AudioDelivery {
  import opened Common
  import opened Http
  import S = AudioSender
  import Audio = AudioArtifact

  /** One stored answer; `bytes` stands for the SHA-256 the row carries. */
  datatype Row = Row(
    submissionId: string, questionId: string, createdAt: string, mimeType: Audio.MimeType,
    bytes: seq<Audio.Byte>, receipt: ServerReceipt)

  /** How far the server has come with one request. `Lost` is an insert that found its id taken and has still to
      read the row that won; `cut` marks an answer to a body that broke off. */
  datatype Stage = InFlight | Validated | BlobHeld | Lost | Answered(answer: HttpAnswer, cut: bool) | Gone

  datatype Request = Request(attempt: nat, draft: Draft, stage: Stage)

  datatype World = World(
    sender: S.Run,
    requests: seq<Request>,
    rows: seq<Row>,
    blobs: set<seq<Audio.Byte>>,
    used: set<string>,
    maxBytes: nat)

  /** What does not change during a run: the platform, which drafts the store itself refuses, whether the
      deployment's byte limit stays fixed, and whether the answer to a broken-off body stays unseen. */
  datatype Setting = Setting(
    platform: Platform, storable: Draft -> bool, limit: nat, fixedLimit: bool, cutAnswersStay: bool)

  datatype Access = Granted | GateUnavailable | NoSession | TooMany

  datatype Fault = NoFault | BeforeWrite | AfterWrite

  /** Where a client's answer comes from. */
  datatype Source = TimedOut | FromServer(request: nat) | Intermediary(answer: HttpAnswer)

  datatype Step =
    | Prepare(recording: S.Recording, questionId: string, id: string, now: string)
    | Press(recording: S.Recording)
    | SniffReturns(attempt: nat, readable: bool)
    | Dismiss
    | Duplicate(request: nat)
    | Receive(request: nat, access: Access, whole: bool)
    | StoreBlob(request: nat, fault: Fault)
    | AppendRow(request: nat, fault: Fault, receipt: ServerReceipt)
    | InsertRow(request: nat, fault: Fault, receipt: ServerReceipt)
    | ReadWinner(request: nat, fails: bool)
    | Crash(request: nat)
    | Arrive(attempt: nat, source: Source)
    | OthersFile(row: Row)
    | ChangeLimit(maxBytes: nat)

  // ---------------------------------------------------------------- the steps

  function FindRow(rows: seq<Row>, id: string): Option<Row> {
    if rows == [] then None
    else if rows[0].submissionId == id then Some(rows[0])
    else FindRow(rows[1..], id)
  }

  function RowFor(d: Draft, receipt: ServerReceipt): Row {
    Row(d.submissionId, d.questionId, d.createdAt, d.mimeType, d.bytes, receipt)
  }

  function Refuse(status: int): HttpAnswer {
    HttpAnswer(status, Some(Json.Obj(map["acknowledged" := Json.Bool(false)])))
  }

  function SetStage(w: World, i: nat, stage: Stage): World
    requires i < |w.requests|
  {
    w.(requests := w.requests[i := w.requests[i].(stage := stage)])
  }

  /** The route's guards, in order. */
  function Guarded(w: World, i: nat, access: Access, whole: bool, c: Setting): Stage
    requires i < |w.requests|
  {
    match access
    case GateUnavailable => Answered(Refuse(503), false)
    case NoSession => Answered(Refuse(401), false)
    case TooMany => Answered(Refuse(429), false)
    case Granted =>
      if !whole then Answered(Refuse(400), true)
      else if !Accepts(w.requests[i].draft, w.maxBytes, c.platform) then Answered(Refuse(400), false)
      else Validated
  }

  /** Stage two: the row, and only then the receipt. */
  function Appended(w: World, i: nat, fault: Fault, receipt: ServerReceipt, c: Setting): World
    requires i < |w.requests|
  {
    var d := w.requests[i].draft;
    if !c.storable(d) then SetStage(w, i, Answered(Refuse(400), false))
    else
      match FindRow(w.rows, d.submissionId)
      case Some(row) =>
        SetStage(w, i,
          Answered(if fault.NoFault? then HttpAnswer(200, Some(Acknowledge(row.receipt))) else Refuse(503), false))
      case None =>
        var stored := if fault.BeforeWrite? then w else w.(rows := w.rows + [RowFor(d, receipt)]);
        SetStage(stored, i,
          Answered(if fault.NoFault? then HttpAnswer(201, Some(Acknowledge(receipt))) else Refuse(503), false))
  }

  /** Stage two in PostgreSQL, first statement: the insert stores the row, or finds the id taken. */
  function Inserted(w: World, i: nat, fault: Fault, receipt: ServerReceipt, c: Setting): World
    requires i < |w.requests|
  {
    var d := w.requests[i].draft;
    if c.storable(d) && FindRow(w.rows, d.submissionId).Some? && fault.NoFault? then SetStage(w, i, Lost)
    else Appended(w, i, fault, receipt, c)
  }

  /** Second statement, for an insert that lost: the row that won, read in its own moment. */
  function WinnerRead(w: World, i: nat, fails: bool): World
    requires i < |w.requests|
  {
    var row := FindRow(w.rows, w.requests[i].draft.submissionId);
    SetStage(w, i, Answered(
      if fails || row.None? then Refuse(503) else HttpAnswer(200, Some(Acknowledge(row.value.receipt))), false))
  }

  /** The answer an attempt's request could have got back, if this source can give one. */
  function AnswerFrom(w: World, a: nat, source: Source, c: Setting): Option<HttpAnswer> {
    match source
    case TimedOut => Some(NoAnswer)
    case FromServer(i) =>
      if i < |w.requests| && w.requests[i].attempt == a && w.requests[i].stage.Answered?
         && !(w.requests[i].stage.cut && c.cutAnswersStay)
      then Some(w.requests[i].stage.answer) else None
    case Intermediary(answer) =>
      if Deliver(answer).NotDelivered? && Deliver(answer).reason != Refused then Some(answer) else None
  }

  predicate SenderOk(w: World) {
    |w.sender.attempts| == |w.sender.stages|
  }

  /** One step of the whole system; a step that cannot happen leaves it alone. */
  function Next(w: World, step: Step, c: Setting): World
    requires SenderOk(w)
    ensures SenderOk(Next(w, step, c))
  {
    match step
    case Prepare(recording, questionId, id, now) =>
      if id in w.used then w
      else w.(sender := S.Next(w.sender, S.PrepareStep(recording, questionId, id, now)), used := w.used + {id})
    case Press(recording) => w.(sender := S.Next(w.sender, S.SendStep(recording)))
    case SniffReturns(a, readable) => AfterSniff(w, a, readable)
    case Dismiss => w.(sender := S.Next(w.sender, S.DismissStep))
    case Duplicate(i) =>
      if i < |w.requests| then w.(requests := w.requests + [w.requests[i].(stage := InFlight)]) else w
    case Receive(i, access, whole) =>
      if i < |w.requests| && w.requests[i].stage.InFlight? then SetStage(w, i, Guarded(w, i, access, whole, c)) else w
    case StoreBlob(i, fault) =>
      if i < |w.requests| && w.requests[i].stage.Validated? then
        SetStage(w, i, if fault.NoFault? then BlobHeld else Answered(Refuse(503), false))
          .(blobs := if fault.BeforeWrite? then w.blobs else w.blobs + {w.requests[i].draft.bytes})
      else w
    case AppendRow(i, fault, receipt) =>
      if i < |w.requests| && w.requests[i].stage.BlobHeld? then Appended(w, i, fault, receipt, c) else w
    case InsertRow(i, fault, receipt) =>
      if i < |w.requests| && w.requests[i].stage.BlobHeld? then Inserted(w, i, fault, receipt, c) else w
    case ReadWinner(i, fails) =>
      if i < |w.requests| && w.requests[i].stage.Lost? then WinnerRead(w, i, fails) else w
    case Crash(i) =>
      if i < |w.requests| && !w.requests[i].stage.Answered? then SetStage(w, i, Gone) else w
    case Arrive(a, source) =>
      var answer := AnswerFrom(w, a, source, c);
      if answer.None? then w else w.(sender := S.Next(w.sender, S.DeliverStep(a, Deliver(answer.value))))
    case OthersFile(row) =>
      if row.submissionId in w.used then w else w.(rows := w.rows + [row], used := w.used + {row.submissionId})
    case ChangeLimit(maxBytes) => if c.fixedLimit then w else w.(maxBytes := maxBytes)
  }

  /** A successful sniff puts the draft on the wire. */
  function AfterSniff(w: World, a: nat, readable: bool): World
    requires SenderOk(w)
    ensures SenderOk(AfterSniff(w, a, readable))
  {
    var sender := S.Next(w.sender, S.SniffStep(a, readable));
    if a < |w.sender.stages| && w.sender.stages[a].Sniffing? && sender.stages[a].Delivering?
    then w.(sender := sender, requests := w.requests + [Request(a, sender.stages[a].draft, InFlight)])
    else w.(sender := sender)
  }

  function Start(c: Setting): World {
    World(S.BEGIN, [], [], {}, {}, c.limit)
  }

  function Run(steps: seq<Step>, c: Setting): (w: World)
    ensures SenderOk(w)
  {
    if steps == [] then Start(c) else Next(Run(steps[..|steps| - 1], c), steps[|steps| - 1], c)
  }

  // ---------------------------------------------------------------- the invariant

  /** The one draft an identity puts on the wire: its type is read from its own bytes. */
  predicate DraftOf(d: Draft, identity: S.Identity) {
    && d == S.DraftOf(identity, d.mimeType)
    && Audio.Sniff(Audio.Head(d.bytes, Audio.SNIFF_BYTES)) == Some(d.mimeType)
  }

  /** A row that holds this identity's answer, unchanged. */
  predicate Holds(row: Row, identity: S.Identity) {
    && row.submissionId == identity.submissionId && row.questionId == identity.questionId
    && row.createdAt == identity.createdAt && row.bytes == identity.recording.bytes
    && Audio.Sniff(Audio.Head(row.bytes, Audio.SNIFF_BYTES)) == Some(row.mimeType)
  }

  /** Every identity this sender has used: those of its attempts, and the bound one. */
  predicate IdentitiesOk(w: World)
    requires SenderOk(w)
  {
    var attempts, bound := w.sender.attempts, w.sender.fields.identity;
    && (forall a :: 0 <= a < |attempts| ==> attempts[a].identity.submissionId in w.used)
    && (bound.Some? ==> bound.value.submissionId in w.used)
    && (forall a, b ::
      0 <= a < b < |attempts| && attempts[a].identity.submissionId == attempts[b].identity.submissionId ==>
          attempts[a].identity == attempts[b].identity)
    && (forall a ::
      0 <= a < |attempts| && bound.Some? && attempts[a].identity.submissionId == bound.value.submissionId ==>
          attempts[a].identity == bound.value)
  }

  predicate RowsOk(w: World)
    requires SenderOk(w)
  {
    && (forall k :: 0 <= k < |w.rows| ==> w.rows[k].submissionId in w.used)
    && (forall j, k :: 0 <= j < k < |w.rows| ==> w.rows[j].submissionId != w.rows[k].submissionId)
    && (forall k, a :: 0 <= k < |w.rows| && 0 <= a < |w.sender.attempts| ==>
          RowIsFrom(w.rows[k], w.sender.attempts[a].identity, w.blobs))
    && (w.sender.fields.identity.Some? ==>
          forall k :: 0 <= k < |w.rows| ==> RowIsFrom(w.rows[k], w.sender.fields.identity.value, w.blobs))
  }

  /** A row under this identity's id holds its answer, and the recording is in the blob store. */
  predicate RowIsFrom(row: Row, identity: S.Identity, blobs: set<seq<Audio.Byte>>) {
    row.submissionId == identity.submissionId ==> Holds(row, identity) && row.bytes in blobs
  }

  predicate RequestOk(w: World, r: Request)
    requires SenderOk(w)
  {
    && r.attempt < |w.sender.attempts| && DraftOf(r.draft, w.sender.attempts[r.attempt].identity)
    && (r.stage.BlobHeld? ==> r.draft.bytes in w.blobs)
    && (r.stage.Lost? ==> Taken(w.rows, r.draft.submissionId))
    && (r.stage.Answered? && Deliver(r.stage.answer).Delivered? ==>
          Receipted(w.rows, r.draft.submissionId, Deliver(r.stage.answer).receipt))
  }

  /** The store holds a row under this id. */
  predicate Taken(rows: seq<Row>, id: string) {
    exists k :: 0 <= k < |rows| && rows[k].submissionId == id
  }

  /** The store holds a row under this id with this receipt. */
  predicate Receipted(rows: seq<Row>, id: string, receipt: ServerReceipt) {
    exists k :: 0 <= k < |rows| && rows[k].submissionId == id && Tidied(rows[k].receipt) == receipt
  }

  predicate SentOk(w: World) {
    w.sender.fields.state.phase == S.Sent ==>
      && w.sender.fields.state.receipt.Some? && w.sender.fields.identity.Some?
      && Receipted(w.rows, w.sender.fields.identity.value.submissionId, w.sender.fields.state.receipt.value)
  }

  predicate Inv(w: World)
    requires SenderOk(w)
  {
    && S.Coherent(w.sender) && IdentitiesOk(w) && RowsOk(w) && SentOk(w)
    && (forall i :: 0 <= i < |w.requests| ==> RequestOk(w, w.requests[i]))
  }

  // ---------------------------------------------------------------- preservation

  lemma {:induction false} FindRowIs(rows: seq<Row>, id: string)
    ensures FindRow(rows, id).Some? ==> FindRow(rows, id).value in rows && FindRow(rows, id).value.submissionId == id
    ensures FindRow(rows, id).None? ==> forall k :: 0 <= k < |rows| ==> rows[k].submissionId != id
  {
    if rows != [] && rows[0].submissionId != id {
      FindRowIs(rows[1..], id);
      forall k | 0 <= k < |rows| && FindRow(rows, id).None? ensures rows[k].submissionId != id {
        if k > 0 { assert rows[k] == rows[1..][k - 1]; }
      }
    }
  }

  lemma TakenGrows(rows: seq<Row>, row: Row, id: string)
    ensures Taken(rows, id) ==> Taken(rows + [row], id)
  {
    if Taken(rows, id) {
      var k :| 0 <= k < |rows| && rows[k].submissionId == id;
      assert (rows + [row])[k] == rows[k];
    }
  }

  lemma ReceiptedGrows(rows: seq<Row>, row: Row, id: string, receipt: ServerReceipt)
    requires Receipted(rows, id, receipt)
    ensures Receipted(rows + [row], id, receipt)
  {
    var k :| 0 <= k < |rows| && rows[k].submissionId == id && Tidied(rows[k].receipt) == receipt;
    assert (rows + [row])[k] == rows[k];
  }

  /** Acknowledging a row gives the client that row's receipt, or none. */
  lemma AcknowledgedReceipt(rows: seq<Row>, k: nat, status: int)
    requires k < |rows| && (status == 200 || status == 201)
    ensures var d := Deliver(HttpAnswer(status, Some(Acknowledge(rows[k].receipt))));
            d.Delivered? ==> Receipted(rows, rows[k].submissionId, d.receipt)
  {
    ReceiptRoundTrip(rows[k].receipt);
  }

  lemma RefusalCarriesNoReceipt(status: int)
    ensures Deliver(Refuse(status)).NotDelivered?
  {
  }

  /** Only the sender's own fields move, about an identity it already had. */
  lemma SenderMoveKeepsInv(w: World, sender: S.Run)
    requires SenderOk(w) && Inv(w)
    requires |sender.attempts| == |sender.stages| && S.Coherent(sender)
    requires sender.fields.identity == w.sender.fields.identity
    requires sender.attempts == w.sender.attempts
             || (w.sender.fields.identity.Some? && |sender.attempts| == |w.sender.attempts| + 1
                 && sender.attempts[..|w.sender.attempts|] == w.sender.attempts
                 && sender.attempts[|w.sender.attempts|].identity == w.sender.fields.identity.value)
    requires SentOk(w.(sender := sender))
    ensures Inv(w.(sender := sender))
  {
    var w' := w.(sender := sender);
    SameAttempts(w.sender.attempts, sender.attempts);
    SenderMoveKeepsRows(w, sender);
    forall i | 0 <= i < |w'.requests| ensures RequestOk(w', w'.requests[i]) {
      assert RequestOk(w, w.requests[i]);
    }
  }

  lemma SenderMoveKeepsRows(w: World, sender: S.Run)
    requires SenderOk(w) && IdentitiesOk(w) && RowsOk(w)
    requires |sender.attempts| == |sender.stages| && |w.sender.attempts| <= |sender.attempts| <= |w.sender.attempts| + 1
    requires sender.fields.identity == w.sender.fields.identity
    requires forall a :: 0 <= a < |w.sender.attempts| ==> sender.attempts[a] == w.sender.attempts[a]
    requires |sender.attempts| > |w.sender.attempts| ==>
               Some(sender.attempts[|w.sender.attempts|].identity) == w.sender.fields.identity
    ensures IdentitiesOk(w.(sender := sender)) && RowsOk(w.(sender := sender))
  {
  }

  lemma SameAttempts(before: seq<S.Attempt>, after: seq<S.Attempt>)
    requires after == before || (|after| == |before| + 1 && after[..|before|] == before)
    ensures |before| <= |after| && forall a :: 0 <= a < |before| ==> after[a] == before[a]
  {
    forall a | 0 <= a < |before| ensures after[a] == before[a] {
      assert after != before ==> after[..|before|][a] == before[a];
    }
  }

  lemma PrepareKeepsInv(w: World, step: Step, c: Setting)
    requires SenderOk(w) && Inv(w) && step.Prepare?
    ensures Inv(Next(w, step, c))
  {
    var w' := Next(w, step, c);
    if step.id !in w.used {
      S.StepKeepsCoherent(w.sender, S.PrepareStep(step.recording, step.questionId, step.id, step.now));
      PrepareKeepsIdentities(w, step, c);
      forall i | 0 <= i < |w'.requests| ensures RequestOk(w', w'.requests[i]) {
        assert RequestOk(w, w.requests[i]);
      }
    }
  }

  lemma PrepareKeepsIdentities(w: World, step: Step, c: Setting)
    requires SenderOk(w) && IdentitiesOk(w) && RowsOk(w) && step.Prepare? && step.id !in w.used
    ensures IdentitiesOk(Next(w, step, c)) && RowsOk(Next(w, step, c))
  {
  }

  lemma PressKeepsInv(w: World, recording: S.Recording, c: Setting)
    requires SenderOk(w) && Inv(w)
    ensures Inv(Next(w, Press(recording), c))
  {
    S.StepKeepsCoherent(w.sender, S.SendStep(recording));
    var sender := S.Next(w.sender, S.SendStep(recording));
    assert sender.attempts[..|w.sender.attempts|] == w.sender.attempts;
    SenderMoveKeepsInv(w, sender);
  }

  lemma SniffKeepsInv(w: World, a: nat, readable: bool, c: Setting)
    requires SenderOk(w) && Inv(w)
    ensures Inv(Next(w, SniffReturns(a, readable), c))
  {
    var sender := S.Next(w.sender, S.SniffStep(a, readable));
    SniffedSenderKeepsInv(w, a, readable);
    if a < |w.sender.stages| && w.sender.stages[a].Sniffing? && sender.stages[a].Delivering? {
      SniffedDraft(w.sender, a, readable);
      AddRequest(w.(sender := sender), Request(a, sender.stages[a].draft, InFlight));
    }
  }

  lemma SniffedSenderKeepsInv(w: World, a: nat, readable: bool)
    requires SenderOk(w) && Inv(w)
    ensures var w' := w.(sender := S.Next(w.sender, S.SniffStep(a, readable))); SenderOk(w') && Inv(w')
  {
    S.StepKeepsCoherent(w.sender, S.SniffStep(a, readable));
    SenderMoveKeepsInv(w, S.Next(w.sender, S.SniffStep(a, readable)));
  }

  lemma SniffedDraft(sender: S.Run, a: nat, readable: bool)
    requires |sender.attempts| == |sender.stages| && a < |sender.stages| && sender.stages[a].Sniffing?
    requires S.Next(sender, S.SniffStep(a, readable)).stages[a].Delivering?
    ensures DraftOf(S.Next(sender, S.SniffStep(a, readable)).stages[a].draft, sender.attempts[a].identity)
  {
  }

  lemma AddRequest(w: World, r: Request)
    requires SenderOk(w) && Inv(w) && RequestOk(w, r)
    ensures Inv(w.(requests := w.requests + [r]))
  {
    var w' := w.(requests := w.requests + [r]);
    forall i | 0 <= i < |w'.requests| ensures RequestOk(w', w'.requests[i]) {
      assert i < |w.requests| ==> RequestOk(w, w.requests[i]);
    }
  }

  lemma ArriveKeepsInv(w: World, a: nat, source: Source, c: Setting)
    requires SenderOk(w) && Inv(w)
    ensures Inv(Next(w, Arrive(a, source), c))
  {
    var answer := AnswerFrom(w, a, source, c);
    if answer.Some? {
      var delivery := Deliver(answer.value);
      if delivery.Delivered? {
        assert RequestOk(w, w.requests[source.request]);
      }
      DeliveryKeepsInv(w, a, delivery);
    }
  }

  lemma DeliveryKeepsInv(w: World, a: nat, delivery: Delivery)
    requires SenderOk(w) && Inv(w)
    requires delivery.Delivered? && a < |w.sender.attempts| ==>
               Receipted(w.rows, w.sender.attempts[a].identity.submissionId, delivery.receipt)
    ensures var w' := w.(sender := S.Next(w.sender, S.DeliverStep(a, delivery))); SenderOk(w') && Inv(w')
  {
    S.StepKeepsCoherent(w.sender, S.DeliverStep(a, delivery));
    var sender := S.Next(w.sender, S.DeliverStep(a, delivery));
    assert SentOk(w.(sender := sender));
    SenderMoveKeepsInv(w, sender);
  }

  /** A request moves to a stage that claims nothing new. */
  lemma StageKeepsInv(w: World, i: nat, stage: Stage, blobs: set<seq<Audio.Byte>>)
    requires SenderOk(w) && Inv(w) && i < |w.requests| && w.blobs <= blobs
    requires stage.BlobHeld? ==> w.requests[i].draft.bytes in blobs
    requires stage.Lost? ==> Taken(w.rows, w.requests[i].draft.submissionId)
    requires stage.Answered? && Deliver(stage.answer).Delivered? ==>
               Receipted(w.rows, w.requests[i].draft.submissionId, Deliver(stage.answer).receipt)
    ensures Inv(SetStage(w, i, stage).(blobs := blobs))
  {
    var w' := SetStage(w, i, stage).(blobs := blobs);
    forall j | 0 <= j < |w'.requests| ensures RequestOk(w', w'.requests[j]) {
      assert RequestOk(w, w.requests[j]);
    }
    forall k, a | 0 <= k < |w'.rows| && 0 <= a < |w'.sender.attempts|
      ensures RowIsFrom(w'.rows[k], w'.sender.attempts[a].identity, w'.blobs)
    {
      assert RowIsFrom(w.rows[k], w.sender.attempts[a].identity, w.blobs);
    }
  }

  /** A row under a new id, which is either not one of this sender's or holds its answer. */
  lemma RowKeepsInv(w: World, row: Row, used: set<string>)
    requires SenderOk(w) && Inv(w) && w.used <= used && row.submissionId in used
    requires forall k :: 0 <= k < |w.rows| ==> w.rows[k].submissionId != row.submissionId
    requires forall a :: 0 <= a < |w.sender.attempts| ==> RowIsFrom(row, w.sender.attempts[a].identity, w.blobs)
    requires w.sender.fields.identity.Some? ==> RowIsFrom(row, w.sender.fields.identity.value, w.blobs)
    ensures Inv(w.(rows := w.rows + [row], used := used))
  {
    var w' := w.(rows := w.rows + [row], used := used);
    forall i | 0 <= i < |w'.requests| ensures RequestOk(w', w'.requests[i]) {
      var r := w.requests[i];
      assert RequestOk(w, r);
      TakenGrows(w.rows, row, r.draft.submissionId);
      if r.stage.Answered? && Deliver(r.stage.answer).Delivered? {
        ReceiptedGrows(w.rows, row, r.draft.submissionId, Deliver(r.stage.answer).receipt);
      }
    }
    if w.sender.fields.state.phase == S.Sent {
      ReceiptedGrows(w.rows, row, w.sender.fields.identity.value.submissionId, w.sender.fields.state.receipt.value);
    }
  }

  /** The row a request writes holds the answer of whoever owns its id. */
  lemma OwnRow(w: World, i: nat, receipt: ServerReceipt, identity: S.Identity)
    requires SenderOk(w) && Inv(w) && i < |w.requests| && w.requests[i].stage.BlobHeld?
    requires w.sender.fields.identity == Some(identity)
             || exists a :: 0 <= a < |w.sender.attempts| && w.sender.attempts[a].identity == identity
    ensures RowIsFrom(RowFor(w.requests[i].draft, receipt), identity, w.blobs)
  {
    var r := w.requests[i];
    assert RequestOk(w, r);
    var own := w.sender.attempts[r.attempt].identity;
    if identity.submissionId == own.submissionId {
      assert identity == own by {
        if w.sender.fields.identity != Some(identity) {
          var a :| 0 <= a < |w.sender.attempts| && w.sender.attempts[a].identity == identity;
          assert a == r.attempt || a < r.attempt || r.attempt < a;
        }
      }
    }
  }

  lemma AppendKeepsInv(w: World, i: nat, fault: Fault, receipt: ServerReceipt, c: Setting)
    requires SenderOk(w) && Inv(w) && i < |w.requests| && w.requests[i].stage.BlobHeld?
    ensures Inv(Appended(w, i, fault, receipt, c))
  {
    var d := w.requests[i].draft;
    RefusalCarriesNoReceipt(400);
    RefusalCarriesNoReceipt(503);
    FindRowIs(w.rows, d.submissionId);
    if !c.storable(d) {
      StageKeepsInv(w, i, Answered(Refuse(400), false), w.blobs);
    } else {
      match FindRow(w.rows, d.submissionId)
      case Some(row) =>
        var k :| 0 <= k < |w.rows| && w.rows[k] == row;
        AcknowledgedReceipt(w.rows, k, 200);
        StageKeepsInv(w, i, Appended(w, i, fault, receipt, c).requests[i].stage, w.blobs);
      case None =>
        if fault.BeforeWrite? {
          StageKeepsInv(w, i, Answered(Refuse(503), false), w.blobs);
        } else {
          var row := RowFor(d, receipt);
          assert RequestOk(w, w.requests[i]);
          forall a | 0 <= a < |w.sender.attempts| ensures RowIsFrom(row, w.sender.attempts[a].identity, w.blobs) {
            OwnRow(w, i, receipt, w.sender.attempts[a].identity);
          }
          if w.sender.fields.identity.Some? { OwnRow(w, i, receipt, w.sender.fields.identity.value); }
          RowKeepsInv(w, row, w.used);
          var stored := w.(rows := w.rows + [row]);
          AcknowledgedReceipt(stored.rows, |w.rows|, 201);
          StageKeepsInv(stored, i, Appended(w, i, fault, receipt, c).requests[i].stage, w.blobs);
        }
    }
  }

  lemma InsertKeepsInv(w: World, i: nat, fault: Fault, receipt: ServerReceipt, c: Setting)
    requires SenderOk(w) && Inv(w) && i < |w.requests| && w.requests[i].stage.BlobHeld?
    ensures Inv(Inserted(w, i, fault, receipt, c))
  {
    var id := w.requests[i].draft.submissionId;
    FindRowIs(w.rows, id);
    if c.storable(w.requests[i].draft) && FindRow(w.rows, id).Some? && fault.NoFault? {
      var k :| 0 <= k < |w.rows| && w.rows[k] == FindRow(w.rows, id).value;
      assert Taken(w.rows, id);
      StageKeepsInv(w, i, Lost, w.blobs);
    } else {
      AppendKeepsInv(w, i, fault, receipt, c);
    }
  }

  lemma WinnerKeepsInv(w: World, i: nat, fails: bool)
    requires SenderOk(w) && Inv(w) && i < |w.requests| && w.requests[i].stage.Lost?
    ensures Inv(WinnerRead(w, i, fails))
  {
    var id := w.requests[i].draft.submissionId;
    RefusalCarriesNoReceipt(503);
    FindRowIs(w.rows, id);
    if !fails && FindRow(w.rows, id).Some? {
      var k :| 0 <= k < |w.rows| && w.rows[k] == FindRow(w.rows, id).value;
      AcknowledgedReceipt(w.rows, k, 200);
    }
    StageKeepsInv(w, i, WinnerRead(w, i, fails).requests[i].stage, w.blobs);
  }

  lemma OthersKeepInv(w: World, row: Row)
    requires SenderOk(w) && Inv(w) && row.submissionId !in w.used
    ensures Inv(w.(rows := w.rows + [row], used := w.used + {row.submissionId}))
  {
    RowKeepsInv(w, row, w.used + {row.submissionId});
  }

  lemma BlobKeepsInv(w: World, i: nat, fault: Fault, c: Setting)
    requires SenderOk(w) && Inv(w) && i < |w.requests| && w.requests[i].stage.Validated?
    ensures Inv(Next(w, StoreBlob(i, fault), c))
  {
    RefusalCarriesNoReceipt(503);
    StageKeepsInv(w, i, if fault.NoFault? then BlobHeld else Answered(Refuse(503), false),
                  if fault.BeforeWrite? then w.blobs else w.blobs + {w.requests[i].draft.bytes});
  }

  lemma DismissKeepsInv(w: World, c: Setting)
    requires SenderOk(w) && Inv(w)
    ensures Inv(Next(w, Dismiss, c))
  {
    S.StepKeepsCoherent(w.sender, S.DismissStep);
    SenderMoveKeepsInv(w, S.Next(w.sender, S.DismissStep));
  }

  lemma DuplicateKeepsInv(w: World, i: nat, c: Setting)
    requires SenderOk(w) && Inv(w) && i < |w.requests|
    ensures Inv(Next(w, Duplicate(i), c))
  {
    assert RequestOk(w, w.requests[i]);
    AddRequest(w, w.requests[i].(stage := InFlight));
  }

  lemma ReceiveKeepsInv(w: World, i: nat, access: Access, whole: bool, c: Setting)
    requires SenderOk(w) && Inv(w) && i < |w.requests| && w.requests[i].stage.InFlight?
    ensures Inv(Next(w, Receive(i, access, whole), c))
  {
    var stage := Guarded(w, i, access, whole, c);
    assert stage.Answered? ==> stage.answer in {Refuse(503), Refuse(401), Refuse(429), Refuse(400)};
    StageKeepsInv(w, i, stage, w.blobs);
    assert w.blobs == SetStage(w, i, stage).blobs;
  }

  lemma LimitKeepsInv(w: World, maxBytes: nat)
    requires SenderOk(w) && Inv(w)
    ensures Inv(w.(maxBytes := maxBytes))
  {
    var w' := w.(maxBytes := maxBytes);
    forall i | 0 <= i < |w'.requests| ensures RequestOk(w', w'.requests[i]) {
      assert RequestOk(w, w.requests[i]);
    }
  }

  lemma AppendStepKeepsInv(w: World, i: nat, fault: Fault, receipt: ServerReceipt, c: Setting)
    requires SenderOk(w) && Inv(w)
    ensures Inv(Next(w, AppendRow(i, fault, receipt), c))
  {
    if i < |w.requests| && w.requests[i].stage.BlobHeld? { AppendKeepsInv(w, i, fault, receipt, c); }
  }

  lemma InsertStepKeepsInv(w: World, i: nat, fault: Fault, receipt: ServerReceipt, c: Setting)
    requires SenderOk(w) && Inv(w)
    ensures Inv(Next(w, InsertRow(i, fault, receipt), c))
  {
    if i < |w.requests| && w.requests[i].stage.BlobHeld? { InsertKeepsInv(w, i, fault, receipt, c); }
  }

  lemma WinnerStepKeepsInv(w: World, i: nat, fails: bool, c: Setting)
    requires SenderOk(w) && Inv(w)
    ensures Inv(Next(w, ReadWinner(i, fails), c))
  {
    if i < |w.requests| && w.requests[i].stage.Lost? { WinnerKeepsInv(w, i, fails); }
  }

  /** A request arrives again, is received, has its recording stored, or dies. */
  lemma RequestStepKeepsInv(w: World, step: Step, c: Setting)
    requires SenderOk(w) && Inv(w) && (step.Duplicate? || step.Receive? || step.StoreBlob? || step.Crash?)
    ensures Inv(Next(w, step, c))
  {
    match step
    case Duplicate(i) => if i < |w.requests| { DuplicateKeepsInv(w, i, c); }
    case Receive(i, access, whole) =>
      if i < |w.requests| && w.requests[i].stage.InFlight? { ReceiveKeepsInv(w, i, access, whole, c); }
    case StoreBlob(i, fault) =>
      if i < |w.requests| && w.requests[i].stage.Validated? { BlobKeepsInv(w, i, fault, c); }
    case Crash(i) =>
      if i < |w.requests| && !w.requests[i].stage.Answered? { StageKeepsInv(w, i, Gone, w.blobs); }
  }

  lemma NextKeepsInv(w: World, step: Step, c: Setting)
    requires SenderOk(w) && Inv(w)
    ensures Inv(Next(w, step, c))
  {
    match step
    case Prepare(_, _, _, _) => PrepareKeepsInv(w, step, c);
    case Press(recording) => PressKeepsInv(w, recording, c);
    case SniffReturns(a, readable) => SniffKeepsInv(w, a, readable, c);
    case Dismiss => DismissKeepsInv(w, c);
    case AppendRow(i, fault, receipt) => AppendStepKeepsInv(w, i, fault, receipt, c);
    case InsertRow(i, fault, receipt) => InsertStepKeepsInv(w, i, fault, receipt, c);
    case ReadWinner(i, fails) => WinnerStepKeepsInv(w, i, fails, c);
    case Arrive(a, source) => ArriveKeepsInv(w, a, source, c);
    case OthersFile(row) => if row.submissionId !in w.used { OthersKeepInv(w, row); }
    case ChangeLimit(maxBytes) => LimitKeepsInv(w, maxBytes);
    case _ => RequestStepKeepsInv(w, step, c);
  }

  lemma {:induction false} EveryRunKeepsInv(steps: seq<Step>, c: Setting)
    ensures Inv(Run(steps, c))
  {
    if steps != [] {
      EveryRunKeepsInv(steps[..|steps| - 1], c);
      NextKeepsInv(Run(steps[..|steps| - 1], c), steps[|steps| - 1], c);
    }
  }

  // ---------------------------------------------------------------- exactly once

  /** Exactly once, in every run: a submissionId has at most one stored row; a row under an id this sender
      minted holds that identity's own question, time and bytes, with the recording in the blob store; every
      request under an id carries the same draft; and "sent" shows the receipt of the one row stored under
      the question the recording was bound to. */
  lemma ExactlyOnce(steps: seq<Step>, c: Setting)
    ensures var w := Run(steps, c);
            && (forall j, k :: 0 <= j < k < |w.rows| ==> w.rows[j].submissionId != w.rows[k].submissionId)
            && (forall k, a :: 0 <= k < |w.rows| && 0 <= a < |w.sender.attempts| ==>
                  RowIsFrom(w.rows[k], w.sender.attempts[a].identity, w.blobs))
            && (forall i, j ::
              0 <= i < j < |w.requests| && w.requests[i].draft.submissionId == w.requests[j].draft.submissionId ==>
                  w.requests[i].draft == w.requests[j].draft)
  {
    EveryRunKeepsInv(steps, c);
    var w := Run(steps, c);
    forall i, j | 0 <= i < j < |w.requests| && w.requests[i].draft.submissionId == w.requests[j].draft.submissionId
      ensures w.requests[i].draft == w.requests[j].draft
    {
      OneDraftPerId(w, w.requests[i], w.requests[j]);
    }
  }

  lemma OneDraftPerId(w: World, r: Request, r': Request)
    requires SenderOk(w) && IdentitiesOk(w) && RequestOk(w, r) && RequestOk(w, r')
    requires r.draft.submissionId == r'.draft.submissionId
    ensures r.draft == r'.draft
  {
    assert w.sender.attempts[r.attempt].identity == w.sender.attempts[r'.attempt].identity;
  }

  lemma SentShowsTheStoredReceipt(steps: seq<Step>, c: Setting) returns (k: nat)
    requires Run(steps, c).sender.fields.state.phase == S.Sent
    ensures var w := Run(steps, c);
            && w.sender.fields.identity.Some? && k < |w.rows|
            && Holds(w.rows[k], w.sender.fields.identity.value)
            && w.rows[k].bytes in w.blobs
            && w.sender.fields.state.receipt == Some(Tidied(w.rows[k].receipt))
            && w.sender.fields.state.recording == Some(w.sender.fields.identity.value.recording)
            && forall j :: 0 <= j < |w.rows| && w.rows[j].submissionId == w.rows[k].submissionId ==> j == k
  {
    EveryRunKeepsInv(steps, c);
    var w := Run(steps, c);
    var id, receipt := w.sender.fields.identity.value.submissionId, w.sender.fields.state.receipt.value;
    k :| 0 <= k < |w.rows| && w.rows[k].submissionId == id && Tidied(w.rows[k].receipt) == receipt;
    assert RowIsFrom(w.rows[k], w.sender.fields.identity.value, w.blobs);
  }

  /** Rows are never changed or removed. */
  lemma {:induction false} RowsOnlyGrow(steps: seq<Step>, more: seq<Step>, c: Setting)
    ensures Run(steps, c).rows <= Run(steps + more, c).rows
    decreases |more|
  {
    if more == [] {
      assert steps + more == steps;
    } else {
      var shorter := more[..|more| - 1];
      assert (steps + more)[..|steps + more| - 1] == steps + shorter;
      RowsOnlyGrow(steps, shorter, c);
    }
  }

  // ---------------------------------------------------------------- the refusal

  /** What the route and its store make of a draft under the fixed limit, every time. */
  predicate Storable(d: Draft, c: Setting) {
    Accepts(d, c.limit, c.platform) && c.storable(d)
  }

  /** With a fixed limit and the answers to broken-off bodies unseen: rows and requests past the guards are
      storable, an explicit refusal the client can see is of a draft that is not, and so is a "refused". */
  predicate RefusalInv(w: World, c: Setting)
    requires SenderOk(w)
  {
    && w.maxBytes == c.limit
    && (forall i :: 0 <= i < |w.requests| ==> RequestTruthful(w.requests[i], c))
    && (forall k, a :: 0 <= k < |w.rows| && 0 <= a < |w.sender.attempts| ==>
          RowTruthful(w.rows[k], w.sender.attempts[a].identity, c))
    && (w.sender.fields.identity.Some? ==>
          forall k :: 0 <= k < |w.rows| ==> RowTruthful(w.rows[k], w.sender.fields.identity.value, c))
    && (w.sender.fields.state.failure == Some(Refused) ==>
          && (exists a ::
            0 <= a < |w.sender.attempts| && w.sender.fields.identity == Some(w.sender.attempts[a].identity))
          && RefusedForGood(w.sender.fields.identity.value, c))
  }

  predicate RequestTruthful(r: Request, c: Setting) {
    && (r.stage.Validated? || r.stage.BlobHeld? ==> Accepts(r.draft, c.limit, c.platform))
    && (r.stage.Answered? && !r.stage.cut && Deliver(r.stage.answer) == NotDelivered(Refused) ==> !Storable(r.draft, c))
  }

  predicate RowTruthful(row: Row, identity: S.Identity, c: Setting) {
    row.submissionId == identity.submissionId ==>
      Storable(Draft(row.submissionId, row.questionId, row.createdAt, row.mimeType, row.bytes), c)
  }

  /** No draft of this identity can ever be stored. */
  predicate RefusedForGood(identity: S.Identity, c: Setting) {
    match Audio.Sniff(Audio.Head(identity.recording.bytes, Audio.SNIFF_BYTES))
    case None => true
    case Some(m) => !Storable(S.DraftOf(identity, m), c)
  }

  lemma NextKeepsRefusal(w: World, step: Step, c: Setting)
    requires c.fixedLimit && c.cutAnswersStay
    requires SenderOk(w) && Inv(w) && RefusalInv(w, c)
    ensures RefusalInv(Next(w, step, c), c)
  {
    match step
    case Prepare(_, _, _, _) => PrepareKeepsRefusal(w, step, c);
    case Press(recording) => PressKeepsRefusal(w, recording, c);
    case SniffReturns(a, readable) => SniffKeepsRefusal(w, a, readable, c);
    case AppendRow(i, fault, receipt) =>
      if i < |w.requests| && w.requests[i].stage.BlobHeld? { AppendKeepsRefusal(w, i, fault, receipt, c); }
    case InsertRow(i, fault, receipt) =>
      if i < |w.requests| && w.requests[i].stage.BlobHeld? { InsertKeepsRefusal(w, i, fault, receipt, c); }
    case ReadWinner(i, fails) =>
      if i < |w.requests| && w.requests[i].stage.Lost? { WinnerKeepsRefusal(w, i, fails, c); }
    case Arrive(a, source) => ArriveKeepsRefusal(w, a, source, c);
    case OthersFile(row) => OthersKeepRefusal(w, row, c);
    case _ => RequestStepKeepsRefusal(w, step, c);
  }

  lemma OthersKeepRefusal(w: World, row: Row, c: Setting)
    requires SenderOk(w) && IdentitiesOk(w) && RefusalInv(w, c)
    ensures RefusalInv(Next(w, OthersFile(row), c), c)
  {
  }

  lemma RequestStepKeepsRefusal(w: World, step: Step, c: Setting)
    requires c.fixedLimit && SenderOk(w) && RefusalInv(w, c)
    requires step.Receive? || step.StoreBlob? || step.Duplicate? || step.Crash? || step.Dismiss? || step.ChangeLimit?
    ensures RefusalInv(Next(w, step, c), c)
  {
    assert Deliver(Refuse(503)) != NotDelivered(Refused);
  }

  lemma PrepareKeepsRefusal(w: World, step: Step, c: Setting)
    requires SenderOk(w) && Inv(w) && RefusalInv(w, c) && step.Prepare?
    ensures RefusalInv(Next(w, step, c), c)
  {
  }

  lemma PressKeepsRefusal(w: World, recording: S.Recording, c: Setting)
    requires SenderOk(w) && Inv(w) && RefusalInv(w, c)
    ensures RefusalInv(Next(w, Press(recording), c), c)
  {
    var w' := Next(w, Press(recording), c);
    if w'.sender.fields.state.failure == Some(Refused) {
      assert w' == w;
    }
  }

  lemma SniffKeepsRefusal(w: World, a: nat, readable: bool, c: Setting)
    requires SenderOk(w) && Inv(w) && RefusalInv(w, c)
    ensures RefusalInv(Next(w, SniffReturns(a, readable), c), c)
  {
    var w' := Next(w, SniffReturns(a, readable), c);
    assert w'.sender.attempts == w.sender.attempts && w'.sender.fields.identity == w.sender.fields.identity;
    if w'.sender.fields.state.failure == Some(Refused) {
      assert w'.sender.fields == w.sender.fields;
    }
  }

  lemma AppendKeepsRefusal(w: World, i: nat, fault: Fault, receipt: ServerReceipt, c: Setting)
    requires SenderOk(w) && Inv(w) && RefusalInv(w, c) && i < |w.requests| && w.requests[i].stage.BlobHeld?
    ensures RefusalInv(Appended(w, i, fault, receipt, c), c)
  {
    var w' := Appended(w, i, fault, receipt, c);
    var d := w.requests[i].draft;
    assert RequestTruthful(w.requests[i], c);
    assert Deliver(Refuse(503)) != NotDelivered(Refused);
    AcceptedAnswers(w, i, fault, receipt, c);
    assert forall j :: 0 <= j < |w.requests| && j != i ==> w'.requests[j] == w.requests[j];
    if w'.rows != w.rows {
      assert w'.rows == w.rows + [RowFor(d, receipt)] && Storable(d, c);
      forall k, identity: S.Identity | 0 <= k < |w'.rows| && (k < |w.rows| ==> RowTruthful(w.rows[k], identity, c))
        ensures RowTruthful(w'.rows[k], identity, c)
      {
      }
    }
  }

  lemma InsertKeepsRefusal(w: World, i: nat, fault: Fault, receipt: ServerReceipt, c: Setting)
    requires SenderOk(w) && Inv(w) && RefusalInv(w, c) && i < |w.requests| && w.requests[i].stage.BlobHeld?
    ensures RefusalInv(Inserted(w, i, fault, receipt, c), c)
  {
    if Inserted(w, i, fault, receipt, c).requests[i].stage.Lost? {
      assert forall j :: 0 <= j < |w.requests| && j != i ==>
        Inserted(w, i, fault, receipt, c).requests[j] == w.requests[j];
    } else {
      AppendKeepsRefusal(w, i, fault, receipt, c);
    }
  }

  lemma WinnerKeepsRefusal(w: World, i: nat, fails: bool, c: Setting)
    requires SenderOk(w) && RefusalInv(w, c) && i < |w.requests|
    ensures RefusalInv(WinnerRead(w, i, fails), c)
  {
    assert Deliver(Refuse(503)) != NotDelivered(Refused);
    assert forall j :: 0 <= j < |w.requests| && j != i ==> WinnerRead(w, i, fails).requests[j] == w.requests[j];
  }

  lemma AcceptedAnswers(w: World, i: nat, fault: Fault, receipt: ServerReceipt, c: Setting)
    requires i < |w.requests| && RequestTruthful(w.requests[i], c) && w.requests[i].stage.BlobHeld?
    ensures RequestTruthful(Appended(w, i, fault, receipt, c).requests[i], c)
  {
    assert Deliver(Refuse(503)) != NotDelivered(Refused);
  }

  lemma ArriveKeepsRefusal(w: World, a: nat, source: Source, c: Setting)
    requires c.cutAnswersStay
    requires SenderOk(w) && Inv(w) && RefusalInv(w, c)
    ensures RefusalInv(Next(w, Arrive(a, source), c), c)
  {
    var w' := Next(w, Arrive(a, source), c);
    if w'.sender.fields.state.failure == Some(Refused) && w'.sender.fields != w.sender.fields {
      var i := source.request;
      assert RequestOk(w, w.requests[i]) && RequestTruthful(w.requests[i], c);
      assert w'.sender.fields.identity == Some(w'.sender.attempts[a].identity);
    }
  }

  lemma {:induction false} EveryRunKeepsRefusal(steps: seq<Step>, c: Setting)
    requires c.fixedLimit && c.cutAnswersStay
    ensures RefusalInv(Run(steps, c), c)
  {
    if steps != [] {
      EveryRunKeepsRefusal(steps[..|steps| - 1], c);
      EveryRunKeepsInv(steps[..|steps| - 1], c);
      NextKeepsRefusal(Run(steps[..|steps| - 1], c), steps[|steps| - 1], c);
    }
  }

  /** "Refused" is truthful: nothing under this id was stored, by any attempt. */
  predicate Truthful(w: World) {
    w.sender.fields.state.failure == Some(Refused) && w.sender.fields.identity.Some? ==>
      forall k :: 0 <= k < |w.rows| ==> w.rows[k].submissionId != w.sender.fields.identity.value.submissionId
  }

  lemma RowOfRefused(row: Row, identity: S.Identity, c: Setting)
    requires RowTruthful(row, identity, c) && RefusedForGood(identity, c)
    requires row.submissionId == identity.submissionId ==> Holds(row, identity)
    ensures row.submissionId != identity.submissionId
  {
    var draft := Draft(row.submissionId, row.questionId, row.createdAt, row.mimeType, row.bytes);
    assert Holds(row, identity) ==> draft == S.DraftOf(identity, row.mimeType);
  }

  /** The one outcome that tells a child to record something new is final: with a fixed limit and the
      answers to broken-off bodies unseen, after "refused" nothing was, and nothing ever will be, stored
      under that submissionId - whatever still is in flight. */
  lemma RefusalIsFinal(steps: seq<Step>, more: seq<Step>, c: Setting)
    requires c.fixedLimit && c.cutAnswersStay
    requires Run(steps, c).sender.fields.state.failure == Some(Refused)
    ensures Run(steps, c).sender.fields.identity.Some?
    ensures var id := Run(steps, c).sender.fields.identity.value.submissionId;
            forall k :: 0 <= k < |Run(steps + more, c).rows| ==> Run(steps + more, c).rows[k].submissionId != id
  {
    EveryRunKeepsRefusal(steps, c);
    EveryRunKeepsRefusal(steps + more, c);
    EveryRunKeepsInv(steps + more, c);
    AttemptsOnlyGrow(steps, more, c);
    var w, later := Run(steps, c), Run(steps + more, c);
    var a :| 0 <= a < |w.sender.attempts| && w.sender.fields.identity == Some(w.sender.attempts[a].identity);
    forall k | 0 <= k < |later.rows|
      ensures later.rows[k].submissionId != w.sender.fields.identity.value.submissionId
    {
      assert later.sender.attempts[a] == w.sender.attempts[a];
      assert RowIsFrom(later.rows[k], later.sender.attempts[a].identity, later.blobs);
      RowOfRefused(later.rows[k], later.sender.attempts[a].identity, c);
    }
  }

  lemma {:induction false} AttemptsOnlyGrow(steps: seq<Step>, more: seq<Step>, c: Setting)
    ensures Run(steps, c).sender.attempts <= Run(steps + more, c).sender.attempts
    decreases |more|
  {
    if more == [] {
      assert steps + more == steps;
    } else {
      var shorter := more[..|more| - 1];
      assert (steps + more)[..|steps + more| - 1] == steps + shorter;
      AttemptsOnlyGrow(steps, shorter, c);
    }
  }

  // ---------------------------------------------------------------- when the refusal is not truthful

  /** An identity whose recording the route accepts and the store takes. */
  predicate Welcome(identity: S.Identity, m: Audio.MimeType, c: Setting) {
    && |identity.recording.bytes| <= Audio.MAX_AUDIO_BYTES
    && Audio.Sniff(Audio.Head(identity.recording.bytes, Audio.SNIFF_BYTES)) == Some(m)
    && Storable(S.DraftOf(identity, m), c)
  }

  /** The guarantee holds in exactly the settings named: for any recording the route would take, "refused" is
      truthful in every run if and only if the byte limit stays fixed and the answer to a broken-off body
      never reaches the browser. */
  lemma TruthfulExactlyWhen(c: Setting, identity: S.Identity, m: Audio.MimeType, receipt: ServerReceipt)
    requires Welcome(identity, m, c)
    ensures (forall steps :: Truthful(Run(steps, c))) <==> c.fixedLimit && c.cutAnswersStay
  {
    if c.fixedLimit && c.cutAnswersStay {
      forall steps ensures Truthful(Run(steps, c)) {
        if Run(steps, c).sender.fields.state.failure == Some(Refused) {
          RefusalIsFinal(steps, [], c);
          assert steps + [] == steps;
        }
      }
    } else if !c.cutAnswersStay {
      var steps := CutBodyMisleads(c, identity, m, receipt);
      assert !Truthful(Run(steps, c));
    } else {
      var steps := LowerLimitMisleads(c, identity, m, receipt);
      assert !Truthful(Run(steps, c));
    }
  }

  lemma Take(steps: seq<Step>, step: Step, w: World, c: Setting) returns (steps': seq<Step>)
    requires Next(Run(steps, c), step, c) == w
    ensures Run(steps', c) == w
  {
    steps' := steps + [step];
    assert steps'[..|steps'| - 1] == steps;
  }

  /** The first attempt: filed, but the browser gives up waiting. */
  lemma FiledButUnheard(
      c: Setting, identity: S.Identity, m: Audio.MimeType, receipt: ServerReceipt) returns (steps: seq<Step>)
    requires Welcome(identity, m, c)
    ensures var d := S.DraftOf(identity, m);
            Run(steps, c) == World(
              S.Run(S.Fields(S.SendState(S.Failed, Some(Transport), None, Some(identity.recording)), Some(identity), 2),
                    [S.Attempt(2, identity)], [S.Returned]),
              [Request(0, d, Answered(HttpAnswer(201, Some(Acknowledge(receipt))), false))],
              [RowFor(d, receipt)], {d.bytes}, {identity.submissionId}, c.limit)
  {
    var d := S.DraftOf(identity, m);
    steps := FiledFirst(c, identity, m, receipt);
    var unheard :=
      S.Run(S.Fields(S.SendState(S.Failed, Some(Transport), None, Some(identity.recording)), Some(identity), 2),
                         [S.Attempt(2, identity)], [S.Returned]);
    TimesOut(Run(steps, c), c);
    NoAnswerFails(identity, d);
    steps := Take(steps, Arrive(0, TimedOut), Run(steps, c).(sender := unheard), c);
  }

  lemma TimesOut(w: World, c: Setting)
    requires SenderOk(w)
    ensures Next(w, Arrive(0, TimedOut), c) == w.(sender := S.Next(w.sender, S.DeliverStep(0, NotDelivered(Transport))))
  {
  }

  lemma NoAnswerFails(identity: S.Identity, d: Draft)
    ensures S.Next(Sent(identity, d), S.DeliverStep(0, NotDelivered(Transport)))
            == S.Run(S.Fields(S.SendState(S.Failed, Some(Transport), None, Some(identity.recording)), Some(identity),
              2),
                     [S.Attempt(2, identity)], [S.Returned])
  {
  }

  lemma FiledFirst(
      c: Setting, identity: S.Identity, m: Audio.MimeType, receipt: ServerReceipt) returns (steps: seq<Step>)
    requires Welcome(identity, m, c)
    ensures var d := S.DraftOf(identity, m);
            Run(steps, c) == World(
              Sent(identity, d), [Request(0, d, Answered(HttpAnswer(201, Some(Acknowledge(receipt))), false))],
              [RowFor(d, receipt)], {d.bytes}, {identity.submissionId}, c.limit)
  {
    var d := S.DraftOf(identity, m);
    steps := BlobIsHeld(c, identity, m);
    var answered := Request(0, d, Answered(HttpAnswer(201, Some(Acknowledge(receipt))), false));
    FirstRow(Run(steps, c), d, receipt, c);
    steps := Take(steps, AppendRow(0, NoFault, receipt),
      Run(steps, c).(requests := [answered], rows := [RowFor(d, receipt)]), c);
  }

  /** The first row of an empty inbox. */
  lemma FirstRow(w: World, d: Draft, receipt: ServerReceipt, c: Setting)
    requires SenderOk(w) && w.requests == [Request(0, d, BlobHeld)] && w.rows == [] && c.storable(d)
    ensures Next(w, AppendRow(0, NoFault, receipt), c)
            == w.(requests := [Request(0, d, Answered(HttpAnswer(201, Some(Acknowledge(receipt))), false))],
                  rows := [RowFor(d, receipt)])
  {
  }

  lemma BlobIsHeld(c: Setting, identity: S.Identity, m: Audio.MimeType) returns (steps: seq<Step>)
    requires Welcome(identity, m, c)
    ensures var d := S.DraftOf(identity, m);
            Run(steps, c)
              == World(Sent(identity, d), [Request(0, d, BlobHeld)], [], {d.bytes}, {identity.submissionId}, c.limit)
  {
    var d := S.DraftOf(identity, m);
    steps := PastTheGuards(c, identity, m);
    steps := Take(steps, StoreBlob(0, NoFault),
      Run(steps, c).(requests := [Request(0, d, BlobHeld)], blobs := {d.bytes}), c);
  }

  lemma PastTheGuards(c: Setting, identity: S.Identity, m: Audio.MimeType) returns (steps: seq<Step>)
    requires Welcome(identity, m, c)
    ensures var d := S.DraftOf(identity, m);
            Run(steps, c)
              == World(Sent(identity, d), [Request(0, d, Validated)], [], {}, {identity.submissionId}, c.limit)
  {
    var d := S.DraftOf(identity, m);
    steps := OnTheWire(c, identity, m);
    steps := Take(steps, Receive(0, Granted, true), Run(steps, c).(requests := [Request(0, d, Validated)]), c);
  }

  function Sent(identity: S.Identity, d: Draft): S.Run {
    S.Run(S.Fields(S.SendState(S.Sending, None, None, Some(identity.recording)), Some(identity), 2),
          [S.Attempt(2, identity)], [S.Delivering(d)])
  }

  lemma BoundAtFirst(c: Setting, identity: S.Identity) returns (steps: seq<Step>)
    ensures Run(steps, c) == World(
              S.Run(S.Fields(S.IDLE.(recording := Some(identity.recording)), Some(identity), 1), [], []),
              [], [], {}, {identity.submissionId}, c.limit)
  {
    var bound := S.Run(S.Fields(S.IDLE.(recording := Some(identity.recording)), Some(identity), 1), [], []);
    steps := Take([], Prepare(identity.recording, identity.questionId, identity.submissionId, identity.createdAt),
                  World(bound, [], [], {}, {identity.submissionId}, c.limit), c);
  }

  lemma Pressed(c: Setting, identity: S.Identity) returns (steps: seq<Step>)
    requires |identity.recording.bytes| <= Audio.MAX_AUDIO_BYTES
    ensures Run(steps, c) == World(
              S.Run(S.Fields(S.SendState(S.Sending, None, None, Some(identity.recording)), Some(identity), 2),
                    [S.Attempt(2, identity)], [S.Sniffing]),
              [], [], {}, {identity.submissionId}, c.limit)
  {
    var recording := identity.recording;
    steps := BoundAtFirst(c, identity);
    var sending := S.Run(S.Fields(S.SendState(S.Sending, None, None, Some(recording)), Some(identity), 2),
                         [S.Attempt(2, identity)], [S.Sniffing]);
    steps := Take(steps, Press(recording), World(sending, [], [], {}, {identity.submissionId}, c.limit), c);
  }

  lemma OnTheWire(c: Setting, identity: S.Identity, m: Audio.MimeType) returns (steps: seq<Step>)
    requires Welcome(identity, m, c)
    ensures var d := S.DraftOf(identity, m);
            Run(steps, c)
              == World(Sent(identity, d), [Request(0, d, InFlight)], [], {}, {identity.submissionId}, c.limit)
  {
    var d := S.DraftOf(identity, m);
    steps := Pressed(c, identity);
    steps := Take(steps, SniffReturns(0, true),
      World(Sent(identity, d), [Request(0, d, InFlight)], [], {}, {identity.submissionId}, c.limit), c);
  }

  /** The retry of a filed answer, on its way. */
  function Retrying(
      c: Setting, identity: S.Identity, d: Draft, receipt: ServerReceipt, stage: Stage, maxBytes: nat): World {
    World(S.Run(S.Fields(S.SendState(S.Sending, None, None, Some(identity.recording)), Some(identity), 3),
                [S.Attempt(2, identity), S.Attempt(3, identity)], [S.Returned, S.Delivering(d)]),
          [Request(0, d, Answered(HttpAnswer(201, Some(Acknowledge(receipt))), false)), Request(1, d, stage)],
          [RowFor(d, receipt)], {d.bytes}, {identity.submissionId}, maxBytes)
  }

  lemma RetryOnTheWire(
      c: Setting, identity: S.Identity, m: Audio.MimeType, receipt: ServerReceipt) returns (steps: seq<Step>)
    requires Welcome(identity, m, c)
    ensures Run(steps, c) == Retrying(c, identity, S.DraftOf(identity, m), receipt, InFlight, c.limit)
  {
    var d := S.DraftOf(identity, m);
    steps := PressedAgain(c, identity, m, receipt);
    steps := Take(steps, SniffReturns(1, true), Retrying(c, identity, d, receipt, InFlight, c.limit), c);
  }

  lemma PressedAgain(
      c: Setting, identity: S.Identity, m: Audio.MimeType, receipt: ServerReceipt) returns (steps: seq<Step>)
    requires Welcome(identity, m, c)
    ensures var d := S.DraftOf(identity, m);
            Run(steps, c) == World(
              S.Run(S.Fields(S.SendState(S.Sending, None, None, Some(identity.recording)), Some(identity), 3),
                    [S.Attempt(2, identity), S.Attempt(3, identity)], [S.Returned, S.Sniffing]),
              [Request(0, d, Answered(HttpAnswer(201, Some(Acknowledge(receipt))), false))],
              [RowFor(d, receipt)], {d.bytes}, {identity.submissionId}, c.limit)
  {
    steps := FiledButUnheard(c, identity, m, receipt);
    var sending := S.Run(S.Fields(S.SendState(S.Sending, None, None, Some(identity.recording)), Some(identity), 3),
                         [S.Attempt(2, identity), S.Attempt(3, identity)], [S.Returned, S.Sniffing]);
    steps := Take(steps, Press(identity.recording), Run(steps, c).(sender := sending), c);
  }

  /** The retry's body breaks off, the route answers 400 for the partial body, and the browser believes it. */
  lemma CutBodyMisleads(
      c: Setting, identity: S.Identity, m: Audio.MimeType, receipt: ServerReceipt) returns (steps: seq<Step>)
    requires Welcome(identity, m, c) && !c.cutAnswersStay
    ensures !Truthful(Run(steps, c))
  {
    steps := RetryCut(c, identity, m, receipt);
    RefusedAnswerMisleads(Run(steps, c), c);
    steps := Take(steps, Arrive(1, FromServer(1)), Next(Run(steps, c), Arrive(1, FromServer(1)), c), c);
  }

  lemma RetryCut(
      c: Setting, identity: S.Identity, m: Audio.MimeType, receipt: ServerReceipt) returns (steps: seq<Step>)
    requires Welcome(identity, m, c)
    ensures Run(steps, c)
            == Retrying(c, identity, S.DraftOf(identity, m), receipt, Answered(Refuse(400), true), c.limit)
  {
    steps := RetryOnTheWire(c, identity, m, receipt);
    steps := Take(steps, Receive(1, Granted, false),
      Retrying(c, identity, S.DraftOf(identity, m), receipt, Answered(Refuse(400), true), c.limit), c);
  }

  /** The retry meets a lower limit than the first attempt did. */
  lemma LowerLimitMisleads(
      c: Setting, identity: S.Identity, m: Audio.MimeType, receipt: ServerReceipt) returns (steps: seq<Step>)
    requires Welcome(identity, m, c) && !c.fixedLimit
    ensures !Truthful(Run(steps, c))
  {
    steps := RetryTooLarge(c, identity, m, receipt);
    RefusedAnswerMisleads(Run(steps, c), c);
    steps := Take(steps, Arrive(1, FromServer(1)), Next(Run(steps, c), Arrive(1, FromServer(1)), c), c);
  }

  lemma RetryTooLarge(
      c: Setting, identity: S.Identity, m: Audio.MimeType, receipt: ServerReceipt) returns (steps: seq<Step>)
    requires Welcome(identity, m, c) && !c.fixedLimit
    ensures Run(steps, c) == Retrying(c, identity, S.DraftOf(identity, m), receipt, Answered(Refuse(400), false), 0)
  {
    steps := LimitLowered(c, identity, m, receipt);
    steps := Take(steps, Receive(1, Granted, true),
      Retrying(c, identity, S.DraftOf(identity, m), receipt, Answered(Refuse(400), false), 0), c);
  }

  lemma LimitLowered(
      c: Setting, identity: S.Identity, m: Audio.MimeType, receipt: ServerReceipt) returns (steps: seq<Step>)
    requires Welcome(identity, m, c) && !c.fixedLimit
    ensures Run(steps, c) == Retrying(c, identity, S.DraftOf(identity, m), receipt, InFlight, 0)
  {
    steps := RetryOnTheWire(c, identity, m, receipt);
    steps := Take(steps, ChangeLimit(0), Retrying(c, identity, S.DraftOf(identity, m), receipt, InFlight, 0), c);
  }

  /** A visible 400 to the second attempt turns into "refused" beside a stored row. */
  lemma RefusedAnswerMisleads(w: World, c: Setting)
    requires SenderOk(w) && |w.requests| == 2 && |w.sender.attempts| == 2 && |w.rows| == 1
    requires w.requests[1].attempt == 1 && w.requests[1].stage.Answered? && w.requests[1].stage.answer == Refuse(400)
    requires !(w.requests[1].stage.cut && c.cutAnswersStay)
    requires w.sender.stages[1].Delivering? && w.sender.attempts[1].generation == w.sender.fields.generation
    requires w.sender.fields.identity.Some? && w.rows[0].submissionId == w.sender.fields.identity.value.submissionId
    ensures !Truthful(Next(w, Arrive(1, FromServer(1)), c))
  {
    assert Deliver(Refuse(400)) == NotDelivered(Refused);
  }
}
