// A typed answer on its way to the project: src/domain/submissions/submission.ts,
// src/application/submissions/deliver-submission.ts, src/adapters/http/http-submission-inbox.ts, and the
// text route behind them. Both the hop and the browser's own storage may fail at any point.
module TextDelivery {
  import opened Common
  import opened Text
  import opened Http
  import opened InboxRecord
  import FileInbox
  import Json

  datatype SubmissionStatus = LOCAL_ONLY | SERVER_ACKNOWLEDGED

  datatype TextSubmission = TextSubmission(
    id: string, questionId: string, originalText: string, createdAt: string, profileId: Option<string>,
    status: SubmissionStatus, receipt: Option<ServerReceipt>)

  datatype Input = Input(questionId: string, originalText: string, profileId: Option<string>)

  /** A new local answer; None stands for the thrown error. */
  function CreateTextSubmission(input: Input, id: string, now: string): Option<TextSubmission> {
    if Blank(input.questionId) || Blank(input.originalText) || Blank(id) then None
    else Some(TextSubmission(id, input.questionId, input.originalText, now,
                             if input.profileId == Some("") then None else input.profileId, LOCAL_ONLY, None))
  }

  /** The only way to SERVER_ACKNOWLEDGED; None stands for the thrown error. */
  function AcknowledgeSubmission(s: TextSubmission, receipt: ServerReceipt): Option<TextSubmission> {
    if Blank(receipt.receiptId) || Blank(receipt.receivedAt) then None
    else Some(s.(status := SERVER_ACKNOWLEDGED, receipt := Some(Tidied(receipt))))
  }

  /** Only a receipt with both fields acknowledges, and it is kept trimmed; of the answer itself nothing changes. */
  lemma AcknowledgedExactlyWhen(s: TextSubmission, receipt: ServerReceipt)
    ensures AcknowledgeSubmission(s, receipt).Some? <==> !Blank(receipt.receiptId) && !Blank(receipt.receivedAt)
    ensures AcknowledgeSubmission(s, receipt).Some? ==>
              var t := AcknowledgeSubmission(s, receipt).value;
              && HasArrived(t) && SameAnswer(s, t) && t.receipt.Some?
              && t.receipt.value.receiptId == Trim(receipt.receiptId) != []
              && t.receipt.value.receivedAt == Trim(receipt.receivedAt) != []
  {
  }

  /** Everything an answer is, apart from what the project said about it. */
  predicate SameAnswer(s: TextSubmission, t: TextSubmission) {
    s.id == t.id && s.questionId == t.questionId && s.originalText == t.originalText
    && s.createdAt == t.createdAt && s.profileId == t.profileId
  }

  predicate HasArrived(s: TextSubmission) {
    s.status.SERVER_ACKNOWLEDGED?
  }

  // ---------------------------------------------------------------- one attempt

  datatype Reason = TransportFault | RefusedAnswer | LocalSave

  datatype Received = GotReceipt(receipt: ServerReceipt) | NoReceipt(reason: Reason)

  /** The text client's reading of an answer. */
  function ReadAnswer(answer: HttpAnswer): Received {
    match answer
    case NoAnswer => NoReceipt(TransportFault)
    case HttpAnswer(status, body) =>
      if !(200 <= status < 300) then NoReceipt(if status >= 500 then TransportFault else RefusedAnswer)
      else if body.None? then NoReceipt(TransportFault)
      else
        match ReadServerReceipt(body.value)
        case None => NoReceipt(RefusedAnswer)
        case Some(receipt) => GotReceipt(receipt)
  }

  datatype Fault = NoFault | BeforeWrite | AfterWrite

  datatype Outcome = Outcome(delivered: bool, reason: Option<Reason>, submission: TextSubmission)

  function Saved(stored: map<string, TextSubmission>, s: TextSubmission, fault: Fault): map<string, TextSubmission> {
    if fault.BeforeWrite? then stored else stored[s.id := s]
  }

  /** The browser's store of answers, and one delivery through it. */
  class SubmissionRepository {
    var stored: map<string, TextSubmission>

    constructor ()
      ensures stored == map[]
    {
      stored := map[];
    }

    method Save(submission: TextSubmission, fault: Fault) returns (saved: bool)
      modifies this
      ensures stored == Saved(old(stored), submission, fault) && saved == fault.NoFault?
    {
      if fault.BeforeWrite? {
        return false;
      }
      stored := stored[submission.id := submission];
      saved := !fault.AfterWrite?;
    }

    /** `deliverSubmission`, given the answer that came back. "Delivered" means the acknowledged copy, and only
        it, was saved; on every failure the caller gets its own submission back untouched. */
    method DeliverSubmission(submission: TextSubmission, answer: HttpAnswer, fault: Fault) returns (outcome: Outcome)
      modifies this
      ensures outcome.delivered <==> ReadAnswer(answer).GotReceipt? && fault.NoFault?
      ensures outcome.delivered ==>
                && AcknowledgeSubmission(submission, ReadAnswer(answer).receipt) == Some(outcome.submission)
                && outcome.reason.None?
                && stored == old(stored)[submission.id := outcome.submission]
      ensures !outcome.delivered ==> outcome.submission == submission
      ensures ReadAnswer(answer).NoReceipt? ==>
          stored == old(stored) && outcome.reason == Some(ReadAnswer(answer).reason)
      ensures ReadAnswer(answer).GotReceipt? ==>
                && AcknowledgeSubmission(submission, ReadAnswer(answer).receipt).Some?
                && stored == Saved(old(stored), AcknowledgeSubmission(submission, ReadAnswer(answer).receipt).value,
                  fault)
                && (!fault.NoFault? ==> outcome.reason == Some(LocalSave))
    {
      var received := ReadAnswer(answer);
      ReceiptIsTidy(answer);
      match received {
        case NoReceipt(reason) => return Outcome(false, Some(reason), submission);
        case GotReceipt(receipt) =>
          var acknowledged := AcknowledgeSubmission(submission, receipt);
          if acknowledged.None? {
            return Outcome(false, Some(RefusedAnswer), submission);
          }
          var saved := Save(acknowledged.value, fault);
          outcome := if saved then Outcome(true, None, acknowledged.value)
            else Outcome(false, Some(LocalSave), submission);
      }
    }
  }

  /** A receipt the client accepts is one the domain accepts, and it is stored as it was read. */
  lemma ReceiptIsTidy(answer: HttpAnswer)
    ensures ReadAnswer(answer).GotReceipt? ==>
              var receipt := ReadAnswer(answer).receipt;
              !Blank(receipt.receiptId) && !Blank(receipt.receivedAt) && Tidied(receipt) == receipt
  {
    if ReadAnswer(answer).GotReceipt? {
      ReceiptsAreReal(answer.body.value);
    }
  }

  // ---------------------------------------------------------------- the whole system

  /** One attempt: the copy it carries, the answers the server gave its request, and whether it waits to save. */
  datatype Attempt = Attempt(
    submission: TextSubmission, answers: seq<HttpAnswer>, saving: Option<ServerReceipt>, over: bool)

  datatype World = World(
    stored: map<string, TextSubmission>, copies: set<TextSubmission>, attempts: seq<Attempt>, rows: seq<Record>,
    used: set<string>)

  /** Where an answer comes from: nowhere in time, the server, or something in between that makes none up. */
  datatype Source = TimedOut | FromServer(k: nat) | Intermediary(answer: HttpAnswer)

  datatype Step =
    | Submit(input: Input, id: string, now: string, fault: Fault)
    | Deliver(copy: TextSubmission)
    | Serve(attempt: nat, accepted: bool, fault: Fault, receipt: ServerReceipt)
    | Arrive(attempt: nat, source: Source)
    | SaveReceipt(attempt: nat, fault: Fault)
    | OthersFile(row: Record)

  /** What the text client sends. */
  function Body(s: TextSubmission): Json.Json {
    Json.Obj(map["submissionId" := Json.Str(s.id), "questionId" := Json.Str(s.questionId),
                 "createdAt" := Json.Str(s.createdAt), "originalText" := Json.Str(s.originalText)])
  }

  function Answered(w: World, i: nat, answer: HttpAnswer): World
    requires i < |w.attempts|
  {
    w.(attempts := w.attempts[i := w.attempts[i].(answers := w.attempts[i].answers + [answer])])
  }

  function Refusal(status: int): HttpAnswer {
    HttpAnswer(status, Some(Json.Obj(map["acknowledged" := Json.Bool(false)])))
  }

  /** The text route with an inbox that keeps each submissionId once. `accepted` is its access decision. */
  function Served(w: World, i: nat, accepted: bool, fault: Fault, receipt: ServerReceipt, p: Platform): World
    requires i < |w.attempts|
  {
    if !accepted then Answered(w, i, Refusal(401))
    else
      match MintText(Body(w.attempts[i].submission), receipt, p)
      case None => Answered(w, i, Refusal(400))
      case Some(record) =>
        match FileInbox.Find(w.rows, record.submissionId)
        case Some(row) =>
          Answered(w, i, if fault.NoFault? then HttpAnswer(200, Some(Acknowledge(row.receipt))) else Refusal(503))
        case None =>
          Answered(if fault.BeforeWrite? then w else w.(rows := w.rows + [record]), i,
                   if fault.NoFault? then HttpAnswer(201, Some(Acknowledge(receipt))) else Refusal(503))
  }

  function AnswerFrom(a: Attempt, source: Source): Option<HttpAnswer> {
    match source
    case TimedOut => Some(NoAnswer)
    case FromServer(k) => if k < |a.answers| then Some(a.answers[k]) else None
    case Intermediary(answer) => if ReadAnswer(answer).NoReceipt? then Some(answer) else None
  }

  function Next(w: World, step: Step, p: Platform): World {
    match step
    case Submit(input, id, now, fault) =>
      var created := CreateTextSubmission(input, id, now);
      if id in w.used || created.None? then w
      else
        w.(stored := Saved(w.stored, created.value, fault), copies := w.copies + {created.value}, used := w.used + {id})
    case Deliver(copy) =>
      if copy in w.copies then w.(attempts := w.attempts + [Attempt(copy, [], None, false)]) else w
    case Serve(i, accepted, fault, receipt) =>
      if i < |w.attempts| then Served(w, i, accepted, fault, receipt, p) else w
    case Arrive(i, source) =>
      if i < |w.attempts| && !w.attempts[i].over && AnswerFrom(w.attempts[i], source).Some? then
        var received := ReadAnswer(AnswerFrom(w.attempts[i], source).value);
        w.(attempts := w.attempts[i := w.attempts[i].(
          over := true, saving := if received.GotReceipt? then Some(received.receipt) else None)])
      else w
    case SaveReceipt(i, fault) =>
      if i < |w.attempts| && w.attempts[i].saving.Some? then
        match AcknowledgeSubmission(w.attempts[i].submission, w.attempts[i].saving.value)
        case None => w
        case Some(acknowledged) =>
          w.(stored := Saved(w.stored, acknowledged, fault), copies := w.copies + {acknowledged},
             attempts := w.attempts[i := w.attempts[i].(saving := None)])
      else w
    case OthersFile(row) =>
      if row.submissionId in w.used then w else w.(rows := w.rows + [row], used := w.used + {row.submissionId})
  }

  const START: World := World(map[], {}, [], [], {})

  function Run(steps: seq<Step>, p: Platform): World {
    if steps == [] then START else Next(Run(Init(steps), p), Last(steps), p)
  }

  // ---------------------------------------------------------------- the invariant

  /** A row that holds this answer, in the child's own words. */
  predicate Holds(row: Record, s: TextSubmission) {
    row.submissionId == s.id && row.questionId == s.questionId && row.createdAt == s.createdAt
    && row.payload == TextPayload(s.originalText)
  }

  /** The project holds this answer, under this receipt. */
  predicate Filed(rows: seq<Record>, s: TextSubmission, receipt: ServerReceipt) {
    exists k :: 0 <= k < |rows| && Holds(rows[k], s) && Tidied(rows[k].receipt) == receipt
  }

  /** A copy claims no more than the project can show. */
  predicate CopyOk(s: TextSubmission, rows: seq<Record>) {
    match s.status
    case LOCAL_ONLY => s.receipt.None?
    case SERVER_ACKNOWLEDGED => s.receipt.Some? && Filed(rows, s, s.receipt.value)
  }

  predicate CopiesOk(w: World) {
    && (forall id :: id in w.stored ==> w.stored[id].id == id && w.stored[id] in w.copies)
    && (forall s :: s in w.copies ==> s.id in w.used && CopyOk(s, w.rows))
    && (forall s, t :: s in w.copies && t in w.copies && s.id == t.id ==> SameAnswer(s, t))
  }

  predicate RowsOk(w: World) {
    && (forall k :: 0 <= k < |w.rows| ==> w.rows[k].submissionId in w.used)
    && (forall j, k :: 0 <= j < k < |w.rows| ==> w.rows[j].submissionId != w.rows[k].submissionId)
    && (forall k, s :: 0 <= k < |w.rows| && s in w.copies && w.rows[k].submissionId == s.id ==> Holds(w.rows[k], s))
  }

  predicate AnswerOk(answer: HttpAnswer, s: TextSubmission, rows: seq<Record>) {
    ReadAnswer(answer).GotReceipt? ==> Filed(rows, s, ReadAnswer(answer).receipt)
  }

  predicate AttemptOk(a: Attempt, w: World) {
    && a.submission in w.copies
    && (forall k :: 0 <= k < |a.answers| ==> AnswerOk(a.answers[k], a.submission, w.rows))
    && (a.saving.Some? ==> Filed(w.rows, a.submission, a.saving.value) && Tidied(a.saving.value) == a.saving.value)
  }

  predicate Inv(w: World) {
    CopiesOk(w) && RowsOk(w) && forall i :: 0 <= i < |w.attempts| ==> AttemptOk(w.attempts[i], w)
  }

  lemma FiledGrows(rows: seq<Record>, row: Record, s: TextSubmission, receipt: ServerReceipt)
    requires Filed(rows, s, receipt)
    ensures Filed(rows + [row], s, receipt)
  {
    var k :| 0 <= k < |rows| && Holds(rows[k], s) && Tidied(rows[k].receipt) == receipt;
    assert (rows + [row])[k] == rows[k];
  }

  lemma AttemptKept(a: Attempt, w: World, w': World)
    requires AttemptOk(a, w) && w.copies <= w'.copies
    requires w'.rows == w.rows || (exists row :: w'.rows == w.rows + [row])
    ensures AttemptOk(a, w')
  {
    if w'.rows != w.rows {
      var row :| w'.rows == w.rows + [row];
      forall k | 0 <= k < |a.answers| ensures AnswerOk(a.answers[k], a.submission, w'.rows) {
        assert AnswerOk(a.answers[k], a.submission, w.rows);
        if ReadAnswer(a.answers[k]).GotReceipt? {
          FiledGrows(w.rows, row, a.submission, ReadAnswer(a.answers[k]).receipt);
        }
      }
      if a.saving.Some? {
        FiledGrows(w.rows, row, a.submission, a.saving.value);
      }
    }
  }

  lemma SubmitKeepsInv(w: World, step: Step, p: Platform)
    requires Inv(w) && step.Submit?
    ensures Inv(Next(w, step, p))
  {
    var w' := Next(w, step, p);
    forall i | 0 <= i < |w'.attempts| ensures AttemptOk(w'.attempts[i], w') {
      AttemptKept(w.attempts[i], w, w');
    }
  }

  /** Acknowledging a filed row tells the client that row's receipt. */
  lemma AcknowledgedIsFiled(rows: seq<Record>, k: nat, s: TextSubmission, status: int)
    requires k < |rows| && Holds(rows[k], s) && (status == 200 || status == 201)
    ensures AnswerOk(HttpAnswer(status, Some(Acknowledge(rows[k].receipt))), s, rows)
  {
    ReceiptRoundTrip(rows[k].receipt);
  }

  lemma AnsweredKeepsInv(w: World, i: nat, answer: HttpAnswer)
    requires Inv(w) && i < |w.attempts| && AnswerOk(answer, w.attempts[i].submission, w.rows)
    ensures Inv(Answered(w, i, answer))
  {
    var w' := Answered(w, i, answer);
    forall j | 0 <= j < |w'.attempts| ensures AttemptOk(w'.attempts[j], w') {
      assert AttemptOk(w.attempts[j], w);
    }
  }

  lemma RowAddedKeepsInv(w: World, row: Record, i: nat)
    requires Inv(w) && i < |w.attempts| && Holds(row, w.attempts[i].submission)
    requires FileInbox.Find(w.rows, row.submissionId).None?
    ensures Inv(w.(rows := w.rows + [row]))
  {
    var w' := w.(rows := w.rows + [row]);
    var s := w.attempts[i].submission;
    FileInbox.FindIs(w.rows, row.submissionId);
    assert AttemptOk(w.attempts[i], w);
    forall j | 0 <= j < |w'.attempts| ensures AttemptOk(w'.attempts[j], w') {
      assert AttemptOk(w.attempts[j], w);
      AttemptKept(w.attempts[j], w, w');
    }
    CopiesKept(w, row);
    forall t | t in w.copies && row.submissionId == t.id ensures Holds(row, t) {
      assert SameAnswer(s, t);
    }
  }

  lemma CopiesKept(w: World, row: Record)
    requires CopiesOk(w)
    ensures forall s :: s in w.copies ==> CopyOk(s, w.rows + [row])
  {
    forall s | s in w.copies ensures CopyOk(s, w.rows + [row]) {
      assert CopyOk(s, w.rows);
      if s.status.SERVER_ACKNOWLEDGED? {
        FiledGrows(w.rows, row, s, s.receipt.value);
      }
    }
  }

  lemma MintedHolds(s: TextSubmission, receipt: ServerReceipt, p: Platform)
    ensures MintText(Body(s), receipt, p).Some? ==>
              Holds(MintText(Body(s), receipt, p).value, s) && MintText(Body(s), receipt, p).value.receipt == receipt
  {
    if MintText(Body(s), receipt, p).Some? {
      TextIsVerbatim(Body(s), receipt, p);
    }
  }

  lemma ServeKeepsInv(w: World, i: nat, accepted: bool, fault: Fault, receipt: ServerReceipt, p: Platform)
    requires Inv(w) && i < |w.attempts|
    ensures Inv(Served(w, i, accepted, fault, receipt, p))
  {
    var s := w.attempts[i].submission;
    assert AttemptOk(w.attempts[i], w);
    MintedHolds(s, receipt, p);
    var minted := MintText(Body(s), receipt, p);
    if !accepted || minted.None? {
      AnsweredKeepsInv(w, i, Refusal(if accepted then 400 else 401));
    } else {
      var found := FileInbox.Find(w.rows, s.id);
      FileInbox.FindIs(w.rows, s.id);
      if found.Some? {
        var k :| 0 <= k < |w.rows| && w.rows[k] == found.value && w.rows[k].submissionId == s.id;
        AcknowledgedIsFiled(w.rows, k, s, 200);
        AnsweredKeepsInv(
          w, i, if fault.NoFault? then HttpAnswer(200, Some(Acknowledge(found.value.receipt))) else Refusal(503));
      } else if fault.BeforeWrite? {
        AnsweredKeepsInv(w, i, Refusal(503));
      } else {
        RowAddedKeepsInv(w, minted.value, i);
        var stored := w.(rows := w.rows + [minted.value]);
        AcknowledgedIsFiled(stored.rows, |w.rows|, s, 201);
        AnsweredKeepsInv(
          stored, i, if fault.NoFault? then HttpAnswer(201, Some(Acknowledge(receipt))) else Refusal(503));
      }
    }
  }

  lemma ArriveKeepsInv(w: World, i: nat, source: Source, p: Platform)
    requires Inv(w)
    ensures Inv(Next(w, Arrive(i, source), p))
  {
    var w' := Next(w, Arrive(i, source), p);
    if i < |w.attempts| && !w.attempts[i].over && AnswerFrom(w.attempts[i], source).Some? {
      var answer := AnswerFrom(w.attempts[i], source).value;
      ReceiptIsTidy(answer);
      assert AttemptOk(w.attempts[i], w);
      forall j | 0 <= j < |w'.attempts| ensures AttemptOk(w'.attempts[j], w') {
        assert AttemptOk(w.attempts[j], w);
      }
    }
  }

  lemma SaveKeepsInv(w: World, i: nat, fault: Fault, p: Platform)
    requires Inv(w) && i < |w.attempts| && w.attempts[i].saving.Some?
    ensures Inv(Next(w, SaveReceipt(i, fault), p))
  {
    var w' := Next(w, SaveReceipt(i, fault), p);
    var s := w.attempts[i].submission;
    assert AttemptOk(w.attempts[i], w);
    var acknowledged := AcknowledgeSubmission(s, w.attempts[i].saving.value);
    if acknowledged.Some? {
      var k :| 0 <= k < |w.rows| && Holds(w.rows[k], s) && Tidied(w.rows[k].receipt) == w.attempts[i].saving.value;
      assert Holds(w.rows[k], acknowledged.value);
      assert CopyOk(acknowledged.value, w.rows);
      assert SameAnswer(s, acknowledged.value);
      forall j | 0 <= j < |w'.attempts| ensures AttemptOk(w'.attempts[j], w') {
        assert AttemptOk(w.attempts[j], w);
      }
      CopyAdded(w, s, acknowledged.value, w');
    }
  }

  lemma CopyAdded(w: World, s: TextSubmission, t: TextSubmission, w': World)
    requires CopiesOk(w) && RowsOk(w) && s in w.copies && SameAnswer(s, t) && CopyOk(t, w.rows)
    requires w'.copies == w.copies + {t} && w'.rows == w.rows && w'.used == w.used
    requires w'.stored == w.stored || w'.stored == w.stored[t.id := t]
    ensures CopiesOk(w') && RowsOk(w')
  {
    forall u | u in w.copies && u.id == t.id ensures SameAnswer(u, t) && SameAnswer(t, u) {
      assert SameAnswer(u, s);
    }
    forall k | 0 <= k < |w.rows| && w.rows[k].submissionId == t.id ensures Holds(w.rows[k], t) {
      assert Holds(w.rows[k], s);
    }
  }

  lemma OthersKeepInv(w: World, row: Record, p: Platform)
    requires Inv(w)
    ensures Inv(Next(w, OthersFile(row), p))
  {
    var w' := Next(w, OthersFile(row), p);
    if row.submissionId !in w.used {
      CopiesKept(w, row);
      forall i | 0 <= i < |w'.attempts| ensures AttemptOk(w'.attempts[i], w') {
        assert AttemptOk(w.attempts[i], w);
        AttemptKept(w.attempts[i], w, w');
      }
    }
  }

  lemma NextKeepsInv(w: World, step: Step, p: Platform)
    requires Inv(w)
    ensures Inv(Next(w, step, p))
  {
    match step
    case Submit(_, _, _, _) => SubmitKeepsInv(w, step, p);
    case Deliver(copy) =>
    case Serve(i, accepted, fault, receipt) =>
      if i < |w.attempts| { ServeKeepsInv(w, i, accepted, fault, receipt, p); }
    case Arrive(i, source) => ArriveKeepsInv(w, i, source, p);
    case SaveReceipt(i, fault) => if i < |w.attempts| && w.attempts[i].saving.Some? { SaveKeepsInv(w, i, fault, p); }
    case OthersFile(row) => OthersKeepInv(w, row, p);
  }

  lemma {:induction false} EveryRunKeepsInv(steps: seq<Step>, p: Platform)
    ensures Inv(Run(steps, p))
  {
    if steps != [] {
      EveryRunKeepsInv(Init(steps), p);
      NextKeepsInv(Run(Init(steps), p), Last(steps), p);
    }
  }

  // ---------------------------------------------------------------- main results

  /** The browser never overstates: in every run an answer it shows as arrived is in the project's inbox under
      its id, question and time, word for word, with that very receipt; and one it shows as local has none. */
  lemma NeverOverstates(steps: seq<Step>, p: Platform, id: string)
    requires id in Run(steps, p).stored
    ensures var w := Run(steps, p);
            if HasArrived(w.stored[id])
            then w.stored[id].receipt.Some? && Filed(w.rows, w.stored[id], w.stored[id].receipt.value)
            else w.stored[id].receipt.None?
  {
    EveryRunKeepsInv(steps, p);
    assert CopyOk(Run(steps, p).stored[id], Run(steps, p).rows);
  }

  /** This answer is what that submit handed over, to the letter. */
  predicate WrittenBy(s: TextSubmission, step: Step) {
    && step.Submit? && s.id == step.id && s.createdAt == step.now
    && s.questionId == step.input.questionId && s.originalText == step.input.originalText
    && (s.profileId.Some? ==> s.profileId == step.input.profileId && s.profileId.value != "")
    && (s.profileId.None? ==> step.input.profileId.None? || step.input.profileId.value == "")
  }

  /** Every copy there ever is was written by the one submit that used its id. */
  lemma {:induction false} EveryCopyWasWritten(steps: seq<Step>, p: Platform, s: TextSubmission) returns (k: nat)
    requires s in Run(steps, p).copies
    ensures k < |steps| && s.id !in Run(steps[..k], p).used && WrittenBy(s, steps[k])
  {
    var w := Run(Init(steps), p);
    if s in w.copies {
      k := EveryCopyWasWritten(Init(steps), p, s);
      assert Init(steps)[..k] == steps[..k];
    } else {
      EveryRunKeepsInv(Init(steps), p);
      var from := WhereFrom(w, Last(steps), p, s);
      if from.None? {
        k := |steps| - 1;
        assert steps[..k] == Init(steps);
      } else {
        k := EveryCopyWasWritten(Init(steps), p, from.value);
        assert Init(steps)[..k] == steps[..k];
      }
    }
  }

  /** A copy that is new was written by this step, or is an older one acknowledged. */
  lemma WhereFrom(w: World, step: Step, p: Platform, s: TextSubmission) returns (from: Option<TextSubmission>)
    requires Inv(w) && s !in w.copies && s in Next(w, step, p).copies
    ensures from.None? ==> s.id !in w.used && WrittenBy(s, step)
    ensures from.Some? ==> from.value in w.copies && SameAnswer(s, from.value)
  {
    if step.Submit? {
      from := None;
    } else {
      assert AttemptOk(w.attempts[step.attempt], w);
      from := Some(w.attempts[step.attempt].submission);
    }
  }

  /** A child's own words: in every run the stored answer, every attempt to deliver it and every row filed under its id
      carry the question, text and time of the one submit that used that id. */
  lemma WordsAreKept(steps: seq<Step>, p: Platform, id: string) returns (k: nat)
    requires id in Run(steps, p).stored
    ensures k < |steps| && steps[k].Submit? && steps[k].id == id && id !in Run(steps[..k], p).used
    ensures var w := Run(steps, p);
            && WrittenBy(w.stored[id], steps[k])
            && (forall i :: 0 <= i < |w.attempts| && w.attempts[i].submission.id == id ==>
                  WrittenBy(w.attempts[i].submission, steps[k]))
            && (forall i :: 0 <= i < |w.rows| && w.rows[i].submissionId == id ==>
                  && w.rows[i].questionId == steps[k].input.questionId && w.rows[i].createdAt == steps[k].now
                  && w.rows[i].payload == TextPayload(steps[k].input.originalText))
  {
    EveryRunKeepsInv(steps, p);
    var w := Run(steps, p);
    k := EveryCopyWasWritten(steps, p, w.stored[id]);
    forall i | 0 <= i < |w.attempts| && w.attempts[i].submission.id == id
      ensures WrittenBy(w.attempts[i].submission, steps[k]) {
      assert AttemptOk(w.attempts[i], w);
      assert SameAnswer(w.stored[id], w.attempts[i].submission);
    }
    forall i | 0 <= i < |w.rows| && w.rows[i].submissionId == id ensures Holds(w.rows[i], w.stored[id]) {
    }
  }

  lemma RunStep(steps: seq<Step>, step: Step, p: Platform)
    ensures Run(steps + [step], p) == Next(Run(steps, p), step, p)
  {
    assert Init(steps + [step]) == steps;
  }

  /** What a submit leaves in the browser: with a fresh id, no blank field and no fault the answer itself, not yet
      arrived, beside everything already there; with a blank field or a used id nothing changes. */
  lemma SubmitStores(steps: seq<Step>, p: Platform, step: Step)
    requires step.Submit? && step.fault.NoFault?
    ensures var w, w' := Run(steps, p), Run(steps + [step], p);
            if step.id in w.used || Blank(step.id) || Blank(step.input.questionId) || Blank(step.input.originalText)
            then w' == w
            else && step.id in w'.stored && WrittenBy(w'.stored[step.id], step) && !HasArrived(w'.stored[step.id])
                 && w'.stored == w.stored[step.id := w'.stored[step.id]] && w'.rows == w.rows
  {
    RunStep(steps, step, p);
  }

  /** One attempt that nothing disturbs. */
  function Undisturbed(copy: TextSubmission, i: nat, receipt: ServerReceipt): seq<Step> {
    [Deliver(copy), Serve(i, true, NoFault, receipt), Arrive(i, FromServer(0)), SaveReceipt(i, NoFault)]
  }

  /** The receipt a filed answer has: that of the row under its id, or the new one. */
  function ReceiptFor(rows: seq<Record>, id: string, minted: ServerReceipt): ServerReceipt {
    match FileInbox.Find(rows, id)
    case Some(row) => row.receipt
    case None => minted
  }

  /** Whatever was lost before, one undisturbed attempt brings a stored answer home exactly when the route accepts its
      fields and its receipt is readable: it shows as arrived, under the receipt of the row it had already or of the one
      row now added. */
  lemma UndisturbedArrivesExactlyWhen(steps: seq<Step>, p: Platform, id: string, receipt: ServerReceipt)
    requires id in Run(steps, p).stored && !HasArrived(Run(steps, p).stored[id])
    ensures var w := Run(steps, p);
            var w' := Run(steps + Undisturbed(w.stored[id], |w.attempts|, receipt), p);
            var given := ReceiptFor(w.rows, id, receipt);
            && id in w'.stored
            && (HasArrived(w'.stored[id]) <==>
                  Acceptable(w.stored[id], p) && !Blank(given.receiptId) && !Blank(given.receivedAt))
            && (HasArrived(w'.stored[id]) ==>
                  && w'.stored[id].receipt == Some(Tidied(given))
                  && (w'.rows == w.rows <==> FileInbox.Find(w.rows, id).Some?)
                  && (w'.rows != w.rows ==> |w'.rows| == |w.rows| + 1 && w.rows <= w'.rows
                                            && Holds(w'.rows[|w.rows|], w.stored[id])))
  {
    var w := Run(steps, p);
    var s, i := w.stored[id], |w.attempts|;
    var one := steps + [Deliver(s)];
    var two := one + [Serve(i, true, NoFault, receipt)];
    var three := two + [Arrive(i, FromServer(0))];
    EveryRunKeepsInv(steps, p);
    RunStep(steps, Deliver(s), p);
    RunStep(one, Serve(i, true, NoFault, receipt), p);
    RunStep(two, Arrive(i, FromServer(0)), p);
    RunStep(three, SaveReceipt(i, NoFault), p);
    assert steps + Undisturbed(s, i, receipt) == three + [SaveReceipt(i, NoFault)];
    ServedAnswers(Run(one, p), i, receipt, p);
    HeardAndSaved(Run(two, p), i, p);
    ReceiptRoundTrip(ReceiptFor(w.rows, id, receipt));
    ReceiptIsTidy(Run(two, p).attempts[i].answers[0]);
  }

  /** The fields the text route lets through. */
  predicate Acceptable(s: TextSubmission, p: Platform) {
    && Field200(s.id, p) && Field200(s.questionId, p) && Field200(s.createdAt, p) && |s.createdAt| <= 40
    && !Blank(s.originalText) && |s.originalText| <= 4000 && '\0' !in s.originalText && p.wellFormed(s.originalText)
    && p.year(s.createdAt).Some? && 1 <= p.year(s.createdAt).value <= 9999
  }

  predicate Field200(s: string, p: Platform) {
    !Blank(s) && |s| <= 200 && '\0' !in s && p.wellFormed(s)
  }

  lemma MintedExactlyWhen(s: TextSubmission, receipt: ServerReceipt, p: Platform)
    ensures MintText(Body(s), receipt, p).Some? <==> Acceptable(s, p)
  {
    var body := Body(s);
    assert Json.StringField(body, "submissionId") == Some(s.id);
    assert Json.StringField(body, "questionId") == Some(s.questionId);
    assert Json.StringField(body, "createdAt") == Some(s.createdAt);
    assert Json.StringField(body, "originalText") == Some(s.originalText);
  }

  /** The first answer to an attempt: the receipt its row has, or a refusal the client cannot mistake for one. */
  lemma ServedAnswers(w: World, i: nat, receipt: ServerReceipt, p: Platform)
    requires i < |w.attempts| && w.attempts[i].answers == []
    ensures var s := w.attempts[i].submission;
            var w' := Served(w, i, true, NoFault, receipt, p);
            var given := ReceiptFor(w.rows, s.id, receipt);
            && |w'.attempts| == |w.attempts| && |w'.attempts[i].answers| == 1
            && w'.attempts[i] == w.attempts[i].(answers := w'.attempts[i].answers) && w'.stored == w.stored
            && ReadAnswer(w'.attempts[i].answers[0])
                == (if !Acceptable(s, p) then NoReceipt(RefusedAnswer)
                    else if Blank(given.receiptId) || Blank(given.receivedAt) then NoReceipt(RefusedAnswer)
                    else GotReceipt(Tidied(given)))
            && (if Acceptable(s, p) && FileInbox.Find(w.rows, s.id).None?
                then |w'.rows| == |w.rows| + 1 && w.rows <= w'.rows && Holds(w'.rows[|w.rows|], s)
                else w'.rows == w.rows)
  {
    var s := w.attempts[i].submission;
    MintedExactlyWhen(s, receipt, p);
    MintedHolds(s, receipt, p);
    ReceiptRoundTrip(ReceiptFor(w.rows, s.id, receipt));
  }

  lemma HeardAndSaved(w: World, i: nat, p: Platform)
    requires i < |w.attempts| && !w.attempts[i].over && |w.attempts[i].answers| == 1
    requires w.attempts[i].saving.None?
    ensures var s, received := w.attempts[i].submission, ReadAnswer(w.attempts[i].answers[0]);
            var w' := Next(Next(w, Arrive(i, FromServer(0)), p), SaveReceipt(i, NoFault), p);
            && w'.rows == w.rows
            && (received.NoReceipt? ==> w'.stored == w.stored)
            && (received.GotReceipt? ==>
                  s.id in w'.stored && HasArrived(w'.stored[s.id])
                  && w'.stored[s.id].receipt == Some(Tidied(received.receipt)))
  {
    ReceiptIsTidy(w.attempts[i].answers[0]);
  }

  /** The server may fail an attempt in any run: its access guard may say no, and its store may fail before or after it
      wrote - the client then hears of an outage, whatever was stored. */
  lemma ServerMayFail(steps: seq<Step>, p: Platform, i: nat, fault: Fault, receipt: ServerReceipt)
    requires i < |Run(steps, p).attempts|
    ensures var w, denied := Run(steps, p), Run(steps + [Serve(i, false, fault, receipt)], p);
            |denied.attempts| == |w.attempts| && denied.rows == w.rows && Newest(denied, i) == NoReceipt(RefusedAnswer)
    ensures var w, failed := Run(steps, p), Run(steps + [Serve(i, true, fault, receipt)], p);
            var s := w.attempts[i].submission;
            |failed.attempts| == |w.attempts|
            && (!fault.NoFault? && Acceptable(s, p) ==>
                  && Newest(failed, i) == NoReceipt(TransportFault)
                  && (failed.rows == w.rows <==> fault.BeforeWrite? || FileInbox.Find(w.rows, s.id).Some?))
  {
    RunStep(steps, Serve(i, false, fault, receipt), p);
    RunStep(steps, Serve(i, true, fault, receipt), p);
    MintedExactlyWhen(Run(steps, p).attempts[i].submission, receipt, p);
    DeniedAnswer(Run(steps, p), i, fault, receipt, p);
    if !fault.NoFault? && Acceptable(Run(steps, p).attempts[i].submission, p) {
      FailedAnswer(Run(steps, p), i, fault, receipt, p);
    }
  }

  lemma DeniedAnswer(w: World, i: nat, fault: Fault, receipt: ServerReceipt, p: Platform)
    requires i < |w.attempts|
    ensures var denied := Served(w, i, false, fault, receipt, p);
            |denied.attempts| == |w.attempts| && denied.rows == w.rows && Newest(denied, i) == NoReceipt(RefusedAnswer)
  {
  }

  lemma FailedAnswer(w: World, i: nat, fault: Fault, receipt: ServerReceipt, p: Platform)
    requires i < |w.attempts| && !fault.NoFault? && MintText(Body(w.attempts[i].submission), receipt, p).Some?
    ensures var s, failed := w.attempts[i].submission, Served(w, i, true, fault, receipt, p);
            && |failed.attempts| == |w.attempts| && Newest(failed, i) == NoReceipt(TransportFault)
            && (failed.rows == w.rows <==> fault.BeforeWrite? || FileInbox.Find(w.rows, s.id).Some?)
  {
    MintedHolds(w.attempts[i].submission, receipt, p);
  }

  /** And so may everything else: an attempt may never hear anything, or nothing but an intermediary. */
  lemma AnswersMayBeLost(steps: seq<Step>, p: Platform, i: nat, answer: HttpAnswer)
    requires i < |Run(steps, p).attempts| && !Run(steps, p).attempts[i].over
    ensures var w, late := Run(steps, p), Run(steps + [Arrive(i, TimedOut)], p);
            && |late.attempts| == |w.attempts| && late.attempts[i] == w.attempts[i].(over := true, saving := None)
            && (ReadAnswer(answer).NoReceipt? ==> Run(steps + [Arrive(i, Intermediary(answer))], p) == late)
  {
    RunStep(steps, Arrive(i, TimedOut), p);
    RunStep(steps, Arrive(i, Intermediary(answer)), p);
  }

  /** The browser may fail to keep a receipt, and then shows what it showed before. */
  lemma ReceiptsMayBeLost(steps: seq<Step>, p: Platform, i: nat)
    ensures Run(steps + [SaveReceipt(i, BeforeWrite)], p).stored == Run(steps, p).stored
  {
    RunStep(steps, SaveReceipt(i, BeforeWrite), p);
  }

  lemma OthersMayFile(steps: seq<Step>, p: Platform, row: Record)
    requires row.submissionId !in Run(steps, p).used
    ensures Run(steps + [OthersFile(row)], p).rows == Run(steps, p).rows + [row]
  {
    RunStep(steps, OthersFile(row), p);
  }

  /** What the client makes of the server's latest answer to an attempt. */
  function Newest(w: World, i: nat): Received
    requires i < |w.attempts|
  {
    if w.attempts[i].answers == [] then NoReceipt(TransportFault) else ReadAnswer(Last(w.attempts[i].answers))
  }

  /** What the client makes of an answer that is no receipt: an outage may pass, a refusal will not. */
  lemma RefusedExactlyWhen(answer: HttpAnswer)
    ensures ReadAnswer(answer) == NoReceipt(RefusedAnswer)
            <==> answer.HttpAnswer? && answer.status < 500
                 && (200 <= answer.status < 300 ==> answer.body.Some? && ReadServerReceipt(answer.body.value).None?)
    ensures ReadAnswer(answer) != NoReceipt(LocalSave)
  {
  }

  /** And each answer is in the inbox at most once, whatever was retried. */
  lemma FiledOnce(steps: seq<Step>, p: Platform, j: nat, k: nat)
    requires j < k < |Run(steps, p).rows|
    ensures Run(steps, p).rows[j].submissionId != Run(steps, p).rows[k].submissionId
  {
    EveryRunKeepsInv(steps, p);
  }

  /** No step alters what a child wrote, takes a stored answer away, takes back its arrival, or changes its
      receipt once it has arrived. */
  lemma AnswersAreKept(steps: seq<Step>, step: Step, p: Platform, id: string)
    requires id in Run(steps, p).stored
    ensures var before, after := Run(steps, p).stored, Run(steps + [step], p).stored;
            && id in after && SameAnswer(before[id], after[id])
            && (HasArrived(before[id]) ==> HasArrived(after[id]) && after[id].receipt == before[id].receipt)
  {
    assert Init(steps + [step]) == steps;
    var w, w' := Run(steps, p), Run(steps + [step], p);
    EveryRunKeepsInv(steps, p);
    EveryRunKeepsInv(steps + [step], p);
    StepKeepsStored(w, step, p, id);
    assert SameAnswer(w.stored[id], w'.stored[id]);
    if HasArrived(w.stored[id]) {
      OneReceipt(w', w.stored[id], w'.stored[id]);
    }
  }

  predicate KeepsStored(w: World, w': World, id: string)
    requires id in w.stored
  {
    && id in w'.stored && w.stored[id] in w'.copies && w'.stored[id] in w'.copies
    && (HasArrived(w.stored[id]) ==> HasArrived(w'.stored[id]))
  }

  lemma StepKeepsStored(w: World, step: Step, p: Platform, id: string)
    requires CopiesOk(w) && id in w.stored && CopiesOk(Next(w, step, p))
    ensures KeepsStored(w, Next(w, step, p), id)
  {
    match step
    case Submit(_, _, _, _) => SubmitKeepsStored(w, step, p, id);
    case SaveReceipt(_, _) =>
    case Serve(i, accepted, fault, receipt) =>
      if i < |w.attempts| { ServeKeepsStored(w, i, accepted, fault, receipt, p); }
    case _ =>
  }

  lemma SubmitKeepsStored(w: World, step: Step, p: Platform, id: string)
    requires CopiesOk(w) && id in w.stored && step.Submit?
    ensures KeepsStored(w, Next(w, step, p), id)
  {
    assert w.stored[id].id in w.used;
  }

  lemma ServeKeepsStored(w: World, i: nat, accepted: bool, fault: Fault, receipt: ServerReceipt, p: Platform)
    requires i < |w.attempts|
    ensures var w' := Served(w, i, accepted, fault, receipt, p); w'.stored == w.stored && w'.copies == w.copies
  {
  }

  /** Two arrived copies of one answer carry one receipt. */
  lemma OneReceipt(w: World, s: TextSubmission, t: TextSubmission)
    requires Inv(w) && s in w.copies && t in w.copies && s.id == t.id && HasArrived(s) && HasArrived(t)
    ensures s.receipt == t.receipt
  {
    assert CopyOk(s, w.rows) && CopyOk(t, w.rows);
    var j :| 0 <= j < |w.rows| && Holds(w.rows[j], s) && Tidied(w.rows[j].receipt) == s.receipt.value;
    var k :| 0 <= k < |w.rows| && Holds(w.rows[k], t) && Tidied(w.rows[k].receipt) == t.receipt.value;
    assert j == k by { assert w.rows[j].submissionId == w.rows[k].submissionId; }
  }
}
