// The durable inbox: src/adapters/persistence/postgres-submission-inbox-store.ts over the table of
// db/migrations/0001_submission_inbox.sql and 0002_submission_audio.sql. Calls come from any number of
// processes; each statement is one step, and the connection may fail before or after it took effect.
module PostgresInbox {
  import opened Common
  import opened Http
  import opened InboxRecord
  import opened Utf8
  import F = FileInbox
  import Json
  import Audio = AudioArtifact

  /** A row as the table holds it; a NULL is None. Sizes are bigint, read back as text. */
  datatype Row = Row(
    submissionId: string, kind: string, questionId: string, createdAt: string, receivedAt: string, receiptId: string,
    originalText: Option<string>, objectKey: Option<string>, mimeType: Option<string>, extension: Option<string>,
    sizeBytes: Option<int>, sha256: Option<string>)

  /** How an instant is spelled once it has been through toISOString, and what Number makes of other strings. */
  datatype Spelling = Spelling(iso: string -> string, other: string -> Option<int>)

  ghost predicate SpellingOk(sp: Spelling, p: Platform) {
    forall s :: StorableInstant(s, p) ==> StorableInstant(sp.iso(s), p) && sp.iso(sp.iso(s)) == sp.iso(s)
  }

  // ---------------------------------------------------------------- rows

  function ToRow(r: Record, sp: Spelling): Row {
    var base := Row(r.submissionId, KindName(r.payload), r.questionId, sp.iso(r.createdAt),
      sp.iso(r.receipt.receivedAt),
                    r.receipt.receiptId, None, None, None, None, None, None);
    match r.payload
    case TextPayload(text) => base.(originalText := Some(text))
    case AudioPayload(a) =>
      base.(objectKey := Some(a.objectKey), mimeType := Some(Audio.MimeName(a.mimeType)),
        extension := Some(a.extension),
            sizeBytes := Some(a.sizeBytes), sha256 := Some(a.sha256))
  }

  function AudioFrom(row: Row, sp: Spelling): Option<Audio.Artifact> {
    if row.objectKey.None? || row.mimeType.None? || row.extension.None? || row.sizeBytes.None? || row.sha256.None?
    then None
    else if Audio.MimeFromName(row.mimeType.value).None? || row.sizeBytes.value < 0 then None
    else
      var size := IntegerOf(Digits(row.sizeBytes.value), sp.other);
      if size.None? || size.value <= 0 then None
      else Some(Audio.Artifact(row.objectKey.value, Audio.MimeFromName(row.mimeType.value).value, row.extension.value,
        size.value, row.sha256.value))
  }

  /** A row as a record; None stands for the thrown error. */
  function ToRecord(row: Row, sp: Spelling): Option<Record> {
    var receipt := ServerReceipt(row.receiptId, row.receivedAt);
    if row.kind == "text" && row.originalText.Some? then
      Some(Record(row.submissionId, row.questionId, row.createdAt, receipt, TextPayload(row.originalText.value)))
    else if row.kind == "audio" && AudioFrom(row, sp).Some? then
      Some(Record(row.submissionId, row.questionId, row.createdAt, receipt, AudioPayload(AudioFrom(row, sp).value)))
    else None
  }

  /** The same record with its instants respelled. */
  function Respelled(r: Record, sp: Spelling): Record {
    r.(createdAt := sp.iso(r.createdAt), receipt := ServerReceipt(r.receipt.receiptId, sp.iso(r.receipt.receivedAt)))
  }

  /** Nothing of a record is lost in the table but the spelling of its instants. */
  lemma RowRoundTrip(r: Record, sp: Spelling, p: Platform)
    requires RecordOk(r, p)
    ensures ToRecord(ToRow(r, sp), sp) == Some(Respelled(r, sp))
  {
    if r.payload.AudioPayload? {
      Audio.NamesAreExact(r.payload.audio.mimeType);
      DigitsRoundTrip(r.payload.audio.sizeBytes);
    }
  }

  /** The table's CHECK constraints. */
  predicate ChecksPass(row: Row) {
    && |row.submissionId| <= 200 && |row.questionId| <= 200 && |row.receiptId| <= 200
    && (row.originalText.Some? ==> |row.originalText.value| <= 4000)
    && KindShape(row)
    && (row.mimeType.Some? ==>
          row.mimeType.value in {"audio/webm", "audio/ogg", "audio/mp4", "audio/mpeg", "audio/wav"})
    && (row.extension.Some? ==> row.extension.value in {"webm", "ogg", "m4a", "mp3", "wav"})
    && (row.sha256.Some? ==> Audio.IsSha256Hex(row.sha256.value))
    && (row.sizeBytes.Some? ==> 0 < row.sizeBytes.value <= 8388608)
    && (row.objectKey.Some? ==> |row.objectKey.value| <= 200)
  }

  predicate KindShape(row: Row) {
    || (row.kind == "text" && row.originalText.Some? && row.objectKey.None? && row.mimeType.None? && row.extension.None?
        && row.sizeBytes.None? && row.sha256.None?)
    || (row.kind == "audio" && row.originalText.None? && row.objectKey.Some? && row.mimeType.Some?
      && row.extension.Some?
        && row.sizeBytes.Some? && row.sha256.Some?)
  }

  /** What either route mints passes every constraint, so the table never calls a guarded payload a fault. */
  lemma MintedPassesChecks(
      body: Json.Json, d: Draft, sha256: string, receipt: ServerReceipt, maxBytes: nat, sp: Spelling, p: Platform)
    requires |receipt.receiptId| <= 200
    ensures MintText(body, receipt, p).Some? ==> ChecksPass(ToRow(MintText(body, receipt, p).value, sp))
    ensures MintAudio(d, sha256, receipt, maxBytes, p).Some? ==>
        ChecksPass(ToRow(MintAudio(d, sha256, receipt, maxBytes, p).value, sp))
  {
    if MintAudio(d, sha256, receipt, maxBytes, p).Some? {
      Audio.NamesAreExact(d.mimeType);
      var row := ToRow(MintAudio(d, sha256, receipt, maxBytes, p).value, sp);
      assert row.extension == Some(Audio.Extension(d.mimeType));
    }
  }

  // ---------------------------------------------------------------- concurrent calls

  datatype Stage = Begun | Lost | Ended(result: F.Ended)

  datatype Call = Call(record: Record, stage: Stage)

  datatype World = World(table: map<string, Row>, calls: seq<Call>)

  datatype Fault = NoFault | BeforeWrite | AfterWrite

  datatype Step = Begin(record: Record) | Insert(call: nat, fault: Fault) | Select(call: nat, fails: bool)

  /** A record the routes' guards let through, under a receipt this server made. */
  predicate Guarded(r: Record, sp: Spelling, p: Platform) {
    RecordOk(r, p) && sp.iso(r.receipt.receivedAt) == r.receipt.receivedAt
  }

  function SetStage(w: World, i: nat, stage: Stage): World
    requires i < |w.calls|
  {
    w.(calls := w.calls[i := w.calls[i].(stage := stage)])
  }

  predicate ReceiptTaken(table: map<string, Row>, receiptId: string) {
    exists id :: id in table && table[id].receiptId == receiptId
  }

  /** INSERT ... ON CONFLICT (submission_id) DO NOTHING: the constraints are checked first, the conflict is
      resolved by the primary key, and a receipt already in use is an error that is not the payload's. */
  function Inserted(w: World, i: nat, fault: Fault, sp: Spelling): World
    requires i < |w.calls|
  {
    var row := ToRow(w.calls[i].record, sp);
    if !ChecksPass(row) then SetStage(w, i, Ended(F.PayloadRefused))
    else if row.submissionId in w.table then SetStage(w, i, if fault.NoFault? then Lost else Ended(F.Failed))
    else if ReceiptTaken(w.table, row.receiptId) then SetStage(w, i, Ended(F.Failed))
    else
      SetStage(w, i, Ended(if fault.NoFault? then F.Resolved(F.Kept) else F.Failed))
        .(table := if fault.BeforeWrite? then w.table else w.table[row.submissionId := row])
  }

  /** The second statement, for a call whose insert found the id taken. */
  function Selected(w: World, i: nat, fails: bool, sp: Spelling): World
    requires i < |w.calls|
  {
    var id := w.calls[i].record.submissionId;
    SetStage(w, i, Ended(
      if fails || id !in w.table || ToRecord(w.table[id], sp).None? then F.Failed
      else F.Resolved(F.AlreadyHeld(ToRecord(w.table[id], sp).value))))
  }

  function Next(w: World, step: Step, sp: Spelling, p: Platform): World {
    match step
    case Begin(record) => if Guarded(record, sp, p) then w.(calls := w.calls + [Call(record, Begun)]) else w
    case Insert(i, fault) => if i < |w.calls| && w.calls[i].stage.Begun? then Inserted(w, i, fault, sp) else w
    case Select(i, fails) => if i < |w.calls| && w.calls[i].stage.Lost? then Selected(w, i, fails, sp) else w
  }

  /** A run over a table that started with rows of guarded records. */
  function Run(start: map<string, Row>, steps: seq<Step>, sp: Spelling, p: Platform): World {
    if steps == [] then World(start, []) else Next(Run(start, Init(steps), sp, p), Last(steps), sp, p)
  }

  ghost predicate RowOk(row: Row, id: string, sp: Spelling, p: Platform) {
    row.submissionId == id && exists r :: Guarded(r, sp, p) && row == ToRow(r, sp)
  }

  ghost predicate TableOk(table: map<string, Row>, sp: Spelling, p: Platform) {
    && (forall id :: id in table ==> RowOk(table[id], id, sp, p))
    && (forall id, id' :: id in table && id' in table && table[id].receiptId == table[id'].receiptId ==> id == id')
  }

  /** A resolved call speaks for the row the table holds. */
  predicate CallOk(call: Call, table: map<string, Row>, sp: Spelling, p: Platform) {
    var id := call.record.submissionId;
    && Guarded(call.record, sp, p)
    && (call.stage.Lost? ==> id in table)
    && match call.stage
       case Ended(Resolved(Kept)) => id in table && table[id] == ToRow(call.record, sp)
       case Ended(Resolved(AlreadyHeld(existing))) => id in table && ToRecord(table[id], sp) == Some(existing)
       case _ => true
  }

  ghost predicate Inv(w: World, sp: Spelling, p: Platform) {
    TableOk(w.table, sp, p) && forall i :: 0 <= i < |w.calls| ==> CallOk(w.calls[i], w.table, sp, p)
  }

  lemma InsertKeepsInv(w: World, i: nat, fault: Fault, sp: Spelling, p: Platform)
    requires Inv(w, sp, p) && i < |w.calls| && w.calls[i].stage.Begun?
    ensures Inv(Inserted(w, i, fault, sp), sp, p)
  {
    var row := ToRow(w.calls[i].record, sp);
    assert CallOk(w.calls[i], w.table, sp, p);
    assert RowOk(row, row.submissionId, sp, p);
    InsertKeepsTable(w, row, i, fault, sp, p);
    InsertKeepsCalls(w, i, fault, sp, p);
  }

  lemma InsertKeepsCalls(w: World, i: nat, fault: Fault, sp: Spelling, p: Platform)
    requires i < |w.calls| && w.calls[i].stage.Begun?
    requires forall j :: 0 <= j < |w.calls| ==> CallOk(w.calls[j], w.table, sp, p)
    ensures var w' := Inserted(w, i, fault, sp);
            forall j :: 0 <= j < |w'.calls| ==> CallOk(w'.calls[j], w'.table, sp, p)
  {
    var w' := Inserted(w, i, fault, sp);
    var row := ToRow(w.calls[i].record, sp);
    assert CallOk(w.calls[i], w.table, sp, p);
    assert w'.table == w.table || (row.submissionId !in w.table && w'.table == w.table[row.submissionId := row]);
    InsertedCallOk(w, i, fault, sp, p);
    forall j | 0 <= j < |w'.calls| ensures CallOk(w'.calls[j], w'.table, sp, p) {
      assert CallOk(w.calls[j], w.table, sp, p);
      if j != i {
        OtherCallOk(w.calls[j], w.table, w'.table, row, sp, p);
      }
    }
  }

  lemma InsertedCallOk(w: World, i: nat, fault: Fault, sp: Spelling, p: Platform)
    requires i < |w.calls| && Guarded(w.calls[i].record, sp, p)
    ensures var w' := Inserted(w, i, fault, sp); CallOk(w'.calls[i], w'.table, sp, p)
  {
  }

  lemma OtherCallOk(call: Call, table: map<string, Row>, table': map<string, Row>, row: Row, sp: Spelling, p: Platform)
    requires CallOk(call, table, sp, p)
    requires table' == table || (row.submissionId !in table && table' == table[row.submissionId := row])
    ensures CallOk(call, table', sp, p)
  {
  }

  lemma InsertKeepsTable(w: World, row: Row, i: nat, fault: Fault, sp: Spelling, p: Platform)
    requires TableOk(w.table, sp, p) && i < |w.calls| && row == ToRow(w.calls[i].record, sp)
        && RowOk(row, row.submissionId, sp, p)
    ensures TableOk(Inserted(w, i, fault, sp).table, sp, p)
  {
    var table' := Inserted(w, i, fault, sp).table;
    if table' != w.table {
      assert row.submissionId !in w.table && table' == w.table[row.submissionId := row]
        && !ReceiptTaken(w.table, row.receiptId);
      RowAddedIsOk(w.table, row, sp, p);
    }
  }

  lemma RowAddedIsOk(table: map<string, Row>, row: Row, sp: Spelling, p: Platform)
    requires TableOk(table, sp, p) && RowOk(row, row.submissionId, sp, p)
    requires row.submissionId !in table && !ReceiptTaken(table, row.receiptId)
    ensures TableOk(table[row.submissionId := row], sp, p)
  {
    var table' := table[row.submissionId := row];
    forall id | id in table' ensures RowOk(table'[id], id, sp, p) {
      if id != row.submissionId {
        assert RowOk(table[id], id, sp, p);
      }
    }
    forall id, id' | id in table' && id' in table' && table'[id].receiptId == table'[id'].receiptId ensures id == id' {
    }
  }

  lemma {:induction false} EveryRunKeepsInv(start: map<string, Row>, steps: seq<Step>, sp: Spelling, p: Platform)
    requires TableOk(start, sp, p)
    ensures Inv(Run(start, steps, sp, p), sp, p)
  {
    if steps != [] {
      EveryRunKeepsInv(start, Init(steps), sp, p);
      var w := Run(start, Init(steps), sp, p);
      match Last(steps)
      case Begin(record) =>
      case Insert(i, fault) =>
        if i < |w.calls| && w.calls[i].stage.Begun? { InsertKeepsInv(w, i, fault, sp, p); }
      case Select(i, fails) =>
        if i < |w.calls| && w.calls[i].stage.Lost? { SelectKeepsCalls(w, i, fails, sp, p); }
    }
  }

  lemma SelectKeepsCalls(w: World, i: nat, fails: bool, sp: Spelling, p: Platform)
    requires i < |w.calls| && w.calls[i].stage.Lost?
    requires forall j :: 0 <= j < |w.calls| ==> CallOk(w.calls[j], w.table, sp, p)
    ensures var w' := Selected(w, i, fails, sp);
            w'.table == w.table && forall j :: 0 <= j < |w'.calls| ==> CallOk(w'.calls[j], w'.table, sp, p)
  {
    var w' := Selected(w, i, fails, sp);
    forall j | 0 <= j < |w'.calls| ensures CallOk(w'.calls[j], w'.table, sp, p) {
      assert CallOk(w.calls[j], w.table, sp, p);
    }
  }

  // ---------------------------------------------------------------- main results

  /** First writer wins across every process: a resolved call speaks for the row under its id - its own when it
      stored it, the stored one when it did not - and for that row's receipt. */
  lemma FirstWriterWins(start: map<string, Row>, steps: seq<Step>, i: nat, sp: Spelling, p: Platform)
    requires TableOk(start, sp, p)
    requires i < |Run(start, steps, sp, p).calls|
    requires var stage := Run(start, steps, sp, p).calls[i].stage; stage.Ended? && stage.result.Resolved?
    ensures var w := Run(start, steps, sp, p);
            var call := w.calls[i];
            var spokenFor := F.SpokenFor(call.record, call.stage.result.outcome);
            && call.record.submissionId in w.table && spokenFor.submissionId == call.record.submissionId
            && ToRecord(w.table[call.record.submissionId], sp)
               == Some(if call.stage.result.outcome.Kept? then Respelled(spokenFor, sp) else spokenFor)
            && F.ReceiptOf(call.record, call.stage.result.outcome)
               == ServerReceipt(w.table[call.record.submissionId].receiptId,
                 w.table[call.record.submissionId].receivedAt)
  {
    EveryRunKeepsInv(start, steps, sp, p);
    var w := Run(start, steps, sp, p);
    var call := w.calls[i];
    assert CallOk(call, w.table, sp, p);
    RowRoundTrip(call.record, sp, p);
    assert RowOk(w.table[call.record.submissionId], call.record.submissionId, sp, p);
  }

  /** The record a call was handed, when it lost. */
  function HandedOver(call: Call): Option<Record> {
    match call.stage
    case Ended(Resolved(AlreadyHeld(existing))) => Some(existing)
    case _ => None
  }

  /** What a losing call is handed is a record the file store would accept as its own: falling back to the file
      never meets a row it could not have kept. */
  lemma HeldRecordsAreSound(start: map<string, Row>, steps: seq<Step>, i: nat, sp: Spelling, p: Platform)
    requires TableOk(start, sp, p)
    requires i < |Run(start, steps, sp, p).calls| && HandedOver(Run(start, steps, sp, p).calls[i]).Some?
    ensures var existing := HandedOver(Run(start, steps, sp, p).calls[i]).value;
            SpellingOk(sp, p) ==> RecordOk(existing, p) && Respelled(existing, sp) == existing
  {
    EveryRunKeepsInv(start, steps, sp, p);
    var w := Run(start, steps, sp, p);
    var id := w.calls[i].record.submissionId;
    assert CallOk(w.calls[i], w.table, sp, p) && RowOk(w.table[id], id, sp, p);
    var r :| Guarded(r, sp, p) && w.table[id] == ToRow(r, sp);
    RowRoundTrip(r, sp, p);
  }

  /** Rows are never changed or taken away. */
  lemma TableOnlyGrows(w: World, step: Step, sp: Spelling, p: Platform, id: string)
    requires id in w.table
    ensures var w' := Next(w, step, sp, p); id in w'.table && w'.table[id] == w.table[id]
  {
  }

  /** "Neither inserted nor found" never happens: a call that lost the conflict always finds a row it can read. */
  lemma TheWinnerIsFound(start: map<string, Row>, steps: seq<Step>, i: nat, sp: Spelling, p: Platform)
    requires TableOk(start, sp, p)
    requires i < |Run(start, steps, sp, p).calls| && Run(start, steps, sp, p).calls[i].stage.Lost?
    ensures var w := Run(start, steps, sp, p); Next(w, Select(i, false), sp, p).calls[i].stage.result.Resolved?
  {
    EveryRunKeepsInv(start, steps, sp, p);
    var w := Run(start, steps, sp, p);
    var id := w.calls[i].record.submissionId;
    assert CallOk(w.calls[i], w.table, sp, p) && RowOk(w.table[id], id, sp, p);
    var r :| Guarded(r, sp, p) && w.table[id] == ToRow(r, sp);
    RowRoundTrip(r, sp, p);
  }

  /** One call with nothing in between. */
  function Alone(record: Record, i: nat): seq<Step> {
    [Begin(record), Insert(i, NoFault), Select(i, false)]
  }

  /** What a call comes to when nothing interferes, after any run: a record the constraints refuse is the payload's
      fault; under a new id it is stored and kept; under one that is taken the caller is handed the stored record; and a
      receipt id already in use is a failure that is not the payload's. */
  lemma AloneDecides(start: map<string, Row>, steps: seq<Step>, record: Record, sp: Spelling, p: Platform)
    requires TableOk(start, sp, p) && Guarded(record, sp, p)
    ensures var w := Run(start, steps, sp, p);
            var w' := Run(start, steps + Alone(record, |w.calls|), sp, p);
            var row, id := ToRow(record, sp), record.submissionId;
            && |w'.calls| == |w.calls| + 1
            && w'.calls[|w.calls|].stage == Ended(
                 if !ChecksPass(row) then F.PayloadRefused
                 else if id in w.table && ToRecord(w.table[id], sp).Some?
                   then F.Resolved(F.AlreadyHeld(ToRecord(w.table[id], sp).value))
                 else if ReceiptTaken(w.table, row.receiptId) then F.Failed
                 else F.Resolved(F.Kept))
            && (id in w.table ==> ToRecord(w.table[id], sp).Some?)
            && w'.table == (if ChecksPass(row) && id !in w.table && !ReceiptTaken(w.table, row.receiptId)
                            then w.table[id := row] else w.table)
  {
    var w := Run(start, steps, sp, p);
    var n := |w.calls|;
    EveryRunKeepsInv(start, steps, sp, p);
    if record.submissionId in w.table { HeldRowReads(w.table, record.submissionId, sp, p); }
    var one, two := steps + [Begin(record)], steps + [Begin(record), Insert(n, NoFault)];
    assert Init(one) == steps && Init(two) == one && Init(steps + Alone(record, n)) == two;
    var begun := w.(calls := w.calls + [Call(record, Begun)]);
    assert Run(start, one, sp, p) == begun && begun.calls[n] == Call(record, Begun);
    InsertedAlone(begun, n, sp, p);
    var inserted := Run(start, two, sp, p);
    assert inserted == Next(begun, Insert(n, NoFault), sp, p);
    assert Run(start, steps + Alone(record, n), sp, p) == Next(inserted, Select(n, false), sp, p);
  }

  lemma HeldRowReads(table: map<string, Row>, id: string, sp: Spelling, p: Platform)
    requires TableOk(table, sp, p) && id in table
    ensures ToRecord(table[id], sp).Some?
  {
    assert RowOk(table[id], id, sp, p);
    var r :| Guarded(r, sp, p) && table[id] == ToRow(r, sp);
    RowRoundTrip(r, sp, p);
  }

  lemma InsertedAlone(w: World, n: nat, sp: Spelling, p: Platform)
    requires n < |w.calls| && w.calls[n].stage.Begun?
    requires w.calls[n].record.submissionId in w.table ==>
               ToRecord(w.table[w.calls[n].record.submissionId], sp).Some?
    ensures var record := w.calls[n].record;
            var row, id := ToRow(record, sp), record.submissionId;
            var w' := Next(Next(w, Insert(n, NoFault), sp, p), Select(n, false), sp, p);
            && |w'.calls| == |w.calls|
            && w'.calls[n].stage == Ended(
                 if !ChecksPass(row) then F.PayloadRefused
                 else if id in w.table then F.Resolved(F.AlreadyHeld(ToRecord(w.table[id], sp).value))
                 else if ReceiptTaken(w.table, row.receiptId) then F.Failed
                 else F.Resolved(F.Kept))
            && w'.table == (if ChecksPass(row) && id !in w.table && !ReceiptTaken(w.table, row.receiptId)
                            then w.table[id := row] else w.table)
  {
    assert ToRow(w.calls[n].record, sp).submissionId == w.calls[n].record.submissionId;
  }

  /** A connection that fails gives no answer, and the row is there unless it failed first. */
  lemma FailedInsertDecides(start: map<string, Row>, steps: seq<Step>, i: nat, fault: Fault, sp: Spelling, p: Platform)
    requires i < |Run(start, steps, sp, p).calls| && Run(start, steps, sp, p).calls[i].stage.Begun?
    requires !fault.NoFault? && ChecksPass(ToRow(Run(start, steps, sp, p).calls[i].record, sp))
    ensures var w, w' := Run(start, steps, sp, p), Run(start, steps + [Insert(i, fault)], sp, p);
            var row := ToRow(w.calls[i].record, sp);
            && w'.calls[i].stage == Ended(F.Failed)
            && w'.table == (if row.submissionId in w.table || ReceiptTaken(w.table, row.receiptId)
                               || fault.BeforeWrite? then w.table else w.table[row.submissionId := row])
  {
    assert Init(steps + [Insert(i, fault)]) == steps;
  }

  /** The two stores make the same decision for the same record: with the same ids held, a first delivery is kept
      by both and a later one finds the earlier by both. */
  lemma StoresDecideAlike(w: World, i: nat, lines: seq<Json.Line>, sp: Spelling, p: Platform)
    requires i < |w.calls| && ChecksPass(ToRow(w.calls[i].record, sp))
        && !ReceiptTaken(w.table, w.calls[i].record.receipt.receiptId)
    requires forall id :: id in w.table <==> F.Find(F.ReadAll(lines, p), id).Some?
    ensures !F.TooBig(w.calls[i].record)
    ensures Inserted(w, i, NoFault, sp).calls[i].stage == Ended(F.Resolved(F.Kept))
            <==> F.Decide(w.calls[i].record, lines, p).Append?
    ensures Inserted(w, i, NoFault, sp).calls[i].stage == Lost <==> F.Decide(w.calls[i].record, lines, p).Answer?
  {
  }
}
