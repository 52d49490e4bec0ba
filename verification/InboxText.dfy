// The inbox file as text, over whole runs: what src/adapters/persistence/file-submission-inbox-store.ts keeps
// when its file may end in the middle of a line and its writes may break off anywhere.
module InboxText {
  import opened Common
  import opened Json
  import opened Http
  import opened InboxRecord
  import opened JsonLines
  import opened Text
  import F = FileInbox
  import Q = WriteQueue

  type Files = map<string, string>

  type Steps = seq<Q.Step<Record>>

  type Inbox = Q.Queues<Record, char, F.Outcome>

  /** What is asked of JSON: white space is nothing, and every record prints. */
  ghost predicate CodecOk(c: Codec) {
    BlankIsNothing(c) && forall r: Record :: Prints(c, RecordJson(r))
  }

  function Decider(c: Codec, p: Platform): Q.Decide<Record, char, F.Outcome> {
    OnTexts(F.Decider(p), c)
  }

  function Run(files: Files, steps: Steps, c: Codec, p: Platform): Inbox {
    Q.Run(files, steps, Decider(c, p))
  }

  function Reads(text: string, c: Codec, p: Platform): seq<Record> {
    F.ReadAll(LinesOf(text, c), p)
  }

  /** The records in the complete lines, and the one in what follows them, if it is one. */
  function Kept(text: string, c: Codec, p: Platform): seq<Record> {
    F.ReadAll(CompleteLines(text, c), p)
  }

  function TailRecord(text: string, c: Codec, p: Platform): Option<Record> {
    F.ReadLine(Classify(Tail(text), c), p)
  }

  function Written(r: Record, c: Codec): string {
    LineFor(RecordJson(r), c)
  }

  // ---------------------------------------------------------------- one append

  lemma ReadsOneMore(lines: seq<Line>, line: Line, p: Platform)
    ensures F.ReadAll(lines + [line], p)
            == F.ReadAll(lines, p) + if F.ReadLine(line, p).Some? then [F.ReadLine(line, p).value] else []
  {
    assert Init(lines + [line]) == lines;
  }

  lemma ReadsAre(text: string, c: Codec, p: Platform)
    ensures Reads(text, c, p)
            == Kept(text, c, p) + if TailRecord(text, c, p).Some? then [TailRecord(text, c, p).value] else []
  {
    LinesAre(text, c);
    ReadsOneMore(CompleteLines(text, c), Classify(Tail(text), c), p);
  }

  /** Only white space left over: no record there. */
  lemma BlankTail(text: string, c: Codec, p: Platform)
    requires BlankIsNothing(c) && JsonBlank(Tail(text))
    ensures TailRecord(text, c, p) == None && Reads(text, c, p) == Kept(text, c, p)
  {
    ReadsAre(text, c, p);
  }

  /** What is read after an append, whatever the file ended in. */
  lemma AppendReads(text: string, r: Record, c: Codec, p: Platform)
    requires CodecOk(c) && RecordOk(r, p)
    ensures var after := text + Written(r, c);
            && Terminated(after)
            && Reads(after, c, p) == Kept(text, c, p) + if JsonBlank(Tail(text)) then [r] else []
  {
    var json, after := RecordJson(r), text + Written(r, c);
    assert Prints(c, json);
    AppendLines(text, json, c);
    NewLineIs(text, json, c);
    BlankTail(after, c, p);
    ReadsOneMore(CompleteLines(text, c), Classify(Tail(text) + c.stringify(json), c), p);
    RecordRoundTrip(r, p);
  }

  /** An append is read back, behind everything that was readable before, exactly when nothing but white space
      follows the file's last line break. */
  lemma AppendReadsBackExactlyWhen(text: string, r: Record, c: Codec, p: Platform)
    requires CodecOk(c) && RecordOk(r, p)
    ensures Reads(text + Written(r, c), c, p) == Reads(text, c, p) + [r] <==> JsonBlank(Tail(text))
  {
    AppendReads(text, r, c, p);
    ReadsAre(text, c, p);
    if JsonBlank(Tail(text)) {
      BlankTail(text, c, p);
    } else {
      assert |Reads(text + Written(r, c), c, p)| < |Reads(text, c, p) + [r]|;
    }
  }

  /** Anything else swallows the record, whose caller still gets a receipt - and takes a record with it that was
      readable there, when the file ended in a whole document without its line break. */
  lemma TornLineSwallows(text: string, r: Record, c: Codec, p: Platform)
    requires CodecOk(c) && RecordOk(r, p) && !JsonBlank(Tail(text))
    ensures Reads(text + Written(r, c), c, p) == Kept(text, c, p)
    ensures TailRecord(text, c, p).Some? ==>
              Reads(text, c, p) == Reads(text + Written(r, c), c, p) + [TailRecord(text, c, p).value]
  {
    AppendReads(text, r, c, p);
    ReadsAre(text, c, p);
  }

  /** The decision about a text is made from what is read in it. */
  lemma Turn(text: string, r: Record, c: Codec, p: Platform)
    ensures var found := F.Find(Reads(text, c, p), r.submissionId);
            Decider(c, p)(r, text)
            == if found.Some? then Q.Answer(F.AlreadyHeld(found.value)) else Q.Append(Written(r, c), F.Kept)
  {
    OnTextsIs(F.Decider(p), r, text, c);
    PrintOne(RecordJson(r), c);
    assert F.Decider(p)(r, LinesOf(text, c)) == F.Decide(r, LinesOf(text, c), p);
  }

  // ---------------------------------------------------------------- the three promises

  /** Requests are sound records, and writes break off only where that may happen. */
  predicate StepsOk(steps: Steps, breaks: bool, p: Platform) {
    && (forall k :: 0 <= k < |steps| && steps[k].Submit? ==> RecordOk(steps[k].request, p))
    && (breaks || WholeWrites(steps))
  }

  function Holding(q: Inbox, key: string, c: Codec, p: Platform): seq<Record> {
    Reads(Q.FileOf(q, key), c, p)
  }

  predicate Resolved(t: Q.Task<Record, char, F.Outcome>) {
    t.progress.Settled? && t.progress.result.Some?
  }

  /** A resolved call speaks for the first record under its id that the file shows now. */
  predicate Speaks(t: Q.Task<Record, char, F.Outcome>, q: Inbox, c: Codec, p: Platform) {
    Resolved(t) ==>
      F.Find(Holding(q, t.key, c, p), t.request.submissionId) == Some(F.SpokenFor(t.request, t.progress.result.value))
  }

  predicate FirstWriterWins(q: Inbox, c: Codec, p: Platform) {
    forall i :: 0 <= i < |q.tasks| ==> Speaks(q.tasks[i], q, c, p)
  }

  /** All resolved calls for one submission agree on the receipt. */
  predicate OneReceipt(q: Inbox) {
    forall i, j :: 0 <= i < j < |q.tasks| && SameSubmission(q.tasks[i], q.tasks[j]) ==>
      ReceiptOf(q.tasks[i]) == ReceiptOf(q.tasks[j])
  }

  predicate SameSubmission(t: Q.Task<Record, char, F.Outcome>, u: Q.Task<Record, char, F.Outcome>) {
    Resolved(t) && Resolved(u) && t.key == u.key && t.request.submissionId == u.request.submissionId
  }

  function ReceiptOf(t: Q.Task<Record, char, F.Outcome>): Option<ServerReceipt> {
    if Resolved(t) then Some(F.ReceiptOf(t.request, t.progress.result.value)) else None
  }

  /** What was readable stays, in order, and what is added has new ids, each once. */
  predicate Extends(before: seq<Record>, after: seq<Record>) {
    before <= after && F.New(after[|before|..], before)
  }

  // ---------------------------------------------------------------- one step

  predicate RequestsOk(q: Inbox, p: Platform) {
    forall i :: 0 <= i < |q.tasks| ==> RecordOk(q.tasks[i].request, p)
  }

  lemma StepsShorter(steps: Steps, breaks: bool, p: Platform)
    requires StepsOk(steps, breaks, p) && steps != []
    ensures StepsOk(Init(steps), breaks, p)
  {
    assert forall k :: 0 <= k < |steps| - 1 ==> Init(steps)[k] == steps[k];
  }

  lemma {:induction false} RequestsAreOk(files: Files, steps: Steps, breaks: bool, c: Codec, p: Platform)
    requires StepsOk(steps, breaks, p)
    ensures RequestsOk(Run(files, steps, c, p), p)
  {
    if steps != [] {
      StepsShorter(steps, breaks, p);
      RequestsAreOk(files, Init(steps), breaks, c, p);
      var q := Run(files, Init(steps), c, p);
      NextKeepsRequests(q, Last(steps), c, p);
    }
  }

  lemma NextKeepsRequests(q: Inbox, step: Q.Step<Record>, c: Codec, p: Platform)
    requires RequestsOk(q, p) && (step.Submit? ==> RecordOk(step.request, p))
    ensures RequestsOk(Q.Next(q, step, Decider(c, p)), p)
  {
  }

  /** A step that changes a file is the end of a task that found its id free, and writes that task's line, or a
      part of it. */
  lemma StepWrites(files: Files, steps: Steps, step: Q.Step<Record>, key: string, c: Codec, p: Platform)
    requires var q := Run(files, steps, c, p); Q.FileOf(Q.Next(q, step, Decider(c, p)), key) != Q.FileOf(q, key)
    ensures var q := Run(files, steps, c, p);
            && step.Finish? && step.task < |q.tasks| && q.tasks[step.task].key == key
            && var r, text := q.tasks[step.task].request, Q.FileOf(q, key);
               && F.Find(Reads(text, c, p), r.submissionId) == None
               && var line := Written(r, c);
                  Q.FileOf(Q.Next(q, step, Decider(c, p)), key) == text + Q.Reached(line, Q.Written(step.fault, |line|))
  {
    var q := Run(files, steps, c, p);
    Q.EveryRunIsSerial(files, steps, Decider(c, p));
    Q.StepOnlyAppends(q, step, Decider(c, p), key);
    assert Q.TaskInv(q, step.task, files, Decider(c, p));
    Turn(Q.FileOf(q, key), q.tasks[step.task].request, c, p);
  }

  /** A write that does not break off is the whole line. */
  lemma WholeLine(step: Q.Step<Record>, line: string, text: string)
    requires step.Finish? && !step.fault.Torn? && text + Q.Reached(line, Q.Written(step.fault, |line|)) != text
    ensures Q.Reached(line, Q.Written(step.fault, |line|)) == line
  {
    assert text + [] == text;
  }

  // ---------------------------------------------------------------- what was readable stays

  /** No file ends in a record without its line break. */
  predicate NoRecordLeft(q: Inbox, c: Codec, p: Platform) {
    forall key :: key in q.files ==> TailRecord(q.files[key], c, p) == None
  }

  predicate NoneLeftIn(files: Files, c: Codec, p: Platform) {
    forall key :: key in files ==> TailRecord(files[key], c, p) == None
  }

  lemma NewOne(before: seq<Record>, r: Record)
    requires F.Find(before, r.submissionId) == None
    ensures Extends(before, before + [r])
  {
    assert (before + [r])[|before|..] == [r];
  }

  lemma StepExtends(files: Files, steps: Steps, step: Q.Step<Record>, key: string, c: Codec, p: Platform)
    requires CodecOk(c) && RequestsOk(Run(files, steps, c, p), p) && NoRecordLeft(Run(files, steps, c, p), c, p)
    requires step.Finish? ==> !step.fault.Torn?
    ensures var q := Run(files, steps, c, p);
            var q' := Q.Next(q, step, Decider(c, p));
            && Extends(Holding(q, key, c, p), Holding(q', key, c, p))
            && (key in q'.files ==> TailRecord(q'.files[key], c, p) == None)
            && (JsonBlank(Tail(Q.FileOf(q, key))) ==> JsonBlank(Tail(Q.FileOf(q', key))))
  {
    var q := Run(files, steps, c, p);
    var text, text' := Q.FileOf(q, key), Q.FileOf(Q.Next(q, step, Decider(c, p)), key);
    NothingIsBlank(c, p);
    assert TailRecord(text, c, p) == None;
    if text' != text {
      StepWrites(files, steps, step, key, c, p);
      var r := q.tasks[step.task].request;
      WholeLine(step, Written(r, c), text);
      AppendExtends(text, r, c, p);
    } else {
      assert Reads(text, c, p)[|Reads(text, c, p)|..] == [];
    }
  }

  lemma AppendExtends(text: string, r: Record, c: Codec, p: Platform)
    requires CodecOk(c) && RecordOk(r, p) && TailRecord(text, c, p) == None
    requires F.Find(Reads(text, c, p), r.submissionId) == None
    ensures var after := text + Written(r, c);
            Extends(Reads(text, c, p), Reads(after, c, p)) && Tail(after) == [] && TailRecord(after, c, p) == None
  {
    ReadsAre(text, c, p);
    AppendReads(text, r, c, p);
    BlankTail(text + Written(r, c), c, p);
    NewOne(Reads(text, c, p), r);
    assert Reads(text, c, p)[|Reads(text, c, p)|..] == [];
  }

  lemma NothingIsBlank(c: Codec, p: Platform)
    ensures TailRecord([], c, p) == None && Reads([], c, p) == []
  {
    assert Split([], '\n') == [[]];
    ReadsAre([], c, p);
  }

  lemma {:induction false} StillNoRecordLeft(files: Files, steps: Steps, c: Codec, p: Platform)
    requires CodecOk(c) && StepsOk(steps, false, p) && NoneLeftIn(files, c, p)
    ensures NoRecordLeft(Run(files, steps, c, p), c, p)
  {
    if steps != [] {
      StepsShorter(steps, false, p);
      StillNoRecordLeft(files, Init(steps), c, p);
      RequestsAreOk(files, Init(steps), false, c, p);
      var q := Run(files, Init(steps), c, p);
      forall key | key in Run(files, steps, c, p).files
        ensures TailRecord(Run(files, steps, c, p).files[key], c, p) == None {
        StepExtends(files, Init(steps), Last(steps), key, c, p);
      }
    }
  }

  lemma ExtendsOn(a: seq<Record>, b: seq<Record>, c: seq<Record>)
    requires Extends(a, b) && Extends(b, c)
    ensures Extends(a, c)
  {
    var more, rest := b[|a|..], c[|b|..];
    assert b == a + more && c == b + rest && c[|a|..] == more + rest;
    F.FindIs(a, "");
    forall k | 0 <= k < |more + rest| ensures F.Find(a, (more + rest)[k].submissionId).None? {
      F.FindIs(a, (more + rest)[k].submissionId);
      F.FindIs(b, (more + rest)[k].submissionId);
      assert forall i :: 0 <= i < |a| ==> b[i] == a[i];
    }
    forall j, k | 0 <= j < k < |more + rest| ensures (more + rest)[j].submissionId != (more + rest)[k].submissionId {
      if j < |more| <= k {
        F.FindIs(b, rest[k - |more|].submissionId);
        assert b[|a| + j] == more[j];
      }
    }
  }

  lemma {:induction false} MoreStepsExtend(files: Files, steps: Steps, more: Steps, key: string, c: Codec, p: Platform)
    requires CodecOk(c) && StepsOk(steps + more, false, p) && NoneLeftIn(files, c, p)
    ensures Extends(Holding(Run(files, steps, c, p), key, c, p), Holding(Run(files, steps + more, c, p), key, c, p))
    decreases |more|
  {
    if more == [] {
      assert steps + more == steps;
      assert Holding(Run(files, steps, c, p), key, c, p)[|Holding(Run(files, steps, c, p), key, c, p)|..] == [];
    } else {
      var shorter := steps + Init(more);
      assert Init(steps + more) == shorter && Last(steps + more) == Last(more);
      StepsShorter(steps + more, false, p);
      MoreStepsExtend(files, steps, Init(more), key, c, p);
      StillNoRecordLeft(files, shorter, c, p);
      RequestsAreOk(files, shorter, false, c, p);
      StepExtends(files, shorter, Last(more), key, c, p);
      ExtendsOn(Holding(Run(files, steps, c, p), key, c, p), Holding(Run(files, shorter, c, p), key, c, p),
                Holding(Run(files, steps + more, c, p), key, c, p));
    }
  }

  // ---------------------------------------------------------------- the first writer wins

  predicate BlankTails(files: Files) {
    forall key :: key in files ==> JsonBlank(Tail(files[key]))
  }

  lemma BlankIsNoRecord(files: Files, c: Codec, p: Platform)
    requires BlankIsNothing(c) && BlankTails(files)
    ensures NoneLeftIn(files, c, p)
  {
    forall key | key in files ensures TailRecord(files[key], c, p) == None {
      BlankTail(files[key], c, p);
    }
  }

  /** The step that ends a task, for that task. */
  lemma OwnTurnSpeaks(files: Files, steps: Steps, step: Q.Step<Record>, c: Codec, p: Platform)
    requires CodecOk(c) && RequestsOk(Run(files, steps, c, p), p)
    requires step.Finish? && !step.fault.Torn? && step.task < |Run(files, steps, c, p).tasks|
    requires Run(files, steps, c, p).tasks[step.task].progress.Decided?
    requires JsonBlank(Tail(Q.FileOf(Run(files, steps, c, p), Run(files, steps, c, p).tasks[step.task].key)))
    ensures var q' := Q.Next(Run(files, steps, c, p), step, Decider(c, p)); Speaks(q'.tasks[step.task], q', c, p)
  {
    var q := Run(files, steps, c, p);
    var t := q.tasks[step.task];
    Q.EveryRunIsSerial(files, steps, Decider(c, p));
    assert Q.TaskInv(q, step.task, files, Decider(c, p));
    Turn(Q.FileOf(q, t.key), t.request, c, p);
    if t.progress.decision.Append? {
      StoredIsFound(Q.FileOf(q, t.key), t.request, c, p);
    }
  }

  /** A new record is the first under its id once its line is in the file. */
  lemma StoredIsFound(text: string, r: Record, c: Codec, p: Platform)
    requires CodecOk(c) && RecordOk(r, p) && JsonBlank(Tail(text)) && F.Find(Reads(text, c, p), r.submissionId) == None
    ensures F.Find(Reads(text + Written(r, c), c, p), r.submissionId) == Some(r)
  {
    AppendReads(text, r, c, p);
    BlankTail(text, c, p);
    assert Init(Reads(text, c, p) + [r]) == Reads(text, c, p);
  }

  lemma OthersStillSpeak(t: Q.Task<Record, char, F.Outcome>, q: Inbox, q': Inbox, c: Codec, p: Platform)
    requires Speaks(t, q, c, p) && Holding(q, t.key, c, p) <= Holding(q', t.key, c, p)
    ensures Speaks(t, q', c, p)
  {
    if Resolved(t) {
      F.StillFound(Holding(q, t.key, c, p), Holding(q', t.key, c, p), t.request.submissionId);
    }
  }

  lemma {:induction false} TailsStayBlank(files: Files, steps: Steps, c: Codec, p: Platform)
    requires CodecOk(c) && StepsOk(steps, false, p) && BlankTails(files)
    ensures BlankTails(Run(files, steps, c, p).files)
  {
    if steps != [] {
      StepsShorter(steps, false, p);
      TailsStayBlank(files, Init(steps), c, p);
      BlankIsNoRecord(files, c, p);
      StillNoRecordLeft(files, Init(steps), c, p);
      RequestsAreOk(files, Init(steps), false, c, p);
      forall key | key in Run(files, steps, c, p).files ensures JsonBlank(Tail(Run(files, steps, c, p).files[key])) {
        StepExtends(files, Init(steps), Last(steps), key, c, p);
      }
    }
  }

  lemma {:induction false} EveryRunSpeaks(files: Files, steps: Steps, c: Codec, p: Platform)
    requires CodecOk(c) && StepsOk(steps, false, p) && BlankTails(files)
    ensures FirstWriterWins(Run(files, steps, c, p), c, p)
  {
    if steps != [] {
      var before, step := Init(steps), Last(steps);
      StepsShorter(steps, false, p);
      EveryRunSpeaks(files, before, c, p);
      TailsStayBlank(files, before, c, p);
      BlankIsNoRecord(files, c, p);
      StillNoRecordLeft(files, before, c, p);
      RequestsAreOk(files, before, false, c, p);
      var q' := Run(files, steps, c, p);
      forall i | 0 <= i < |q'.tasks| ensures Speaks(q'.tasks[i], q', c, p) {
        StepSpeaks(files, before, step, i, c, p);
      }
    }
  }

  lemma StepSpeaks(files: Files, before: Steps, step: Q.Step<Record>, i: nat, c: Codec, p: Platform)
    requires CodecOk(c) && (step.Finish? ==> !step.fault.Torn?)
    requires var q := Run(files, before, c, p);
             && RequestsOk(q, p) && NoRecordLeft(q, c, p) && BlankTails(q.files) && FirstWriterWins(q, c, p)
             && i < |Q.Next(q, step, Decider(c, p)).tasks|
    ensures var q' := Q.Next(Run(files, before, c, p), step, Decider(c, p)); Speaks(q'.tasks[i], q', c, p)
  {
    var q, q' := Run(files, before, c, p), Q.Next(Run(files, before, c, p), step, Decider(c, p));
    if i < |q.tasks| && (q'.tasks[i] == q.tasks[i] || Resolved(q.tasks[i])) {
      assert Speaks(q.tasks[i], q, c, p);
      StepExtends(files, before, step, q.tasks[i].key, c, p);
      OthersStillSpeak(q.tasks[i], q, q', c, p);
    } else if Resolved(q'.tasks[i]) {
      NewlyResolved(q, step, i, c, p);
      OwnTurnSpeaks(files, before, step, c, p);
    }
  }

  lemma NewlyResolved(q: Inbox, step: Q.Step<Record>, i: nat, c: Codec, p: Platform)
    requires i < |Q.Next(q, step, Decider(c, p)).tasks| && Resolved(Q.Next(q, step, Decider(c, p)).tasks[i])
    requires i < |q.tasks| ==> !Resolved(q.tasks[i])
    ensures step.Finish? && step.task == i < |q.tasks| && q.tasks[i].progress.Decided?
  {
  }

  /** Speaking for the same record, calls name the same receipt. */
  lemma SpeakingAgrees(q: Inbox, c: Codec, p: Platform)
    requires FirstWriterWins(q, c, p)
    ensures OneReceipt(q)
  {
    forall i, j | 0 <= i < j < |q.tasks| && SameSubmission(q.tasks[i], q.tasks[j])
      ensures ReceiptOf(q.tasks[i]) == ReceiptOf(q.tasks[j])
    {
      assert Speaks(q.tasks[i], q, c, p) && Speaks(q.tasks[j], q, c, p);
    }
  }

  // ---------------------------------------------------------------- when the promises are broken

  /** Records to break them with: one under two receipts, and another, all new to every file. */
  datatype Trial = Trial(record: Record, other: ServerReceipt, torn: Record)

  function Again(t: Trial): Record {
    t.record.(receipt := t.other)
  }

  predicate Fresh(id: string, files: Files, c: Codec, p: Platform) {
    forall key :: key in files ==> F.Find(Reads(files[key], c, p), id) == None
  }

  predicate Usable(t: Trial, files: Files, c: Codec, p: Platform) {
    && RecordOk(t.record, p) && RecordOk(Again(t), p) && RecordOk(t.torn, p) && t.other != t.record.receipt
    && t.torn.submissionId != t.record.submissionId
    && Fresh(t.record.submissionId, files, c, p) && Fresh(t.torn.submissionId, files, c, p)
  }

  /** One more task, all alone. */
  function Then(files: Files, steps: Steps, key: string, r: Record, fault: Q.Fault, c: Codec, p: Platform): Steps {
    steps + Q.OneTurn(|Run(files, steps, c, p).tasks|, key, r, fault)
  }

  lemma ThenIsOk(
      files: Files, steps: Steps, key: string, r: Record, fault: Q.Fault, breaks: bool, c: Codec, p: Platform)
    requires StepsOk(steps, breaks, p) && RecordOk(r, p) && (fault.Torn? ==> breaks)
    ensures StepsOk(Then(files, steps, key, r, fault, c, p), breaks, p)
  {
    var steps' := Then(files, steps, key, r, fault, c, p);
    assert forall k :: 0 <= k < |steps| ==> steps'[k] == steps[k];
    assert forall k :: |steps| <= k < |steps'| ==>
      steps'[k] == Q.OneTurn(|Run(files, steps, c, p).tasks|, key, r, fault)[k - |steps|];
  }

  /** A task whose id is free, all alone. */
  lemma FreeTurn(files: Files, steps: Steps, key: string, r: Record, fault: Q.Fault, c: Codec, p: Platform)
    requires Q.Quiet(Run(files, steps, c, p))
    requires F.Find(Holding(Run(files, steps, c, p), key, c, p), r.submissionId) == None
    ensures var q, q' := Run(files, steps, c, p), Run(files, Then(files, steps, key, r, fault, c, p), c, p);
            && Q.TookTurn(q, q', key, r, Q.Append(Written(r, c), F.Kept), fault)
            && Q.FileOf(q', key)
               == Q.FileOf(q, key) + Q.Reached(Written(r, c), Q.Written(fault, |Written(r, c)|))
  {
    Q.OneMore(files, steps, key, r, fault, Decider(c, p));
    Turn(Q.FileOf(Run(files, steps, c, p), key), r, c, p);
  }

  /** On a file that ends in anything but white space: a first delivery resolves and is lost, and its retry
      resolves with another receipt. */
  lemma LostAndStoredAgain(files: Files, steps: Steps, key: string, t: Trial, breaks: bool, c: Codec, p: Platform)
    returns (once: Steps, twice: Steps)
    requires CodecOk(c) && StepsOk(steps, breaks, p) && Q.Quiet(Run(files, steps, c, p))
    requires RecordOk(t.record, p) && RecordOk(Again(t), p) && t.other != t.record.receipt
    requires !JsonBlank(Tail(Q.FileOf(Run(files, steps, c, p), key)))
    requires F.Find(Holding(Run(files, steps, c, p), key, c, p), t.record.submissionId) == None
    ensures steps <= once && StepsOk(once, breaks, p) && StepsOk(twice, breaks, p)
    ensures Holding(Run(files, once, c, p), key, c, p) == Kept(Q.FileOf(Run(files, steps, c, p), key), c, p)
    ensures !FirstWriterWins(Run(files, twice, c, p), c, p) && !OneReceipt(Run(files, twice, c, p))
  {
    var n := |Run(files, steps, c, p).tasks|;
    once := Lost(files, steps, key, t.record, breaks, c, p);
    var q1 := Run(files, once, c, p);
    twice := Then(files, once, key, Again(t), Q.NoFault, c, p);
    ThenIsOk(files, once, key, Again(t), Q.NoFault, breaks, c, p);
    FreeTurn(files, once, key, Again(t), Q.NoFault, c, p);
    StoredIsFound(Q.FileOf(q1, key), Again(t), c, p);
    var q2 := Run(files, twice, c, p);
    assert q2.tasks[n] == q1.tasks[n] by { assert q2.tasks[..n + 1][n] == q1.tasks[n]; }
    assert F.Find(Holding(q2, key, c, p), t.record.submissionId) == Some(Again(t));
    assert !Speaks(q2.tasks[n], q2, c, p);
    assert SameSubmission(q2.tasks[n], q2.tasks[n + 1]);
  }

  /** A first delivery that resolves and is not in the file. */
  lemma Lost(files: Files, steps: Steps, key: string, r: Record, breaks: bool, c: Codec, p: Platform)
    returns (once: Steps)
    requires CodecOk(c) && StepsOk(steps, breaks, p) && Q.Quiet(Run(files, steps, c, p)) && RecordOk(r, p)
    requires !JsonBlank(Tail(Q.FileOf(Run(files, steps, c, p), key)))
    requires F.Find(Holding(Run(files, steps, c, p), key, c, p), r.submissionId) == None
    ensures steps <= once && StepsOk(once, breaks, p) && Q.Quiet(Run(files, once, c, p))
    ensures var q, q1 := Run(files, steps, c, p), Run(files, once, c, p);
            && |q1.tasks| == |q.tasks| + 1 && q1.tasks[|q.tasks|].key == key && q1.tasks[|q.tasks|].request == r
            && q1.tasks[|q.tasks|].progress == Q.Settled(Some(F.Kept)) && Terminated(Q.FileOf(q1, key))
            && Holding(q1, key, c, p) == Kept(Q.FileOf(q, key), c, p)
            && F.Find(Holding(q1, key, c, p), r.submissionId) == None
  {
    var text := Q.FileOf(Run(files, steps, c, p), key);
    once := Then(files, steps, key, r, Q.NoFault, c, p);
    ThenIsOk(files, steps, key, r, Q.NoFault, breaks, c, p);
    FreeTurn(files, steps, key, r, Q.NoFault, c, p);
    TornLineSwallows(text, r, c, p);
    AppendReads(text, r, c, p);
    KeptFindsLess(text, r.submissionId, c, p);
  }

  lemma KeptFindsLess(text: string, id: string, c: Codec, p: Platform)
    requires F.Find(Reads(text, c, p), id) == None
    ensures F.Find(Kept(text, c, p), id) == None
  {
    ReadsAre(text, c, p);
    F.FindIs(Reads(text, c, p), id);
    F.FindIs(Kept(text, c, p), id);
    assert forall k :: 0 <= k < |Kept(text, c, p)| ==> Kept(text, c, p)[k] == Reads(text, c, p)[k];
  }

  /** Neither of a trial's ids is read in a file. */
  predicate Untried(q: Inbox, key: string, t: Trial, c: Codec, p: Platform) {
    && F.Find(Holding(q, key, c, p), t.record.submissionId) == None
    && F.Find(Holding(q, key, c, p), t.torn.submissionId) == None
  }

  lemma StartIsQuiet(files: Files, key: string, t: Trial, c: Codec, p: Platform)
    requires Usable(t, files, c, p)
    ensures Q.Quiet(Run(files, [], c, p)) && Run(files, [], c, p).files == files
    ensures Untried(Run(files, [], c, p), key, t, c, p)
  {
    NothingIsBlank(c, p);
  }

  /** A write that breaks off just before its line break leaves a record that reads back - for now. */
  lemma BrokenOff(files: Files, before: Steps, key: string, t: Trial, c: Codec, p: Platform) returns (steps: Steps)
    requires CodecOk(c) && Usable(t, files, c, p) && StepsOk(before, true, p) && Q.Quiet(Run(files, before, c, p))
    requires Untried(Run(files, before, c, p), key, t, c, p)
    requires JsonBlank(Tail(Q.FileOf(Run(files, before, c, p), key)))
    ensures StepsOk(steps, true, p) && Q.Quiet(Run(files, steps, c, p))
    ensures var text := Q.FileOf(Run(files, steps, c, p), key);
            && !JsonBlank(Tail(text)) && TailRecord(text, c, p) == Some(t.torn)
            && F.Find(Reads(text, c, p), t.record.submissionId) == None
  {
    var json := RecordJson(t.torn);
    var old', line := Q.FileOf(Run(files, before, c, p), key), c.stringify(json);
    assert Prints(c, json);
    steps := Then(files, before, key, t.torn, Q.Torn(|line|), c, p);
    ThenIsOk(files, before, key, t.torn, Q.Torn(|line|), true, c, p);
    FreeTurn(files, before, key, t.torn, Q.Torn(|line|), c, p);
    assert Q.Reached(Written(t.torn, c), |line|) == line;
    TornTailReads(old', t.torn, c, p);
    var kept := Kept(old', c, p);
    KeptFindsLess(old', t.record.submissionId, c, p);
    assert Init(kept + [t.torn]) == kept;
  }

  /** A record without its line break reads back behind white space. */
  lemma TornTailReads(text: string, r: Record, c: Codec, p: Platform)
    requires CodecOk(c) && RecordOk(r, p) && JsonBlank(Tail(text))
    ensures var torn := text + c.stringify(RecordJson(r));
            && !JsonBlank(Tail(torn)) && TailRecord(torn, c, p) == Some(r)
            && Reads(torn, c, p) == Kept(text, c, p) + [r]
  {
    var json := RecordJson(r);
    assert Prints(c, json);
    TornAppend(text, c.stringify(json), c);
    BodyAndTail(text);
    RecordRoundTrip(r, p);
    PrintedIsNotEmpty(json, c);
    assert c.parse(Tail(text + c.stringify(json))) == Some(json);
    ReadsAre(text + c.stringify(json), c, p);
  }

  // ---------------------------------------------------------------- main results

  /** A resolved call speaks for the first record under its id, in every run, if and only if no write breaks off
      half-way and every file starts with nothing but white space after its last line break. */
  lemma FirstWriterWinsExactlyWhen(files: Files, breaks: bool, t: Trial, c: Codec, p: Platform)
    requires CodecOk(c) && Usable(t, files, c, p)
    ensures (forall steps :: StepsOk(steps, breaks, p) ==> FirstWriterWins(Run(files, steps, c, p), c, p))
            <==> !breaks && BlankTails(files)
  {
    if !breaks && BlankTails(files) {
      forall steps | StepsOk(steps, breaks, p) ensures FirstWriterWins(Run(files, steps, c, p), c, p) {
        EveryRunSpeaks(files, steps, c, p);
      }
    } else {
      var _, steps := PromisesBroken(files, breaks, t, c, p);
      assert StepsOk(steps, breaks, p) && !FirstWriterWins(Run(files, steps, c, p), c, p);
    }
  }

  /** ... and one submission has one receipt in exactly the same cases. */
  lemma OneReceiptExactlyWhen(files: Files, breaks: bool, t: Trial, c: Codec, p: Platform)
    requires CodecOk(c) && Usable(t, files, c, p)
    ensures (forall steps :: StepsOk(steps, breaks, p) ==> OneReceipt(Run(files, steps, c, p)))
            <==> !breaks && BlankTails(files)
  {
    if !breaks && BlankTails(files) {
      forall steps | StepsOk(steps, breaks, p) ensures OneReceipt(Run(files, steps, c, p)) {
        EveryRunSpeaks(files, steps, c, p);
        SpeakingAgrees(Run(files, steps, c, p), c, p);
      }
    } else {
      var _, steps := PromisesBroken(files, breaks, t, c, p);
      assert StepsOk(steps, breaks, p) && !OneReceipt(Run(files, steps, c, p));
    }
  }

  /** Where the promises break: at a file with something left over, or after one write that broke off. */
  lemma PromisesBroken(files: Files, breaks: bool, t: Trial, c: Codec, p: Platform) returns (key: string, steps: Steps)
    requires CodecOk(c) && Usable(t, files, c, p) && (breaks || !BlankTails(files))
    ensures StepsOk(steps, breaks, p)
    ensures !FirstWriterWins(Run(files, steps, c, p), c, p) && !OneReceipt(Run(files, steps, c, p))
  {
    var before: Steps := [];
    key := "";
    if !BlankTails(files) {
      key :| key in files && !JsonBlank(Tail(files[key]));
      StartIsQuiet(files, key, t, c, p);
    } else {
      StartIsQuiet(files, key, t, c, p);
      before := BrokenOff(files, [], key, t, c, p);
    }
    var once;
    once, steps := LostAndStoredAgain(files, before, key, t, breaks, c, p);
  }

  /** Whatever was readable stays readable, in order, and no id is added twice, between any two points of any run,
      if and only if no write breaks off half-way and no file starts with a record that lacks its line break. */
  lemma ReadableStaysExactlyWhen(files: Files, breaks: bool, t: Trial, c: Codec, p: Platform)
    requires CodecOk(c) && Usable(t, files, c, p)
    ensures (forall steps: Steps, more: Steps, key: string :: StepsOk(steps + more, breaks, p) ==>
               Extends(Holding(Run(files, steps, c, p), key, c, p), Holding(Run(files, steps + more, c, p), key, c, p)))
            <==> !breaks && NoneLeftIn(files, c, p)
  {
    if !breaks && NoneLeftIn(files, c, p) {
      forall steps: Steps, more: Steps, key | StepsOk(steps + more, breaks, p)
        ensures Extends(Holding(Run(files, steps, c, p), key, c, p), Holding(Run(files, steps + more, c, p), key, c, p))
      {
        MoreStepsExtend(files, steps, more, key, c, p);
      }
    } else {
      var steps, more, key := ReadableLost(files, breaks, t, c, p);
      assert StepsOk(steps + more, breaks, p);
    }
  }

  lemma ReadableLost(files: Files, breaks: bool, t: Trial, c: Codec, p: Platform)
    returns (steps: Steps, more: Steps, key: string)
    requires CodecOk(c) && Usable(t, files, c, p) && (breaks || !NoneLeftIn(files, c, p))
    ensures StepsOk(steps + more, breaks, p)
    ensures !(Holding(Run(files, steps, c, p), key, c, p) <= Holding(Run(files, steps + more, c, p), key, c, p))
  {
    steps, key := [], "";
    if !NoneLeftIn(files, c, p) {
      key :| key in files && TailRecord(files[key], c, p) != None;
      StartIsQuiet(files, key, t, c, p);
      if JsonBlank(Tail(files[key])) { BlankTail(files[key], c, p); }
    } else {
      StartIsQuiet(files, key, t, c, p);
      steps := FullStop(files, key, t, c, p);
      steps := BrokenOff(files, steps, key, t, c, p);
    }
    var once := Lost(files, steps, key, t.record, breaks, c, p);
    more := once[|steps|..];
    assert steps + more == once;
    ReadsAre(Q.FileOf(Run(files, steps, c, p), key), c, p);
  }

  /** A file whose leftovers are blank, at most one swallowed append later. */
  lemma FullStop(files: Files, key: string, t: Trial, c: Codec, p: Platform) returns (steps: Steps)
    requires CodecOk(c) && Usable(t, files, c, p)
    ensures StepsOk(steps, true, p) && Q.Quiet(Run(files, steps, c, p))
    ensures Untried(Run(files, steps, c, p), key, t, c, p)
    ensures JsonBlank(Tail(Q.FileOf(Run(files, steps, c, p), key)))
  {
    StartIsQuiet(files, key, t, c, p);
    steps := [];
    var text := Q.FileOf(Run(files, [], c, p), key);
    if !JsonBlank(Tail(text)) {
      ThenIsOk(files, [], key, t.record, Q.NoFault, true, c, p);
      FreeTurn(files, [], key, t.record, Q.NoFault, c, p);
      TornLineSwallows(text, t.record, c, p);
      AppendReads(text, t.record, c, p);
      KeptFindsLess(text, t.record.submissionId, c, p);
      KeptFindsLess(text, t.torn.submissionId, c, p);
      steps := Then(files, [], key, t.record, Q.NoFault, c, p);
    }
  }

  /** Where nothing is left over and no write breaks off, the runs over text are the runs over lines: every result
      about whole lines is one about the file. */
  lemma TextIsLines(files: Files, steps: Steps, c: Codec, p: Platform)
    requires CodecOk(c) && WholeWrites(steps) && forall key :: key in files ==> Terminated(files[key])
    ensures Refines(Run(files, steps, c, p), Q.Run(LinesOfFiles(files, c), steps, F.Decider(p)), c)
  {
    assert DeciderOk(F.Decider(p), c) by {
      forall r: Record, lines ensures F.Decider(p)(r, lines + [EmptyLine]) == F.Decider(p)(r, lines) {
        assert Init(lines + [EmptyLine]) == lines;
      }
      assert forall r: Record :: Prints(c, RecordJson(r));
    }
    TextRefinesLines(files, steps, F.Decider(p), c);
  }
}
