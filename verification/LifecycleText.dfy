// The lifecycle file as text, over whole runs: src/adapters/persistence/file-question-lifecycle-log.ts refuses
// a damaged file, so what is left over at its end decides whether the question board can ever change again.
module LifecycleText {
  import opened Common
  import opened Json
  import opened JsonLines
  import opened Lifecycle
  import opened Text
  import F = FileLifecycleLog
  import Q = WriteQueue

  type Files = map<string, string>

  type Steps = seq<Q.Step<F.Job>>

  type Board = Q.Queues<F.Job, char, Outcome>

  ghost predicate CodecOk(c: Codec) {
    BlankIsNothing(c) && forall e: Event :: Prints(c, F.EventJson(e))
  }

  function Decider(c: Codec, parses: F.Parses): Q.Decide<F.Job, char, Outcome> {
    OnTexts(F.Decider(parses), c)
  }

  function Run(files: Files, steps: Steps, c: Codec, parses: F.Parses): Board {
    Q.Run(files, steps, Decider(c, parses))
  }

  function Reads(text: string, c: Codec, parses: F.Parses): Option<seq<Event>> {
    F.ReadAll(LinesOf(text, c), parses)
  }

  function Written(e: Event, c: Codec): string {
    LineFor(F.EventJson(e), c)
  }

  // ---------------------------------------------------------------- one append

  lemma OneLineMore(lines: seq<Line>, line: Line, parses: F.Parses)
    ensures F.ReadAll(lines + [line], parses)
            == match (F.ReadAll(lines, parses), line)
               case (None, _) => None
               case (Some(events), EmptyLine) => Some(events)
               case (Some(events), NotJson) => None
               case (Some(events), Document(json)) =>
                 if F.ReadEvent(json, parses).None? then None else Some(events + [F.ReadEvent(json, parses).value])
  {
    assert Init(lines + [line]) == lines;
  }

  /** A readable text read line by line: its complete lines, and what is left over. */
  lemma ReadsAre(text: string, c: Codec, parses: F.Parses)
    ensures Reads(text, c, parses) == F.ReadAll(CompleteLines(text, c) + [Classify(Tail(text), c)], parses)
  {
    LinesAre(text, c);
  }

  lemma EndedReads(text: string, c: Codec, parses: F.Parses)
    requires Terminated(text)
    ensures Reads(text, c, parses) == F.ReadAll(CompleteLines(text, c), parses)
  {
    LinesAre(text, c);
    OneLineMore(CompleteLines(text, c), EmptyLine, parses);
  }

  /** An append to a readable file is read back exactly when the file ended in a line break. Otherwise nothing is
      read any more: one missing line break, and the next append makes the whole file unreadable. */
  lemma AppendReadsBackExactlyWhen(text: string, e: Event, c: Codec, parses: F.Parses)
    requires CodecOk(c) && F.Readable(e, parses) && Reads(text, c, parses).Some?
    ensures Reads(text + Written(e, c), c, parses)
            == if Terminated(text) then Some(Reads(text, c, parses).value + [e]) else None
  {
    var json, after := F.EventJson(e), text + Written(e, c);
    assert Prints(c, json);
    ReadsAre(text, c, parses);
    OneLineMore(CompleteLines(text, c), Classify(Tail(text), c), parses);
    AppendLines(text, json, c);
    NewLineIs(text, json, c);
    EndedReads(after, c, parses);
    OneLineMore(CompleteLines(text, c), Classify(Tail(text) + c.stringify(json), c), parses);
    F.EventRoundTrip(e, parses);
  }

  /** A write that breaks off just before its line break still reads back - and leaves the next one to spoil it. */
  lemma TornReads(text: string, e: Event, c: Codec, parses: F.Parses)
    requires CodecOk(c) && F.Readable(e, parses) && Reads(text, c, parses).Some? && Terminated(text)
    ensures var torn := text + c.stringify(F.EventJson(e));
            Reads(torn, c, parses) == Some(Reads(text, c, parses).value + [e]) && !Terminated(torn)
  {
    var json := F.EventJson(e);
    assert Prints(c, json);
    PrintedIsNotEmpty(json, c);
    TornAppend(text, c.stringify(json), c);
    assert c.stringify(json) == [] + c.stringify(json);
    var nothing: string := [];
    assert c.parse(nothing + c.stringify(json)) == Some(json);
    EndedReads(text, c, parses);
    ReadsAre(text + c.stringify(json), c, parses);
    OneLineMore(CompleteLines(text, c), Classify(c.stringify(json), c), parses);
    F.EventRoundTrip(e, parses);
  }

  // ---------------------------------------------------------------- an unreadable file

  lemma Refused(job: F.Job, text: string, c: Codec, parses: F.Parses)
    requires Reads(text, c, parses) == None
    ensures Decider(c, parses)(job, text) == Q.Throw
  {
    OnTextsIs(F.Decider(parses), job, text, c);
    assert F.Decider(parses)(job, LinesOf(text, c)) == F.Decide(job, LinesOf(text, c), parses);
  }

  /** Whatever was still open at a moment of a run did not resolve later. */
  predicate NoneResolved(before: Board, after: Board, key: string) {
    forall i :: 0 <= i < |after.tasks| && after.tasks[i].key == key && after.tasks[i].progress.Settled?
                && (i < |before.tasks| ==> !before.tasks[i].progress.Settled?) ==>
      after.tasks[i].progress.result == None
  }

  predicate Grown(before: Board, after: Board) {
    |before.tasks| <= |after.tasks|
  }

  /** One unreadable line, once it is there, is there for good: from then on no append to that directory resolves
      and its file does not change, whatever is tried and however writes fail. */
  lemma {:induction false} UnreadableForGood(
      files: Files, steps: Steps, more: Steps, key: string, c: Codec, parses: F.Parses)
    requires Reads(Q.FileOf(Run(files, steps, c, parses), key), c, parses) == None
    ensures Q.FileOf(Run(files, steps + more, c, parses), key) == Q.FileOf(Run(files, steps, c, parses), key)
    ensures Grown(Run(files, steps, c, parses), Run(files, steps + more, c, parses))
    ensures NoneResolved(Run(files, steps, c, parses), Run(files, steps + more, c, parses), key)
    decreases |more|
  {
    if more == [] {
      assert steps + more == steps;
    } else {
      var shorter := steps + Init(more);
      assert Init(steps + more) == shorter && Last(steps + more) == Last(more);
      UnreadableForGood(files, steps, Init(more), key, c, parses);
      StepIsRefused(files, shorter, Last(more), key, c, parses);
    }
  }

  lemma StepIsRefused(files: Files, steps: Steps, step: Q.Step<F.Job>, key: string, c: Codec, parses: F.Parses)
    requires Reads(Q.FileOf(Run(files, steps, c, parses), key), c, parses) == None
    ensures var q := Run(files, steps, c, parses);
            var q' := Q.Next(q, step, Decider(c, parses));
            && Q.FileOf(q', key) == Q.FileOf(q, key) && Grown(q, q')
            && forall i :: 0 <= i < |q'.tasks| && q'.tasks[i].key == key && q'.tasks[i].progress.Settled? ==>
                 (i < |q.tasks| && q'.tasks[i] == q.tasks[i]) || q'.tasks[i].progress.result == None
  {
    var q := Run(files, steps, c, parses);
    forall i | 0 <= i < |q.tasks| && q.tasks[i].key == key && q.tasks[i].progress.Decided?
      ensures q.tasks[i].progress.decision == Q.Throw
    {
      Q.EveryRunIsSerial(files, steps, Decider(c, parses));
      assert Q.TaskInv(q, i, files, Decider(c, parses));
      Refused(q.tasks[i].request, Q.FileOf(q, key), c, parses);
    }
    ThrowsChangeNothing(q, step, key, c, parses);
  }

  lemma ThrowsChangeNothing(q: Board, step: Q.Step<F.Job>, key: string, c: Codec, parses: F.Parses)
    requires forall i :: 0 <= i < |q.tasks| && q.tasks[i].key == key && q.tasks[i].progress.Decided? ==>
               q.tasks[i].progress.decision == Q.Throw
    requires Reads(Q.FileOf(q, key), c, parses) == None
    ensures var q' := Q.Next(q, step, Decider(c, parses));
            && Q.FileOf(q', key) == Q.FileOf(q, key) && Grown(q, q')
            && forall i :: 0 <= i < |q'.tasks| && q'.tasks[i].key == key && q'.tasks[i].progress.Settled? ==>
                 (i < |q.tasks| && q'.tasks[i] == q.tasks[i]) || q'.tasks[i].progress.result == None
  {
  }

  // ---------------------------------------------------------------- when the file stays readable

  /** Requests are storable ones about seeded questions, writes break off only where that may happen, and no file
      grows past the integers that number its events. */
  predicate StepsOk(files: Files, steps: Steps, breaks: bool, c: Codec, parses: F.Parses, seed: Seed) {
    && (forall k :: 0 <= k < |steps| && steps[k].Submit? ==> F.JobOk(steps[k].request, parses, seed))
    && (breaks || WholeWrites(steps))
    && |steps| < MAX_SAFE_INTEGER
    && (forall key :: key in files ==> |LinesOf(files[key], c)| + |steps| <= MAX_SAFE_INTEGER)
  }

  /** Every file reads as a history, whether or not it ends in a line break. */
  predicate Histories(files: Files, c: Codec, parses: F.Parses, seed: Seed) {
    forall key :: key in files ==> F.Healthy(LinesOf(files[key], c), parses, seed)
  }

  predicate AllTerminated(files: Files) {
    forall key :: key in files ==> Terminated(files[key])
  }

  predicate AllReadable(q: Board, c: Codec, parses: F.Parses) {
    forall key :: key in q.files ==> Reads(q.files[key], c, parses).Some?
  }

  lemma {:induction false} FewTasks(files: Files, steps: Steps, c: Codec, parses: F.Parses, seed: Seed)
    requires forall k :: 0 <= k < |steps| && steps[k].Submit? ==> F.JobOk(steps[k].request, parses, seed)
    ensures var q := Q.Run(LinesOfFiles(files, c), steps, F.Decider(parses));
            |q.tasks| <= |steps| && F.TasksOk(q.tasks, parses, seed)
  {
    if steps != [] {
      assert forall k :: 0 <= k < |steps| - 1 ==> Init(steps)[k] == steps[k];
      FewTasks(files, Init(steps), c, parses, seed);
      var q := Q.Run(LinesOfFiles(files, c), Init(steps), F.Decider(parses));
      StepKeepsTasks(q, Last(steps), parses, seed);
    }
  }

  lemma StepKeepsTasks(q: Q.Queues<F.Job, Line, Outcome>, step: Q.Step<F.Job>, parses: F.Parses, seed: Seed)
    requires F.TasksOk(q.tasks, parses, seed) && (step.Submit? ==> F.JobOk(step.request, parses, seed))
    ensures var q' := Q.Next(q, step, F.Decider(parses));
            |q'.tasks| <= |q.tasks| + 1 && F.TasksOk(q'.tasks, parses, seed)
  {
  }

  lemma DeciderIsOk(c: Codec, parses: F.Parses)
    requires CodecOk(c)
    ensures DeciderOk(F.Decider(parses), c)
  {
    forall job: F.Job, lines ensures F.Decider(parses)(job, lines + [EmptyLine]) == F.Decider(parses)(job, lines) {
      assert Init(lines + [EmptyLine]) == lines;
    }
    assert forall e: Event :: Prints(c, F.EventJson(e));
  }

  /** Where every line is ended and no write breaks off, the runs over text are the runs over lines: each file is a
      readable history at every moment, and so everything proved of the log's lines holds of its text. */
  lemma TextIsAHistory(
      files: Files, steps: Steps, key: string, c: Codec, parses: F.Parses, seed: Seed)
    requires CodecOk(c) && StepsOk(files, steps, false, c, parses, seed)
    requires Histories(files, c, parses, seed) && AllTerminated(files)
    ensures Refines(Run(files, steps, c, parses), Q.Run(LinesOfFiles(files, c), steps, F.Decider(parses)), c)
    ensures F.RunOk(LinesOfFiles(files, c), Q.Run(LinesOfFiles(files, c), steps, F.Decider(parses)).tasks, parses, seed)
    ensures var text := Q.FileOf(Run(files, steps, c, parses), key);
            Reads(text, c, parses).Some? && ValidLog(Reads(text, c, parses).value, seed)
  {
    DeciderIsOk(c, parses);
    TextRefinesLines(files, steps, F.Decider(parses), c);
    FewTasks(files, steps, c, parses, seed);
    var lines := LinesOfFiles(files, c);
    forall k | k in lines ensures F.Healthy(lines[k], parses, seed) && |lines[k]| < |LinesOf(files[k], c)| {
      LinesAre(files[k], c);
      EndedReads(files[k], c, parses);
    }
    F.EveryRunIsAHistory(lines, steps, parses, seed, key);
    var q, l := Run(files, steps, c, parses), Q.Run(lines, steps, F.Decider(parses));
    assert FileRefines(Held(q.files, key), Held(l.files, key), c);
    EndedReads(Q.FileOf(q, key), c, parses);
  }

  // ---------------------------------------------------------------- and when it does not

  /** A change to one question that the log as it stands accepts. */
  function Change(log: seq<Event>, id: string, at: string, seed: Seed): F.Job {
    var current := CurrentState(log, id, seed(id));
    F.Job(Request(id, Other(current), current, seed(id)), at)
  }

  lemma ChangeIsAppended(text: string, id: string, at: string, c: Codec, parses: F.Parses, seed: Seed)
    requires Reads(text, c, parses).Some? && id != "" && parses(at)
    ensures var log := Reads(text, c, parses).value;
            var job, e := Change(log, id, at, seed), Changed(log, id, at, seed);
            && F.JobOk(job, parses, seed)
            && Decider(c, parses)(job, text) == Q.Append(Written(e, c), Applied(e))
  {
    var log := Reads(text, c, parses).value;
    var job := Change(log, id, at, seed);
    OnTextsIs(F.Decider(parses), job, text, c);
    assert F.Decider(parses)(job, LinesOf(text, c)) == F.Decide(job, LinesOf(text, c), parses);
    PrintOne(F.EventJson(Changed(log, id, at, seed)), c);
  }

  /** The event of that change. */
  function Changed(log: seq<Event>, id: string, at: string, seed: Seed): Event {
    var current := CurrentState(log, id, seed(id));
    Event(id, ActionProducingState(Other(current)), current, Other(current), at, |log| + 1, NextRevision(log, id))
  }

  lemma ChangedIsReadable(lines: seq<Line>, id: string, at: string, parses: F.Parses, seed: Seed)
    requires F.Healthy(lines, parses, seed) && |lines| < MAX_SAFE_INTEGER && id != "" && parses(at)
    ensures var log := F.ReadAll(lines, parses).value;
            var e := Changed(log, id, at, seed);
            && F.Readable(e, parses) && ChainStep(log, e, seed)
            && F.Healthy(lines + [Document(F.EventJson(e))], parses, seed)
  {
    var log := F.ReadAll(lines, parses).value;
    var e := Changed(log, id, at, seed);
    LatestIsLast(log, id, seed);
    F.EventsFit(lines, parses);
    F.CountBelow(log, id);
    NumberedInOrder(log, e);
    F.AppendedIsHealthy(lines, e, parses, seed);
  }

  lemma NumberedInOrder(log: seq<Event>, e: Event)
    requires (forall k :: 0 <= k < |log| ==> log[k].sequence == k + 1) && e.sequence == |log| + 1
    ensures forall k :: 0 <= k < |log| ==> log[k].sequence < e.sequence
  {
  }

  /** One change more, with nothing else in between. */
  function Then(
      files: Files, steps: Steps, key: string, job: F.Job, fault: Q.Fault, c: Codec, parses: F.Parses): Steps
  {
    steps + Q.OneTurn(|Run(files, steps, c, parses).tasks|, key, job, fault)
  }

  lemma ThenIsOk(
      files: Files, steps: Steps, key: string, job: F.Job, fault: Q.Fault, breaks: bool, c: Codec, parses: F.Parses,
      seed: Seed)
    requires StepsOk(files, steps, breaks, c, parses, seed) && F.JobOk(job, parses, seed) && (fault.Torn? ==> breaks)
    requires Roomy(files, |steps| + 4, c)
    ensures StepsOk(files, Then(files, steps, key, job, fault, c, parses), breaks, c, parses, seed)
  {
    var steps' := Then(files, steps, key, job, fault, c, parses);
    assert forall k :: 0 <= k < |steps| ==> steps'[k] == steps[k];
    assert forall k :: |steps| <= k < |steps'| ==>
      steps'[k] == Q.OneTurn(|Run(files, steps, c, parses).tasks|, key, job, fault)[k - |steps|];
  }

  /** Room for a run of this many steps. */
  predicate Roomy(files: Files, n: nat, c: Codec) {
    n < MAX_SAFE_INTEGER && forall key :: key in files ==> |LinesOf(files[key], c)| + n <= MAX_SAFE_INTEGER
  }

  /** A change all alone: what it leaves in the file. */
  lemma ChangeTakesTurn(
      files: Files, steps: Steps, key: string, id: string, at: string, fault: Q.Fault, c: Codec, parses: F.Parses,
      seed: Seed)
    requires Q.Quiet(Run(files, steps, c, parses)) && id != "" && parses(at)
    requires Reads(Q.FileOf(Run(files, steps, c, parses), key), c, parses).Some?
    ensures var text := Q.FileOf(Run(files, steps, c, parses), key);
            var log := Reads(text, c, parses).value;
            var line := Written(Changed(log, id, at, seed), c);
            var q' := Run(files, Then(files, steps, key, Change(log, id, at, seed), fault, c, parses), c, parses);
            Q.Quiet(q') && Q.FileOf(q', key) == text + Q.Reached(line, Q.Written(fault, |line|))
  {
    var text := Q.FileOf(Run(files, steps, c, parses), key);
    var job := Change(Reads(text, c, parses).value, id, at, seed);
    ChangeIsAppended(text, id, at, c, parses, seed);
    Q.OneMore(files, steps, key, job, fault, Decider(c, parses));
  }

  /** On a file that ends without its line break the next change is accepted - and the file never read again. */
  lemma Spoiled(
      files: Files, steps: Steps, key: string, id: string, at: string, breaks: bool, c: Codec, parses: F.Parses,
      seed: Seed) returns (steps': Steps)
    requires CodecOk(c) && id != "" && parses(at) && Q.Quiet(Run(files, steps, c, parses))
    requires StepsOk(files, steps, breaks, c, parses, seed) && Roomy(files, |steps| + 4, c)
    requires var text := Q.FileOf(Run(files, steps, c, parses), key);
             && F.Healthy(LinesOf(text, c), parses, seed) && |LinesOf(text, c)| < MAX_SAFE_INTEGER && !Terminated(text)
    ensures StepsOk(files, steps', breaks, c, parses, seed)
    ensures Reads(Q.FileOf(Run(files, steps', c, parses), key), c, parses) == None
  {
    var text := Q.FileOf(Run(files, steps, c, parses), key);
    var log := Reads(text, c, parses).value;
    ChangedIsReadable(LinesOf(text, c), id, at, parses, seed);
    ChangeIsAppended(text, id, at, c, parses, seed);
    ChangeTakesTurn(files, steps, key, id, at, Q.NoFault, c, parses, seed);
    AppendReadsBackExactlyWhen(text, Changed(log, id, at, seed), c, parses);
    steps' := Then(files, steps, key, Change(log, id, at, seed), Q.NoFault, c, parses);
    ThenIsOk(files, steps, key, Change(log, id, at, seed), Q.NoFault, breaks, c, parses, seed);
  }

  lemma StartsReadable(files: Files, key: string, c: Codec, parses: F.Parses, seed: Seed)
    requires Histories(files, c, parses, seed)
    ensures var text := Q.FileOf(Run(files, [], c, parses), key);
            && Q.Quiet(Run(files, [], c, parses)) && text == (if key in files then files[key] else [])
            && F.Healthy(LinesOf(text, c), parses, seed) && (key !in files ==> |LinesOf(text, c)| == 1)
  {
    EmptyIsHealthy(c, parses, seed);
  }

  lemma EmptyIsHealthy(c: Codec, parses: F.Parses, seed: Seed)
    ensures LinesOf([], c) == [EmptyLine] && F.Healthy([EmptyLine], parses, seed)
  {
    assert Split([], '\n') == [[]];
    OneLineMore([], EmptyLine, parses);
    assert [] + [EmptyLine] == [EmptyLine];
    var none: seq<Event> := [];
    assert ChainLog(none, seed);
  }

  /** A change whose write breaks off just before its line break. */
  lemma BreaksOff(files: Files, key: string, id: string, at: string, c: Codec, parses: F.Parses, seed: Seed)
    returns (steps: Steps)
    requires CodecOk(c) && id != "" && parses(at) && Histories(files, c, parses, seed) && Roomy(files, 8, c)
    requires AllTerminated(files)
    ensures StepsOk(files, steps, true, c, parses, seed) && |steps| == 4 && Q.Quiet(Run(files, steps, c, parses))
    ensures var text := Q.FileOf(Run(files, steps, c, parses), key);
            && F.Healthy(LinesOf(text, c), parses, seed) && |LinesOf(text, c)| < MAX_SAFE_INTEGER && !Terminated(text)
  {
    StartsReadable(files, key, c, parses, seed);
    var text := Q.FileOf(Run(files, [], c, parses), key);
    var line := c.stringify(F.EventJson(Changed(Reads(text, c, parses).value, id, at, seed)));
    TornChange(text, id, at, c, parses, seed);
    ChangeTakesTurn(files, [], key, id, at, Q.Torn(|line|), c, parses, seed);
    var job := Change(Reads(text, c, parses).value, id, at, seed);
    steps := Then(files, [], key, job, Q.Torn(|line|), c, parses);
    ThenIsOk(files, [], key, job, Q.Torn(|line|), true, c, parses, seed);
  }

  /** The next change, without its line break. */
  lemma TornChange(text: string, id: string, at: string, c: Codec, parses: F.Parses, seed: Seed)
    requires CodecOk(c) && id != "" && parses(at) && Terminated(text)
    requires F.Healthy(LinesOf(text, c), parses, seed) && |LinesOf(text, c)| < MAX_SAFE_INTEGER
    ensures var e := Changed(Reads(text, c, parses).value, id, at, seed);
            var line := c.stringify(F.EventJson(e));
            var torn := text + Q.Reached(Written(e, c), Q.Written(Q.Torn(|line|), |Written(e, c)|));
            && F.Healthy(LinesOf(torn, c), parses, seed) && !Terminated(torn)
            && |LinesOf(torn, c)| == |LinesOf(text, c)|
            && F.JobOk(Change(Reads(text, c, parses).value, id, at, seed), parses, seed)
  {
    var e := Changed(Reads(text, c, parses).value, id, at, seed);
    var line := c.stringify(F.EventJson(e));
    ChangedIsReadable(LinesOf(text, c), id, at, parses, seed);
    ChangeIsAppended(text, id, at, c, parses, seed);
    assert Q.Reached(Written(e, c), |line|) == line;
    TornIsHealthy(text, e, c, parses, seed);
  }

  lemma TornIsHealthy(text: string, e: Event, c: Codec, parses: F.Parses, seed: Seed)
    requires CodecOk(c) && F.Healthy(LinesOf(text, c), parses, seed) && Terminated(text) && F.Readable(e, parses)
    requires var log := Reads(text, c, parses).value; ChainStep(log, e, seed) && e.sequence == |log| + 1
    ensures var torn := text + c.stringify(F.EventJson(e));
            && F.Healthy(LinesOf(torn, c), parses, seed) && !Terminated(torn)
            && |LinesOf(torn, c)| == |LinesOf(text, c)|
  {
    var json := F.EventJson(e);
    assert Prints(c, json);
    TornReads(text, e, c, parses);
    TornAppend(text, c.stringify(json), c);
    LinesAre(text, c);
    LinesAre(text + c.stringify(json), c);
    var log := Reads(text, c, parses).value;
    assert Init(log + [e]) == log && Last(log + [e]) == e;
  }

  /** The log's files stay readable through every run if and only if no write breaks off half-way and every file
      starts with its last line ended. Otherwise a run makes one unreadable, and it stays so for good. */
  lemma ReadableExactlyWhen(
      files: Files, breaks: bool, id: string, at: string, c: Codec, parses: F.Parses, seed: Seed)
    requires CodecOk(c) && id != "" && parses(at) && Histories(files, c, parses, seed) && Roomy(files, 8, c)
    ensures (forall steps, key: string :: StepsOk(files, steps, breaks, c, parses, seed) ==>
               Reads(Q.FileOf(Run(files, steps, c, parses), key), c, parses).Some?)
            <==> !breaks && AllTerminated(files)
  {
    if !breaks && AllTerminated(files) {
      forall steps, key: string | StepsOk(files, steps, breaks, c, parses, seed)
        ensures Reads(Q.FileOf(Run(files, steps, c, parses), key), c, parses).Some?
      {
        TextIsAHistory(files, steps, key, c, parses, seed);
      }
    } else {
      var steps: Steps, key := [], "";
      if !AllTerminated(files) {
        key :| key in files && !Terminated(files[key]);
        StartsReadable(files, key, c, parses, seed);
      } else {
        steps := BreaksOff(files, key, id, at, c, parses, seed);
      }
      steps := Spoiled(files, steps, key, id, at, breaks, c, parses, seed);
      assert StepsOk(files, steps, breaks, c, parses, seed);
    }
  }
}
