// The append-only lifecycle file: src/adapters/persistence/file-question-lifecycle-log.ts.
module FileLifecycleLog {
  import opened Common
  import opened Json
  import opened JsonLines
  import opened Text
  import opened Lifecycle
  import LifecycleRotation
  import Rotation
  import Q = WriteQueue

  /** Which strings Date.parse reads as an instant. */
  type Parses = string -> bool

  /** A request as the queue sees it: what was asked, and the time stamp its event would carry. */
  datatype Job = Job(request: Request, occurredAt: string)

  // ---------------------------------------------------------------- one line

  function StateName(state: QuestionState): string {
    if state == Open then "open" else "closed"
  }

  function ActionName(action: Action): string {
    if action == ClosedAction then "closed" else "reopened"
  }

  /** JSON.stringify of an event. */
  function EventJson(e: Event): Json {
    Obj(map["questionId" := Str(e.questionId), "action" := Str(ActionName(e.action)),
            "previousState" := Str(StateName(e.previousState)), "nextState" := Str(StateName(e.nextState)),
            "occurredAt" := Str(e.occurredAt), "sequence" := Num(e.sequence as real),
            "revision" := Num(e.revision as real)])
  }

  function ReadState(json: Json, name: string): Option<QuestionState> {
    match StringField(json, name)
    case None => None
    case Some(s) => if s == "open" then Some(Open) else if s == "closed" then Some(Closed) else None
  }

  function ReadAction(json: Json): Option<Action> {
    match StringField(json, "action")
    case None => None
    case Some(s) => if s == "closed" then Some(ClosedAction) else if s == "reopened" then Some(ReopenedAction) else None
  }

  /** One line of the log, checked rather than cast. */
  function ReadEvent(json: Json, parses: Parses): Option<Event> {
    var id, occurredAt := StringField(json, "questionId"), StringField(json, "occurredAt");
    var previous, next, action := ReadState(json, "previousState"), ReadState(json, "nextState"), ReadAction(json);
    var sequence, revision := IntegerField(json, "sequence"), IntegerField(json, "revision");
    if id.None? || id.value == "" then None
    else if action.None? || previous.None? || next.None? then None
    else if previous == next || ActionProducingState(next.value) != action.value then None
    else if occurredAt.None? || !parses(occurredAt.value) then None
    else if sequence.None? || sequence.value < 1 || revision.None? || revision.value < 0 then None
    else Some(Event(id.value, action.value, previous.value, next.value, occurredAt.value, sequence.value,
      revision.value))
  }

  /** The events `ReadEvent` accepts: exactly those whose own line it reads back unchanged. */
  predicate Readable(e: Event, parses: Parses) {
    && e.questionId != "" && e.nextState != e.previousState && e.action == ActionProducingState(e.nextState)
    && parses(e.occurredAt)
    && 1 <= e.sequence <= MAX_SAFE_INTEGER && 0 <= e.revision <= MAX_SAFE_INTEGER
  }

  lemma EventRoundTrip(e: Event, parses: Parses)
    ensures ReadEvent(EventJson(e), parses) == if Readable(e, parses) then Some(e) else None
  {
    IntegerPrints(e.sequence);
    IntegerPrints(e.revision);
    var json := EventJson(e);
    assert StringField(json, "questionId") == Some(e.questionId);
    assert StringField(json, "occurredAt") == Some(e.occurredAt);
    assert ReadState(json, "previousState") == Some(e.previousState);
    assert ReadState(json, "nextState") == Some(e.nextState);
    assert ReadAction(json) == Some(e.action);
  }

  /** Nothing else gets in: whatever a line holds, an event read from it is a readable one. */
  lemma OnlyReadableEvents(json: Json, parses: Parses)
    ensures ReadEvent(json, parses).Some? ==> Readable(ReadEvent(json, parses).value, parses)
  {
  }

  // ---------------------------------------------------------------- the whole file

  /** Every event in the file, or None for a thrown read: one unreadable line fails the whole read. */
  function ReadAll(lines: seq<Line>, parses: Parses): Option<seq<Event>> {
    if lines == [] then Some([])
    else
      match (ReadAll(Init(lines), parses), Last(lines))
      case (None, _) => None
      case (Some(events), EmptyLine) => Some(events)
      case (Some(_), NotJson) => None
      case (Some(events), Document(json)) =>
        match ReadEvent(json, parses)
        case None => None
        case Some(e) => Some(events + [e])
  }

  /** An empty line, or one event. */
  predicate LineOk(line: Line, parses: Parses) {
    line.EmptyLine? || (line.Document? && ReadEvent(line.json, parses).Some?)
  }

  /** A file is read exactly when each of its lines is empty or an event; otherwise the read throws. Nothing is skipped:
      every event read stands in the file, and every line that is one is read. */
  lemma {:induction false} ReadExactlyWhen(lines: seq<Line>, parses: Parses)
    ensures ReadAll(lines, parses).Some? <==> forall k :: 0 <= k < |lines| ==> LineOk(lines[k], parses)
    ensures ReadAll(lines, parses).Some? ==>
              forall e :: e in ReadAll(lines, parses).value
                <==> exists k :: 0 <= k < |lines| && lines[k].Document? && ReadEvent(lines[k].json, parses) == Some(e)
  {
    if lines != [] {
      ReadExactlyWhen(Init(lines), parses);
      assert lines == Init(lines) + [Last(lines)];
    }
  }

  /** The critical section of `append`. */
  function Decide(job: Job, lines: seq<Line>, parses: Parses): Q.Decision<Line, Outcome> {
    match ReadAll(lines, parses)
    case None => Q.Throw
    case Some(events) =>
      var r := job.request;
      var current := CurrentState(events, r.questionId, r.seededState);
      if current != r.expectedState then Q.Answer(Stale(current))
      else
        var e := Event(r.questionId, ActionProducingState(r.nextState), r.expectedState, r.nextState, job.occurredAt,
                       |events| + 1, NextRevision(events, r.questionId));
        Q.Append([Document(EventJson(e))], Applied(e))
  }

  function Decider(parses: Parses): Q.Decide<Job, Line, Outcome> {
    (job, lines) => Decide(job, lines, parses)
  }

  /** One instance of the log over one directory; `content` is its file. */
  class FileQuestionLifecycleLog {
    var content: string
    const codec: Codec
    const parses: Parses

    constructor (content: string, codec: Codec, parses: Parses)
      ensures this.content == content && this.codec == codec && this.parses == parses
    {
      this.content, this.codec, this.parses := content, codec, parses;
    }

    method Events() returns (events: Option<seq<Event>>)
      ensures events == ReadAll(LinesOf(content, codec), parses)
    {
      var found: seq<Event> := [];
      var parts := Split(content, '\n');
      ghost var lines := LinesOf(content, codec);
      for index := 0 to |parts|
        invariant ReadAll(lines[..index], parses) == Some(found)
      {
        assert Init(lines[..index + 1]) == lines[..index] && Last(lines[..index + 1]) == lines[index];
        if parts[index] != [] {
          var parsed := codec.parse(parts[index]);
          if parsed.None? {
            FirstBadLine(lines, index + 1, parses);
            return None;
          }
          var event := ReadEvent(parsed.value, parses);
          if event.None? {
            FirstBadLine(lines, index + 1, parses);
            return None;
          }
          found := found + [event.value];
        }
      }
      assert lines[..|parts|] == lines;
      events := Some(found);
    }

    method LatestPerQuestion(events: seq<Event>) returns (latest: map<string, Event>)
      ensures forall id :: id in latest <==> LatestByRevision(events, id).Some?
      ensures forall id :: id in latest ==> LatestByRevision(events, id) == Some(latest[id])
    {
      latest := map[];
      for i := 0 to |events|
        invariant forall id :: id in latest <==> LatestByRevision(events[..i], id).Some?
        invariant forall id :: id in latest ==> LatestByRevision(events[..i], id) == Some(latest[id])
      {
        var event := events[i];
        assert Init(events[..i + 1]) == events[..i];
        if event.questionId !in latest || event.revision > latest[event.questionId].revision {
          latest := latest[event.questionId := event];
        }
      }
      assert events[..|events|] == events;
    }

    /** The queued task: a thrown read or write is None, and a write that fails late has still happened. */
    method Append(job: Job, fault: Q.Fault) returns (result: Option<Outcome>)
      modifies this
      ensures match OnText(Decide(job, LinesOf(old(content), codec), parses), codec)
              case Throw => result == None && content == old(content)
              case Answer(outcome) => result == Some(outcome) && content == old(content)
              case Append(more, outcome) =>
                && result == (if fault.NoFault? then Some(outcome) else None)
                && content == old(content) + Q.Reached(more, Q.Written(fault, |more|))
    {
      var read := Events();
      if read.None? {
        return None;
      }
      var events := read.value;
      var latest := LatestPerQuestion(events);
      var known := job.request.questionId in latest;
      var current := if known then latest[job.request.questionId].nextState else job.request.seededState;
      assert current == CurrentState(events, job.request.questionId, job.request.seededState);
      if current != job.request.expectedState {
        return Some(Stale(current));
      }
      var revision := if known then latest[job.request.questionId].revision + 1 else 0;
      assert revision == NextRevision(events, job.request.questionId);
      var event := Event(
        job.request.questionId, ActionProducingState(job.request.nextState), job.request.expectedState,
        job.request.nextState, job.occurredAt, |events| + 1, revision);
      var line := LineFor(EventJson(event), codec);
      PrintOne(EventJson(event), codec);
      content := content + Q.Reached(line, Q.Written(fault, |line|));
      result := if fault.NoFault? then Some(Applied(event)) else None;
    }

    method Snapshot() returns (snapshot: Option<Lifecycle.Snapshot>)
      ensures match ReadAll(LinesOf(content, codec), parses)
              case None => snapshot == None
              case Some(events) => snapshot == Some(LifecycleRotation.ReadSnapshot(events))
    {
      var read := Events();
      if read.None? {
        return None;
      }
      var latest := LatestPerQuestion(read.value);
      forall id ensures id in latest <==> id in LifecycleRotation.QuestionIds(read.value) {
        HeldIds(read.value, id);
      }
      var facts := map id | id in latest :: Fact(latest[id].nextState, latest[id].sequence);
      assert facts == LifecycleRotation.ReadSnapshot(read.value);
      snapshot := Some(facts);
    }

    /** Newest first: the matching events by descending sequence, by insertion. */
    method History(questionId: Option<string>) returns (history: Option<seq<Event>>)
      ensures match ReadAll(LinesOf(content, codec), parses)
              case None => history == None
              case Some(events) => history == Some(Descending(Matching(events, questionId)))
    {
      var read := Events();
      if read.None? {
        return None;
      }
      history := Some(Descending(Matching(read.value, questionId)));
    }
  }

  /** A read that fails on a prefix fails on the file. */
  lemma {:induction false} FirstBadLine(lines: seq<Line>, k: nat, parses: Parses)
    requires k <= |lines| && ReadAll(lines[..k], parses) == None
    ensures ReadAll(lines, parses) == None
  {
    if k == |lines| {
      assert lines[..k] == lines;
    } else {
      assert Init(lines)[..k] == lines[..k];
      FirstBadLine(Init(lines), k, parses);
    }
  }

  lemma {:induction false} HeldIds(events: seq<Event>, id: string)
    ensures LatestByRevision(events, id).Some? <==> id in LifecycleRotation.QuestionIds(events)
  {
    if events != [] {
      HeldIds(Init(events), id);
      assert events == Init(events) + [Last(events)];
      assert LifecycleRotation.QuestionIds(events)
          == LifecycleRotation.QuestionIds(Init(events)) + {Last(events).questionId};
    }
  }

  // ---------------------------------------------------------------- history

  function Matching(events: seq<Event>, questionId: Option<string>): seq<Event> {
    if questionId.None? then events else Filter(events, (e: Event) => e.questionId == questionId.value)
  }

  function InsertDescending(sorted: seq<Event>, e: Event): seq<Event> {
    if sorted == [] || Last(sorted).sequence >= e.sequence then sorted + [e]
    else InsertDescending(Init(sorted), e) + [Last(sorted)]
  }

  function Descending(events: seq<Event>): seq<Event> {
    if events == [] then [] else InsertDescending(Descending(Init(events)), Last(events))
  }

  function Reversed(events: seq<Event>): seq<Event> {
    if events == [] then [] else [Last(events)] + Reversed(Init(events))
  }

  lemma {:induction false} InsertGreatest(sorted: seq<Event>, e: Event)
    requires forall x :: x in sorted ==> x.sequence < e.sequence
    ensures InsertDescending(sorted, e) == [e] + sorted
  {
    if sorted != [] {
      InsertGreatest(Init(sorted), e);
    }
  }

  lemma {:induction false} ReversedContents(events: seq<Event>, x: Event)
    ensures x in Reversed(events) <==> x in events
  {
    if events != [] {
      ReversedContents(Init(events), x);
      assert events == Init(events) + [Last(events)];
    }
  }

  /** Newest first is the file read backwards. */
  lemma {:induction false} DescendingIsReversed(events: seq<Event>)
    requires SequenceOrdered(events)
    ensures Descending(events) == Reversed(events)
  {
    if events != [] {
      DescendingIsReversed(Init(events));
      forall x | x in Reversed(Init(events)) ensures x.sequence < Last(events).sequence {
        ReversedContents(Init(events), x);
        var k :| 0 <= k < |events| - 1 && events[k] == x;
      }
      InsertGreatest(Reversed(Init(events)), Last(events));
    }
  }

  lemma {:induction false} InsertedContents(sorted: seq<Event>, e: Event)
    ensures multiset(InsertDescending(sorted, e)) == multiset(sorted) + multiset{e}
  {
    if sorted != [] {
      assert sorted == Init(sorted) + [Last(sorted)];
      InsertedContents(Init(sorted), e);
    }
  }

  predicate NewestFirst(events: seq<Event>) {
    forall i, j :: 0 <= i < j < |events| ==> events[i].sequence >= events[j].sequence
  }

  lemma {:induction false} InsertedIsDescending(sorted: seq<Event>, e: Event)
    requires NewestFirst(sorted)
    ensures NewestFirst(InsertDescending(sorted, e))
  {
    if sorted != [] && Last(sorted).sequence < e.sequence {
      InsertedIsDescending(Init(sorted), e);
      var before := InsertDescending(Init(sorted), e);
      InsertedContents(Init(sorted), e);
      forall i | 0 <= i < |before| ensures before[i].sequence >= Last(sorted).sequence {
        assert before[i] in multiset(before);
        if before[i] != e { assert before[i] in Init(sorted); }
      }
    }
  }

  lemma {:induction false} DescendingIs(events: seq<Event>)
    ensures multiset(Descending(events)) == multiset(events) && NewestFirst(Descending(events))
  {
    if events != [] {
      DescendingIs(Init(events));
      InsertedContents(Descending(Init(events)), Last(events));
      InsertedIsDescending(Descending(Init(events)), Last(events));
      assert events == Init(events) + [Last(events)];
    }
  }

  /** The history of one question is every event with exactly that id, and of no question in particular every event;
      each as often as the log has it, the newest first. */
  lemma HistoryIs(events: seq<Event>, id: Option<string>, e: Event)
    ensures var history := Descending(Matching(events, id));
            && multiset(history)[e] == (if id == None || id == Some(e.questionId) then multiset(events)[e] else 0)
            && NewestFirst(history)
  {
    DescendingIs(Matching(events, id));
    if id.Some? {
      FilterCount(events, (x: Event) => x.questionId == id.value, e);
    }
  }

  lemma {:induction false} FilterOrdered(events: seq<Event>, keep: Event -> bool)
    requires SequenceOrdered(events)
    ensures SequenceOrdered(Filter(events, keep))
  {
    if events != [] {
      FilterOrdered(Init(events), keep);
      var kept := Filter(Init(events), keep);
      forall i | 0 <= i < |kept| ensures kept[i].sequence < Last(events).sequence {
        assert kept[i] in Init(events);
        var k :| 0 <= k < |events| - 1 && events[k] == kept[i];
      }
    }
  }

  // ---------------------------------------------------------------- the file over whole runs

  /** A file this adapter could have produced: readable, one chain per question, sequence = place. */
  predicate Healthy(lines: seq<Line>, parses: Parses, seed: Seed) {
    match ReadAll(lines, parses)
    case None => false
    case Some(log) => ChainLog(log, seed) && forall k :: 0 <= k < |log| ==> log[k].sequence == k + 1
  }

  predicate JobOk(job: Job, parses: Parses, seed: Seed) {
    && job.request.questionId != "" && job.request.nextState != job.request.expectedState
    && job.request.seededState == seed(job.request.questionId)
    && parses(job.occurredAt)
  }

  /** One critical section on a healthy file answers as the sequential store does, and the line it appends
      is read back as the event it answered with. */
  lemma DecideIsSequential(job: Job, lines: seq<Line>, parses: Parses, seed: Seed)
    requires Healthy(lines, parses, seed) && JobOk(job, parses, seed) && |lines| < MAX_SAFE_INTEGER
    ensures var log := ReadAll(lines, parses).value;
            var answer := Answer(log, job.request, job.occurredAt, |log| + 1);
            && (answer.Stale? ==> Decide(job, lines, parses) == Q.Answer(answer))
            && (answer.Applied? ==>
                  var line := Document(EventJson(answer.event));
                  && Decide(job, lines, parses) == Q.Append([line], answer)
                  && ReadAll(lines + [line], parses) == Some(log + [answer.event])
                  && Healthy(lines + [line], parses, seed))
  {
    var log := ReadAll(lines, parses).value;
    var answer := Answer(log, job.request, job.occurredAt, |log| + 1);
    DecisionIsAnswer(job, lines, parses, seed);
    if answer.Applied? {
      EventsFit(lines, parses);
      CountBelow(log, job.request.questionId);
      AppendedIsHealthy(lines, answer.event, parses, seed);
    }
  }

  /** Reading the state off the latest event decides as the whole history would. */
  lemma DecisionIsAnswer(job: Job, lines: seq<Line>, parses: Parses, seed: Seed)
    requires Healthy(lines, parses, seed) && JobOk(job, parses, seed)
    ensures var log := ReadAll(lines, parses).value;
            var answer := Answer(log, job.request, job.occurredAt, |log| + 1);
            Decide(job, lines, parses)
            == if answer.Stale? then Q.Answer(answer) else Q.Append([Document(EventJson(answer.event))], answer)
  {
    LatestIsLast(ReadAll(lines, parses).value, job.request.questionId, seed);
  }

  /** A readable event that continues the chain is read back behind all others. */
  lemma AppendedIsHealthy(lines: seq<Line>, e: Event, parses: Parses, seed: Seed)
    requires Healthy(lines, parses, seed) && Readable(e, parses)
    requires var log := ReadAll(lines, parses).value; ChainStep(log, e, seed) && e.sequence == |log| + 1
    ensures ReadAll(lines + [Document(EventJson(e))], parses) == Some(ReadAll(lines, parses).value + [e])
    ensures Healthy(lines + [Document(EventJson(e))], parses, seed)
  {
    var log := ReadAll(lines, parses).value;
    EventRoundTrip(e, parses);
    assert Init(lines + [Document(EventJson(e))]) == lines;
    assert Init(log + [e]) == log && Last(log + [e]) == e;
  }

  lemma {:induction false} EventsFit(lines: seq<Line>, parses: Parses)
    ensures ReadAll(lines, parses).Some? ==> |ReadAll(lines, parses).value| <= |lines|
  {
    if lines != [] {
      EventsFit(Init(lines), parses);
    }
  }

  lemma {:induction false} CountBelow(log: seq<Event>, id: string)
    ensures Count(log, id) <= |log|
  {
    if log != [] {
      CountBelow(Init(log), id);
    }
  }

  predicate TasksOk(tasks: seq<Q.Task<Job, Line, Outcome>>, parses: Parses, seed: Seed) {
    forall k :: 0 <= k < |tasks| ==> JobOk(tasks[k].request, parses, seed)
  }

  /** Running tasks one after another keeps a healthy file healthy and only ever adds events at its end. */
  lemma {:induction false} SerialIsHealthy(
      lines: seq<Line>, tasks: seq<Q.Task<Job, Line, Outcome>>, key: string, parses: Parses, seed: Seed)
    requires Healthy(lines, parses, seed) && TasksOk(tasks, parses, seed) && |lines| + |tasks| <= MAX_SAFE_INTEGER
    ensures var after := Q.Serial(lines, tasks, key, Decider(parses));
            && Healthy(after, parses, seed) && |after| <= |lines| + |tasks|
            && ReadAll(lines, parses).value <= ReadAll(after, parses).value
  {
    if tasks != [] {
      SerialIsHealthy(lines, Init(tasks), key, parses, seed);
      TurnIsHealthy(Last(tasks), Q.Serial(lines, Init(tasks), key, Decider(parses)), parses, seed);
    }
  }

  /** One task's turn at a healthy file, whether or not its line reached it. */
  lemma TurnIsHealthy(t: Q.Task<Job, Line, Outcome>, lines: seq<Line>, parses: Parses, seed: Seed)
    requires Healthy(lines, parses, seed) && JobOk(t.request, parses, seed) && |lines| < MAX_SAFE_INTEGER
    ensures var d := Decider(parses)(t.request, lines);
            d.Append? ==>
              var after := lines + Q.Reached(d.more, t.wrote);
              && Healthy(after, parses, seed) && |after| <= |lines| + 1
              && ReadAll(lines, parses).value <= ReadAll(after, parses).value
  {
    DecideIsSequential(t.request, lines, parses, seed);
    assert lines + [] == lines;
  }

  /** An append is one line. */
  lemma OneLineOnly(job: Job, lines: seq<Line>, parses: Parses)
    ensures Decider(parses)(job, lines).Append? ==> |Decider(parses)(job, lines).more| == 1
  {
  }

  /** The requests of a run are storable ones about seeded questions, and the run is shorter than the
      integers a file can number. */
  predicate RunOk(files: map<string, seq<Line>>, tasks: seq<Q.Task<Job, Line, Outcome>>, parses: Parses, seed: Seed) {
    && (forall key :: key in files ==> Healthy(files[key], parses, seed) && |files[key]| + |tasks| <= MAX_SAFE_INTEGER)
    && TasksOk(tasks, parses, seed) && |tasks| < MAX_SAFE_INTEGER
  }

  /** The history a directory's file held at the turn of task `i`. */
  function BeforeTask(
      files: map<string, seq<Line>>, steps: seq<Q.Step<Job>>, i: nat, parses: Parses): Option<seq<Event>>
    requires i < |Q.Run(files, steps, Decider(parses)).tasks|
  {
    var tasks := Q.Run(files, steps, Decider(parses)).tasks;
    var start := Q.FileOf(Q.Started<Job, Line, Outcome>(files), tasks[i].key);
    ReadAll(Q.Serial(start, tasks[..i], tasks[i].key, Decider(parses)), parses)
  }

  /** The main result: in every interleaving of concurrent appends, with reads and writes failing anywhere,
      each directory's file stays a readable history in sequence order whose events are numbered by their
      place. */
  lemma EveryRunIsAHistory(
      files: map<string, seq<Line>>, steps: seq<Q.Step<Job>>, parses: Parses, seed: Seed, key: string)
    requires RunOk(files, Q.Run(files, steps, Decider(parses)).tasks, parses, seed)
    ensures var file := Q.FileOf(Q.Run(files, steps, Decider(parses)), key);
            Healthy(file, parses, seed) && ValidLog(ReadAll(file, parses).value, seed)
  {
    var q := Q.Run(files, steps, Decider(parses));
    Q.EveryRunIsSerial(files, steps, Decider(parses));
    SerialIsHealthy(Q.FileOf(Q.Started<Job, Line, Outcome>(files), key), q.tasks, key, parses, seed);
  }

  /** ... and every settled append got exactly the answer of the sequential store at its turn. A refused
      caller is never told the state it expected. */
  lemma EveryAnswerIsSequential(
      files: map<string, seq<Line>>, steps: seq<Q.Step<Job>>, parses: Parses, seed: Seed, i: nat)
    requires RunOk(files, Q.Run(files, steps, Decider(parses)).tasks, parses, seed)
    requires i < |Q.Run(files, steps, Decider(parses)).tasks|
    requires var t := Q.Run(files, steps, Decider(parses)).tasks[i]; t.progress.Settled? && t.progress.result.Some?
    ensures var t := Q.Run(files, steps, Decider(parses)).tasks[i];
            var before := BeforeTask(files, steps, i, parses);
            && before.Some? && ChainLog(before.value, seed)
            && t.progress.result.value
               == Answer(before.value, t.request.request, t.request.occurredAt, |before.value| + 1)
            && (t.progress.result.value.Stale? ==>
                  t.progress.result.value.currentState != t.request.request.expectedState)
  {
    var q := Q.Run(files, steps, Decider(parses));
    var t := q.tasks[i];
    var start := Q.FileOf(Q.Started<Job, Line, Outcome>(files), t.key);
    Q.EveryRunIsSerial(files, steps, Decider(parses));
    assert Q.TaskInv(q, i, files, Decider(parses));
    SerialIsHealthy(start, q.tasks[..i], t.key, parses, seed);
    ResultIsAnswer(t, Q.Serial(start, q.tasks[..i], t.key, Decider(parses)), parses, seed);
  }

  lemma ResultIsAnswer(t: Q.Task<Job, Line, Outcome>, lines: seq<Line>, parses: Parses, seed: Seed)
    requires Healthy(lines, parses, seed) && JobOk(t.request, parses, seed) && |lines| < MAX_SAFE_INTEGER
    requires Q.ResultIsSerial(t, lines, Decider(parses)) && t.progress.Settled? && t.progress.result.Some?
    ensures var log := ReadAll(lines, parses).value;
            && t.progress.result.value == Answer(log, t.request.request, t.request.occurredAt, |log| + 1)
            && (t.progress.result.value.Stale? ==>
              t.progress.result.value.currentState != t.request.request.expectedState)
  {
    DecideIsSequential(t.request, lines, parses, seed);
  }

  /** A damaged file is refused, not repaired: while one line cannot be read, no append resolves and the
      file does not change. */
  lemma DamagedFileRefusesEverything(
      files: map<string, seq<Line>>, steps: seq<Q.Step<Job>>, parses: Parses, i: nat)
    requires var q := Q.Run(files, steps, Decider(parses));
             i < |q.tasks| && q.tasks[i].key in files && ReadAll(files[q.tasks[i].key], parses) == None
    ensures var q := Q.Run(files, steps, Decider(parses));
            && Q.FileOf(q, q.tasks[i].key) == files[q.tasks[i].key]
            && (q.tasks[i].progress.Settled? ==> q.tasks[i].progress.result == None)
  {
    var q := Q.Run(files, steps, Decider(parses));
    Q.EveryRunIsSerial(files, steps, Decider(parses));
    assert Q.TaskInv(q, i, files, Decider(parses));
    DamagedSerial(files[q.tasks[i].key], q.tasks, q.tasks[i].key, parses);
    DamagedSerial(files[q.tasks[i].key], q.tasks[..i], q.tasks[i].key, parses);
  }

  lemma {:induction false} DamagedSerial(
      lines: seq<Line>, tasks: seq<Q.Task<Job, Line, Outcome>>, key: string, parses: Parses)
    requires ReadAll(lines, parses) == None
    ensures Q.Serial(lines, tasks, key, Decider(parses)) == lines
  {
    if tasks != [] {
      DamagedSerial(lines, Init(tasks), key, parses);
    }
  }

  /** What a child is asked, from any healthy file: the queue of its events. Newest first is its reverse. */
  lemma FileRotationIsQueue(
      lines: seq<Line>, parses: Parses, questions: seq<Rotation.Question>, seed: Seed, id: Option<string>)
    requires Healthy(lines, parses, seed)
    requires Rotation.DistinctIds(questions) && Rotation.Seeds(seed, questions)
    ensures var log := ReadAll(lines, parses).value;
            && Rotation.Turns(Rotation.Rotate(LifecycleRotation.ReadSnapshot(log), questions))
               == Rotation.Queue(log, questions)
            && Descending(Matching(log, id)) == Reversed(Matching(log, id))
  {
    var log := ReadAll(lines, parses).value;
    LifecycleRotation.ReadSnapshotIsHistory(log, seed);
    Rotation.RotationIsQueue(log, questions, seed);
    if id.Some? {
      FilterOrdered(log, (e: Event) => e.questionId == id.value);
    }
    DescendingIsReversed(Matching(log, id));
  }

  // ---------------------------------------------------------------- the turn, over whole runs

  /** What the page shows from one directory's file. */
  function Shown(
      files: map<string, seq<Line>>, steps: seq<Q.Step<Job>>, parses: Parses, key: string,
      questions: seq<Rotation.Question>):
    Option<Rotation.QuestionRotation>
  {
    match ReadAll(Q.FileOf(Q.Run(files, steps, Decider(parses)), key), parses)
    case None => None
    case Some(log) => Some(Rotation.Rotate(LifecycleRotation.ReadSnapshot(log), questions))
  }

  /** The event a step adds to a directory's file, if it adds one. */
  function AddedBy(
      files: map<string, seq<Line>>, steps: seq<Q.Step<Job>>, step: Q.Step<Job>, parses: Parses,
      key: string): seq<Event> {
    var before := ReadAll(Q.FileOf(Q.Run(files, steps, Decider(parses)), key), parses);
    var after := ReadAll(Q.FileOf(Q.Run(files, steps + [step], Decider(parses)), key), parses);
    if before.None? || after.None? || |after.value| <= |before.value| then [] else after.value[|before.value|..]
  }

  /** One line further, a healthy file holds its events and at most one more. */
  lemma OneMoreEvent(lines: seq<Line>, more: seq<Line>, parses: Parses)
    requires |more| <= 1 && ReadAll(lines, parses).Some? && ReadAll(lines + more, parses).Some?
    ensures var before, after := ReadAll(lines, parses).value, ReadAll(lines + more, parses).value;
            before <= after && |after| <= |before| + 1
  {
    if more == [] {
      assert lines + more == lines;
    } else {
      assert Init(lines + more) == lines && Last(lines + more) == more[0];
    }
  }

  /** End to end: at every step of every run - appends racing, waiting, failing half-way - the question being
      asked stays the one being asked, unless the step closes that very question; and then nothing but one event
      was added. */
  lemma TurnSurvivesEveryStep(
      files: map<string, seq<Line>>, steps: seq<Q.Step<Job>>, step: Q.Step<Job>, parses: Parses, seed: Seed,
      key: string,
      questions: seq<Rotation.Question>)
    requires RunOk(files, Q.Run(files, steps, Decider(parses)).tasks, parses, seed)
    requires RunOk(files, Q.Run(files, steps + [step], Decider(parses)).tasks, parses, seed)
    requires Rotation.DistinctIds(questions) && Rotation.Seeds(seed, questions)
    ensures var shown, shown' :=
        Shown(files, steps, parses, key, questions), Shown(files, steps + [step], parses, key, questions);
            var added := AddedBy(files, steps, step, parses, key);
            && shown.Some? && shown'.Some? && |added| <= 1
            && (shown.value.active.Some? && shown'.value.active != shown.value.active ==>
                  |added| == 1 && added[0].nextState == Closed && added[0].questionId == shown.value.active.value.id)
  {
    EveryRunIsAHistory(files, steps, parses, seed, key);
    EveryRunIsAHistory(files, steps + [step], parses, seed, key);
    FileGrowsByOne(files, steps, step, parses, key);
    TurnBetween(
      ReadAll(Q.FileOf(Q.Run(files, steps, Decider(parses)), key), parses).value,
      ReadAll(Q.FileOf(Q.Run(files, steps + [step], Decider(parses)), key), parses).value, seed, questions);
  }

  lemma OneMoreLine(
      files: map<string, seq<Line>>, steps: seq<Q.Step<Job>>, step: Q.Step<Job>, parses: Parses, key: string)
    ensures var q := Q.Run(files, steps, Decider(parses));
            var file, file' := Q.FileOf(q, key), Q.FileOf(Q.Next(q, step, Decider(parses)), key);
            file <= file' && |file'| <= |file| + 1
  {
    var q := Q.Run(files, steps, Decider(parses));
    Q.EveryRunIsSerial(files, steps, Decider(parses));
    Q.StepOnlyAppends(q, step, Decider(parses), key);
    if Q.FileOf(Q.Next(q, step, Decider(parses)), key) != Q.FileOf(q, key) {
      assert Q.TaskInv(q, step.task, files, Decider(parses));
      OneLineOnly(q.tasks[step.task].request, Q.FileOf(q, key), parses);
    }
  }

  lemma FileGrowsByOne(
      files: map<string, seq<Line>>, steps: seq<Q.Step<Job>>, step: Q.Step<Job>, parses: Parses, key: string)
    requires ReadAll(Q.FileOf(Q.Run(files, steps, Decider(parses)), key), parses).Some?
    requires ReadAll(Q.FileOf(Q.Run(files, steps + [step], Decider(parses)), key), parses).Some?
    ensures var before := ReadAll(Q.FileOf(Q.Run(files, steps, Decider(parses)), key), parses).value;
            var after := ReadAll(Q.FileOf(Q.Run(files, steps + [step], Decider(parses)), key), parses).value;
            before <= after && |after| <= |before| + 1
  {
    var q := Q.Run(files, steps, Decider(parses));
    RunStep(files, steps, step, parses);
    var file, file' := Q.FileOf(q, key), Q.FileOf(Q.Next(q, step, Decider(parses)), key);
    OneMoreLine(files, steps, step, parses, key);
    assert file' == file + file'[|file|..];
    OneMoreEvent(file, file'[|file|..], parses);
  }

  lemma RunStep(files: map<string, seq<Line>>, steps: seq<Q.Step<Job>>, step: Q.Step<Job>, parses: Parses)
    ensures Q.Run(files, steps + [step], Decider(parses))
        == Q.Next(Q.Run(files, steps, Decider(parses)), step, Decider(parses))
  {
    assert Init(steps + [step]) == steps;
  }

  lemma TurnBetween(before: seq<Event>, after: seq<Event>, seed: Seed, questions: seq<Rotation.Question>)
    requires before <= after && |after| <= |before| + 1 && ValidLog(before, seed) && ValidLog(after, seed)
    requires Rotation.DistinctIds(questions) && Rotation.Seeds(seed, questions)
    ensures var active := Rotation.Rotate(LifecycleRotation.ReadSnapshot(before), questions).active;
            var active' := Rotation.Rotate(LifecycleRotation.ReadSnapshot(after), questions).active;
            active.Some? && active' != active ==>
              |after| == |before| + 1 && after[|before|].nextState == Closed
                && after[|before|].questionId == active.value.id
  {
    LifecycleRotation.ReadSnapshotIsHistory(before, seed);
    LifecycleRotation.ReadSnapshotIsHistory(after, seed);
    if |after| == |before| {
      assert after == before;
    } else {
      var e := after[|before|];
      assert after == before + [e];
      var active := Rotation.Rotate(SnapshotOf(before), questions).active;
      if active.Some? && (e.nextState == Open || e.questionId != active.value.id) {
        Rotation.TurnIsKept(before, e, questions, seed);
      }
    }
  }
}
