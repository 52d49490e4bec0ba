// From a stored history to the question on the page: the snapshot both lifecycle adapters read
// (src/adapters/persistence/file-question-lifecycle-log.ts, postgres-question-lifecycle-log.ts)
// feeding `rotateQuestions` (src/content/open-questions.ts).
module LifecycleRotation {
  import opened Common
  import opened Lifecycle
  import opened Rotation
  import Pg = PostgresLifecycleLog

  function QuestionIds(log: seq<Event>): set<string> {
    set e | e in log :: e.questionId
  }

  /** One fact per question the log mentions: the state and sequence of its greatest revision. */
  function ReadSnapshot(log: seq<Event>): Snapshot {
    map id | id in QuestionIds(log) ::
      match LatestByRevision(log, id)
      case Some(e) => Fact(e.nextState, e.sequence)
      case None => Fact(Open, 0)
  }

  lemma {:induction false} CountedIds(log: seq<Event>, id: string)
    ensures id in QuestionIds(log) <==> Count(log, id) > 0
  {
    if log != [] {
      CountedIds(Init(log), id);
      assert log == Init(log) + [Last(log)];
      assert QuestionIds(log) == QuestionIds(Init(log)) + {Last(log).questionId};
    }
  }

  /** For any store whose rows are chains, the snapshot it reads is the snapshot of its whole history. */
  lemma ReadSnapshotIsHistory(log: seq<Event>, seed: Seed)
    requires ChainLog(log, seed)
    ensures ReadSnapshot(log) == SnapshotOf(log)
  {
    forall id ensures id in ReadSnapshot(log) <==> id in SnapshotOf(log) {
      CountedIds(log, id);
    }
    forall id | id in SnapshotOf(log) ensures ReadSnapshot(log)[id] == SnapshotOf(log)[id] {
      LatestIsLast(log, id, seed);
    }
  }

  // ---------------------------------------------------------------- commit order and sequence order

  /** Where one more row belongs by its sequence. */
  function PlaceBySequence(ordered: seq<Event>, e: Event): seq<Event> {
    if ordered == [] || Last(ordered).sequence < e.sequence then ordered + [e]
    else PlaceBySequence(Init(ordered), e) + [Last(ordered)]
  }

  /** The rows of a table in the order of their sequence. */
  function BySequence(table: seq<Event>): seq<Event> {
    if table == [] then [] else PlaceBySequence(BySequence(Init(table)), Last(table))
  }

  lemma {:induction false} PlaceContents(ordered: seq<Event>, e: Event)
    ensures multiset(PlaceBySequence(ordered, e)) == multiset(ordered) + multiset{e}
  {
    if ordered != [] && Last(ordered).sequence >= e.sequence {
      PlaceContents(Init(ordered), e);
      assert ordered == Init(ordered) + [Last(ordered)];
    }
  }

  lemma {:induction false} BySequenceContents(table: seq<Event>)
    ensures multiset(BySequence(table)) == multiset(table)
  {
    if table != [] {
      BySequenceContents(Init(table));
      PlaceContents(BySequence(Init(table)), Last(table));
      assert table == Init(table) + [Last(table)];
    }
  }

  /** To every question, one history reads like another with `e` added at its end. */
  ghost predicate ReadsAsAppended(placed: seq<Event>, ordered: seq<Event>, e: Event) {
    && (forall id :: Count(placed, id) == Count(ordered, id) + (if id == e.questionId then 1 else 0))
    && (forall id, s :: StateOf(placed, id, s) == if id == e.questionId then e.nextState else StateOf(ordered, id, s))
    && SnapshotOf(placed) == SnapshotOf(ordered)[e.questionId := Fact(e.nextState, e.sequence)]
    && (forall x :: x in placed <==> x in ordered || x == e)
  }

  /** Placing a row that continues its chain: the rows behind it are about other questions, so the
      result is a history again and reads like the one with the row at the end. */
  lemma {:induction false} PlaceKeepsHistory(ordered: seq<Event>, e: Event, seed: Seed)
    requires ValidLog(ordered, seed) && ChainStep(ordered, e, seed)
    requires forall k :: 0 <= k < |ordered| ==> ordered[k].sequence != e.sequence
    ensures ValidLog(PlaceBySequence(ordered, e), seed)
    ensures ReadsAsAppended(PlaceBySequence(ordered, e), ordered, e)
  {
    if ordered == [] || Last(ordered).sequence < e.sequence {
      AtTheEnd(ordered, e, seed);
    } else {
      var last, before := Last(ordered), Init(ordered);
      assert ordered == before + [last];
      assert last.questionId != e.questionId && e.sequence < last.sequence by { assert ordered[|ordered| - 1] == last; }
      ValidShorter(ordered, seed);
      StepSkips(before, last, e, seed);
      forall k | 0 <= k < |before| ensures before[k].sequence != e.sequence { assert before[k] == ordered[k]; }
      PlaceKeepsHistory(before, e, seed);
      BehindPlaced(PlaceBySequence(before, e), before, last, e, seed);
    }
  }

  lemma AtTheEnd(ordered: seq<Event>, e: Event, seed: Seed)
    requires ValidLog(ordered, seed) && ChainStep(ordered, e, seed)
    requires ordered == [] || Last(ordered).sequence < e.sequence
    ensures ValidLog(ordered + [e], seed)
    ensures ReadsAsAppended(ordered + [e], ordered, e)
  {
    assert Init(ordered + [e]) == ordered && Last(ordered + [e]) == e;
  }

  lemma ValidShorter(ordered: seq<Event>, seed: Seed)
    requires ValidLog(ordered, seed) && ordered != []
    ensures ValidLog(Init(ordered), seed) && ChainStep(Init(ordered), Last(ordered), seed)
    ensures forall k :: 0 <= k < |ordered| - 1 ==> Init(ordered)[k].sequence < Last(ordered).sequence
  {
  }

  /** A step that continues a history also continues it without a last event about another question. */
  lemma StepSkips(before: seq<Event>, last: Event, e: Event, seed: Seed)
    requires last.questionId != e.questionId && ChainStep(before + [last], e, seed)
    ensures ChainStep(before, e, seed)
  {
    assert Init(before + [last]) == before && Last(before + [last]) == last;
    forall k | 0 <= k < |before| && before[k].questionId == e.questionId ensures before[k].sequence < e.sequence {
      assert (before + [last])[k] == before[k];
    }
  }

  lemma BehindPlaced(placed: seq<Event>, before: seq<Event>, last: Event, e: Event, seed: Seed)
    requires ValidLog(placed, seed) && ReadsAsAppended(placed, before, e)
    requires ChainStep(before, last, seed) && last.questionId != e.questionId && e.sequence < last.sequence
    requires forall k :: 0 <= k < |before| ==> before[k].sequence < last.sequence
    ensures ValidLog(placed + [last], seed)
    ensures ReadsAsAppended(placed + [last], before + [last], e)
  {
    PlacedStep(placed, before, last, e, seed);
    forall id, s
      ensures StateOf(placed + [last], id, s)
              == if id == e.questionId then e.nextState else StateOf(before + [last], id, s)
    {
    }
    assert Init(placed + [last]) == placed && Last(placed + [last]) == last;
    assert Init(before + [last]) == before && Last(before + [last]) == last;
    var fact, fact' := Fact(last.nextState, last.sequence), Fact(e.nextState, e.sequence);
    assert SnapshotOf(placed + [last]) == SnapshotOf(before)[e.questionId := fact'][last.questionId := fact];
    assert SnapshotOf(before)[e.questionId := fact'][last.questionId := fact]
        == SnapshotOf(before)[last.questionId := fact][e.questionId := fact'];
  }

  /** The row behind the placed one still continues its own chain. */
  lemma PlacedStep(placed: seq<Event>, before: seq<Event>, last: Event, e: Event, seed: Seed)
    requires ChainStep(before, last, seed) && last.questionId != e.questionId && e.sequence < last.sequence
    requires forall k :: 0 <= k < |before| ==> before[k].sequence < last.sequence
    requires forall x :: x in placed <==> x in before || x == e
    requires Count(placed, last.questionId) == Count(before, last.questionId)
    requires forall s :: StateOf(placed, last.questionId, s) == StateOf(before, last.questionId, s)
    ensures ChainStep(placed, last, seed)
    ensures forall k :: 0 <= k < |placed| ==> placed[k].sequence < last.sequence
  {
    forall k | 0 <= k < |placed| ensures placed[k].sequence < last.sequence {
      assert placed[k] in placed;
      if placed[k] != e {
        var j :| 0 <= j < |before| && before[j] == placed[k];
      }
    }
  }

  /** Reading a table in sequence order instead of commit order gives a history in sequence order with
      the same snapshot. */
  lemma {:induction false} SequenceOrderIsHistory(table: seq<Event>, next: int, seed: Seed)
    requires Pg.TableOk(table, next, seed)
    ensures ValidLog(BySequence(table), seed)
    ensures ReadsTheSame(BySequence(table), table)
  {
    if table != [] {
      var before, last := Init(table), Last(table);
      SequenceOrderIsHistory(before, next, seed);
      LastGoesIn(BySequence(before), before, last, next, seed);
      assert table == before + [last];
      PlaceKeepsHistory(BySequence(before), last, seed);
      ReadsOn(PlaceBySequence(BySequence(before), last), BySequence(before), before, last);
    }
  }

  lemma ReadsOn(placed: seq<Event>, ordered: seq<Event>, before: seq<Event>, last: Event)
    requires ReadsAsAppended(placed, ordered, last) && ReadsTheSame(ordered, before)
    ensures ReadsTheSame(placed, before + [last])
  {
    assert Init(before + [last]) == before && Last(before + [last]) == last;
    forall id, s ensures StateOf(placed, id, s) == StateOf(before + [last], id, s) {
    }
  }

  /** To every question, two histories read the same. */
  ghost predicate ReadsTheSame(ordered: seq<Event>, table: seq<Event>) {
    && (forall id :: Count(ordered, id) == Count(table, id))
    && (forall id, s :: StateOf(ordered, id, s) == StateOf(table, id, s))
    && SnapshotOf(ordered) == SnapshotOf(table)
    && (forall x :: x in ordered <==> x in table)
  }

  lemma LastGoesIn(ordered: seq<Event>, before: seq<Event>, last: Event, next: int, seed: Seed)
    requires Pg.TableOk(before + [last], next, seed) && ReadsTheSame(ordered, before)
    ensures ChainStep(ordered, last, seed)
    ensures forall k :: 0 <= k < |ordered| ==> ordered[k].sequence != last.sequence
  {
    assert Init(before + [last]) == before && Last(before + [last]) == last;
    forall k | 0 <= k < |ordered|
      ensures ordered[k].sequence != last.sequence
      ensures ordered[k].questionId == last.questionId ==> ordered[k].sequence < last.sequence
    {
      assert ordered[k] in before;
      var j :| 0 <= j < |before| && before[j] == ordered[k];
      assert (before + [last])[j] == before[j] && (before + [last])[|before|] == last;
    }
  }

  /** In every run of concurrent PostgreSQL appends, the questions shown are the queue of the committed
      events taken in sequence order, and the archive is the rest of the dataset. */
  lemma PostgresRotationIsQueue(steps: seq<Pg.Step>, questions: seq<Question>, seed: Seed)
    requires DistinctIds(questions) && Seeds(seed, questions)
    ensures var table := Pg.Run(steps, seed).table;
            && Turns(Rotate(ReadSnapshot(table), questions)) == Queue(BySequence(table), questions)
            && Rotate(ReadSnapshot(table), questions).archived
               == Filter(questions, (q: Question) => q !in Queue(BySequence(table), questions))
            && multiset(BySequence(table)) == multiset(table)
  {
    var s := Pg.Run(steps, seed);
    Pg.EveryRunIsLinear(steps, seed);
    ReadSnapshotIsHistory(s.table, seed);
    SequenceOrderIsHistory(s.table, s.nextSequence, seed);
    RotationIsQueue(BySequence(s.table), questions, seed);
    BySequenceContents(s.table);
  }

  /** Two adults reopen two closed questions; the one that drew the later number commits first. When the
      other commits, the turn moves: with commits out of sequence order a reopen can steal it. */
  lemma LateCommitStealsTheTurn(a: Question, b: Question) returns (steps: seq<Pg.Step>, late: Pg.Step)
    requires a.id != b.id && a.state == b.state == Closed
    requires 0 < |a.id| <= Pg.MAX_QUESTION_ID_LENGTH && 0 < |b.id| <= Pg.MAX_QUESTION_ID_LENGTH
    ensures Rotate(ReadSnapshot(Pg.Run(steps, _ => Closed).table), [a, b]).active == Some(b)
    ensures Rotate(ReadSnapshot(Pg.Run(steps + [late], _ => Closed).table), [a, b]).active == Some(a)
  {
    var seed: Seed := _ => Closed;
    var first := Event(a.id, ReopenedAction, Closed, Open, "", 1, 0);
    var second := Event(b.id, ReopenedAction, Closed, Open, "", 2, 0);
    late := Pg.Insert(0, false);
    steps := TwoReopens(a.id, b.id, second, seed);
    Pg.RunStep(steps, late, seed);
    assert !Pg.Holds([second], a.id, 0);
    assert Pg.Run(steps + [late], seed).table == [second, first];
    SnapshotsOfTheRun(steps, late, first, second, seed);
    LowerSequenceIsActive(a, b);
  }

  lemma SnapshotsOfTheRun(steps: seq<Pg.Step>, late: Pg.Step, first: Event, second: Event, seed: Seed)
    requires first.questionId != second.questionId
    requires Pg.Run(steps, seed).table == [second] && Pg.Run(steps + [late], seed).table == [second, first]
    ensures ReadSnapshot([second]) == map[second.questionId := Fact(second.nextState, second.sequence)]
    ensures ReadSnapshot([second, first]) == map[second.questionId := Fact(second.nextState, second.sequence),
                                                 first.questionId := Fact(first.nextState, first.sequence)]
  {
    Pg.EveryRunIsLinear(steps, seed);
    Pg.EveryRunIsLinear(steps + [late], seed);
    ReadSnapshotIsHistory([second], seed);
    ReadSnapshotIsHistory([second, first], seed);
    assert Init([second, first]) == [second] && Init([second]) == [];
  }

  lemma LowerSequenceIsActive(a: Question, b: Question)
    requires a.id != b.id && a.state == b.state == Closed
    ensures Rotate(map[b.id := Fact(Open, 2)], [a, b]).active == Some(b)
    ensures Rotate(map[b.id := Fact(Open, 2), a.id := Fact(Open, 1)], [a, b]).active == Some(a)
  {
    var before: Snapshot := map[b.id := Fact(Open, 2)];
    var after := before[a.id := Fact(Open, 1)];
    assert EffectiveState(b, before) == Open && b in [a, b];
    ActiveIsLeast(before, [a, b]);
    assert Place(b, [a, b], before) == Entry(b, 1, 2);
    ReopenKeepsTurnExactlyWhen(before, [a, b], a, 1);
    ActiveIsLeast(after, [a, b]);
    assert EffectiveState(a, after) == Open && a in [a, b];
  }

  lemma TwoReopens(a: string, b: string, second: Event, seed: Seed) returns (steps: seq<Pg.Step>)
    requires a != b && 0 < |a| <= Pg.MAX_QUESTION_ID_LENGTH && 0 < |b| <= Pg.MAX_QUESTION_ID_LENGTH
    requires seed(a) == seed(b) == Closed
    requires second == Event(b, ReopenedAction, Closed, Open, "", 2, 0)
    ensures var s := Pg.Run(steps, seed);
            s.table == [second] && |s.calls| == 2
            && s.calls[0] == Pg.Call(Request(a, Open, Closed, Closed), "", Pg.Numbered(0, 1), 0, 0, 0, 0)
  {
    var c := Pg.Call(Request(a, Open, Closed, Closed), "", Pg.Called, 0, 0, 0, 0);
    var d := Pg.Call(Request(b, Open, Closed, Closed), "", Pg.Called, 0, 0, 0, 0);
    steps := Pg.Take([], Pg.Begin(c.request, ""), Pg.State([], 1, [c]), seed);
    steps := Pg.Take(steps, Pg.Begin(d.request, ""), Pg.State([], 1, [c, d]), seed);
    steps := Pg.Take(steps, Pg.Read(0), Pg.State([], 1, [c.(progress := Pg.Chosen(0)), d]), seed);
    steps := Pg.Take(steps, Pg.DrawSequence(0), Pg.State([], 2, [c.(progress := Pg.Numbered(0, 1)), d]), seed);
    steps := SecondCommits(steps, c, d, second, seed);
  }

  lemma SecondCommits(before: seq<Pg.Step>, c: Pg.Call, d: Pg.Call, second: Event, seed: Seed)
    returns (steps: seq<Pg.Step>)
    requires d == Pg.Call(Request(d.request.questionId, Open, Closed, Closed), "", Pg.Called, 0, 0, 0, 0)
    requires Pg.Run(before, seed) == Pg.State([], 2, [c.(progress := Pg.Numbered(0, 1)), d])
    requires second == Event(d.request.questionId, ReopenedAction, Closed, Open, "", 2, 0)
    ensures var s := Pg.Run(steps, seed);
            s.table == [second] && |s.calls| == 2 && s.calls[0] == c.(progress := Pg.Numbered(0, 1))
  {
    var numbered := c.(progress := Pg.Numbered(0, 1));
    steps := Pg.Take(before, Pg.Read(1), Pg.State([], 2, [numbered, d.(progress := Pg.Chosen(0))]), seed);
    steps := Pg.Take(steps, Pg.DrawSequence(1), Pg.State([], 3, [numbered, d.(progress := Pg.Numbered(0, 2))]), seed);
    Pg.RunStep(steps, Pg.Insert(1, false), seed);
    steps := steps + [Pg.Insert(1, false)];
  }
}
