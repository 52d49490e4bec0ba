// Concurrent appends to the PostgreSQL table: src/adapters/persistence/postgres-question-lifecycle-log.ts.
// Every call is a snapshot read, a drawn sequence number, and an insert that the unique
// (question_id, revision) index may turn away; any number of calls interleave at those steps.
module PostgresLifecycleLog {
  import opened Common
  import opened Lifecycle

  /** How far one call of `append` has come. */
  datatype Progress =
    | Called
    | Chosen(revision: int)
    | Numbered(revision: int, sequence: int)
    | TurnedAway
    | Finished(outcome: Outcome)
    | Broken

  /** One call. The table only grows, so a moment of the run is a length of the table: `start` is where
      the call began, `read` where its statement took its snapshot, `decided` where its answer was
      settled and `end` where it returned. */
  datatype Call = Call(
    request: Request,
    occurredAt: string,
    progress: Progress,
    start: nat,
    read: nat,
    decided: nat,
    end: nat)

  datatype State = State(table: seq<Event>, nextSequence: int, calls: seq<Call>)

  datatype Step =
    | Begin(request: Request, occurredAt: string)
    | Read(call: nat)
    | DrawSequence(call: nat)
    | Insert(call: nat, answerLost: bool)
    | ReadBack(call: nat)
    | Fail(call: nat)

  const MAX_QUESTION_ID_LENGTH := 200

  /** What `assertStorableLifecycleRequest` lets through, apart from the character rules. */
  predicate Storable(r: Request) {
    r.expectedState != r.nextState && 0 < |r.questionId| <= MAX_QUESTION_ID_LENGTH
  }

  predicate Holds(table: seq<Event>, id: string, revision: int) {
    exists k :: 0 <= k < |table| && table[k].questionId == id && table[k].revision == revision
  }

  /** The row the statement would write. */
  function Row(c: Call): Event
    requires c.progress.Numbered?
  {
    Event(c.request.questionId, ActionProducingState(c.request.nextState), c.request.expectedState,
          c.request.nextState, c.occurredAt, c.progress.sequence, c.progress.revision)
  }

  function Update(s: State, i: nat, c: Call): State
    requires i < |s.calls|
  {
    s.(calls := s.calls[i := c])
  }

  /** One step of one call; a step that cannot happen leaves the state alone. */
  function Next(s: State, step: Step, seed: Seed): State {
    match step
    case Begin(r, occurredAt) =>
      if Storable(r) && r.seededState == seed(r.questionId)
      then s.(calls := s.calls + [Call(r, occurredAt, Called, |s.table|, 0, 0, 0)])
      else s
    case Read(i) =>
      if i < |s.calls| && s.calls[i].progress.Called? then Update(s, i, AfterRead(s, s.calls[i])) else s
    case DrawSequence(i) =>
      if i < |s.calls| && s.calls[i].progress.Chosen?
      then Update(s, i, s.calls[i].(progress := Numbered(s.calls[i].progress.revision, s.nextSequence)))
             .(nextSequence := s.nextSequence + 1)
      else s
    case Insert(i, answerLost) =>
      if i < |s.calls| && s.calls[i].progress.Numbered? then AfterInsert(s, i, answerLost) else s
    case ReadBack(i) =>
      if i < |s.calls| && s.calls[i].progress.TurnedAway? then
        var r := s.calls[i].request;
        Update(s, i, s.calls[i].(progress := Finished(Stale(CurrentState(s.table, r.questionId, r.seededState))),
                                 end := |s.table|))
      else s
    case Fail(i) =>
      if i < |s.calls| && !s.calls[i].progress.Finished? then Update(s, i, s.calls[i].(progress := Broken)) else s
  }

  /** The statement's snapshot: the WHERE compares the state it sees, and the new revision is the one
      after the latest it sees. */
  function AfterRead(s: State, c: Call): Call {
    if CurrentState(s.table, c.request.questionId, c.request.seededState) != c.request.expectedState
    then c.(progress := TurnedAway, read := |s.table|, decided := |s.table|)
    else c.(progress := Chosen(NextRevision(s.table, c.request.questionId)), read := |s.table|)
  }

  /** The insert commits unless the unique index already holds the revision. */
  function AfterInsert(s: State, i: nat, answerLost: bool): State
    requires i < |s.calls| && s.calls[i].progress.Numbered?
  {
    var c := s.calls[i];
    if Holds(s.table, c.request.questionId, c.progress.revision)
    then Update(s, i,
      c.(progress := TurnedAway, decided := WhereTaken(s.table, c.request.questionId, c.progress.revision) + 1))
    else Update(s, i, c.(progress := if answerLost then Broken else Finished(Applied(Row(c))),
                         decided := |s.table|, end := |s.table| + 1))
           .(table := s.table + [Row(c)])
  }

  function WhereTaken(table: seq<Event>, id: string, revision: int): (k: nat)
    requires Holds(table, id, revision)
    ensures k < |table| && table[k].questionId == id && table[k].revision == revision
  {
    if Last(table).questionId == id && Last(table).revision == revision then |table| - 1
    else WhereTaken(Init(table), id, revision)
  }

  const EMPTY := State([], 1, [])

  function Run(steps: seq<Step>, seed: Seed): State {
    if steps == [] then EMPTY else Next(Run(Init(steps), seed), Last(steps), seed)
  }

  // ---------------------------------------------------------------- the invariant

  /** At the moment `k` the table gave this question the state `StateOf` names. */
  function StateAt(table: seq<Event>, k: nat, r: Request): QuestionState
    requires k <= |table|
  {
    StateOf(table[..k], r.questionId, r.seededState)
  }

  predicate CallOk(table: seq<Event>, nextSequence: int, c: Call, seed: Seed) {
    && Storable(c.request) && c.request.seededState == seed(c.request.questionId)
    && c.start <= |table|
    && match c.progress
       case Called => true
       case Chosen(revision) => ReadOk(table, c, revision)
       case Numbered(revision, sequence) => (
         && ReadOk(table, c, revision)
         && 0 < sequence < nextSequence
         && (forall k :: 0 <= k < |table| ==>
               table[k].questionId == c.request.questionId ==>
               table[k].revision < revision ==> table[k].sequence < sequence)
         && (forall k :: 0 <= k < |table| ==> table[k].sequence != sequence))
       case TurnedAway => RefusalOk(table, c)
       case Finished(Applied(e)) => (
         && c.start <= c.decided < c.end <= |table|
         && table[c.decided] == e
         && Answer(table[..c.decided], c.request, c.occurredAt, e.sequence) == Applied(e))
       case Finished(Stale(state)) => (
         && RefusalOk(table, c)
         && c.decided <= c.end <= |table|
         && state == StateAt(table, c.end, c.request))
       case Broken => true
  }

  /** The snapshot a call chose its revision from. */
  predicate ReadOk(table: seq<Event>, c: Call, revision: int) {
    && c.start <= c.read <= |table|
    && StateAt(table, c.read, c.request) == c.request.expectedState
    && revision == Count(table[..c.read], c.request.questionId)
  }

  /** A moment inside the call at which the state was not the expected one. */
  predicate RefusalOk(table: seq<Event>, c: Call) {
    && c.start <= c.decided <= |table|
    && StateAt(table, c.decided, c.request) != c.request.expectedState
  }

  /** The rows are chains, numbered without repeats from the sequence. */
  predicate TableOk(table: seq<Event>, nextSequence: int, seed: Seed) {
    && ChainLog(table, seed)
    && (forall k :: 0 <= k < |table| ==> 0 < table[k].sequence < nextSequence)
    && (forall i, j :: 0 <= i < j < |table| ==> table[i].sequence != table[j].sequence)
  }

  predicate Inv(s: State, seed: Seed) {
    && TableOk(s.table, s.nextSequence, seed)
    && (forall i :: 0 <= i < |s.calls| ==> CallOk(s.table, s.nextSequence, s.calls[i], seed))
    && (forall i, j :: 0 <= i < j < |s.calls| && s.calls[i].progress.Numbered? && s.calls[j].progress.Numbered?
          ==> s.calls[i].progress.sequence != s.calls[j].progress.sequence)
    && 0 < s.nextSequence
  }

  // ---------------------------------------------------------------- preservation

  /** What a call has established survives another row, unless that row takes its own question's next
      revision with a higher number - which a numbered call below it never sees. */
  lemma CallOkGrows(table: seq<Event>, nextSequence: int, nextSequence': int, c: Call, seed: Seed, row: Event)
    requires CallOk(table, nextSequence, c, seed) && nextSequence <= nextSequence'
    requires c.progress.Numbered? ==> row.sequence != c.progress.sequence
    requires c.progress.Numbered? && row.questionId == c.request.questionId && row.revision < c.progress.revision
             ==> row.sequence < c.progress.sequence
    ensures CallOk(table + [row], nextSequence', c, seed)
  {
    assert forall k :: 0 <= k <= |table| ==> (table + [row])[..k] == table[..k];
  }

  lemma ReadKeepsInv(s: State, i: nat, seed: Seed)
    requires Inv(s, seed) && i < |s.calls| && s.calls[i].progress.Called?
    ensures Inv(Next(s, Read(i), seed), seed)
  {
    LatestIsLast(s.table, s.calls[i].request.questionId, seed);
    assert s.table[..|s.table|] == s.table;
  }

  lemma DrawKeepsInv(s: State, i: nat, seed: Seed)
    requires Inv(s, seed) && i < |s.calls| && s.calls[i].progress.Chosen?
    ensures Inv(Next(s, DrawSequence(i), seed), seed)
  {
    var s' := Next(s, DrawSequence(i), seed);
    forall j | 0 <= j < |s'.calls| ensures CallOk(s'.table, s'.nextSequence, s'.calls[j], seed) {
      assert CallOk(s.table, s.nextSequence, s.calls[j], seed);
    }
    assert CallOk(s.table, s.nextSequence, s.calls[i], seed);
  }

  /** When the index turns an insert away, the row that took the revision was committed inside this call,
      and right after it the state was the opposite of the expected one. */
  lemma CollisionHasMoment(table: seq<Event>, c: Call, revision: int, seed: Seed)
    requires ChainLog(table, seed) && ReadOk(table, c, revision)
    requires c.request.seededState == seed(c.request.questionId)
    requires Holds(table, c.request.questionId, revision)
    ensures var k := WhereTaken(table, c.request.questionId, revision) + 1;
            c.read < k <= |table| && StateAt(table, k, c.request) != c.request.expectedState
  {
    var id := c.request.questionId;
    var k := WhereTaken(table, id, revision);
    TakenAfterRead(table, c.read, k, seed);
    RevisionCounts(table, seed, k);
    SameCountSameState(table, c.read, k, id, seed);
    ChainPrefix(table, seed, k);
    assert Init(table[..k + 1]) == table[..k] && Last(table[..k + 1]) == table[k];
  }

  lemma TakenAfterRead(table: seq<Event>, read: nat, k: nat, seed: Seed)
    requires ChainLog(table, seed) && read <= |table| && k < |table|
    requires table[k].revision == Count(table[..read], table[k].questionId)
    ensures read <= k
  {
    if k < read {
      ChainPrefix(table, seed, read);
      assert table[..read][k] == table[k];
      RevisionCounts(table[..read], seed, k);
    }
  }

  /** Two moments with equally many events of one question give it the same state. */
  lemma SameCountSameState(table: seq<Event>, a: nat, b: nat, id: string, seed: Seed)
    requires ChainLog(table, seed) && a <= |table| && b <= |table|
    requires Count(table[..a], id) == Count(table[..b], id)
    ensures StateOf(table[..a], id, seed(id)) == StateOf(table[..b], id, seed(id))
  {
    ChainPrefix(table, seed, a);
    ChainPrefix(table, seed, b);
    StateIsParity(table[..a], id, seed);
    StateIsParity(table[..b], id, seed);
  }

  /** Between two moments the state changes exactly when an odd number of events came between. */
  lemma OddCountOtherState(table: seq<Event>, a: nat, b: nat, id: string, seed: Seed)
    requires ChainLog(table, seed) && a <= b <= |table|
    ensures StateOf(table[..a], id, seed(id)) != StateOf(table[..b], id, seed(id))
            <==> Count(table[a..b], id) % 2 == 1
  {
    ChainPrefix(table, seed, b);
    assert table[..b] == table[..a] + table[a..b];
    OddFlips(table[..a], table[a..b], id, seed);
  }

  lemma OddFlips(log: seq<Event>, more: seq<Event>, id: string, seed: Seed)
    requires ChainLog(log + more, seed)
    ensures StateOf(log, id, seed(id)) != StateOf(log + more, id, seed(id)) <==> Count(more, id) % 2 == 1
  {
    StateFlips(log, more, id, seed);
  }

  /** When the index lets the insert through, nothing happened to this question since the snapshot. */
  lemma InsertContinuesChain(s: State, i: nat, seed: Seed)
    requires Inv(s, seed) && i < |s.calls| && s.calls[i].progress.Numbered?
    requires !Holds(s.table, s.calls[i].request.questionId, s.calls[i].progress.revision)
    ensures ChainStep(s.table, Row(s.calls[i]), seed)
  {
    var c := s.calls[i];
    var id, row := c.request.questionId, Row(c);
    assert CallOk(s.table, s.nextSequence, c, seed);
    var since := s.table[c.read..];
    assert s.table == s.table[..c.read] + since;
    CountAppend(s.table[..c.read], since, id);
    if c.progress.revision < Count(s.table, id) {
      var k := RevisionHeld(s.table, seed, id, c.progress.revision);
      assert false;
    }
    StateSkips(s.table[..c.read], since, id, seed(id));
    forall k | 0 <= k < |s.table| && s.table[k].questionId == id ensures s.table[k].sequence < row.sequence {
      RevisionCounts(s.table, seed, k);
    }
  }

  lemma InsertKeepsInv(s: State, i: nat, answerLost: bool, seed: Seed)
    requires Inv(s, seed) && i < |s.calls| && s.calls[i].progress.Numbered?
    ensures Inv(Next(s, Insert(i, answerLost), seed), seed)
  {
    if Holds(s.table, s.calls[i].request.questionId, s.calls[i].progress.revision) {
      CollisionKeepsInv(s, i, answerLost, seed);
    } else {
      CommitKeepsInv(s, i, answerLost, seed);
    }
  }

  lemma CollisionKeepsInv(s: State, i: nat, answerLost: bool, seed: Seed)
    requires Inv(s, seed) && i < |s.calls| && s.calls[i].progress.Numbered?
    requires Holds(s.table, s.calls[i].request.questionId, s.calls[i].progress.revision)
    ensures Inv(Next(s, Insert(i, answerLost), seed), seed)
  {
    var s' := Next(s, Insert(i, answerLost), seed);
    var c := s.calls[i];
    assert CallOk(s.table, s.nextSequence, c, seed);
    CollisionHasMoment(s.table, c, c.progress.revision, seed);
    assert s'.calls[i].progress == TurnedAway && RefusalOk(s.table, s'.calls[i]);
    forall j | 0 <= j < |s.calls| && j != i ensures CallOk(s'.table, s'.nextSequence, s'.calls[j], seed) {
      assert CallOk(s.table, s.nextSequence, s.calls[j], seed);
    }
  }

  lemma CommitKeepsInv(s: State, i: nat, answerLost: bool, seed: Seed)
    requires Inv(s, seed) && i < |s.calls| && s.calls[i].progress.Numbered?
    requires !Holds(s.table, s.calls[i].request.questionId, s.calls[i].progress.revision)
    ensures Inv(Next(s, Insert(i, answerLost), seed), seed)
  {
    var s' := Next(s, Insert(i, answerLost), seed);
    InsertContinuesChain(s, i, seed);
    TableGrows(s, i, seed);
    forall j | 0 <= j < |s.calls| ensures CallOk(s'.table, s'.nextSequence, s'.calls[j], seed) {
      if j == i { InsertedCallOk(s, i, answerLost, seed); } else { OtherCallOk(s, i, j, seed); }
    }
  }

  lemma TableGrows(s: State, i: nat, seed: Seed)
    requires Inv(s, seed) && i < |s.calls| && s.calls[i].progress.Numbered?
    requires ChainStep(s.table, Row(s.calls[i]), seed)
    ensures TableOk(s.table + [Row(s.calls[i])], s.nextSequence, seed)
  {
    assert CallOk(s.table, s.nextSequence, s.calls[i], seed);
    assert Init(s.table + [Row(s.calls[i])]) == s.table;
  }

  lemma OtherCallOk(s: State, i: nat, j: nat, seed: Seed)
    requires Inv(s, seed) && i < |s.calls| && s.calls[i].progress.Numbered? && j < |s.calls| && j != i
    requires ChainStep(s.table, Row(s.calls[i]), seed)
    ensures CallOk(s.table + [Row(s.calls[i])], s.nextSequence, s.calls[j], seed)
  {
    var row, d := Row(s.calls[i]), s.calls[j];
    assert CallOk(s.table, s.nextSequence, d, seed);
    if d.progress.Numbered? && d.request.questionId == row.questionId {
      NoGap(s.table, d, row, seed);
    }
    CallOkGrows(s.table, s.nextSequence, s.nextSequence, d, seed, row);
  }

  lemma InsertedCallOk(s: State, i: nat, answerLost: bool, seed: Seed)
    requires Inv(s, seed) && i < |s.calls| && s.calls[i].progress.Numbered?
    requires !Holds(s.table, s.calls[i].request.questionId, s.calls[i].progress.revision)
    requires ChainStep(s.table, Row(s.calls[i]), seed)
    ensures var s' := Next(s, Insert(i, answerLost), seed); CallOk(s'.table, s'.nextSequence, s'.calls[i], seed)
  {
    assert (s.table + [Row(s.calls[i])])[..|s.table|] == s.table;
    assert CallOk(s.table, s.nextSequence, s.calls[i], seed);
  }

  /** A call never waits with a revision above the next free one. */
  lemma NoGap(table: seq<Event>, d: Call, row: Event, seed: Seed)
    requires ChainStep(table, row, seed)
    requires d.progress.Numbered? && ReadOk(table, d, d.progress.revision)
    requires d.request.questionId == row.questionId
    ensures d.progress.revision <= row.revision
  {
    assert table == table[..d.read] + table[d.read..];
    CountAppend(table[..d.read], table[d.read..], row.questionId);
  }

  lemma ReadBackKeepsInv(s: State, i: nat, seed: Seed)
    requires Inv(s, seed) && i < |s.calls| && s.calls[i].progress.TurnedAway?
    ensures Inv(Next(s, ReadBack(i), seed), seed)
  {
    LatestIsLast(s.table, s.calls[i].request.questionId, seed);
    assert s.table[..|s.table|] == s.table;
    assert CallOk(s.table, s.nextSequence, s.calls[i], seed);
  }

  lemma NextKeepsInv(s: State, step: Step, seed: Seed)
    requires Inv(s, seed)
    ensures Inv(Next(s, step, seed), seed)
  {
    match step
    case Begin(r, occurredAt) =>
    case Read(i) => if i < |s.calls| && s.calls[i].progress.Called? { ReadKeepsInv(s, i, seed); }
    case DrawSequence(i) => if i < |s.calls| && s.calls[i].progress.Chosen? { DrawKeepsInv(s, i, seed); }
    case Insert(i, lost) => if i < |s.calls| && s.calls[i].progress.Numbered? { InsertKeepsInv(s, i, lost, seed); }
    case ReadBack(i) => if i < |s.calls| && s.calls[i].progress.TurnedAway? { ReadBackKeepsInv(s, i, seed); }
    case Fail(i) =>
      if i < |s.calls| {
        assert CallOk(s.table, s.nextSequence, s.calls[i], seed);
      }
  }

  // ---------------------------------------------------------------- main results

  /** Every interleaving of any number of calls keeps the invariant. */
  lemma {:induction false} EveryRunIsLinear(steps: seq<Step>, seed: Seed)
    ensures Inv(Run(steps, seed), seed)
  {
    if steps != [] {
      EveryRunIsLinear(Init(steps), seed);
      NextKeepsInv(Run(Init(steps), seed), Last(steps), seed);
    }
  }

  /** Rows are only ever added at the end, so the prefixes of the table are its past contents. */
  lemma {:induction false} TableOnlyGrows(steps: seq<Step>, more: seq<Step>, seed: Seed)
    ensures Run(steps, seed).table <= Run(steps + more, seed).table
  {
    if more == [] {
      assert steps + more == steps;
    } else {
      assert Init(steps + more) == steps + Init(more);
      TableOnlyGrows(steps, Init(more), seed);
    }
  }

  /** In every run, each question's revisions are exactly 0..n-1 in commit order, each row leaves the state
      its predecessor produced (the seed for the first), and sequence grows with revision. */
  lemma ChainsInEveryRun(steps: seq<Step>, seed: Seed, k: nat)
    requires k < |Run(steps, seed).table|
    ensures var table := Run(steps, seed).table;
            && table[k].revision == Count(table[..k], table[k].questionId)
            && table[k].previousState == StateOf(table[..k], table[k].questionId, seed(table[k].questionId))
            && table[k].nextState != table[k].previousState
            && forall i :: 0 <= i < |table| && table[i].questionId == table[k].questionId ==>
                 (table[i].revision < table[k].revision <==> i < k)
                 && (table[i].sequence < table[k].sequence <==> i < k)
  {
    var table := Run(steps, seed).table;
    EveryRunIsLinear(steps, seed);
    ChainPrefix(table, seed, k);
    forall i | 0 <= i < |table| && table[i].questionId == table[k].questionId && i != k
      ensures (table[i].revision < table[k].revision <==> i < k) && (table[i].sequence < table[k].sequence <==> i < k)
    {
      if i < k { RevisionsUnique(table, seed, i, k); } else { RevisionsUnique(table, seed, k, i); }
    }
  }

  /** Every finished call was decided at one moment inside the call as the sequential store would have decided it
      then: an applied change is the row that store would have produced, and a refused one met a state other than
      the expected. What a refused caller is told is the state at the end of its call. The moments are the commit
      positions, so they order calls the way they really happened. */
  lemma EveryAnswerIsLinearizable(steps: seq<Step>, seed: Seed, i: nat) returns (moment: nat)
    requires i < |Run(steps, seed).calls| && Run(steps, seed).calls[i].progress.Finished?
    ensures var s := Run(steps, seed);
            var c := s.calls[i];
            && c.start <= moment <= c.end <= |s.table|
            && var sequential := Answer(s.table[..moment], c.request, c.occurredAt,
                                        if c.progress.outcome.Applied? then c.progress.outcome.event.sequence else 0);
               match c.progress.outcome
               case Applied(e) => sequential == Applied(e) && moment < c.end && s.table[moment] == e
               case Stale(_) =>
                 && sequential == Stale(StateAt(s.table, moment, c.request))
                 && StateAt(s.table, moment, c.request) != c.request.expectedState
                 && c.progress.outcome == Stale(StateAt(s.table, c.end, c.request))
  {
    EveryRunIsLinear(steps, seed);
    var s := Run(steps, seed);
    assert CallOk(s.table, s.nextSequence, s.calls[i], seed);
    moment := s.calls[i].decided;
  }

  /** What a refused caller is told is true when it is told: but between the refusal and the read-back the
      question may move again, so the reported state is the expected one exactly when an odd number of its
      rows was committed in between. */
  lemma StaleReportParity(steps: seq<Step>, seed: Seed, i: nat)
    requires i < |Run(steps, seed).calls|
    requires Run(steps, seed).calls[i].progress.Finished? && Run(steps, seed).calls[i].progress.outcome.Stale?
    ensures var s := Run(steps, seed);
            var c := s.calls[i];
            && c.decided <= c.end <= |s.table|
            && c.progress.outcome.currentState == StateAt(s.table, c.end, c.request)
            && (c.progress.outcome.currentState == c.request.expectedState
                <==> Count(s.table[c.decided..c.end], c.request.questionId) % 2 == 1)
  {
    EveryRunIsLinear(steps, seed);
    var s := Run(steps, seed);
    var c := s.calls[i];
    assert CallOk(s.table, s.nextSequence, c, seed);
    OddCountOtherState(s.table, c.decided, c.end, c.request.questionId, seed);
  }

  // ---------------------------------------------------------------- what one call comes to

  /** The statement of a call goes on exactly when, at that moment, the question is in the expected state - and then
      with the number of its rows as the new revision; otherwise it is turned away. */
  lemma ReadDecides(steps: seq<Step>, seed: Seed, i: nat)
    requires i < |Run(steps, seed).calls| && Run(steps, seed).calls[i].progress.Called?
    ensures var s, s' := Run(steps, seed), Run(steps + [Read(i)], seed);
            var r := s.calls[i].request;
            && (s'.calls[i].progress == TurnedAway <==> StateAt(s.table, |s.table|, r) != r.expectedState)
            && (s'.calls[i].progress == Chosen(Count(s.table, r.questionId))
                <==> StateAt(s.table, |s.table|, r) == r.expectedState)
            && s'.table == s.table && s'.nextSequence == s.nextSequence
  {
    EveryRunIsLinear(steps, seed);
    RunStep(steps, Read(i), seed);
    var s := Run(steps, seed);
    LatestIsLast(s.table, s.calls[i].request.questionId, seed);
    assert s.table[..|s.table|] == s.table;
  }

  /** A numbered insert commits exactly when no row of its question came since its snapshot, and commits the row the
      request asks for; otherwise the call is turned away and nothing is stored. */
  lemma InsertDecides(steps: seq<Step>, seed: Seed, i: nat, answerLost: bool)
    requires i < |Run(steps, seed).calls| && Run(steps, seed).calls[i].progress.Numbered?
    ensures var s, s' := Run(steps, seed), Run(steps + [Insert(i, answerLost)], seed);
            var c := s.calls[i];
            var row := NextEvent(s.table, c.request, c.occurredAt, c.progress.sequence);
            if Count(s.table, c.request.questionId) == c.progress.revision
            then s'.table == s.table + [row]
                 && s'.calls[i].progress == (if answerLost then Broken else Finished(Applied(row)))
            else s'.table == s.table && s'.calls[i].progress == TurnedAway
  {
    EveryRunIsLinear(steps, seed);
    RunStep(steps, Insert(i, answerLost), seed);
    var s := Run(steps, seed);
    var c := s.calls[i];
    var id := c.request.questionId;
    assert CallOk(s.table, s.nextSequence, c, seed);
    assert s.table == s.table[..c.read] + s.table[c.read..];
    CountAppend(s.table[..c.read], s.table[c.read..], id);
    if c.progress.revision < Count(s.table, id) {
      var k := RevisionHeld(s.table, seed, id, c.progress.revision);
      assert Holds(s.table, id, c.progress.revision);
    } else if Holds(s.table, id, c.progress.revision) {
      RevisionCounts(s.table, seed, WhereTaken(s.table, id, c.progress.revision));
    }
  }

  /** A call that was turned away is told the state at the moment it reads back. */
  lemma ReadBackTells(steps: seq<Step>, seed: Seed, i: nat)
    requires i < |Run(steps, seed).calls| && Run(steps, seed).calls[i].progress.TurnedAway?
    ensures var s, s' := Run(steps, seed), Run(steps + [ReadBack(i)], seed);
            s'.table == s.table
            && s'.calls[i].progress == Finished(Stale(StateAt(s.table, |s.table|, s.calls[i].request)))
  {
    EveryRunIsLinear(steps, seed);
    RunStep(steps, ReadBack(i), seed);
    var s := Run(steps, seed);
    assert CallOk(s.table, s.nextSequence, s.calls[i], seed);
    LatestIsLast(s.table, s.calls[i].request.questionId, seed);
    assert s.table[..|s.table|] == s.table;
  }

  /** The moment the database failed this call: before it could answer, or after it had stored the row. */
  predicate FailedIt(steps: seq<Step>, k: nat, i: nat, seed: Seed)
    requires k < |steps|
  {
    || steps[k] == Fail(i)
    || (steps[k] == Insert(i, true) && |Run(steps[..k], seed).table| < |Run(steps[..k + 1], seed).table|)
  }

  /** A call throws only when the database failed it: contention alone never breaks one. */
  lemma {:induction false} OnlyFaultsBreak(steps: seq<Step>, seed: Seed, i: nat) returns (k: nat)
    requires i < |Run(steps, seed).calls| && Run(steps, seed).calls[i].progress.Broken?
    ensures k < |steps| && FailedIt(steps, k, i, seed)
  {
    var before := Run(Init(steps), seed);
    if i < |before.calls| && before.calls[i].progress.Broken? {
      k := OnlyFaultsBreak(Init(steps), seed, i);
      assert Init(steps)[..k] == steps[..k] && Init(steps)[..k + 1] == steps[..k + 1];
    } else {
      k := |steps| - 1;
      assert steps[..k] == Init(steps) && steps[..k + 1] == steps;
    }
  }

  /** And the database may fail any call that has not answered, at any point. */
  lemma AnyCallMayFail(steps: seq<Step>, seed: Seed, i: nat)
    requires i < |Run(steps, seed).calls| && !Run(steps, seed).calls[i].progress.Finished?
    ensures var s, s' := Run(steps, seed), Run(steps + [Fail(i)], seed);
            |s'.calls| == |s.calls| && s'.calls[i].progress == Broken && s'.table == s.table
  {
    RunStep(steps, Fail(i), seed);
  }

  /** One call after the other, nothing in between. */
  function Alone(r: Request, occurredAt: string, i: nat): seq<Step> {
    [Begin(r, occurredAt), Read(i), DrawSequence(i), Insert(i, false), ReadBack(i)]
  }

  /** Whatever happened before, and whatever is still under way: a call nobody interferes with answers as the sequential
      store does, stores exactly the event it reports, and takes one number when it stores one. */
  lemma AloneIsSequential(steps: seq<Step>, r: Request, occurredAt: string, seed: Seed)
    requires r.expectedState != r.nextState && 0 < |r.questionId| <= 200 && r.seededState == seed(r.questionId)
    ensures var s := Run(steps, seed);
            var s' := Run(steps + Alone(r, occurredAt, |s.calls|), seed);
            var answer := Answer(s.table, r, occurredAt, s.nextSequence);
            && |s'.calls| == |s.calls| + 1 && s'.calls[..|s.calls|] == s.calls
            && s'.calls[|s.calls|].progress == Finished(answer)
            && s'.table == s.table + (if answer.Applied? then [answer.event] else [])
            && s'.nextSequence == s.nextSequence + (if answer.Applied? then 1 else 0)
  {
    var i, one := |Run(steps, seed).calls|, steps + [Begin(r, occurredAt)];
    RunStep(steps, Begin(r, occurredAt), seed);
    RunStep(one, Read(i), seed);
    ReadDecides(one, seed, i);
    var two, s := one + [Read(i)], Run(one, seed);
    assert s.table[..|s.table|] == s.table;
    assert Run(two, seed).calls[..i] == Run(steps, seed).calls;
    AloneAfterRead(two, i, seed);
    assert steps + Alone(r, occurredAt, i) == two + [DrawSequence(i), Insert(i, false), ReadBack(i)];
  }

  /** What a call that has read comes to, with nothing in between. */
  lemma AloneAfterRead(steps: seq<Step>, i: nat, seed: Seed)
    requires i < |Run(steps, seed).calls|
    requires var s, c := Run(steps, seed), Run(steps, seed).calls[i];
             c.progress == TurnedAway || c.progress == Chosen(Count(s.table, c.request.questionId))
    ensures var s, s' := Run(steps, seed), Run(steps + [DrawSequence(i), Insert(i, false), ReadBack(i)], seed);
            var r := s.calls[i].request;
            && |s'.calls| == |s.calls| && s'.calls[..i] == s.calls[..i]
            && if s.calls[i].progress.TurnedAway?
               then && s'.calls[i].progress == Finished(Stale(StateAt(s.table, |s.table|, r)))
                    && s'.table == s.table && s'.nextSequence == s.nextSequence
               else var row := NextEvent(s.table, r, s.calls[i].occurredAt, s.nextSequence);
                    && s'.calls[i].progress == Finished(Applied(row))
                    && s'.table == s.table + [row] && s'.nextSequence == s.nextSequence + 1
  {
    var drawn := steps + [DrawSequence(i)];
    var inserted := drawn + [Insert(i, false)];
    RunStep(steps, DrawSequence(i), seed);
    RunStep(drawn, Insert(i, false), seed);
    RunStep(inserted, ReadBack(i), seed);
    assert steps + [DrawSequence(i), Insert(i, false), ReadBack(i)] == inserted + [ReadBack(i)];
    if Run(steps, seed).calls[i].progress.TurnedAway? {
      ReadBackTells(inserted, seed, i);
    } else {
      InsertDecides(drawn, seed, i, false);
    }
  }

  lemma RunStep(steps: seq<Step>, step: Step, seed: Seed)
    ensures Run(steps + [step], seed) == Next(Run(steps, seed), step, seed)
  {
    assert Init(steps + [step]) == steps;
  }

  /** The odd case happens: two callers close one open question, and a third reopens it before the loser
      reads back. The loser is refused and told the very state it expected. */
  lemma StaleReportCanAgree(id: string) returns (steps: seq<Step>, i: nat)
    requires 0 < |id| <= MAX_QUESTION_ID_LENGTH
    ensures var s := Run(steps, _ => Open);
            && i < |s.calls| && s.calls[i].request.expectedState == Open
            && s.calls[i].progress == Finished(Stale(Open))
  {
    var seed: Seed := _ => Open;
    var first := Event(id, ClosedAction, Open, Closed, "", 1, 0);
    var second := Event(id, ReopenedAction, Closed, Open, "", 3, 1);
    i := 1;
    assert Init([first, second]) == [first];
    steps := Reopened(id, first, second, seed);
    RunStep(steps, ReadBack(1), seed);
    steps := steps + [ReadBack(1)];
  }

  /** The race, and then the question opened again before the loser reads back. */
  lemma Reopened(id: string, first: Event, second: Event, seed: Seed) returns (steps: seq<Step>)
    requires 0 < |id| <= MAX_QUESTION_ID_LENGTH && seed(id) == Open
    requires first == Event(id, ClosedAction, Open, Closed, "", 1, 0)
    requires second == Event(id, ReopenedAction, Closed, Open, "", 3, 1)
    ensures var s := Run(steps, seed);
            && s.table == [first, second] && |s.calls| == 3
            && s.calls[1] == Call(Request(id, Closed, Open, Open), "", TurnedAway, 0, 0, 1, 0)
  {
    var won := Call(Request(id, Closed, Open, Open), "", Finished(Applied(first)), 0, 0, 0, 1);
    var lost := Call(Request(id, Closed, Open, Open), "", TurnedAway, 0, 0, 1, 0);
    var after := Call(Request(id, Open, Closed, Open), "", Numbered(1, 3), 1, 1, 0, 0);
    steps := ReopenNumbered(id, first, won, lost, after, seed);
    assert [first][0].revision == 0 && !Holds([first], id, 1);
    steps := Take(steps, Insert(2, false),
                  State([first, second], 4,
                    [won, lost, after.(progress := Finished(Applied(second)), decided := 1, end := 2)]), seed);
  }

  /** The reopening call, up to its insert. */
  lemma ReopenNumbered(id: string, first: Event, won: Call, lost: Call, after: Call, seed: Seed)
    returns (steps: seq<Step>)
    requires 0 < |id| <= MAX_QUESTION_ID_LENGTH && seed(id) == Open
    requires first == Event(id, ClosedAction, Open, Closed, "", 1, 0)
    requires won == Call(Request(id, Closed, Open, Open), "", Finished(Applied(first)), 0, 0, 0, 1)
    requires lost == Call(Request(id, Closed, Open, Open), "", TurnedAway, 0, 0, 1, 0)
    requires after == Call(Request(id, Open, Closed, Open), "", Numbered(1, 3), 1, 1, 0, 0)
    ensures Run(steps, seed) == State([first], 4, [won, lost, after])
  {
    var begun := after.(progress := Called, read := 0);
    steps := Race(id, Request(id, Closed, Open, Open), first, seed);
    steps := Take(steps, Begin(after.request, ""), State([first], 3, [won, lost, begun]), seed);
    assert Init([first]) == [] && LatestByRevision([first], id) == Some(first);
    steps := Take(steps, Read(2), State([first], 3, [won, lost, after.(progress := Chosen(1))]), seed);
    steps := Take(steps, DrawSequence(2), State([first], 4, [won, lost, after]), seed);
  }

  /** Two callers read the same empty history; one commits, the other collides. */
  lemma Race(id: string, close: Request, first: Event, seed: Seed) returns (steps: seq<Step>)
    requires 0 < |id| <= MAX_QUESTION_ID_LENGTH && seed(id) == Open
    requires close == Request(id, Closed, Open, Open) && first == Event(id, ClosedAction, Open, Closed, "", 1, 0)
    ensures Run(steps, seed) == State([first], 3, [Call(close, "", Finished(Applied(first)), 0, 0, 0, 1),
                                                   Call(close, "", TurnedAway, 0, 0, 1, 0)])
  {
    var c := Call(close, "", Called, 0, 0, 0, 0);
    steps := BothRead(close, c, seed);
    steps := Take(steps, DrawSequence(0), State([], 2, [c.(progress := Numbered(0, 1)), c.(progress := Chosen(0))]),
      seed);
    steps := Take(steps, DrawSequence(1),
      State([], 3, [c.(progress := Numbered(0, 1)), c.(progress := Numbered(0, 2))]), seed);
    steps := OneCommits(steps, c, first, seed);
  }

  lemma OneCommits(before: seq<Step>, c: Call, first: Event, seed: Seed) returns (steps: seq<Step>)
    requires Run(before, seed) == State([], 3, [c.(progress := Numbered(0, 1)), c.(progress := Numbered(0, 2))])
    requires first == Row(c.(progress := Numbered(0, 1)))
    ensures Run(steps, seed) == State([first], 3, [c.(progress := Finished(Applied(first)), decided := 0, end := 1),
                                                   c.(progress := TurnedAway, decided := 1)])
  {
    var won := c.(progress := Finished(Applied(first)), decided := 0, end := 1);
    steps := Take(before, Insert(0, false), State([first], 3, [won, c.(progress := Numbered(0, 2))]), seed);
    assert [first][0].revision == 0;
    assert Holds([first], first.questionId, 0);
    steps := Take(steps, Insert(1, false), State([first], 3, [won, c.(progress := TurnedAway, decided := 1)]), seed);
  }

  lemma BothRead(close: Request, c: Call, seed: Seed) returns (steps: seq<Step>)
    requires Storable(close) && close.seededState == seed(close.questionId) == close.expectedState
    requires c == Call(close, "", Called, 0, 0, 0, 0)
    ensures Run(steps, seed) == State([], 1, [c.(progress := Chosen(0)), c.(progress := Chosen(0))])
  {
    steps := Take([], Begin(close, ""), State([], 1, [c]), seed);
    steps := Take(steps, Begin(close, ""), State([], 1, [c, c]), seed);
    steps := Take(steps, Read(0), State([], 1, [c.(progress := Chosen(0)), c]), seed);
    steps := Take(steps, Read(1), State([], 1, [c.(progress := Chosen(0)), c.(progress := Chosen(0))]), seed);
  }

  lemma Take(steps: seq<Step>, step: Step, s: State, seed: Seed) returns (steps': seq<Step>)
    requires Next(Run(steps, seed), step, seed) == s
    ensures Run(steps', seed) == s
  {
    RunStep(steps, step, seed);
    steps' := steps + [step];
  }
}
