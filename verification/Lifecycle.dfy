// The question lifecycle: src/domain/questions/question-lifecycle.ts and
// src/application/questions/question-lifecycle.ts.
module Lifecycle {
  import opened Common

  datatype QuestionState = Open | Closed

  datatype Action = ClosedAction | ReopenedAction

  function StateAfter(action: Action): QuestionState {
    match action
    case ClosedAction => Closed
    case ReopenedAction => Open
  }

  /** The inverse table, written out rather than searched for. */
  function ActionProducingState(state: QuestionState): (action: Action)
    ensures StateAfter(action) == state
    ensures forall a :: StateAfter(a) == state ==> a == action
  {
    match state
    case Open => ReopenedAction
    case Closed => ClosedAction
  }

  function Other(state: QuestionState): QuestionState {
    if state == Open then Closed else Open
  }

  datatype Event = Event(
    questionId: string,
    action: Action,
    previousState: QuestionState,
    nextState: QuestionState,
    occurredAt: string,
    sequence: int,
    revision: int)

  datatype Request = Request(
    questionId: string,
    nextState: QuestionState,
    expectedState: QuestionState,
    seededState: QuestionState)

  datatype Outcome = Applied(event: Event) | Stale(currentState: QuestionState)

  datatype Fact = Fact(state: QuestionState, sequence: int)

  type Snapshot = map<string, Fact>

  /** What the dataset seeds for each question id. */
  type Seed = string -> QuestionState

  // ---------------------------------------------------------------- reading a log

  /** How many events a log holds for one question. */
  function Count(log: seq<Event>, id: string): nat {
    if log == [] then 0
    else Count(Init(log), id) + (if Last(log).questionId == id then 1 else 0)
  }

  /** The state of one question after a log: its last event, or the seed. */
  function StateOf(log: seq<Event>, id: string, seeded: QuestionState): QuestionState {
    if log == [] then seeded
    else if Last(log).questionId == id then Last(log).nextState
    else StateOf(Init(log), id, seeded)
  }

  /** The last event of every question, as the state and sequence it recorded. */
  function SnapshotOf(log: seq<Event>): (snapshot: Snapshot)
    ensures forall id :: id in snapshot <==> Count(log, id) > 0
  {
    if log == [] then map[]
    else SnapshotOf(Init(log))[Last(log).questionId := Fact(Last(log).nextState, Last(log).sequence)]
  }

  // ---------------------------------------------------------------- which logs are histories

  /** One event continues its own question's chain. */
  predicate ChainStep(log: seq<Event>, e: Event, seed: Seed) {
    && e.revision == Count(log, e.questionId)
    && e.previousState == StateOf(log, e.questionId, seed(e.questionId))
    && e.nextState == Other(e.previousState)
    && e.action == ActionProducingState(e.nextState)
    && (forall k :: 0 <= k < |log| && log[k].questionId == e.questionId ==> log[k].sequence < e.sequence)
  }

  /** Every question's events form one chain: revisions 0, 1, 2, ..., each leaving the state the
      previous one produced, with sequence growing along the chain. */
  predicate ChainLog(log: seq<Event>, seed: Seed) {
    log == [] || (ChainLog(Init(log), seed) && ChainStep(Init(log), Last(log), seed))
  }

  /** The store-wide order is the order of the log. */
  predicate SequenceOrdered(log: seq<Event>) {
    forall i, j :: 0 <= i < j < |log| ==> log[i].sequence < log[j].sequence
  }

  /** A history in sequence order. */
  predicate ValidLog(log: seq<Event>, seed: Seed) {
    ChainLog(log, seed) && SequenceOrdered(log)
  }

  // ---------------------------------------------------------------- one change, sequentially

  /** The event a successful change appends. */
  function NextEvent(log: seq<Event>, r: Request, occurredAt: string, sequence: int): Event {
    Event(r.questionId, ActionProducingState(r.nextState), r.expectedState, r.nextState, occurredAt, sequence,
          Count(log, r.questionId))
  }

  /** What a change answers against one log. */
  function Answer(log: seq<Event>, r: Request, occurredAt: string, sequence: int): Outcome {
    var current := StateOf(log, r.questionId, r.seededState);
    if current != r.expectedState then Stale(current)
    else Applied(NextEvent(log, r, occurredAt, sequence))
  }

  // ---------------------------------------------------------------- facts about chains

  /** Each event in a chain flips its question's state, so the state is the seed flipped once per event. */
  lemma {:induction false} StateIsParity(log: seq<Event>, id: string, seed: Seed)
    requires ChainLog(log, seed)
    ensures StateOf(log, id, seed(id)) == if Count(log, id) % 2 == 0 then seed(id) else Other(seed(id))
  {
    if log != [] {
      StateIsParity(Init(log), id, seed);
    }
  }

  /** Going on from a history, the state flips once per further event. */
  lemma {:induction false} StateFlips(log: seq<Event>, more: seq<Event>, id: string, seed: Seed)
    requires ChainLog(log + more, seed)
    ensures var before := StateOf(log, id, seed(id));
            StateOf(log + more, id, seed(id)) == if Count(more, id) % 2 == 0 then before else Other(before)
  {
    if more == [] {
      assert log + more == log;
    } else {
      assert Init(log + more) == log + Init(more);
      StateFlips(log, Init(more), id, seed);
    }
  }

  lemma {:induction false} CountAppend(log: seq<Event>, more: seq<Event>, id: string)
    ensures Count(log + more, id) == Count(log, id) + Count(more, id)
  {
    if more == [] {
      assert log + more == log;
    } else {
      assert Init(log + more) == log + Init(more);
      CountAppend(log, Init(more), id);
    }
  }

  /** Every prefix of a chain log is a chain log, and the event after it is its next step. */
  lemma {:induction false} ChainPrefix(log: seq<Event>, seed: Seed, k: nat)
    requires ChainLog(log, seed) && k <= |log|
    ensures ChainLog(log[..k], seed)
    ensures k < |log| ==> ChainStep(log[..k], log[k], seed)
  {
    if k == |log| {
      assert log[..k] == log;
    } else if k == |log| - 1 {
      assert log[..k] == Init(log);
    } else {
      ChainPrefix(Init(log), seed, k);
      assert Init(log)[..k] == log[..k];
    }
  }

  /** Revisions are exactly 0..n-1: the event at any place carries the number of its predecessors. */
  lemma {:induction false} RevisionCounts(log: seq<Event>, seed: Seed, k: nat)
    requires ChainLog(log, seed) && k < |log|
    ensures log[k].revision == Count(log[..k], log[k].questionId)
    ensures 0 <= log[k].revision < Count(log, log[k].questionId)
  {
    ChainPrefix(log, seed, k);
    assert log == log[..k] + log[k..];
    CountAppend(log[..k], log[k..], log[k].questionId);
    CountPositive(log[k..], 0);
  }

  lemma {:induction false} CountPositive(log: seq<Event>, k: nat)
    requires k < |log|
    ensures Count(log, log[k].questionId) > 0
  {
    if k < |log| - 1 {
      CountPositive(Init(log), k);
    }
  }

  /** Conversely, every revision below the count is carried by some event of that question. */
  lemma {:induction false} RevisionHeld(log: seq<Event>, seed: Seed, id: string, revision: nat) returns (k: nat)
    requires ChainLog(log, seed) && revision < Count(log, id)
    ensures k < |log| && log[k].questionId == id && log[k].revision == revision
  {
    if Last(log).questionId == id && Last(log).revision == revision {
      k := |log| - 1;
    } else {
      k := RevisionHeld(Init(log), seed, id, revision);
    }
  }

  /** No two events of one question share a revision. */
  lemma {:induction false} RevisionsUnique(log: seq<Event>, seed: Seed, i: nat, j: nat)
    requires ChainLog(log, seed) && i < j < |log|
    requires log[i].questionId == log[j].questionId
    ensures log[i].revision < log[j].revision
    ensures log[i].sequence < log[j].sequence
  {
    var id := log[i].questionId;
    RevisionCounts(log, seed, i);
    RevisionCounts(log, seed, j);
    ChainPrefix(log, seed, j);
    assert log[..j] == log[..i] + log[i..j];
    CountAppend(log[..i], log[i..j], id);
    CountPositive(log[i..j], 0);
    assert log[..j][i] == log[i];
  }

  /** A snapshot fact is the state the log leaves that question in. */
  lemma {:induction false} SnapshotState(log: seq<Event>, id: string, seeded: QuestionState)
    ensures StateOf(log, id, seeded) == if id in SnapshotOf(log) then SnapshotOf(log)[id].state else seeded
  {
    if log != [] {
      SnapshotState(Init(log), id, seeded);
    }
  }

  /** Every sequence in the snapshot is the sequence of one of that question's events. */
  lemma {:induction false} SnapshotSequence(log: seq<Event>, id: string) returns (k: nat)
    requires id in SnapshotOf(log)
    ensures k < |log| && log[k].questionId == id
    ensures SnapshotOf(log)[id] == Fact(log[k].nextState, log[k].sequence)
  {
    if Last(log).questionId == id {
      k := |log| - 1;
    } else {
      k := SnapshotSequence(Init(log), id);
    }
  }

  // ---------------------------------------------------------------- the latest event, by revision

  /** The event of one question with the greatest revision; the earlier one of two that tie. */
  function LatestByRevision(log: seq<Event>, id: string): (latest: Option<Event>)
    ensures latest.Some? ==> latest.value in log && latest.value.questionId == id
  {
    if log == [] then None
    else
      var known := LatestByRevision(Init(log), id);
      if Last(log).questionId == id && (known.None? || Last(log).revision > known.value.revision) then Some(Last(log))
      else known
  }

  /** The state the adapters derive from the latest event. */
  function CurrentState(log: seq<Event>, id: string, seeded: QuestionState): QuestionState {
    match LatestByRevision(log, id)
    case None => seeded
    case Some(e) => e.nextState
  }

  /** The revision the adapters give the next event. */
  function NextRevision(log: seq<Event>, id: string): int {
    match LatestByRevision(log, id)
    case None => 0
    case Some(e) => e.revision + 1
  }

  /** In a chain, latest by revision is latest in the log: the derived state, revision and snapshot
      fact are the ones the whole history gives. */
  lemma {:induction false} LatestIsLast(log: seq<Event>, id: string, seed: Seed)
    requires ChainLog(log, seed)
    ensures CurrentState(log, id, seed(id)) == StateOf(log, id, seed(id))
    ensures NextRevision(log, id) == Count(log, id)
    ensures LatestByRevision(log, id).Some? <==> id in SnapshotOf(log)
    ensures var e := LatestByRevision(log, id);
            e.Some? ==> SnapshotOf(log)[id] == Fact(e.value.nextState, e.value.sequence)
  {
    if log != [] {
      LatestIsLast(Init(log), id, seed);
    }
  }

  /** The state of a question does not depend on events about other questions. */
  lemma {:induction false} StateSkips(log: seq<Event>, more: seq<Event>, id: string, seeded: QuestionState)
    requires Count(more, id) == 0
    ensures StateOf(log + more, id, seeded) == StateOf(log, id, seeded)
  {
    if more == [] {
      assert log + more == log;
    } else {
      assert Init(log + more) == log + Init(more);
      StateSkips(log, Init(more), id, seeded);
    }
  }
}
