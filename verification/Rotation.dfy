// The turn order of the questions: src/content/open-questions.ts.
module Rotation {
  import opened Common
  import opened Lifecycle

  datatype Question = Question(id: string, state: QuestionState, category: string, focus: bool)

  datatype QuestionRotation = QuestionRotation(
    active: Option<Question>,
    upcoming: seq<Question>,
    archived: seq<Question>)

  /** One open question with the two values the turn order compares. */
  datatype Entry = Entry(question: Question, group: nat, key: int)

  predicate DistinctIds(questions: seq<Question>) {
    forall i, j :: 0 <= i < j < |questions| ==> questions[i].id != questions[j].id
  }

  /** The seed the lifecycle log works from is the one the dataset states. */
  predicate Seeds(seed: Seed, questions: seq<Question>) {
    forall i :: 0 <= i < |questions| ==> seed(questions[i].id) == questions[i].state
  }

  function EffectiveState(question: Question, snapshot: Snapshot): QuestionState {
    if question.id in snapshot then snapshot[question.id].state else question.state
  }

  function EntryFor(question: Question, index: nat, snapshot: Snapshot): Entry {
    if question.id in snapshot then Entry(question, 1, snapshot[question.id].sequence)
    else Entry(question, 0, index)
  }

  /** The entries of the open questions, in dataset order. */
  function OpenEntries(snapshot: Snapshot, questions: seq<Question>): seq<Entry> {
    if questions == [] then []
    else
      var before := OpenEntries(snapshot, Init(questions));
      if EffectiveState(Last(questions), snapshot) == Closed then before
      else before + [EntryFor(Last(questions), |questions| - 1, snapshot)]
  }

  function Archived(snapshot: Snapshot, questions: seq<Question>): seq<Question> {
    Filter(questions, (q: Question) => EffectiveState(q, snapshot) == Closed)
  }

  // ---------------------------------------------------------------- the comparator and the sort

  predicate Before(left: Entry, right: Entry) {
    left.group < right.group || (left.group == right.group && left.key < right.key)
  }

  /** Where a stable sort by `Before` puts one more entry that came last. */
  function Insert(sorted: seq<Entry>, e: Entry): seq<Entry> {
    if sorted == [] || !Before(e, Last(sorted)) then sorted + [e]
    else Insert(Init(sorted), e) + [Last(sorted)]
  }

  function Sorted(entries: seq<Entry>): seq<Entry> {
    if entries == [] then [] else Insert(Sorted(Init(entries)), Last(entries))
  }

  function Questions(entries: seq<Entry>): (questions: seq<Question>)
    ensures |questions| == |entries|
    ensures forall i :: 0 <= i < |entries| ==> questions[i] == entries[i].question
  {
    seq(|entries|, i requires 0 <= i < |entries| => entries[i].question)
  }

  /** The rotation as one expression. */
  function Rotate(snapshot: Snapshot, questions: seq<Question>): QuestionRotation {
    var open := Questions(Sorted(OpenEntries(snapshot, questions)));
    QuestionRotation(
      if open == [] then None else Some(open[0]),
      if open == [] then [] else open[1..],
      Archived(snapshot, questions))
  }

  method RotateQuestions(snapshot: Snapshot, questions: seq<Question>) returns (rotation: QuestionRotation)
    ensures rotation == Rotate(snapshot, questions)
  {
    var open: seq<Entry> := [];
    var archived: seq<Question> := [];
    for index := 0 to |questions|
      invariant open == OpenEntries(snapshot, questions[..index])
      invariant archived == Archived(snapshot, questions[..index])
    {
      var question := questions[index];
      var state := if question.id in snapshot then snapshot[question.id].state else question.state;
      assert Init(questions[..index + 1]) == questions[..index];
      if state == Closed {
        archived := archived + [question];
      } else if question.id !in snapshot {
        open := open + [Entry(question, 0, index)];
      } else {
        open := open + [Entry(question, 1, snapshot[question.id].sequence)];
      }
    }
    assert questions[..|questions|] == questions;
    open := SortTurns(open);
    var inTurn := Questions(open);
    if |inTurn| == 0 {
      rotation := QuestionRotation(None, [], archived);
    } else {
      rotation := QuestionRotation(Some(inTurn[0]), inTurn[1..], archived);
    }
  }

  /** The stable in-place sort, by insertion. */
  method SortTurns(entries: seq<Entry>) returns (sorted: seq<Entry>)
    ensures sorted == Sorted(entries)
  {
    sorted := [];
    for i := 0 to |entries|
      invariant sorted == Sorted(entries[..i])
    {
      var e := entries[i];
      var j := i;
      ghost var was := sorted;
      assert |sorted| == i by { SortedContents(entries[..i]); }
      assert was[..i] == was && was[i..] == [];
      while 0 < j && Before(e, sorted[j - 1])
        invariant 0 <= j <= i && sorted == was
        invariant Insert(was, e) == Insert(was[..j], e) + was[j..]
      {
        assert Init(was[..j]) == was[..j - 1];
        assert was[j - 1..] == [was[j - 1]] + was[j..];
        j := j - 1;
      }
      sorted := sorted[..j] + [e] + sorted[j..];
      assert Init(entries[..i + 1]) == entries[..i];
    }
    assert entries[..|entries|] == entries;
  }

  /** The active question followed by the ones waiting. */
  function Turns(rotation: QuestionRotation): seq<Question> {
    (match rotation.active case None => [] case Some(q) => [q]) + rotation.upcoming
  }

  // ---------------------------------------------------------------- the queue

  /** The dataset's question with this id, if there is one. */
  function Find(questions: seq<Question>, id: string): (found: Option<Question>)
    ensures found.Some? ==> found.value in questions && found.value.id == id
    ensures found.None? ==> forall q :: q in questions ==> q.id != id
  {
    if questions == [] then None
    else if Last(questions).id == id then Some(Last(questions))
    else Find(Init(questions), id)
  }

  function Without(queue: seq<Question>, id: string): seq<Question> {
    Filter(queue, (q: Question) => q.id != id)
  }

  /** The queue machine: closing takes a question out, reopening sends it to the tail, and an event
      about an unknown question does nothing. */
  function Enqueue(queue: seq<Question>, e: Event, questions: seq<Question>): seq<Question> {
    match Find(questions, e.questionId)
    case None => queue
    case Some(q) => if e.nextState == Closed then Without(queue, q.id) else queue + [q]
  }

  /** The queue after a history: it starts as the seeded-open questions in dataset order. */
  function Queue(log: seq<Event>, questions: seq<Question>): seq<Question> {
    if log == [] then Filter(questions, (q: Question) => q.state == Open)
    else Enqueue(Queue(Init(log), questions), Last(log), questions)
  }

  // ---------------------------------------------------------------- sorting facts

  lemma {:induction false} InsertContents(sorted: seq<Entry>, e: Entry)
    ensures multiset(Insert(sorted, e)) == multiset(sorted) + multiset{e}
    ensures |Insert(sorted, e)| == |sorted| + 1
  {
    if sorted != [] && Before(e, Last(sorted)) {
      InsertContents(Init(sorted), e);
      assert sorted == Init(sorted) + [Last(sorted)];
    }
  }

  lemma {:induction false} SortedContents(entries: seq<Entry>)
    ensures multiset(Sorted(entries)) == multiset(entries)
    ensures |Sorted(entries)| == |entries|
  {
    if entries != [] {
      SortedContents(Init(entries));
      InsertContents(Sorted(Init(entries)), Last(entries));
      assert entries == Init(entries) + [Last(entries)];
    }
  }

  predicate InOrder(entries: seq<Entry>) {
    forall i, j :: 0 <= i < j < |entries| ==> !Before(entries[j], entries[i])
  }

  lemma {:induction false} InsertInOrder(sorted: seq<Entry>, e: Entry)
    requires InOrder(sorted)
    ensures InOrder(Insert(sorted, e))
    ensures forall x :: x in Insert(sorted, e) ==> x in sorted || x == e
  {
    if sorted != [] && Before(e, Last(sorted)) {
      InsertInOrder(Init(sorted), e);
      var before := Insert(Init(sorted), e);
      forall i | 0 <= i < |before| ensures !Before(Last(sorted), before[i]) {
        assert before[i] in before;
        if before[i] != e {
          var k :| 0 <= k < |sorted| - 1 && sorted[k] == before[i];
        }
      }
    }
  }

  lemma {:induction false} SortedInOrder(entries: seq<Entry>)
    ensures InOrder(Sorted(entries))
  {
    if entries != [] {
      SortedInOrder(Init(entries));
      InsertInOrder(Sorted(Init(entries)), Last(entries));
    }
  }

  predicate StrictlyInOrder(entries: seq<Entry>) {
    forall i, j :: 0 <= i < j < |entries| ==> Before(entries[i], entries[j])
  }

  /** A strict order has one arrangement: two strictly ordered lists of the same entries are equal. */
  lemma {:induction false} OneArrangement(a: seq<Entry>, b: seq<Entry>)
    requires StrictlyInOrder(a) && StrictlyInOrder(b)
    requires forall x :: x in a <==> x in b
    ensures a == b
  {
    if a == [] {
      forall x ensures x !in multiset(b) {
        assert x in b <==> x in a;
      }
      assert multiset(b) == multiset{};
      assert |multiset(b)| == 0;
    } else {
      assert a[0] in b;
      assert b[0] in a;
      assert a[0] == b[0];
      forall x ensures x in a[1..] <==> x in b[1..] {
        if x in a[1..] { assert x in b; assert x != a[0]; }
        if x in b[1..] { assert x in a; assert x != b[0]; }
      }
      OneArrangement(a[1..], b[1..]);
      assert a == [a[0]] + a[1..] && b == [b[0]] + b[1..];
    }
  }

  // ---------------------------------------------------------------- the queue keeps turn order

  /** A question's place in the dataset. */
  function IndexOf(question: Question, questions: seq<Question>): (index: nat)
    ensures question in questions ==> index < |questions| && questions[index] == question
  {
    if questions == [] then 0
    else if Last(questions) == question then |questions| - 1
    else IndexOf(question, Init(questions))
  }

  function Place(question: Question, questions: seq<Question>, snapshot: Snapshot): Entry {
    EntryFor(question, IndexOf(question, questions), snapshot)
  }

  /** Each question is strictly before every one behind it. */
  predicate InTurnOrder(queue: seq<Question>, questions: seq<Question>, snapshot: Snapshot) {
    forall i, j :: 0 <= i < j < |queue| ==>
      Before(Place(queue[i], questions, snapshot), Place(queue[j], questions, snapshot))
  }

  /** The queue holds the open questions and nothing else, in turn order. */
  ghost predicate QueueMatches(queue: seq<Question>, questions: seq<Question>, snapshot: Snapshot) {
    && (forall q :: q in queue <==> q in questions && EffectiveState(q, snapshot) == Open)
    && InTurnOrder(queue, questions, snapshot)
  }

  /** The entries collected are the open questions' places, each once. */
  lemma {:induction false} OpenEntriesAre(snapshot: Snapshot, questions: seq<Question>)
    requires DistinctIds(questions)
    ensures forall e :: e in OpenEntries(snapshot, questions) <==>
              e.question in questions && EffectiveState(e.question, snapshot) == Open
              && e == Place(e.question, questions, snapshot)
    ensures forall i, j :: 0 <= i < j < |OpenEntries(snapshot, questions)| ==>
              OpenEntries(snapshot, questions)[i] != OpenEntries(snapshot, questions)[j]
  {
    if questions != [] {
      var before, last := Init(questions), Last(questions);
      OpenEntriesAre(snapshot, before);
      assert last !in before;
      assert forall q :: q in questions <==> q in before || q == last;
      assert forall q :: q in before ==> IndexOf(q, questions) == IndexOf(q, before);
      var collected := OpenEntries(snapshot, before);
      forall i | 0 <= i < |collected| ensures collected[i].question != last {
        assert collected[i] in collected;
      }
    }
  }

  /** A queue that matches a snapshot is what the sort of that snapshot produces. */
  lemma MatchingQueueIsRotation(queue: seq<Question>, questions: seq<Question>, snapshot: Snapshot)
    requires DistinctIds(questions) && QueueMatches(queue, questions, snapshot)
    ensures Questions(Sorted(OpenEntries(snapshot, questions))) == queue
  {
    var sorted := Sorted(OpenEntries(snapshot, questions));
    var placed := seq(|queue|, i requires 0 <= i < |queue| => Place(queue[i], questions, snapshot));
    SortedEntriesAre(snapshot, questions);
    SortedInOrder(OpenEntries(snapshot, questions));
    forall e ensures e in sorted <==> e in placed {
      if e in sorted {
        assert e.question in queue;
        var k :| 0 <= k < |queue| && queue[k] == e.question;
        assert placed[k] == e;
      }
      if e in placed {
        var k :| 0 <= k < |placed| && placed[k] == e;
        assert queue[k] in queue;
      }
    }
    StrictBySet(sorted, placed);
    OneArrangement(sorted, placed);
  }

  lemma SortedEntriesAre(snapshot: Snapshot, questions: seq<Question>)
    requires DistinctIds(questions)
    ensures forall e :: e in Sorted(OpenEntries(snapshot, questions)) <==>
              e.question in questions && EffectiveState(e.question, snapshot) == Open
              && e == Place(e.question, questions, snapshot)
    ensures forall i, j :: 0 <= i < j < |Sorted(OpenEntries(snapshot, questions))| ==>
              Sorted(OpenEntries(snapshot, questions))[i] != Sorted(OpenEntries(snapshot, questions))[j]
  {
    var entries := OpenEntries(snapshot, questions);
    OpenEntriesAre(snapshot, questions);
    SortedContents(entries);
    NoRepeats(entries, Sorted(entries));
    forall e ensures e in Sorted(entries) <==> e in entries {
      assert e in multiset(Sorted(entries)) <==> e in multiset(entries);
    }
  }

  /** A sorted list without repeats, of entries that some strict order arranges, is itself strict. */
  lemma StrictBySet(sorted: seq<Entry>, placed: seq<Entry>)
    requires InOrder(sorted) && StrictlyInOrder(placed)
    requires forall i, j :: 0 <= i < j < |sorted| ==> sorted[i] != sorted[j]
    requires forall e :: e in sorted ==> e in placed
    ensures StrictlyInOrder(sorted)
  {
    forall i, j | 0 <= i < j < |sorted| ensures Before(sorted[i], sorted[j]) {
      assert sorted[i] in placed && sorted[j] in placed;
      var a :| 0 <= a < |placed| && placed[a] == sorted[i];
      var b :| 0 <= b < |placed| && placed[b] == sorted[j];
    }
  }

  /** Rearranging a list without repeats leaves it without repeats. */
  lemma NoRepeats(a: seq<Entry>, b: seq<Entry>)
    requires multiset(a) == multiset(b)
    requires forall i, j :: 0 <= i < j < |a| ==> a[i] != a[j]
    ensures forall i, j :: 0 <= i < j < |b| ==> b[i] != b[j]
  {
    OncePerEntry(a);
    DistinctWhenOnce(b);
  }

  lemma {:induction false} OncePerEntry(a: seq<Entry>)
    requires forall i, j :: 0 <= i < j < |a| ==> a[i] != a[j]
    ensures forall e :: multiset(a)[e] <= 1
  {
    if a != [] {
      OncePerEntry(Init(a));
      assert a == Init(a) + [Last(a)];
      assert Last(a) !in Init(a);
    }
  }

  lemma {:induction false} DistinctWhenOnce(b: seq<Entry>)
    requires forall e :: multiset(b)[e] <= 1
    ensures forall i, j :: 0 <= i < j < |b| ==> b[i] != b[j]
  {
    if b != [] {
      assert b == Init(b) + [Last(b)];
      assert multiset(b) == multiset(Init(b)) + multiset{Last(b)};
      forall e ensures multiset(Init(b))[e] <= 1 {
        assert multiset(b)[e] <= 1;
      }
      DistinctWhenOnce(Init(b));
      assert multiset(b)[Last(b)] == multiset(Init(b))[Last(b)] + 1;
      assert Last(b) !in multiset(Init(b));
      assert Last(b) !in Init(b);
    }
  }

  /** Leaving questions out keeps the turn order of the rest. */
  lemma {:induction false} FilterInTurnOrder(
      s: seq<Question>, keep: Question -> bool, questions: seq<Question>, snapshot: Snapshot)
    requires InTurnOrder(s, questions, snapshot)
    ensures InTurnOrder(Filter(s, keep), questions, snapshot)
  {
    if s != [] {
      FilterInTurnOrder(Init(s), keep, questions, snapshot);
      var before := Filter(Init(s), keep);
      forall i | 0 <= i < |before|
        ensures Before(Place(before[i], questions, snapshot), Place(Last(s), questions, snapshot))
      {
        assert before[i] in Init(s);
        var k :| 0 <= k < |s| - 1 && s[k] == before[i];
      }
    }
  }

  lemma SeededQueueMatches(questions: seq<Question>)
    requires DistinctIds(questions)
    ensures QueueMatches(Queue([], questions), questions, map[])
  {
    forall i | 0 <= i < |questions| ensures IndexOf(questions[i], questions) == i {
      assert questions[i] in questions;
    }
    FilterInTurnOrder(questions, (q: Question) => q.state == Open, questions, map[]);
  }

  /** Closing: the snapshot moves only for `x`, and the queue loses only `x`. */
  lemma CloseKeepsMatch(queue: seq<Question>, questions: seq<Question>, snapshot: Snapshot, x: Question, sequence: int)
    requires DistinctIds(questions) && x in questions && QueueMatches(queue, questions, snapshot)
    ensures QueueMatches(Without(queue, x.id), questions, snapshot[x.id := Fact(Closed, sequence)])
  {
    var new' := snapshot[x.id := Fact(Closed, sequence)];
    var queue' := Without(queue, x.id);
    FilterInTurnOrder(queue, (q: Question) => q.id != x.id, questions, snapshot);
    forall i | 0 <= i < |queue'| ensures Place(queue'[i], questions, new') == Place(queue'[i], questions, snapshot) {
      assert queue'[i] in queue';
    }
    assert forall q :: q in questions && q.id == x.id ==> q == x;
  }

  /** Reopening with a sequence above every recorded one: the snapshot moves only for `x`, and the
      queue gains only `x`, behind all the others. */
  lemma ReopenKeepsMatch(queue: seq<Question>, questions: seq<Question>, snapshot: Snapshot, x: Question, sequence: int)
    requires DistinctIds(questions) && x in questions && QueueMatches(queue, questions, snapshot)
    requires EffectiveState(x, snapshot) == Closed
    requires forall id :: id in snapshot ==> snapshot[id].sequence < sequence
    ensures QueueMatches(queue + [x], questions, snapshot[x.id := Fact(Open, sequence)])
  {
    var new' := snapshot[x.id := Fact(Open, sequence)];
    assert forall q :: q in questions && q.id == x.id ==> q == x;
    forall i | 0 <= i < |queue|
      ensures Place(queue[i], questions, new') == Place(queue[i], questions, snapshot)
      ensures Before(Place(queue[i], questions, new'), Place(x, questions, new'))
    {
      assert queue[i] in queue;
    }
  }

  /** One event keeps the queue matching the snapshot it produces. */
  lemma EventKeepsMatch(queue: seq<Question>, questions: seq<Question>, log: seq<Event>, e: Event, seed: Seed)
    requires DistinctIds(questions) && Seeds(seed, questions)
    requires ValidLog(log + [e], seed)
    requires QueueMatches(queue, questions, SnapshotOf(log))
    ensures QueueMatches(Enqueue(queue, e, questions), questions, SnapshotOf(log + [e]))
  {
    ValidInit(log, e, seed);
    SnapshotStep(log, e);
    SnapshotBelow(log, e, seed);
    var found := Find(questions, e.questionId);
    if found.Some? {
      SnapshotState(log, e.questionId, seed(e.questionId));
      assert seed(found.value.id) == found.value.state;
      MoveKeepsMatch(queue, questions, SnapshotOf(log), found.value, e);
    } else {
      UnknownKeepsMatch(queue, questions, SnapshotOf(log), e);
    }
  }

  lemma MoveKeepsMatch(queue: seq<Question>, questions: seq<Question>, snapshot: Snapshot, x: Question, e: Event)
    requires DistinctIds(questions) && QueueMatches(queue, questions, snapshot)
    requires Find(questions, e.questionId) == Some(x)
    requires e.nextState == Open ==> EffectiveState(x, snapshot) == Closed
    requires forall id :: id in snapshot ==> snapshot[id].sequence < e.sequence
    ensures QueueMatches(Enqueue(queue, e, questions), questions, snapshot[x.id := Fact(e.nextState, e.sequence)])
  {
    if e.nextState == Closed {
      CloseKeepsMatch(queue, questions, snapshot, x, e.sequence);
    } else {
      ReopenKeepsMatch(queue, questions, snapshot, x, e.sequence);
    }
  }

  /** An event about a question the dataset does not know changes nothing that is shown. */
  lemma UnknownKeepsMatch(queue: seq<Question>, questions: seq<Question>, snapshot: Snapshot, e: Event)
    requires QueueMatches(queue, questions, snapshot)
    requires Find(questions, e.questionId) == None
    ensures QueueMatches(queue, questions, snapshot[e.questionId := Fact(e.nextState, e.sequence)])
  {
    var new' := snapshot[e.questionId := Fact(e.nextState, e.sequence)];
    forall i | 0 <= i < |queue| ensures Place(queue[i], questions, new') == Place(queue[i], questions, snapshot) {
      assert queue[i] in queue;
    }
  }

  lemma SnapshotStep(log: seq<Event>, e: Event)
    ensures SnapshotOf(log + [e]) == SnapshotOf(log)[e.questionId := Fact(e.nextState, e.sequence)]
  {
    assert Init(log + [e]) == log && Last(log + [e]) == e;
  }

  lemma QueueStep(log: seq<Event>, e: Event, questions: seq<Question>)
    ensures Queue(log + [e], questions) == Enqueue(Queue(log, questions), e, questions)
  {
    assert Init(log + [e]) == log && Last(log + [e]) == e;
  }

  lemma ValidInit(log: seq<Event>, e: Event, seed: Seed)
    requires ValidLog(log + [e], seed)
    ensures ValidLog(log, seed) && ChainStep(log, e, seed)
    ensures forall k :: 0 <= k < |log| ==> log[k].sequence < e.sequence
  {
    assert Init(log + [e]) == log && Last(log + [e]) == e;
    forall i, j | 0 <= i < j < |log| ensures log[i].sequence < log[j].sequence {
      assert (log + [e])[i].sequence < (log + [e])[j].sequence;
    }
    forall k | 0 <= k < |log| ensures log[k].sequence < e.sequence {
      assert (log + [e])[k].sequence < (log + [e])[|log|].sequence;
    }
  }

  lemma SnapshotBelow(log: seq<Event>, e: Event, seed: Seed)
    requires ValidLog(log + [e], seed)
    ensures forall id :: id in SnapshotOf(log) ==> SnapshotOf(log)[id].sequence < e.sequence
  {
    ValidInit(log, e, seed);
    forall id | id in SnapshotOf(log) ensures SnapshotOf(log)[id].sequence < e.sequence {
      var k := SnapshotSequence(log, id);
    }
  }

  lemma {:induction false} QueueAlwaysMatches(log: seq<Event>, questions: seq<Question>, seed: Seed)
    requires DistinctIds(questions) && Seeds(seed, questions) && ValidLog(log, seed)
    ensures QueueMatches(Queue(log, questions), questions, SnapshotOf(log))
  {
    if log == [] {
      SeededQueueMatches(questions);
    } else {
      assert log == Init(log) + [Last(log)];
      ValidInit(Init(log), Last(log), seed);
      QueueAlwaysMatches(Init(log), questions, seed);
      EventKeepsMatch(Queue(Init(log), questions), questions, Init(log), Last(log), seed);
    }
  }

  // ---------------------------------------------------------------- main results

  /** The rotation of any history is the queue: the active question is its head and the waiting ones
      its tail; the archive is every other question of the dataset, in dataset order. */
  lemma RotationIsQueue(log: seq<Event>, questions: seq<Question>, seed: Seed)
    requires DistinctIds(questions) && Seeds(seed, questions) && ValidLog(log, seed)
    ensures Turns(Rotate(SnapshotOf(log), questions)) == Queue(log, questions)
    ensures Rotate(SnapshotOf(log), questions).archived
            == Filter(questions, (q: Question) => q !in Queue(log, questions))
  {
    var queue, snapshot := Queue(log, questions), SnapshotOf(log);
    QueueAlwaysMatches(log, questions, seed);
    MatchingQueueIsRotation(queue, questions, snapshot);
    FilterSame(questions, (q: Question) => EffectiveState(q, snapshot) == Closed, (q: Question) => q !in queue);
  }

  /** Reopening never steals the turn, and a closing moves it only when it closes the active question. */
  lemma TurnIsKept(log: seq<Event>, e: Event, questions: seq<Question>, seed: Seed)
    requires DistinctIds(questions) && Seeds(seed, questions) && ValidLog(log + [e], seed)
    requires Rotate(SnapshotOf(log), questions).active.Some?
    requires e.nextState == Open || e.questionId != Rotate(SnapshotOf(log), questions).active.value.id
    ensures Rotate(SnapshotOf(log + [e]), questions).active == Rotate(SnapshotOf(log), questions).active
  {
    var queue, found := Queue(log, questions), Find(questions, e.questionId);
    var rotation, rotation' := Rotate(SnapshotOf(log), questions), Rotate(SnapshotOf(log + [e]), questions);
    assert Turns(rotation) == queue && Turns(rotation') == Enqueue(queue, e, questions) by {
      ValidInit(log, e, seed);
      RotationIsQueue(log, questions, seed);
      RotationIsQueue(log + [e], questions, seed);
      QueueStep(log, e, questions);
    }
    assert rotation.active.value == queue[0];
    HeadWithout(queue, e.questionId);
    assert Enqueue(queue, e, questions)[0] == queue[0];
  }

  /** Closing the question being asked hands the turn to the next one waiting, and to nobody when none is. */
  lemma ClosingPassesTheTurn(log: seq<Event>, e: Event, questions: seq<Question>, seed: Seed)
    requires DistinctIds(questions) && Seeds(seed, questions) && ValidLog(log + [e], seed)
    requires Rotate(SnapshotOf(log), questions).active.Some?
    requires e.nextState == Closed && e.questionId == Rotate(SnapshotOf(log), questions).active.value.id
    ensures Turns(Rotate(SnapshotOf(log + [e]), questions)) == Rotate(SnapshotOf(log), questions).upcoming
  {
    ValidInit(log, e, seed);
    RotationIsQueue(log, questions, seed);
    RotationIsQueue(log + [e], questions, seed);
    QueueAlwaysMatches(log, questions, seed);
    QueueStep(log, e, questions);
    var queue := Queue(log, questions);
    assert Turns(Rotate(SnapshotOf(log), questions))[0] == queue[0];
    assert queue[1..] == Rotate(SnapshotOf(log), questions).upcoming;
    assert queue[0] in queue;
    assert Find(questions, e.questionId) == Some(queue[0]);
    forall k | 0 < k < |queue| ensures queue[k].id != e.questionId {
      assert queue[k] in queue;
    }
    HeadWithout(queue, e.questionId);
  }

  /** Taking a question out of a queue: another head stays; the head itself leaves the rest as it was. */
  lemma HeadWithout(queue: seq<Question>, id: string)
    requires queue != []
    ensures queue[0].id != id ==> Without(queue, id) != [] && Without(queue, id)[0] == queue[0]
    ensures queue[0].id == id && (forall k :: 0 < k < |queue| ==> queue[k].id != id) ==>
        Without(queue, id) == queue[1..]
  {
    var keep := (q: Question) => q.id != id;
    assert queue == [queue[0]] + queue[1..];
    FilterAppend([queue[0]], queue[1..], keep);
    assert Init([queue[0]]) == [];
    assert Filter([queue[0]], keep) == if queue[0].id != id then [queue[0]] else [];
    if forall k :: 0 < k < |queue| ==> queue[k].id != id {
      FilterAll(queue[1..], keep);
    }
  }

  lemma {:induction false} FilterAll(s: seq<Question>, keep: Question -> bool)
    requires forall q :: q in s ==> keep(q)
    ensures Filter(s, keep) == s
  {
    if s != [] {
      assert forall q :: q in Init(s) ==> q in s;
      FilterAll(Init(s), keep);
      assert s == Init(s) + [Last(s)];
    }
  }

  /** Nothing is ever lost or shown twice: for any snapshot at all, the three parts of the rotation
      together are the dataset. */
  lemma {:induction false} NothingIsLost(snapshot: Snapshot, questions: seq<Question>)
    ensures multiset(Turns(Rotate(snapshot, questions))) + multiset(Rotate(snapshot, questions).archived)
            == multiset(questions)
  {
    var entries := OpenEntries(snapshot, questions);
    SortedQuestions(entries);
    var open := Questions(Sorted(entries));
    assert Turns(Rotate(snapshot, questions)) == open;
    OpenAndArchived(snapshot, questions);
  }

  lemma {:induction false} OpenAndArchived(snapshot: Snapshot, questions: seq<Question>)
    ensures multiset(Questions(OpenEntries(snapshot, questions))) + multiset(Archived(snapshot, questions))
            == multiset(questions)
  {
    if questions != [] {
      OpenAndArchived(snapshot, Init(questions));
      assert questions == Init(questions) + [Last(questions)];
      var before := OpenEntries(snapshot, Init(questions));
      var e := EntryFor(Last(questions), |questions| - 1, snapshot);
      assert Questions(before + [e]) == Questions(before) + [Last(questions)];
    }
  }

  lemma {:induction false} InsertQuestions(sorted: seq<Entry>, e: Entry)
    ensures multiset(Questions(Insert(sorted, e))) == multiset(Questions(sorted)) + multiset{e.question}
  {
    if sorted == [] || !Before(e, Last(sorted)) {
      assert Questions(sorted + [e]) == Questions(sorted) + [e.question];
    } else {
      InsertQuestions(Init(sorted), e);
      var before := Insert(Init(sorted), e);
      assert Questions(before + [Last(sorted)]) == Questions(before) + [Last(sorted).question];
      assert Questions(sorted) == Questions(Init(sorted)) + [Last(sorted).question];
    }
  }

  lemma {:induction false} SortedQuestions(entries: seq<Entry>)
    ensures multiset(Questions(Sorted(entries))) == multiset(Questions(entries))
  {
    if entries != [] {
      SortedQuestions(Init(entries));
      InsertQuestions(Sorted(Init(entries)), Last(entries));
      assert Questions(entries) == Questions(Init(entries)) + [Last(entries).question];
    }
  }

  // ---------------------------------------------------------------- reopening out of sequence order

  /** The sort puts the least entry first: nothing open comes before the active question. */
  lemma ActiveIsLeast(snapshot: Snapshot, questions: seq<Question>)
    requires DistinctIds(questions)
    ensures match Rotate(snapshot, questions).active
            case None => forall q :: q in questions ==> EffectiveState(q, snapshot) == Closed
            case Some(a) => (
              && a in questions && EffectiveState(a, snapshot) == Open
              && forall q :: q in questions && EffectiveState(q, snapshot) == Open ==>
                   !Before(Place(q, questions, snapshot), Place(a, questions, snapshot)))
  {
    var sorted := Sorted(OpenEntries(snapshot, questions));
    SortedEntriesAre(snapshot, questions);
    SortedInOrder(OpenEntries(snapshot, questions));
    forall q | q in questions && EffectiveState(q, snapshot) == Open
      ensures Place(q, questions, snapshot) in sorted
    {
    }
    if sorted != [] {
      assert sorted[0] in sorted;
      forall e | e in sorted ensures !Before(e, sorted[0]) {
        var k :| 0 <= k < |sorted| && sorted[k] == e;
      }
    }
  }

  /** For any snapshot: recording that the closed question `x` was reopened with a fresh sequence keeps
      the turn where it is exactly when the active question never left the rotation or was reopened
      with an earlier sequence. */
  lemma ReopenKeepsTurnExactlyWhen(snapshot: Snapshot, questions: seq<Question>, x: Question, sequence: int)
    requires DistinctIds(questions) && x in questions && EffectiveState(x, snapshot) == Closed
    requires forall id :: id in snapshot ==> snapshot[id].sequence != sequence
    requires Rotate(snapshot, questions).active.Some?
    requires forall a, b :: a in snapshot && b in snapshot && a != b ==> snapshot[a].sequence != snapshot[b].sequence
    ensures var a := Rotate(snapshot, questions).active.value;
            Rotate(snapshot[x.id := Fact(Open, sequence)], questions).active == Some(a)
            <==> (a.id !in snapshot || snapshot[a.id].sequence < sequence)
  {
    var a := Rotate(snapshot, questions).active.value;
    var new' := snapshot[x.id := Fact(Open, sequence)];
    ActiveIsLeast(snapshot, questions);
    ActiveIsLeast(new', questions);
    assert forall q :: q in questions && q != x ==> q.id != x.id;
    assert forall q :: q in questions && q != x ==>
        Place(q, questions, new') == Place(q, questions, snapshot)
        && EffectiveState(q, new') == EffectiveState(q, snapshot);
    assert a != x;
    assert EffectiveState(x, new') == Open;
    var b := Rotate(new', questions).active.value;
    if b != a {
      assert b == x || EffectiveState(b, snapshot) == Open;
      assert !Before(Place(a, questions, new'), Place(b, questions, new'));
    }
  }
}
