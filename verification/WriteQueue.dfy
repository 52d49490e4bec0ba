// The per-directory write queue both file stores run their writes through: `serialize` in
// src/adapters/persistence/file-question-lifecycle-log.ts and file-submission-inbox-store.ts.
// A task reads its whole file, decides, and appends at most once; promises interleave freely.
module WriteQueue {
  import opened Common

  /** What a task decides from the lines it read. */
  datatype Decision<L, O> = Answer(outcome: O) | Append(more: seq<L>, outcome: O) | Throw

  /** How far a queued task has come; a settled one resolved with an outcome or was rejected. */
  datatype Progress<L, O> = Waiting | Running | Decided(decision: Decision<L, O>) | Settled(result: Option<O>)

  /** One queued task: the promise it waits for, and whether its line reached the file. */
  datatype Task<R, L, O> = Task(key: string, request: R, after: Option<nat>, progress: Progress<L, O>, wrote: nat)

  datatype Queues<R, L, O> = Queues(tasks: seq<Task<R, L, O>>, tails: map<string, nat>, files: map<string, seq<L>>)

  /** What goes wrong while a task writes: nothing, a failure before anything is in the file, one after all of
      it is (the caller is told it failed all the same), or one that breaks off with part of it written. */
  datatype Fault = NoFault | BeforeWrite | AfterWrite | Torn(after: nat)

  /** How much of a write of this size reaches the file. */
  function Written(fault: Fault, size: nat): (wrote: nat)
    ensures wrote <= size
  {
    match fault
    case NoFault => size
    case BeforeWrite => 0
    case AfterWrite => size
    case Torn(after) => if after < size then after else size
  }

  /** The part of a write that reached the file. */
  function Reached<L>(more: seq<L>, wrote: nat): seq<L> {
    if wrote < |more| then more[..wrote] else more
  }

  datatype Step<R> =
    | Submit(key: string, request: R)
    | Start(task: nat)
    | ReadFile(task: nat, fails: bool)
    | Finish(task: nat, fault: Fault)

  type Decide<!R, !L, !O> = (R, seq<L>) -> Decision<L, O>

  function FileOf<R, L, O>(q: Queues<R, L, O>, key: string): seq<L> {
    if key in q.files then q.files[key] else []
  }

  /** Queue a task behind the last promise of its directory, whatever becomes of that promise. */
  function Enqueue<R, L, O>(q: Queues<R, L, O>, key: string, request: R): Queues<R, L, O> {
    q.(tasks := q.tasks + [Task(key, request, if key in q.tails then Some(q.tails[key]) else None, Waiting, 0)],
       tails := q.tails[key := |q.tasks|])
  }

  function Update<R, L, O>(q: Queues<R, L, O>, i: nat, progress: Progress<L, O>): Queues<R, L, O>
    requires i < |q.tasks|
  {
    q.(tasks := q.tasks[i := q.tasks[i].(progress := progress)])
  }

  /** The promise this task waits for has settled, either way. */
  predicate MayStart<R, L, O>(q: Queues<R, L, O>, i: nat)
    requires i < |q.tasks|
  {
    match q.tasks[i].after
    case None => true
    case Some(j) => j < |q.tasks| && q.tasks[j].progress.Settled?
  }

  /** The module's `writeQueues` map and the promises hanging off it. */
  class WriteQueues<!R(==), !L, !O> {
    var tasks: seq<Task<R, L, O>>
    var tails: map<string, nat>

    constructor ()
      ensures tasks == [] && tails == map[]
    {
      tasks, tails := [], map[];
    }

    method Serialize(key: string, request: R) returns (promise: nat)
      modifies this
      ensures promise == |old(tasks)|
      ensures Queues(tasks, tails, map[]) == Enqueue(Queues(old(tasks), old(tails), map[]), key, request)
    {
      var previous: Option<nat> := None;
      if key in tails {
        previous := Some(tails[key]);
      }
      promise := |tasks|;
      tasks := tasks + [Task(key, request, previous, Waiting, 0)];
      tails := tails[key := promise];
    }
  }

  /** One step of the event loop; a step that cannot happen leaves everything alone. */
  function Next<R, L, O>(q: Queues<R, L, O>, step: Step<R>, decide: Decide<R, L, O>): Queues<R, L, O> {
    match step
    case Submit(key, request) => Enqueue(q, key, request)
    case Start(i) =>
      if i < |q.tasks| && q.tasks[i].progress.Waiting? && MayStart(q, i) then Update(q, i, Running) else q
    case ReadFile(i, fails) =>
      if i < |q.tasks| && q.tasks[i].progress.Running? then
        Update(q, i, if fails then Settled(None) else Decided(decide(q.tasks[i].request, FileOf(q, q.tasks[i].key))))
      else q
    case Finish(i, fault) =>
      if i < |q.tasks| && q.tasks[i].progress.Decided? then Finished(q, i, q.tasks[i].progress.decision, fault) else q
  }

  function Finished<R, L, O>(q: Queues<R, L, O>, i: nat, decision: Decision<L, O>, fault: Fault): Queues<R, L, O>
    requires i < |q.tasks|
  {
    match decision
    case Throw => Update(q, i, Settled(None))
    case Answer(outcome) => Update(q, i, Settled(Some(outcome)))
    case Append(more, outcome) =>
      var key, wrote := q.tasks[i].key, Written(fault, |more|);
      var done := q.tasks[i].(progress := Settled(if fault.NoFault? then Some(outcome) else None), wrote := wrote);
      q.(tasks := q.tasks[i := done],
         files := if wrote > 0 then q.files[key := FileOf(q, key) + Reached(more, wrote)] else q.files)
  }

  function Started<R, L, O>(files: map<string, seq<L>>): Queues<R, L, O> {
    Queues([], map[], files)
  }

  function Run<R, L, O>(files: map<string, seq<L>>, steps: seq<Step<R>>, decide: Decide<R, L, O>): Queues<R, L, O> {
    if steps == [] then Started(files) else Next(Run(files, Init(steps), decide), Last(steps), decide)
  }

  // ---------------------------------------------------------------- running the tasks one after another

  /** One directory's file if its tasks had run one after another in the order they were submitted. */
  function Serial<R, L, O>(lines: seq<L>, tasks: seq<Task<R, L, O>>, key: string, decide: Decide<R, L, O>): seq<L> {
    if tasks == [] then lines
    else
      var before := Serial(lines, Init(tasks), key, decide);
      var t := Last(tasks);
      if t.key == key && decide(t.request, before).Append?
      then before + Reached(decide(t.request, before).more, t.wrote)
      else before
  }

  /** A settled task got the answer it would have got in that order, and wrote what it would have written. */
  predicate ResultIsSerial<R, L, O(==)>(t: Task<R, L, O>, before: seq<L>, decide: Decide<R, L, O>) {
    match t.progress
    case Waiting => t.wrote == 0
    case Running => t.wrote == 0
    case Decided(d) => t.wrote == 0
    case Settled(None) => t.wrote > 0 ==> decide(t.request, before).Append?
    case Settled(Some(outcome)) =>
      match decide(t.request, before)
      case Throw => false
      case Answer(o) => o == outcome && t.wrote == 0
      case Append(more, o) => o == outcome && t.wrote == |more|
  }

  // ---------------------------------------------------------------- the invariant

  /** `after` is the task before this one in its own directory's queue. */
  predicate Linked<R, L, O>(tasks: seq<Task<R, L, O>>, i: nat)
    requires i < |tasks|
  {
    match tasks[i].after
    case None => forall k :: 0 <= k < i ==> tasks[k].key != tasks[i].key
    case Some(j) => j < i && tasks[j].key == tasks[i].key && forall k :: j < k < i ==> tasks[k].key != tasks[i].key
  }

  /** A task that is no longer waiting has only settled tasks before it in its queue. */
  predicate Alone<R, L, O>(tasks: seq<Task<R, L, O>>, i: nat)
    requires i < |tasks|
  {
    !tasks[i].progress.Waiting? ==>
      forall k :: 0 <= k < i && tasks[k].key == tasks[i].key ==> tasks[k].progress.Settled?
  }

  predicate TailsOk<R, L, O>(q: Queues<R, L, O>) {
    && (forall k :: 0 <= k < |q.tasks| ==> q.tasks[k].key in q.tails)
    && (forall key :: key in q.tails ==>
          && q.tails[key] < |q.tasks| && q.tasks[q.tails[key]].key == key
          && forall k :: q.tails[key] < k < |q.tasks| ==> q.tasks[k].key != key)
  }

  predicate QueueInv<R, L, O>(q: Queues<R, L, O>) {
    && TailsOk(q)
    && (forall i :: 0 <= i < |q.tasks| ==> Linked(q.tasks, i))
    && (forall i :: 0 <= i < |q.tasks| ==> Alone(q.tasks, i))
  }

  ghost predicate FileInv<R, L, O(!new)>(q: Queues<R, L, O>, start: map<string, seq<L>>, decide: Decide<R, L, O>) {
    && (forall key :: FileOf(q, key) == Serial(FileOf(Started<R, L, O>(start), key), q.tasks, key, decide))
    && (forall i :: 0 <= i < |q.tasks| ==> TaskInv(q, i, start, decide))
  }

  ghost predicate TaskInv<R, L, O(!new)>(
      q: Queues<R, L, O>, i: nat, start: map<string, seq<L>>, decide: Decide<R, L, O>)
    requires i < |q.tasks|
  {
    var t := q.tasks[i];
    && ResultIsSerial(t, Serial(FileOf(Started<R, L, O>(start), t.key), q.tasks[..i], t.key, decide), decide)
    && (t.progress.Decided? ==> t.progress.decision == decide(t.request, FileOf(q, t.key)))
  }

  // ---------------------------------------------------------------- facts about the serial run

  /** Tasks that wrote nothing, or belong elsewhere, do not matter to a directory's file. */
  lemma {:induction false} SerialSkips<R, L, O>(
      lines: seq<L>, tasks: seq<Task<R, L, O>>, more: seq<Task<R, L, O>>, key: string, decide: Decide<R, L, O>)
    requires forall k :: 0 <= k < |more| ==> more[k].key != key || more[k].wrote == 0
    ensures Serial(lines, tasks + more, key, decide) == Serial(lines, tasks, key, decide)
  {
    if more == [] {
      assert tasks + more == tasks;
    } else {
      assert Init(tasks + more) == tasks + Init(more) && Last(tasks + more) == Last(more);
      SerialSkips(lines, tasks, Init(more), key, decide);
    }
  }

  /** Only key, request and the written flag of a task matter. */
  lemma {:induction false} SerialSame<R, L, O>(
      lines: seq<L>, tasks: seq<Task<R, L, O>>, tasks': seq<Task<R, L, O>>, key: string, decide: Decide<R, L, O>)
    requires |tasks| == |tasks'|
    requires forall k :: 0 <= k < |tasks| ==>
               tasks[k].key == tasks'[k].key && tasks[k].request == tasks'[k].request
               && (tasks[k].key == key ==> tasks[k].wrote == tasks'[k].wrote)
    ensures Serial(lines, tasks, key, decide) == Serial(lines, tasks', key, decide)
  {
    if tasks != [] {
      SerialSame(lines, Init(tasks), Init(tasks'), key, decide);
    }
  }

  // ---------------------------------------------------------------- the queue invariant

  lemma StepKeepsQueue<R, L, O>(q: Queues<R, L, O>, step: Step<R>, decide: Decide<R, L, O>)
    requires QueueInv(q)
    ensures QueueInv(Next(q, step, decide))
  {
    var q' := Next(q, step, decide);
    match step
    case Submit(key, request) =>
      SubmitKeepsQueue(q, key, request);
    case Start(i) =>
      if i < |q.tasks| && q.tasks[i].progress.Waiting? && MayStart(q, i) {
        StartIsAlone(q, i);
        ProgressKeepsQueue(q, q', i);
      }
    case ReadFile(i, fails) =>
      if i < |q.tasks| && q.tasks[i].progress.Running? { assert Alone(q.tasks, i); ProgressKeepsQueue(q, q', i); }
    case Finish(i, fault) =>
      if i < |q.tasks| && q.tasks[i].progress.Decided? { assert Alone(q.tasks, i); ProgressKeepsQueue(q, q', i); }
  }

  lemma SubmitKeepsQueue<R, L, O>(q: Queues<R, L, O>, key: string, request: R)
    requires QueueInv(q)
    ensures QueueInv(Enqueue(q, key, request))
  {
    var q' := Enqueue(q, key, request);
    forall i | 0 <= i < |q'.tasks| ensures Linked(q'.tasks, i) && Alone(q'.tasks, i) {
      if i < |q.tasks| {
        assert Linked(q.tasks, i) && Alone(q.tasks, i);
        assert forall k :: 0 <= k <= i ==> q'.tasks[k] == q.tasks[k];
      }
    }
  }

  /** When the promise a task waits for has settled, so has every earlier task of its queue. */
  lemma StartIsAlone<R, L, O>(q: Queues<R, L, O>, i: nat)
    requires QueueInv(q) && i < |q.tasks| && MayStart(q, i)
    ensures forall k :: 0 <= k < i && q.tasks[k].key == q.tasks[i].key ==> q.tasks[k].progress.Settled?
  {
    assert Linked(q.tasks, i);
    if q.tasks[i].after.Some? {
      assert Alone(q.tasks, q.tasks[i].after.value);
    }
  }

  /** A task that moves on without going back keeps every queue in order. */
  lemma ProgressKeepsQueue<R, L, O>(q: Queues<R, L, O>, q': Queues<R, L, O>, i: nat)
    requires QueueInv(q) && i < |q.tasks| && q'.tails == q.tails && |q'.tasks| == |q.tasks|
    requires forall k :: 0 <= k < |q.tasks| && k != i ==> q'.tasks[k] == q.tasks[k]
    requires q'.tasks[i].key == q.tasks[i].key && q'.tasks[i].after == q.tasks[i].after
    requires !q.tasks[i].progress.Settled?
    requires forall k :: 0 <= k < i && q.tasks[k].key == q.tasks[i].key ==> q.tasks[k].progress.Settled?
    ensures QueueInv(q')
  {
    forall j | 0 <= j < |q'.tasks| ensures Linked(q'.tasks, j) {
      assert Linked(q.tasks, j);
      SameKeys(q.tasks, q'.tasks, i, j);
    }
    forall j | 0 <= j < |q'.tasks| ensures Alone(q'.tasks, j) {
      AloneStill(q.tasks, q'.tasks, i, j);
    }
    TailsStill(q, q');
  }

  lemma AloneStill<R, L, O>(tasks: seq<Task<R, L, O>>, tasks': seq<Task<R, L, O>>, i: nat, j: nat)
    requires |tasks'| == |tasks| && j < |tasks| && i < |tasks| && Alone(tasks, j)
    requires forall k :: 0 <= k < |tasks| && k != i ==> tasks'[k] == tasks[k]
    requires tasks'[i].key == tasks[i].key && !tasks[i].progress.Settled?
    requires forall k :: 0 <= k < i && tasks[k].key == tasks[i].key ==> tasks[k].progress.Settled?
    ensures Alone(tasks', j)
  {
  }

  lemma TailsStill<R, L, O>(q: Queues<R, L, O>, q': Queues<R, L, O>)
    requires TailsOk(q) && q'.tails == q.tails && |q'.tasks| == |q.tasks|
    requires forall k :: 0 <= k < |q.tasks| ==> q'.tasks[k].key == q.tasks[k].key
    ensures TailsOk(q')
  {
  }

  /** Who waits for whom depends on keys alone. */
  lemma SameKeys<R, L, O>(tasks: seq<Task<R, L, O>>, tasks': seq<Task<R, L, O>>, i: nat, j: nat)
    requires |tasks'| == |tasks| && j < |tasks| && i < |tasks|
    requires forall k :: 0 <= k < |tasks| && k != i ==> tasks'[k] == tasks[k]
    requires tasks'[i].key == tasks[i].key && tasks'[i].after == tasks[i].after
    ensures Linked(tasks, j) ==> Linked(tasks', j)
  {
    assert forall k :: 0 <= k < |tasks| ==> tasks'[k].key == tasks[k].key && tasks'[k].after == tasks[k].after;
  }

  // ---------------------------------------------------------------- the file invariant

  lemma StepKeepsFile<R, L, O(!new)>(
      q: Queues<R, L, O>, step: Step<R>, start: map<string, seq<L>>, decide: Decide<R, L, O>)
    requires QueueInv(q) && FileInv(q, start, decide)
    ensures FileInv(Next(q, step, decide), start, decide)
  {
    match step
    case Submit(key, request) =>
      SubmitKeepsFile(q, key, request, start, decide);
    case Start(i) =>
      if i < |q.tasks| && q.tasks[i].progress.Waiting? && MayStart(q, i) {
        QuietKeepsFile(q, i, Running, start, decide);
      }
    case ReadFile(i, fails) =>
      if i < |q.tasks| && q.tasks[i].progress.Running? {
        QuietKeepsFile(q, i,
                       if fails then Settled(None) else Decided(decide(q.tasks[i].request, FileOf(q, q.tasks[i].key))),
                       start, decide);
      }
    case Finish(i, fault) =>
      if i < |q.tasks| && q.tasks[i].progress.Decided? {
        RunningSeesSerial(q, i, start, decide);
        assert TaskInv(q, i, start, decide);
        match q.tasks[i].progress.decision
        case Throw => QuietKeepsFile(q, i, Settled(None), start, decide);
        case Answer(o) => QuietKeepsFile(q, i, Settled(Some(o)), start, decide);
        case Append(_, o) => WriteKeepsFile(q, i, fault, start, decide);
      }
  }

  lemma SubmitKeepsFile<R, L, O(!new)>(
      q: Queues<R, L, O>, key: string, request: R, start: map<string, seq<L>>, decide: Decide<R, L, O>)
    requires QueueInv(q) && FileInv(q, start, decide)
    ensures FileInv(Enqueue(q, key, request), start, decide)
  {
    var q' := Enqueue(q, key, request);
    forall k ensures FileOf(q', k) == Serial(FileOf(Started<R, L, O>(start), k), q'.tasks, k, decide) {
      assert FileOf(q, k) == Serial(FileOf(Started<R, L, O>(start), k), q.tasks, k, decide);
      SerialSkips(FileOf(Started<R, L, O>(start), k), q.tasks, [Last(q'.tasks)], k, decide);
    }
    forall i | 0 <= i < |q'.tasks| ensures TaskInv(q', i, start, decide) {
      if i < |q.tasks| {
        assert TaskInv(q, i, start, decide);
        assert q'.tasks[..i] == q.tasks[..i];
      }
    }
  }

  /** The file a task past waiting finds is the serial one of the tasks before it. */
  lemma RunningSeesSerial<R, L, O(!new)>(
      q: Queues<R, L, O>, i: nat, start: map<string, seq<L>>, decide: Decide<R, L, O>)
    requires QueueInv(q) && FileInv(q, start, decide)
    requires i < |q.tasks| && !q.tasks[i].progress.Waiting? && !q.tasks[i].progress.Settled?
    ensures FileOf(q, q.tasks[i].key)
            == Serial(FileOf(Started<R, L, O>(start), q.tasks[i].key), q.tasks[..i], q.tasks[i].key, decide)
  {
    var key := q.tasks[i].key;
    assert Alone(q.tasks, i);
    forall k | i <= k < |q.tasks| && q.tasks[k].key == key ensures q.tasks[k].wrote == 0 {
      assert Alone(q.tasks, k);
      assert TaskInv(q, k, start, decide);
    }
    assert q.tasks == q.tasks[..i] + q.tasks[i..];
    SerialSkips(FileOf(Started<R, L, O>(start), key), q.tasks[..i], q.tasks[i..], key, decide);
  }

  /** A task that moves on without writing. */
  lemma QuietKeepsFile<R, L, O(!new)>(
      q: Queues<R, L, O>, i: nat, progress: Progress<L, O>, start: map<string, seq<L>>, decide: Decide<R, L, O>)
    requires QueueInv(q) && FileInv(q, start, decide)
    requires i < |q.tasks| && !q.tasks[i].progress.Settled?
    requires progress.Decided? ==> progress.decision == decide(q.tasks[i].request, FileOf(q, q.tasks[i].key))
    requires progress.Settled? && progress.result.Some? ==>
               var before :=
                 Serial(FileOf(Started<R, L, O>(start), q.tasks[i].key), q.tasks[..i], q.tasks[i].key, decide);
               decide(q.tasks[i].request, before) == Answer(progress.result.value)
    ensures FileInv(Update(q, i, progress), start, decide)
  {
    var q' := Update(q, i, progress);
    forall k ensures FileOf(q', k) == Serial(FileOf(Started<R, L, O>(start), k), q'.tasks, k, decide) {
      assert FileOf(q, k) == Serial(FileOf(Started<R, L, O>(start), k), q.tasks, k, decide);
      SerialSame(FileOf(Started<R, L, O>(start), k), q.tasks, q'.tasks, k, decide);
    }
    forall j | 0 <= j < |q'.tasks| ensures TaskInv(q', j, start, decide) {
      assert TaskInv(q, j, start, decide);
      QuietKeepsTask(q, i, progress, j, start, decide);
    }
  }

  lemma QuietKeepsTask<R, L, O(!new)>(
      q: Queues<R, L, O>, i: nat, progress: Progress<L, O>, j: nat, start: map<string, seq<L>>, decide: Decide<R, L, O>)
    requires i < |q.tasks| && j < |q.tasks| && TaskInv(q, j, start, decide) && !q.tasks[i].progress.Settled?
    requires progress.Decided? ==> progress.decision == decide(q.tasks[i].request, FileOf(q, q.tasks[i].key))
    requires progress.Settled? && progress.result.Some? ==>
               var before :=
                 Serial(FileOf(Started<R, L, O>(start), q.tasks[i].key), q.tasks[..i], q.tasks[i].key, decide);
               decide(q.tasks[i].request, before) == Answer(progress.result.value)
    ensures TaskInv(Update(q, i, progress), j, start, decide)
  {
    var key := q.tasks[j].key;
    SerialSame(FileOf(Started<R, L, O>(start), key), q.tasks[..j], Update(q, i, progress).tasks[..j], key, decide);
  }

  /** A task that decided to append, whatever goes wrong while it does. */
  lemma WriteKeepsFile<R, L, O(!new)>(
      q: Queues<R, L, O>, i: nat, fault: Fault, start: map<string, seq<L>>, decide: Decide<R, L, O>)
    requires QueueInv(q) && FileInv(q, start, decide)
    requires i < |q.tasks| && q.tasks[i].progress.Decided? && q.tasks[i].progress.decision.Append?
    ensures FileInv(Next(q, Finish(i, fault), decide), start, decide)
  {
    var q' := Next(q, Finish(i, fault), decide);
    var key := q.tasks[i].key;
    assert TaskInv(q, i, start, decide);
    RunningSeesSerial(q, i, start, decide);
    forall j | 0 <= j < |q'.tasks| ensures TaskInv(q', j, start, decide) {
      OthersKeepTask(q, i, fault, j, start, decide);
    }
    forall k ensures FileOf(q', k) == Serial(FileOf(Started<R, L, O>(start), k), q'.tasks, k, decide) {
      var base := FileOf(Started<R, L, O>(start), k);
      assert FileOf(q, k) == Serial(base, q.tasks, k, decide);
      if k != key || Written(fault, |q.tasks[i].progress.decision.more|) == 0 {
        SerialSame(base, q.tasks, q'.tasks, k, decide);
      } else {
        WrittenLineIsSerial(q, i, fault, start, decide);
      }
    }
  }

  /** Every other task of the same queue has either settled before this one or not begun. */
  lemma OthersKeepTask<R, L, O(!new)>(
      q: Queues<R, L, O>, i: nat, fault: Fault, j: nat, start: map<string, seq<L>>, decide: Decide<R, L, O>)
    requires QueueInv(q) && FileInv(q, start, decide)
    requires i < |q.tasks| && q.tasks[i].progress.Decided? && q.tasks[i].progress.decision.Append? && j < |q.tasks|
    ensures TaskInv(Next(q, Finish(i, fault), decide), j, start, decide)
  {
    var q' := Next(q, Finish(i, fault), decide);
    var key, base := q.tasks[j].key, FileOf(Started<R, L, O>(start), q.tasks[j].key);
    assert TaskInv(q, j, start, decide) && Alone(q.tasks, i) && Alone(q.tasks, j);
    if j <= i || key != q.tasks[i].key {
      SerialSame(base, q.tasks[..j], q'.tasks[..j], key, decide);
    }
    if j == i {
      RunningSeesSerial(q, i, start, decide);
    } else if key == q.tasks[i].key && j > i {
      assert q.tasks[j].progress.Waiting?;
    }
  }

  lemma NoneLaterWrote<R, L, O(!new)>(q: Queues<R, L, O>, i: nat, start: map<string, seq<L>>, decide: Decide<R, L, O>)
    requires QueueInv(q) && FileInv(q, start, decide)
    requires i < |q.tasks| && !q.tasks[i].progress.Settled?
    ensures forall k :: i < k < |q.tasks| && q.tasks[k].key == q.tasks[i].key ==> q.tasks[k].wrote == 0
  {
    forall k | i < k < |q.tasks| && q.tasks[k].key == q.tasks[i].key ensures q.tasks[k].wrote == 0 {
      assert Alone(q.tasks, k);
      assert TaskInv(q, k, start, decide);
    }
  }

  lemma WrittenLineIsSerial<R, L, O(!new)>(
      q: Queues<R, L, O>, i: nat, fault: Fault, start: map<string, seq<L>>, decide: Decide<R, L, O>)
    requires QueueInv(q) && FileInv(q, start, decide)
    requires i < |q.tasks| && q.tasks[i].progress.Decided? && q.tasks[i].progress.decision.Append?
    requires Written(fault, |q.tasks[i].progress.decision.more|) > 0
    ensures var q' := Next(q, Finish(i, fault), decide);
            var key := q.tasks[i].key;
            FileOf(q', key) == Serial(FileOf(Started<R, L, O>(start), key), q'.tasks, key, decide)
  {
    var q' := Next(q, Finish(i, fault), decide);
    var key := q.tasks[i].key;
    var base := FileOf(Started<R, L, O>(start), key);
    assert TaskInv(q, i, start, decide);
    RunningSeesSerial(q, i, start, decide);
    SerialSame(base, q.tasks[..i], q'.tasks[..i], key, decide);
    NoneLaterWrote(q, i, start, decide);
    LastToWrite(base, q'.tasks, i, key, decide);
  }

  /** When no later task of this queue wrote, the file is what this one left. */
  lemma LastToWrite<R, L, O>(
      base: seq<L>, tasks: seq<Task<R, L, O>>, i: nat, key: string, decide: Decide<R, L, O>)
    requires i < |tasks| && forall k :: i < k < |tasks| ==> tasks[k].key != key || tasks[k].wrote == 0
    ensures Serial(base, tasks, key, decide) == Serial(base, tasks[..i + 1], key, decide)
    ensures Init(tasks[..i + 1]) == tasks[..i] && Last(tasks[..i + 1]) == tasks[i]
  {
    assert tasks[..i + 1] + tasks[i + 1..] == tasks;
    SerialSkips(base, tasks[..i + 1], tasks[i + 1..], key, decide);
  }

  // ---------------------------------------------------------------- main results

  /** Every interleaving, with tasks failing anywhere: each directory's file is what running its tasks one
      after another in submission order gives, and every settled task got that order's answer. */
  lemma {:induction false} EveryRunIsSerial<R, L, O(!new)>(
      files: map<string, seq<L>>, steps: seq<Step<R>>, decide: Decide<R, L, O>)
    ensures QueueInv(Run(files, steps, decide)) && FileInv(Run(files, steps, decide), files, decide)
  {
    if steps != [] {
      EveryRunIsSerial(files, Init(steps), decide);
      StepKeepsQueue(Run(files, Init(steps), decide), Last(steps), decide);
      StepKeepsFile(Run(files, Init(steps), decide), Last(steps), files, decide);
    }
  }

  /** At most one task of a directory is between its start and its end. */
  lemma OneAtATime<R, L, O(!new)>(
      files: map<string, seq<L>>, steps: seq<Step<R>>, decide: Decide<R, L, O>, i: nat, j: nat)
    requires var q := Run(files, steps, decide);
             && i < |q.tasks| && j < |q.tasks| && q.tasks[i].key == q.tasks[j].key
             && (q.tasks[i].progress.Running? || q.tasks[i].progress.Decided?)
             && (q.tasks[j].progress.Running? || q.tasks[j].progress.Decided?)
    ensures i == j
  {
    EveryRunIsSerial(files, steps, decide);
    var q := Run(files, steps, decide);
    assert Alone(q.tasks, i) && Alone(q.tasks, j);
  }

  /** What is already in a file never changes or moves: a step adds nothing, or the beginning of one decided
      write. */
  lemma StepOnlyAppends<R, L, O>(q: Queues<R, L, O>, step: Step<R>, decide: Decide<R, L, O>, key: string)
    ensures FileOf(q, key) <= FileOf(Next(q, step, decide), key)
    ensures FileOf(Next(q, step, decide), key) != FileOf(q, key) ==>
              && step.Finish? && step.task < |q.tasks| && q.tasks[step.task].key == key
              && q.tasks[step.task].progress.Decided? && q.tasks[step.task].progress.decision.Append?
              && var more := q.tasks[step.task].progress.decision.more;
                 FileOf(Next(q, step, decide), key) == FileOf(q, key) + Reached(more, Written(step.fault, |more|))
  {
  }

  /** The queue never stalls: whatever failed before, while a directory has a task left, its earliest one
      can take a step - and it is the only one that can. */
  lemma NeverStalls<R, L, O(!new)>(
      files: map<string, seq<L>>, steps: seq<Step<R>>, decide: Decide<R, L, O>, i: nat) returns (step: Step<R>)
    requires i < |Run(files, steps, decide).tasks| && !Run(files, steps, decide).tasks[i].progress.Settled?
    requires var q := Run(files, steps, decide);
             forall k :: 0 <= k < i && q.tasks[k].key == q.tasks[i].key ==> q.tasks[k].progress.Settled?
    ensures var q := Run(files, steps, decide);
            Next(q, step, decide).tasks[i].progress != q.tasks[i].progress
    ensures var q := Run(files, steps, decide);
            forall k :: i < k < |q.tasks| && q.tasks[k].key == q.tasks[i].key ==>
              q.tasks[k].progress.Waiting? && !MayStart(q, k)
  {
    EveryRunIsSerial(files, steps, decide);
    var q := Run(files, steps, decide);
    assert Linked(q.tasks, i);
    forall k | i < k < |q.tasks| && q.tasks[k].key == q.tasks[i].key
      ensures q.tasks[k].progress.Waiting? && !MayStart(q, k)
    {
      assert Linked(q.tasks, k) && Alone(q.tasks, k);
      if MayStart(q, k) { StartIsAlone(q, k); }
    }
    step := match q.tasks[i].progress
            case Waiting => Start(i)
            case Running => ReadFile(i, true)
            case Decided(_) => Finish(i, NoFault)
            case Settled(_) => Start(i);
  }

  /** Every task has settled: the next one has its directory to itself. */
  predicate Quiet<R, L, O>(q: Queues<R, L, O>) {
    forall i :: 0 <= i < |q.tasks| ==> q.tasks[i].progress.Settled?
  }

  /** One task more, from its submission to its end, with nothing else in between. */
  function OneTurn<R>(i: nat, key: string, request: R, fault: Fault): seq<Step<R>> {
    [Submit(key, request), Start(i), ReadFile(i, false), Finish(i, fault)]
  }

  lemma RunFour<R, L, O>(
      files: map<string, seq<L>>, steps: seq<Step<R>>, a: Step<R>, b: Step<R>, c: Step<R>, d: Step<R>,
                         decide: Decide<R, L, O>)
    ensures Run(files, steps + [a, b, c, d], decide)
            == Next(Next(Next(Next(Run(files, steps, decide), a, decide), b, decide), c, decide), d, decide)
  {
    var s1, s2, s3, s4 := steps + [a], steps + [a, b], steps + [a, b, c], steps + [a, b, c, d];
    assert Init(s1) == steps && Init(s2) == s1 && Init(s3) == s2 && Init(s4) == s3;
    assert Run(files, s1, decide) == Next(Run(files, steps, decide), a, decide);
    assert Run(files, s2, decide) == Next(Run(files, s1, decide), b, decide);
    assert Run(files, s3, decide) == Next(Run(files, s2, decide), c, decide);
    assert Run(files, s4, decide) == Next(Run(files, s3, decide), d, decide);
  }

  /** A queue with one more settled task, which decided from the file as it was. */
  ghost predicate TookTurn<R, L, O>(
      q: Queues<R, L, O>, q': Queues<R, L, O>, key: string, request: R, d: Decision<L, O>, fault: Fault)
  {
    && Quiet(q') && |q'.tasks| == |q.tasks| + 1 && q'.tasks[..|q.tasks|] == q.tasks
    && q'.tasks[|q.tasks|].key == key && q'.tasks[|q.tasks|].request == request
    && (d.Append? ==>
          && FileOf(q', key) == FileOf(q, key) + Reached(d.more, Written(fault, |d.more|))
          && q'.tasks[|q.tasks|].progress == Settled(if fault.NoFault? then Some(d.outcome) else None))
    && (d.Answer? ==> q'.files == q.files && q'.tasks[|q.tasks|].progress == Settled(Some(d.outcome)))
    && (d.Throw? ==> q'.files == q.files && q'.tasks[|q.tasks|].progress == Settled(None))
  }

  /** What each step does to the task whose turn it is: a read decides from the file as it is then, or rejects the task;
      a write puts the decided lines at the end of that one file, as far as it gets, and the task resolves with the
      decided outcome exactly when nothing went wrong. */
  lemma StepsAreTaken<R, L, O>(q: Queues<R, L, O>, i: nat, fault: Fault, decide: Decide<R, L, O>)
    requires i < |q.tasks|
    ensures var t := q.tasks[i];
            && (t.progress.Running? ==>
                  && Next(q, ReadFile(i, true), decide).tasks[i].progress == Settled(None)
                  && Next(q, ReadFile(i, false), decide).tasks[i].progress
                     == Decided(decide(t.request, FileOf(q, t.key))))
            && (t.progress.Decided? ==>
                  var q', d := Next(q, Finish(i, fault), decide), t.progress.decision;
                  var more := if d.Append? then Reached(d.more, Written(fault, |d.more|)) else [];
                  && FileOf(q', t.key) == FileOf(q, t.key) + more
                  && (forall key :: key != t.key ==> FileOf(q', key) == FileOf(q, key))
                  && q'.tasks[i].progress == Settled(
                    if d.Throw? || (d.Append? && !fault.NoFault?) then None else Some(d.outcome)))
  {
  }

  /** Run alone, a task decides from the file as it is. */
  lemma OneMore<R, L, O(!new)>(
      files: map<string, seq<L>>, steps: seq<Step<R>>, key: string, request: R, fault: Fault, decide: Decide<R, L, O>)
    requires Quiet(Run(files, steps, decide))
    ensures var q := Run(files, steps, decide);
            var q' := Run(files, steps + OneTurn(|q.tasks|, key, request, fault), decide);
            TookTurn(q, q', key, request, decide(request, FileOf(q, key)), fault)
  {
    var q := Run(files, steps, decide);
    var n, d := |q.tasks|, decide(request, FileOf(q, key));
    EveryRunIsSerial(files, steps, decide);
    RunFour(files, steps, Submit(key, request), Start(n), ReadFile(n, false), Finish(n, fault), decide);
    FourSteps(q, key, request, fault, decide);
    FinishedTurn(q, key, request, d, fault);
  }

  lemma FinishedTurn<R, L, O>(q: Queues<R, L, O>, key: string, request: R, d: Decision<L, O>, fault: Fault)
    requires Quiet(q)
    ensures TookTurn(q, Finished(Ended(q, key, request, Decided(d)), |q.tasks|, d, fault), key, request, d, fault)
  {
    var n, e := |q.tasks|, Ended(q, key, request, Decided(d));
    var q' := Finished(e, n, d, fault);
    assert FileOf(e, key) == FileOf(q, key);
    assert |q'.tasks| == n + 1 && forall k :: 0 <= k < n ==> q'.tasks[k] == q.tasks[k];
    assert q'.tasks[..n] == q.tasks;
    assert q'.tasks[n].progress.Settled?;
  }

  /** The last task of a queue, at some point of its life. */
  function Ended<R, L, O>(q: Queues<R, L, O>, key: string, request: R, progress: Progress<L, O>): Queues<R, L, O> {
    var after := if key in q.tails then Some(q.tails[key]) else None;
    q.(tasks := q.tasks + [Task(key, request, after, progress, 0)], tails := q.tails[key := |q.tasks|])
  }

  lemma EndedMoves<R, L, O>(
      q: Queues<R, L, O>, key: string, request: R, progress: Progress<L, O>, progress': Progress<L, O>)
    ensures Update(Ended(q, key, request, progress), |q.tasks|, progress') == Ended(q, key, request, progress')
  {
  }

  lemma FourSteps<R, L, O>(q: Queues<R, L, O>, key: string, request: R, fault: Fault, decide: Decide<R, L, O>)
    requires Quiet(q) && (key in q.tails ==> q.tails[key] < |q.tasks|)
    ensures var n, d := |q.tasks|, decide(request, FileOf(q, key));
            Next(Next(Next(Next(q, Submit(key, request), decide), Start(n), decide), ReadFile(n, false), decide),
                 Finish(n, fault), decide)
            == Finished(Ended(q, key, request, Decided(d)), n, d, fault)
  {
    var n, d := |q.tasks|, decide(request, FileOf(q, key));
    var q1 := Ended(q, key, request, Waiting);
    assert Next(q, Submit(key, request), decide) == q1;
    assert MayStart(q1, n);
    EndedMoves(q, key, request, Waiting, Running);
    var q2 := Ended(q, key, request, Running);
    assert Next(q1, Start(n), decide) == q2;
    assert FileOf(q2, key) == FileOf(q, key);
    EndedMoves(q, key, request, Running, Decided(d));
    assert Next(q2, ReadFile(n, false), decide) == Ended(q, key, request, Decided(d));
  }
}
