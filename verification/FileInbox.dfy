// The append-only inbox file: src/adapters/persistence/file-submission-inbox-store.ts.
module FileInbox {
  import opened Common
  import opened Json
  import opened JsonLines
  import opened Text
  import opened Http
  import opened InboxRecord
  import Audio = AudioArtifact
  import Q = WriteQueue

  datatype Outcome = Kept | AlreadyHeld(existing: Record)

  /** How a call of `appendIfAbsent` ends. */
  datatype Ended = PayloadRefused | Failed | Resolved(outcome: Outcome)

  // ---------------------------------------------------------------- reading

  /** The record in one line of the file; anything else is skipped. */
  function ReadLine(line: Line, p: Platform): Option<Record> {
    match line
    case EmptyLine => None
    case NotJson => None
    case Document(json) =>
      match ReadRecord(json, p)
      case Damaged(_) => None
      case Readable(r) => Some(r)
  }

  /** Every record in the file, in the order it was appended. */
  function ReadAll(lines: seq<Line>, p: Platform): seq<Record> {
    if lines == [] then []
    else
      match ReadLine(Last(lines), p)
      case None => ReadAll(Init(lines), p)
      case Some(r) => ReadAll(Init(lines), p) + [r]
  }

  /** The first record under an id. */
  function Find(records: seq<Record>, id: string): Option<Record> {
    if records == [] then None
    else if Find(Init(records), id).Some? then Find(Init(records), id)
    else if Last(records).submissionId == id then Some(Last(records))
    else None
  }

  /** The queued part of `appendIfAbsent`. */
  function Decide(record: Record, lines: seq<Line>, p: Platform): Q.Decision<Line, Outcome> {
    match Find(ReadAll(lines, p), record.submissionId)
    case Some(existing) => Q.Answer(AlreadyHeld(existing))
    case None => Q.Append([Document(RecordJson(record))], Kept)
  }

  function Decider(p: Platform): Q.Decide<Record, Line, Outcome> {
    (record, lines) => Decide(record, lines, p)
  }

  /** A line that is not empty and not a record: its number, and why. */
  datatype Skipped = Skipped(number: nat, defects: Option<seq<Defect>>)

  function SkippedLines(lines: seq<Line>, p: Platform): seq<Skipped> {
    if lines == [] then []
    else
      SkippedLines(Init(lines), p) +
      match Last(lines)
      case EmptyLine => []
      case NotJson => [Skipped(|lines|, None)]
      case Document(json) =>
        match ReadRecord(json, p)
        case Damaged(defects) => [Skipped(|lines|, Some(defects))]
        case Readable(_) => []
  }

  /** One store over one directory; `content` is its file. */
  class FileSubmissionInboxStore {
    var content: string
    const codec: Codec
    const platform: Platform

    constructor (content: string, codec: Codec, platform: Platform)
      ensures this.content == content && this.codec == codec && this.platform == platform
    {
      this.content, this.codec, this.platform := content, codec, platform;
    }

    /** Every record, and every skipped line with its number and reasons. */
    method Records() returns (records: seq<Record>, damaged: seq<Skipped>)
      ensures records == ReadAll(LinesOf(content, codec), platform)
      ensures damaged == SkippedLines(LinesOf(content, codec), platform)
    {
      records, damaged := [], [];
      var parts := Split(content, '\n');
      ghost var lines := LinesOf(content, codec);
      for index := 0 to |parts|
        invariant records == ReadAll(lines[..index], platform)
        invariant damaged == SkippedLines(lines[..index], platform)
      {
        assert Init(lines[..index + 1]) == lines[..index] && Last(lines[..index + 1]) == lines[index];
        if parts[index] != [] {
          var parsed := codec.parse(parts[index]);
          if parsed.None? {
            damaged := damaged + [Skipped(index + 1, None)];
          } else {
            var check := ReadInboxRecord(parsed.value, platform);
            match check {
              case Damaged(defects) => damaged := damaged + [Skipped(index + 1, Some(defects))];
              case Readable(record) => records := records + [record];
            }
          }
        }
      }
      assert lines[..|parts|] == lines;
    }

    method FindBySubmissionId(submissionId: string) returns (found: Option<Record>)
      ensures found == Find(ReadAll(LinesOf(content, codec), platform), submissionId)
    {
      var records, _ := Records();
      for i := 0 to |records|
        invariant Find(records[..i], submissionId) == None
      {
        assert Init(records[..i + 1]) == records[..i];
        if records[i].submissionId == submissionId {
          FoundStays(records, i + 1, submissionId);
          return Some(records[i]);
        }
      }
      assert records[..|records|] == records;
      found := None;
    }

    method AppendIfAbsent(record: Record, readFails: bool, fault: Q.Fault) returns (ended: Ended)
      modifies this
      ensures TooBig(record) ==> ended == PayloadRefused && content == old(content)
      ensures !TooBig(record) && readFails ==> ended == Failed && content == old(content)
      ensures !TooBig(record) && !readFails ==>
                match OnTexts(Decider(platform), codec)(record, old(content))
                case Throw => false
                case Answer(outcome) => ended == Resolved(outcome) && content == old(content)
                case Append(more, outcome) =>
                  && ended == (if fault.NoFault? then Resolved(outcome) else Failed)
                  && content == old(content) + Q.Reached(more, Q.Written(fault, |more|))
    {
      if record.payload.AudioPayload? && record.payload.audio.sizeBytes > Audio.MAX_AUDIO_BYTES {
        return PayloadRefused;
      }
      if readFails {
        return Failed;
      }
      OnTextsIs(Decider(platform), record, content, codec);
      assert Decider(platform)(record, LinesOf(content, codec)) == Decide(record, LinesOf(content, codec), platform);
      var existing := FindBySubmissionId(record.submissionId);
      if existing.Some? {
        return Resolved(AlreadyHeld(existing.value));
      }
      var line := LineFor(RecordJson(record), codec);
      PrintOne(RecordJson(record), codec);
      content := content + Q.Reached(line, Q.Written(fault, |line|));
      ended := if fault.NoFault? then Resolved(Kept) else Failed;
    }
  }

  /** A recording over the product's limit: refused before the queue is entered. */
  predicate TooBig(record: Record) {
    record.payload.AudioPayload? && record.payload.audio.sizeBytes > Audio.MAX_AUDIO_BYTES
  }

  // ---------------------------------------------------------------- facts about reading

  lemma {:induction false} FoundStays(records: seq<Record>, k: nat, id: string)
    requires k <= |records| && Find(records[..k], id).Some?
    ensures Find(records, id) == Find(records[..k], id)
  {
    if k == |records| {
      assert records[..k] == records;
    } else {
      assert Init(records)[..k] == records[..k];
      FoundStays(Init(records), k, id);
    }
  }

  lemma {:induction false} FindIs(records: seq<Record>, id: string)
    ensures Find(records, id).Some? ==> Find(records, id).value in records && Find(records, id).value.submissionId == id
    ensures Find(records, id).None? <==> forall k :: 0 <= k < |records| ==> records[k].submissionId != id
  {
    if records != [] {
      FindIs(Init(records), id);
      assert forall k :: 0 <= k < |records| - 1 ==> records[k] == Init(records)[k];
    }
  }

  lemma {:induction false} ReadAllAppend(s: seq<Line>, t: seq<Line>, p: Platform)
    ensures ReadAll(s + t, p) == ReadAll(s, p) + ReadAll(t, p)
  {
    if t == [] {
      assert s + t == s;
    } else {
      assert Init(s + t) == s + Init(t) && Last(s + t) == Last(t);
      ReadAllAppend(s, Init(t), p);
    }
  }

  /** What was appended for a sound record is read back as that record, after everything before it. */
  lemma AppendedIsRead(lines: seq<Line>, r: Record, p: Platform)
    requires RecordOk(r, p)
    ensures ReadAll(lines + [Document(RecordJson(r))], p) == ReadAll(lines, p) + [r]
  {
    RecordRoundTrip(r, p);
    var line := Document(RecordJson(r));
    assert Init(lines + [line]) == lines && Last(lines + [line]) == line;
  }

  /** Neither empty nor a record. */
  predicate Unreadable(line: Line, p: Platform) {
    !line.EmptyLine? && ReadLine(line, p).None?
  }

  /** What is said about a skipped line: nothing when it is no JSON, and otherwise what is wrong with it. */
  predicate Explains(skipped: Skipped, line: Line, p: Platform) {
    match line
    case EmptyLine => false
    case NotJson => skipped.defects == None
    case Document(json) => ReadRecord(json, p).Damaged? && skipped.defects == Some(ReadRecord(json, p).defects)
  }

  /** The line a number names, counted from one, is this unreadable one. */
  predicate Names(skipped: Skipped, lines: seq<Line>, p: Platform) {
    1 <= skipped.number <= |lines| && Explains(skipped, lines[skipped.number - 1], p)
  }

  /** Nothing is dropped in silence: the skipped lines are exactly the unreadable ones, each once, in file order, under
      its own number counted from one, with the reasons. */
  lemma {:induction false} SkippedAre(lines: seq<Line>, p: Platform)
    ensures var skipped := SkippedLines(lines, p);
            && (forall i :: 0 <= i < |skipped| ==> Names(skipped[i], lines, p))
            && (forall i, j :: 0 <= i < j < |skipped| ==> skipped[i].number < skipped[j].number)
            && (forall k :: 0 <= k < |lines| && Unreadable(lines[k], p) ==> Skips(skipped, k))
  {
    if lines != [] {
      SkippedAre(Init(lines), p);
      var before, last := SkippedLines(Init(lines), p), Last(lines);
      OneLineOn(lines, p);
      forall i | 0 <= i < |before| ensures Names(before[i], lines, p) { assert Names(before[i], Init(lines), p); }
      forall k | 0 <= k < |lines| && Unreadable(lines[k], p) ensures Skips(SkippedLines(lines, p), k) {
        if k < |lines| - 1 {
          assert Unreadable(Init(lines)[k], p);
          SkipsStill(before, SkippedLines(lines, p)[|before|..], k);
          assert SkippedLines(lines, p) == before + SkippedLines(lines, p)[|before|..];
        } else {
          assert SkippedLines(lines, p)[|before|].number == k + 1;
        }
      }
    }
  }

  /** This line's number is among them. */
  predicate Skips(skipped: seq<Skipped>, k: nat) {
    exists i :: 0 <= i < |skipped| && skipped[i].number == k + 1
  }

  lemma SkipsStill(before: seq<Skipped>, more: seq<Skipped>, k: nat)
    requires Skips(before, k)
    ensures Skips(before + more, k)
  {
    var i :| 0 <= i < |before| && before[i].number == k + 1;
    assert (before + more)[i].number == k + 1;
  }

  lemma OneLineOn(lines: seq<Line>, p: Platform)
    requires lines != []
    ensures var before, skipped := SkippedLines(Init(lines), p), SkippedLines(lines, p);
            && before <= skipped && |skipped| == |before| + (if Unreadable(Last(lines), p) then 1 else 0)
            && (|skipped| > |before| ==>
                  skipped[|before|].number == |lines| && Explains(skipped[|before|], Last(lines), p))
  {
  }

  // ---------------------------------------------------------------- whole runs

  predicate TasksOk(tasks: seq<Q.Task<Record, Line, Outcome>>, p: Platform) {
    forall k :: 0 <= k < |tasks| ==> RecordOk(tasks[k].request, p)
  }

  /** No two of these records share an id, and none has one in use. */
  predicate New(added: seq<Record>, held: seq<Record>) {
    && (forall j, k :: 0 <= j < k < |added| ==> added[j].submissionId != added[k].submissionId)
    && (forall k :: 0 <= k < |added| ==> Find(held, added[k].submissionId).None?)
  }

  /** One turn at a file: the decision, and what it makes the file read as. */
  lemma Turn(lines: seq<Line>, record: Record, p: Platform)
    requires RecordOk(record, p)
    ensures var d := Decider(p)(record, lines);
            var found := Find(ReadAll(lines, p), record.submissionId);
            && (found.None? ==>
              d.Append? && d.outcome == Kept && ReadAll(lines + d.more, p) == ReadAll(lines, p) + [record])
            && (found.Some? ==> d == Q.Answer(AlreadyHeld(found.value)))
  {
    AppendedIsRead(lines, record, p);
  }

  /** The records a run of tasks adds to a file. */
  function Added(lines: seq<Line>, tasks: seq<Q.Task<Record, Line, Outcome>>, key: string, p: Platform): seq<Record> {
    if tasks == [] then []
    else
      var before := Q.Serial(lines, Init(tasks), key, Decider(p));
      var t := Last(tasks);
      Added(lines, Init(tasks), key, p) +
      if t.key == key && t.wrote > 0 && Decider(p)(t.request, before).Append? then [t.request] else []
  }

  lemma {:induction false} SerialAdds(
      lines: seq<Line>, tasks: seq<Q.Task<Record, Line, Outcome>>, key: string, p: Platform)
    requires TasksOk(tasks, p)
    ensures ReadAll(Q.Serial(lines, tasks, key, Decider(p)), p) == ReadAll(lines, p) + Added(lines, tasks, key, p)
    ensures New(Added(lines, tasks, key, p), ReadAll(lines, p))
  {
    if tasks != [] {
      SerialAdds(lines, Init(tasks), key, p);
      var before := Q.Serial(lines, Init(tasks), key, Decider(p));
      var t := Last(tasks);
      if t.key == key && Decider(p)(t.request, before).Append? {
        ReachedOne(before, t.request, t.wrote, p);
        if t.wrote > 0 {
          TurnAdds(before, ReadAll(lines, p), Added(lines, Init(tasks), key, p), t.request, p);
        }
      }
    }
  }

  /** One line reaches the file whole or not at all. */
  lemma ReachedOne(lines: seq<Line>, r: Record, wrote: nat, p: Platform)
    requires RecordOk(r, p) && Decider(p)(r, lines).Append?
    ensures var more := Decider(p)(r, lines).more;
            lines + Q.Reached(more, wrote) == if wrote > 0 then lines + more else lines
  {
    Turn(lines, r, p);
  }

  lemma TurnAdds(before: seq<Line>, held: seq<Record>, added: seq<Record>, r: Record, p: Platform)
    requires RecordOk(r, p) && New(added, held) && ReadAll(before, p) == held + added
    requires Decider(p)(r, before).Append?
    ensures ReadAll(before + Decider(p)(r, before).more, p) == held + (added + [r])
    ensures New(added + [r], held)
  {
    Turn(before, r, p);
    NewGrows(held, added, r);
  }

  lemma NewGrows(held: seq<Record>, added: seq<Record>, r: Record)
    requires New(added, held) && Find(held + added, r.submissionId).None?
    ensures New(added + [r], held)
  {
    FindIs(held + added, r.submissionId);
    FindIs(held, r.submissionId);
    forall k | 0 <= k < |held| ensures held[k].submissionId != r.submissionId {
      assert (held + added)[k] == held[k];
    }
    forall k | 0 <= k < |added| ensures added[k].submissionId != r.submissionId {
      assert (held + added)[|held| + k] == added[k];
    }
  }

  /** The records a directory's file holds after a run. */
  function Holding(files: map<string, seq<Line>>, steps: seq<Q.Step<Record>>, key: string, p: Platform): seq<Record> {
    ReadAll(Q.FileOf(Q.Run(files, steps, Decider(p)), key), p)
  }

  function HeldBefore(files: map<string, seq<Line>>, key: string, p: Platform): seq<Record> {
    ReadAll(if key in files then files[key] else [], p)
  }

  /** The main result: whatever the file started with - damaged lines anywhere, duplicates included - and
      however appends interleave and fail, what could be read stays, in order, and at most one readable record
      is added for any submissionId, none for one already there. */
  lemma AtMostOnePerSubmission(files: map<string, seq<Line>>, steps: seq<Q.Step<Record>>, key: string, p: Platform)
    returns (added: seq<Record>)
    requires TasksOk(Q.Run(files, steps, Decider(p)).tasks, p)
    ensures Holding(files, steps, key, p) == HeldBefore(files, key, p) + added
    ensures New(added, HeldBefore(files, key, p))
  {
    var q := Q.Run(files, steps, Decider(p));
    var start := Q.FileOf(Q.Started<Record, Line, Outcome>(files), key);
    Q.EveryRunIsSerial(files, steps, Decider(p));
    SerialAdds(start, q.tasks, key, p);
    added := Added(start, q.tasks, key, p);
  }

  /** The receipt a resolved call leads to. */
  function ReceiptOf(request: Record, outcome: Outcome): ServerReceipt {
    match outcome
    case Kept => request.receipt
    case AlreadyHeld(existing) => existing.receipt
  }

  /** The file as task `i` found it, and as it left it, in submission order. */
  function FoundBy(files: map<string, seq<Line>>, steps: seq<Q.Step<Record>>, i: nat, p: Platform): seq<Line>
    requires i < |Q.Run(files, steps, Decider(p)).tasks|
  {
    var q := Q.Run(files, steps, Decider(p));
    Q.Serial(Q.FileOf(Q.Started<Record, Line, Outcome>(files), q.tasks[i].key), q.tasks[..i], q.tasks[i].key,
      Decider(p))
  }

  function LeftBy(files: map<string, seq<Line>>, steps: seq<Q.Step<Record>>, i: nat, p: Platform): seq<Line>
    requires i < |Q.Run(files, steps, Decider(p)).tasks|
  {
    var q := Q.Run(files, steps, Decider(p));
    var start := Q.FileOf(Q.Started<Record, Line, Outcome>(files), q.tasks[i].key);
    Q.Serial(start, q.tasks[..i + 1], q.tasks[i].key, Decider(p))
  }

  lemma LeftByIs(files: map<string, seq<Line>>, steps: seq<Q.Step<Record>>, i: nat, p: Platform)
    requires i < |Q.Run(files, steps, Decider(p)).tasks|
    ensures var t, found := Q.Run(files, steps, Decider(p)).tasks[i], FoundBy(files, steps, i, p);
            var d := Decider(p)(t.request, found);
            LeftBy(files, steps, i, p) == if d.Append? then found + Q.Reached(d.more, t.wrote) else found
  {
    var tasks := Q.Run(files, steps, Decider(p)).tasks;
    assert Init(tasks[..i + 1]) == tasks[..i] && Last(tasks[..i + 1]) == tasks[i];
  }

  predicate Resolves(files: map<string, seq<Line>>, steps: seq<Q.Step<Record>>, i: nat, p: Platform) {
    var q := Q.Run(files, steps, Decider(p));
    TasksOk(q.tasks, p) && i < |q.tasks| && q.tasks[i].progress.Settled? && q.tasks[i].progress.result.Some?
  }

  /** What a resolved call found at its turn, and that a record it stored is in the file after it. */
  lemma ResolvedAtItsTurn(files: map<string, seq<Line>>, steps: seq<Q.Step<Record>>, i: nat, p: Platform)
    requires Resolves(files, steps, i, p)
    ensures var q := Q.Run(files, steps, Decider(p));
            var t, found := q.tasks[i], FoundBy(files, steps, i, p);
            var existing := Find(ReadAll(found, p), t.request.submissionId);
            && t.progress.result.value == (if existing.Some? then AlreadyHeld(existing.value) else Kept)
            && (existing.None? ==> ReadAll(LeftBy(files, steps, i, p), p) == ReadAll(found, p) + [t.request])
  {
    var q := Q.Run(files, steps, Decider(p));
    Q.EveryRunIsSerial(files, steps, Decider(p));
    assert Q.TaskInv(q, i, files, Decider(p));
    LeftByIs(files, steps, i, p);
    ResolvedTurn(q.tasks[i], FoundBy(files, steps, i, p), p);
  }

  lemma ResolvedTurn(t: Q.Task<Record, Line, Outcome>, found: seq<Line>, p: Platform)
    requires RecordOk(t.request, p) && t.progress.Settled? && t.progress.result.Some?
    requires Q.ResultIsSerial(t, found, Decider(p))
    ensures var existing := Find(ReadAll(found, p), t.request.submissionId);
            var d := Decider(p)(t.request, found);
            && t.progress.result.value == (if existing.Some? then AlreadyHeld(existing.value) else Kept)
            && (existing.None? ==>
                  d.Append? && ReadAll(found + Q.Reached(d.more, t.wrote), p) == ReadAll(found, p) + [t.request])
  {
    Turn(found, t.request, p);
  }

  /** Right after a resolved call, the record it speaks for is the first under its id - and stays so. */
  lemma SpokenForStays(files: map<string, seq<Line>>, steps: seq<Q.Step<Record>>, i: nat, k: nat, p: Platform)
    requires Resolves(files, steps, i, p) && i < k <= |Q.Run(files, steps, Decider(p)).tasks|
    ensures var q := Q.Run(files, steps, Decider(p));
            var t := q.tasks[i];
            var file := Q.Serial(Q.FileOf(Q.Started<Record, Line, Outcome>(files), t.key), q.tasks[..k], t.key,
              Decider(p));
            Find(ReadAll(file, p), t.request.submissionId) == Some(SpokenFor(t.request, t.progress.result.value))
  {
    var q := Q.Run(files, steps, Decider(p));
    var t, start := q.tasks[i], Q.FileOf(Q.Started<Record, Line, Outcome>(files), q.tasks[i].key);
    var found := ReadAll(FoundBy(files, steps, i, p), p);
    ResolvedAtItsTurn(files, steps, i, p);
    if Find(found, t.request.submissionId).Some? {
      StillFirst(start, q.tasks, i, k, t.key, t.request.submissionId, p);
    } else {
      assert Init(found + [t.request]) == found;
      StillFirst(start, q.tasks, i + 1, k, t.key, t.request.submissionId, p);
    }
  }

  lemma StillFirst(
      lines: seq<Line>, tasks: seq<Q.Task<Record, Line, Outcome>>, i: nat, k: nat, key: string, id: string, p: Platform)
    requires i <= k <= |tasks|
    requires Find(ReadAll(Q.Serial(lines, tasks[..i], key, Decider(p)), p), id).Some?
    ensures Find(ReadAll(Q.Serial(lines, tasks[..k], key, Decider(p)), p), id)
            == Find(ReadAll(Q.Serial(lines, tasks[..i], key, Decider(p)), p), id)
  {
    assert tasks[..k][..i] == tasks[..i];
    LaterTasksOnlyAdd(lines, tasks[..k], i, key, p);
    StillFound(ReadAll(Q.Serial(lines, tasks[..i], key, Decider(p)), p),
      ReadAll(Q.Serial(lines, tasks[..k], key, Decider(p)), p), id);
  }

  lemma StillFound(early: seq<Record>, late: seq<Record>, id: string)
    requires early <= late && Find(early, id).Some?
    ensures Find(late, id) == Find(early, id)
  {
    assert late[..|early|] == early;
    FoundStays(late, |early|, id);
  }

  lemma {:induction false} LaterTasksOnlyAdd(
      lines: seq<Line>, tasks: seq<Q.Task<Record, Line, Outcome>>, k: nat, key: string, p: Platform)
    requires k <= |tasks|
    ensures var early := Q.Serial(lines, tasks[..k], key, Decider(p));
            var late := Q.Serial(lines, tasks, key, Decider(p));
            early <= late && ReadAll(early, p) <= ReadAll(late, p)
    decreases |tasks|
  {
    if k == |tasks| {
      assert tasks[..k] == tasks;
    } else {
      assert Init(tasks)[..k] == tasks[..k];
      LaterTasksOnlyAdd(lines, Init(tasks), k, key, p);
      var early, late := Q.Serial(lines, tasks[..k], key, Decider(p)), Q.Serial(lines, tasks, key, Decider(p));
      assert early <= late;
      assert late == early + late[|early|..];
      ReadAllAppend(early, late[|early|..], p);
    }
  }

  /** The record a resolved call speaks for. */
  function SpokenFor(request: Record, outcome: Outcome): Record {
    match outcome
    case Kept => request
    case AlreadyHeld(existing) => existing
  }

  /** First writer wins: a call that resolved speaks for the one record under its id that the file shows now -
      its own when it stored it, the earlier one, unchanged, when it did not - and its receipt is that record's. */
  lemma FirstWriterWins(files: map<string, seq<Line>>, steps: seq<Q.Step<Record>>, i: nat, p: Platform)
    requires Resolves(files, steps, i, p)
    ensures var t := Q.Run(files, steps, Decider(p)).tasks[i];
            && Find(Holding(files, steps, t.key, p), t.request.submissionId)
               == Some(SpokenFor(t.request, t.progress.result.value))
            && SpokenFor(t.request, t.progress.result.value).submissionId == t.request.submissionId
            && ReceiptOf(t.request, t.progress.result.value) == SpokenFor(t.request, t.progress.result.value).receipt
  {
    var q := Q.Run(files, steps, Decider(p));
    SpokenForStays(files, steps, i, |q.tasks|, p);
    HoldingIsSerial(files, steps, q.tasks[i].key, p);
    FindIs(Holding(files, steps, q.tasks[i].key, p), q.tasks[i].request.submissionId);
  }

  lemma HoldingIsSerial(files: map<string, seq<Line>>, steps: seq<Q.Step<Record>>, key: string, p: Platform)
    ensures var tasks := Q.Run(files, steps, Decider(p)).tasks;
            Holding(files, steps, key, p)
            == ReadAll(Q.Serial(Q.FileOf(Q.Started<Record, Line, Outcome>(files), key), tasks[..|tasks|], key,
                                Decider(p)), p)
  {
    var q := Q.Run(files, steps, Decider(p));
    Q.EveryRunIsSerial(files, steps, Decider(p));
    assert q.tasks[..|q.tasks|] == q.tasks;
  }

  /** So one submission never carries two receipts: all its resolved calls agree, and at most one of them
      stored anything. */
  lemma OneReceiptPerSubmission(files: map<string, seq<Line>>, steps: seq<Q.Step<Record>>, i: nat, j: nat, p: Platform)
    requires Resolves(files, steps, i, p) && Resolves(files, steps, j, p)
    requires var q := Q.Run(files, steps, Decider(p));
             q.tasks[i].key == q.tasks[j].key && q.tasks[i].request.submissionId == q.tasks[j].request.submissionId
               && i < j
    ensures var q := Q.Run(files, steps, Decider(p));
            && ReceiptOf(q.tasks[i].request, q.tasks[i].progress.result.value)
               == ReceiptOf(q.tasks[j].request, q.tasks[j].progress.result.value)
            && q.tasks[j].progress.result.value
              == AlreadyHeld(SpokenFor(q.tasks[i].request, q.tasks[i].progress.result.value))
  {
    SpokenForStays(files, steps, i, j, p);
    ResolvedAtItsTurn(files, steps, j, p);
  }

  /** Damage never blocks the inbox: a call whose reads and writes succeed resolves, whatever the file holds. */
  lemma DamageNeverBlocks(files: map<string, seq<Line>>, steps: seq<Q.Step<Record>>, i: nat, p: Platform)
    requires var q := Q.Run(files, steps, Decider(p)); i < |q.tasks| && q.tasks[i].progress.Decided?
    ensures var q := Q.Next(Q.Run(files, steps, Decider(p)), Q.Finish(i, Q.NoFault), Decider(p));
            q.tasks[i].progress.Settled? && q.tasks[i].progress.result.Some?
  {
    Q.EveryRunIsSerial(files, steps, Decider(p));
    assert Q.TaskInv(Q.Run(files, steps, Decider(p)), i, files, Decider(p));
  }
}
