// The text of a JSONL file and the lines its readers see: both file stores read a whole file, split it at
// line breaks and parse each part; an append writes one document and then one line break
// (src/adapters/persistence/file-submission-inbox-store.ts, file-question-lifecycle-log.ts).
module JsonLines {
  import opened Common
  import opened Json
  import opened Text
  import Q = WriteQueue

  /** JSON.stringify and JSON.parse. */
  datatype Codec = Codec(stringify: Json -> string, parse: string -> Option<Json>)

  /** Nothing but JSON's own white space (section 2 of RFC 8259), within one line. */
  predicate JsonBlank(s: string) {
    forall i :: 0 <= i < |s| ==> s[i] == ' ' || s[i] == '\t' || s[i] == '\r'
  }

  /** What JSON says of a printed object: it has no raw line break, and behind other text on its line it is
      read back when that text is blank, and never otherwise - no document goes on behind another. */
  ghost predicate Prints(c: Codec, json: Json) {
    var line := c.stringify(json);
    && '\n' !in line
    && forall t: string :: '\n' !in t ==> c.parse(t + line) == if JsonBlank(t) then Some(json) else None
  }

  /** White space alone is no document. */
  ghost predicate BlankIsNothing(c: Codec) {
    forall t: string :: JsonBlank(t) ==> c.parse(t) == None
  }

  function Classify(s: string, c: Codec): Line {
    if s == [] then EmptyLine
    else
      match c.parse(s)
      case None => NotJson
      case Some(json) => Document(json)
  }

  function ClassifyAll(parts: seq<string>, c: Codec): seq<Line> {
    seq(|parts|, i requires 0 <= i < |parts| => Classify(parts[i], c))
  }

  /** The lines a reader of this text sees. */
  function LinesOf(text: string, c: Codec): seq<Line> {
    ClassifyAll(Split(text, '\n'), c)
  }

  // ---------------------------------------------------------------- complete lines and the rest

  /** What follows the last line break. */
  function Tail(text: string): string {
    if text == [] || Last(text) == '\n' then [] else Tail(Init(text)) + [Last(text)]
  }

  /** Everything up to and including the last line break. */
  function Body(text: string): string {
    if text == [] || Last(text) == '\n' then text else Body(Init(text))
  }

  /** Every line is ended by a line break. */
  predicate Terminated(text: string) {
    Tail(text) == []
  }

  /** The lines of a text that are ended by a line break. */
  function CompleteLines(text: string, c: Codec): seq<Line> {
    ClassifyAll(CompleteParts(Body(text)), c)
  }

  function CompleteParts(body: string): seq<string> {
    if body == [] then [] else Split(Init(body), '\n')
  }

  lemma {:induction false} BodyAndTail(text: string)
    ensures text == Body(text) + Tail(text) && '\n' !in Tail(text)
    ensures Body(text) == [] || Last(Body(text)) == '\n'
  {
    if text != [] && Last(text) != '\n' {
      BodyAndTail(Init(text));
      assert text == Init(text) + [Last(text)];
    }
  }

  /** A text has one body and one tail. */
  lemma {:induction false} TailIs(body: string, tail: string)
    requires (body == [] || Last(body) == '\n') && '\n' !in tail
    ensures Body(body + tail) == body && Tail(body + tail) == tail
  {
    if tail == [] {
      assert body + tail == body;
    } else {
      assert Init(body + tail) == body + Init(tail) && Last(body + tail) == Last(tail);
      assert Last(tail) in tail;
      TailIs(body, Init(tail));
      assert tail == Init(tail) + [Last(tail)];
    }
  }

  lemma {:induction false} SplitGlued(a: string, b: string, ch: char)
    ensures Split(a + [ch] + b, ch) == Split(a, ch) + Split(b, ch)
    decreases |a|
  {
    if ch !in a {
      SplitOfJoin(a, ch, b);
    } else {
      var head, rest := Cut(a, ch);
      SplitGlued(rest, b, ch);
      assert a + [ch] + b == head + [ch] + (rest + [ch] + b);
      SplitOfJoin(head, ch, rest + [ch] + b);
    }
  }

  /** A string at its first `ch`. */
  lemma Cut(a: string, ch: char) returns (head: string, rest: string)
    requires ch in a
    ensures a == head + [ch] + rest && ch !in head && Split(a, ch) == [head] + Split(rest, ch)
  {
    head := Until(a, ch);
    UntilIsPrefix(a, ch);
    rest := a[|head| + 1..];
    assert a == head + [ch] + rest;
    SplitOfJoin(head, ch, rest);
  }

  lemma SplitTail(body: string, tail: string)
    requires (body == [] || Last(body) == '\n') && '\n' !in tail
    ensures Split(body + tail, '\n') == CompleteParts(body) + [tail]
  {
    if body == [] {
      assert body + tail == tail;
    } else {
      assert body + tail == Init(body) + ['\n'] + tail;
      SplitGlued(Init(body), tail, '\n');
    }
    UntilOfJoin(tail, '\n', []);
  }

  /** A reader sees the complete lines, and whatever follows them as one more line. */
  lemma LinesAre(text: string, c: Codec)
    ensures LinesOf(text, c) == CompleteLines(text, c) + [Classify(Tail(text), c)]
  {
    BodyAndTail(text);
    SplitTail(Body(text), Tail(text));
  }

  // ---------------------------------------------------------------- one append

  /** What one append writes. */
  function LineFor(json: Json, c: Codec): string {
    c.stringify(json) + ['\n']
  }

  /** After an append every line is complete; the new one begins where the old text stopped. */
  lemma AppendLines(text: string, json: Json, c: Codec)
    requires '\n' !in c.stringify(json)
    ensures Terminated(text + LineFor(json, c))
    ensures CompleteLines(text + LineFor(json, c), c)
            == CompleteLines(text, c) + [Classify(Tail(text) + c.stringify(json), c)]
  {
    var body, last := Body(text), Tail(text) + c.stringify(json);
    BodyAndTail(text);
    var whole := body + last + ['\n'];
    assert text + LineFor(json, c) == whole;
    assert Last(whole) == '\n' && Init(whole) == body + last;
    SplitTail(body, last);
    assert CompleteParts(whole) == CompleteParts(body) + [last];
  }

  /** The new line is the document exactly when nothing but white space was left over before it. */
  lemma NewLineIs(text: string, json: Json, c: Codec)
    requires Prints(c, json) && BlankIsNothing(c)
    ensures Classify(Tail(text) + c.stringify(json), c)
            == if JsonBlank(Tail(text)) then Document(json) else NotJson
  {
    BodyAndTail(text);
    PrintedIsNotEmpty(json, c);
  }

  lemma PrintedIsNotEmpty(json: Json, c: Codec)
    requires Prints(c, json) && BlankIsNothing(c)
    ensures c.stringify(json) != []
  {
    var nothing: string := [];
    assert nothing + c.stringify(json) == c.stringify(json);
    assert c.parse(nothing) == None;
    assert c.parse(nothing + c.stringify(json)) == Some(json);
  }

  /** An append that breaks off before its line break leaves the complete lines alone. */
  lemma TornAppend(text: string, part: string, c: Codec)
    requires '\n' !in part
    ensures CompleteLines(text + part, c) == CompleteLines(text, c) && Tail(text + part) == Tail(text) + part
  {
    BodyAndTail(text);
    assert text + part == Body(text) + (Tail(text) + part);
    TailIs(Body(text), Tail(text) + part);
  }

  // ---------------------------------------------------------------- text runs refine line runs

  function PrintAll(lines: seq<Line>, c: Codec): string {
    if lines == [] then []
    else PrintAll(Init(lines), c) + if Last(lines).Document? then LineFor(Last(lines).json, c) else ['\n']
  }

  lemma PrintOne(json: Json, c: Codec)
    ensures PrintAll([Document(json)], c) == LineFor(json, c)
  {
    assert Init([Document(json)]) == [];
  }

  /** A decision about lines as one about text. */
  function OnText<O>(decision: Q.Decision<Line, O>, c: Codec): Q.Decision<char, O> {
    match decision
    case Throw => Q.Throw
    case Answer(outcome) => Q.Answer(outcome)
    case Append(more, outcome) => Q.Append(PrintAll(more, c), outcome)
  }

  /** The task as it runs: the text is read as lines, and what is appended is printed. */
  function OnTexts<R, O>(decide: Q.Decide<R, Line, O>, c: Codec): Q.Decide<R, char, O> {
    (request, text) => OnText(decide(request, LinesOf(text, c)), c)
  }

  lemma OnTextsIs<R, O>(decide: Q.Decide<R, Line, O>, request: R, text: string, c: Codec)
    ensures OnTexts(decide, c)(request, text) == OnText(decide(request, LinesOf(text, c)), c)
  {
  }

  /** Appends, if anything, one document that prints. */
  ghost predicate OneDocument<O>(decision: Q.Decision<Line, O>, c: Codec) {
    decision.Append? ==>
      |decision.more| == 1 && decision.more[0].Document? && Prints(c, decision.more[0].json)
  }

  /** A task that looks past an empty last line and appends one document at most. */
  ghost predicate DeciderOk<R(!new), O(!new)>(decide: Q.Decide<R, Line, O>, c: Codec) {
    && (forall request, lines :: decide(request, lines + [EmptyLine]) == decide(request, lines))
    && (forall request, lines :: OneDocument(decide(request, lines), c))
  }

  /** No write breaks off half-way. */
  predicate WholeWrites<R>(steps: seq<Q.Step<R>>) {
    forall k :: 0 <= k < |steps| && steps[k].Finish? ==> !steps[k].fault.Torn?
  }

  ghost predicate TaskRefines<R(!new), O(!new)>(t: Q.Task<R, char, O>, u: Q.Task<R, Line, O>, c: Codec) {
    && t.key == u.key && t.request == u.request && t.after == u.after
    && match (t.progress, u.progress)
       case (Waiting, Waiting) => true
       case (Running, Running) => true
       case (Decided(x), Decided(y)) => x == OnText(y, c) && OneDocument(y, c)
       case (Settled(a), Settled(b)) => a == b
       case _ => false
  }

  predicate FileRefines(text: string, lines: seq<Line>, c: Codec) {
    Terminated(text) && CompleteLines(text, c) == lines
  }

  /** A directory's file, or none yet. */
  function Held<L>(files: map<string, seq<L>>, key: string): seq<L> {
    if key in files then files[key] else []
  }

  ghost predicate FilesRefine(texts: map<string, string>, lines: map<string, seq<Line>>, c: Codec) {
    forall key :: FileRefines(Held(texts, key), Held(lines, key), c)
  }

  /** The same queue over text and over lines. */
  ghost predicate Refines<R(!new), O(!new)>(q: Q.Queues<R, char, O>, l: Q.Queues<R, Line, O>, c: Codec) {
    && q.tails == l.tails && |q.tasks| == |l.tasks|
    && (forall i :: 0 <= i < |q.tasks| ==> TaskRefines(q.tasks[i], l.tasks[i], c))
    && FilesRefine(q.files, l.files, c)
  }

  function LinesOfFiles(files: map<string, string>, c: Codec): map<string, seq<Line>> {
    map key | key in files :: CompleteLines(files[key], c)
  }

  lemma DecisionRefines<R(!new), O(!new)>(
      decide: Q.Decide<R, Line, O>, request: R, text: string, lines: seq<Line>, c: Codec)
    requires DeciderOk(decide, c) && FileRefines(text, lines, c)
    ensures OnTexts(decide, c)(request, text) == OnText(decide(request, lines), c)
    ensures OneDocument(decide(request, lines), c)
  {
    LinesAre(text, c);
    assert LinesOf(text, c) == lines + [EmptyLine];
  }

  /** A write that is not torn reaches a file as one line or not at all. */
  lemma WriteRefines<O(!new)>(text: string, lines: seq<Line>, decision: Q.Decision<Line, O>, fault: Q.Fault, c: Codec)
    requires FileRefines(text, lines, c) && OneDocument(decision, c) && decision.Append? && !fault.Torn?
    requires BlankIsNothing(c)
    ensures var more := PrintAll(decision.more, c);
            && |more| > 0
            && FileRefines(text + Q.Reached(more, Q.Written(fault, |more|)),
                           lines + Q.Reached(decision.more, Q.Written(fault, 1)), c)
  {
    var json := decision.more[0].json;
    assert decision.more == [Document(json)];
    PrintOne(json, c);
    if fault.BeforeWrite? {
      assert text + [] == text;
    } else {
      AppendLines(text, json, c);
      NewLineIs(text, json, c);
    }
  }

  lemma StepRefines<R(!new), O(!new)>(
      q: Q.Queues<R, char, O>, l: Q.Queues<R, Line, O>, step: Q.Step<R>, decide: Q.Decide<R, Line, O>, c: Codec)
    requires Refines(q, l, c) && DeciderOk(decide, c) && BlankIsNothing(c)
    requires step.Finish? ==> !step.fault.Torn?
    ensures Refines(Q.Next(q, step, OnTexts(decide, c)), Q.Next(l, step, decide), c)
  {
    match step
    case Submit(key, request) =>
    case Start(i) =>
      if i < |q.tasks| {
        StartRefines(q, l, i, decide, c);
      }
    case ReadFile(i, fails) =>
      if i < |q.tasks| && q.tasks[i].progress.Running? {
        var t := q.tasks[i];
        assert TaskRefines(t, l.tasks[i], c) && FileRefines(Held(q.files, t.key), Held(l.files, t.key), c);
        DecisionRefines(decide, t.request, Q.FileOf(q, t.key), Q.FileOf(l, t.key), c);
        TaskMoves(q, l, i, Q.Next(q, step, OnTexts(decide, c)), Q.Next(l, step, decide), c);
      } else if i < |q.tasks| {
        assert TaskRefines(q.tasks[i], l.tasks[i], c);
      }
    case Finish(i, fault) =>
      if i < |q.tasks| {
        assert TaskRefines(q.tasks[i], l.tasks[i], c);
        if q.tasks[i].progress.Decided? {
          FinishRefines(q, l, i, fault, decide, c);
        }
      }
  }

  /** One task moves on alike in both queues. */
  lemma TaskMoves<R(!new), O(!new)>(
      q: Q.Queues<R, char, O>, l: Q.Queues<R, Line, O>, i: nat, q': Q.Queues<R, char, O>, l': Q.Queues<R, Line, O>,
      c: Codec)
    requires Refines(q, l, c) && i < |q.tasks| && q'.tails == q.tails && l'.tails == l.tails
    requires |q'.tasks| == |q.tasks| && q'.tasks == q.tasks[i := q'.tasks[i]]
    requires |l'.tasks| == |l.tasks| && l'.tasks == l.tasks[i := l'.tasks[i]]
    requires TaskRefines(q'.tasks[i], l'.tasks[i], c)
    requires FilesRefine(q'.files, l'.files, c)
    ensures Refines(q', l', c)
  {
    forall j | 0 <= j < |q'.tasks| ensures TaskRefines(q'.tasks[j], l'.tasks[j], c) {
      if j != i {
        assert TaskRefines(q.tasks[j], l.tasks[j], c);
      }
    }
  }

  lemma StartRefines<R(!new), O(!new)>(
      q: Q.Queues<R, char, O>, l: Q.Queues<R, Line, O>, i: nat, decide: Q.Decide<R, Line, O>, c: Codec)
    requires Refines(q, l, c) && i < |q.tasks|
    ensures Refines(Q.Next(q, Q.Start(i), OnTexts(decide, c)), Q.Next(l, Q.Start(i), decide), c)
  {
    assert TaskRefines(q.tasks[i], l.tasks[i], c);
    if q.tasks[i].after.Some? && q.tasks[i].after.value < |q.tasks| {
      assert TaskRefines(q.tasks[q.tasks[i].after.value], l.tasks[q.tasks[i].after.value], c);
    }
    assert Q.MayStart(q, i) <==> Q.MayStart(l, i);
    if q.tasks[i].progress.Waiting? && Q.MayStart(q, i) {
      TaskMoves(q, l, i, Q.Next(q, Q.Start(i), OnTexts(decide, c)), Q.Next(l, Q.Start(i), decide), c);
    }
  }

  lemma FinishRefines<R(!new), O(!new)>(
      q: Q.Queues<R, char, O>, l: Q.Queues<R, Line, O>, i: nat, fault: Q.Fault, decide: Q.Decide<R, Line, O>, c: Codec)
    requires Refines(q, l, c) && BlankIsNothing(c) && !fault.Torn?
    requires i < |q.tasks| && q.tasks[i].progress.Decided?
    ensures Refines(Q.Next(q, Q.Finish(i, fault), OnTexts(decide, c)), Q.Next(l, Q.Finish(i, fault), decide), c)
  {
    assert TaskRefines(q.tasks[i], l.tasks[i], c);
    var d := l.tasks[i].progress.decision;
    var q', l' := Q.Finished(q, i, q.tasks[i].progress.decision, fault), Q.Finished(l, i, d, fault);
    assert TaskRefines(q'.tasks[i], l'.tasks[i], c);
    forall k ensures FileRefines(Held(q'.files, k), Held(l'.files, k), c) {
      assert FileRefines(Held(q.files, k), Held(l.files, k), c);
      FinishedFileRefines(q, l, i, fault, k, c);
    }
    TaskMoves(q, l, i, q', l', c);
  }

  lemma FinishedFileRefines<R(!new), O(!new)>(
      q: Q.Queues<R, char, O>, l: Q.Queues<R, Line, O>, i: nat, fault: Q.Fault, k: string, c: Codec)
    requires BlankIsNothing(c) && !fault.Torn? && FileRefines(Held(q.files, k), Held(l.files, k), c)
    requires i < |q.tasks| && i < |l.tasks| && q.tasks[i].progress.Decided? && TaskRefines(q.tasks[i], l.tasks[i], c)
    ensures var q' := Q.Finished(q, i, q.tasks[i].progress.decision, fault);
            var l' := Q.Finished(l, i, l.tasks[i].progress.decision, fault);
            FileRefines(Held(q'.files, k), Held(l'.files, k), c)
  {
    var d := l.tasks[i].progress.decision;
    if d.Append? && q.tasks[i].key == k {
      WriteRefines(Q.FileOf(q, k), Q.FileOf(l, k), d, fault, c);
    }
  }

  /** While no write breaks off, a run over text that starts with complete lines is a run over those lines: the
      same tasks settle with the same results, and each file is the other's lines, each ended by a line break. */
  lemma {:induction false} TextRefinesLines<R(!new), O(!new)>(
      files: map<string, string>, steps: seq<Q.Step<R>>, decide: Q.Decide<R, Line, O>, c: Codec)
    requires DeciderOk(decide, c) && BlankIsNothing(c) && WholeWrites(steps)
    requires forall key :: key in files ==> Terminated(files[key])
    ensures Refines(Q.Run(files, steps, OnTexts(decide, c)), Q.Run(LinesOfFiles(files, c), steps, decide), c)
  {
    if steps == [] {
      forall key ensures FileRefines(Held(files, key), Held(LinesOfFiles(files, c), key), c) {
        assert CompleteLines([], c) == [];
      }
    } else {
      assert forall k :: 0 <= k < |steps| - 1 ==> Init(steps)[k] == steps[k];
      TextRefinesLines(files, Init(steps), decide, c);
      StepRefines(Q.Run(files, Init(steps), OnTexts(decide, c)),
                  Q.Run(LinesOfFiles(files, c), Init(steps), decide), Last(steps), decide, c);
    }
  }
}
