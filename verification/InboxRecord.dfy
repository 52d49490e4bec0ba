// One submission as the project keeps it, and as one JSON line: the records both POST routes mint
// (src/app/api/inbox/submissions/route.ts and .../audio/route.ts) and the reader that vouches for a line
// (src/adapters/persistence/inbox-record-shape.ts).
module InboxRecord {
  import opened Common
  import opened Json
  import opened Text
  import opened Http
  import Audio = AudioArtifact

  datatype Payload = TextPayload(originalText: string) | AudioPayload(audio: Audio.Artifact)

  datatype Record = Record(
    submissionId: string, questionId: string, createdAt: string, receipt: ServerReceipt, payload: Payload)

  /** The reason keys: a field's name, or that the value is no object at all. */
  datatype Defect =
    | NotAnObject | Kind | ReceiptId | SubmissionId | QuestionId | CreatedAt | ReceivedAt | OriginalText | AudioField

  datatype Check = Readable(record: Record) | Damaged(defects: seq<Defect>)

  // ---------------------------------------------------------------- writing a line

  function KindName(payload: Payload): string {
    match payload
    case TextPayload(_) => "text"
    case AudioPayload(_) => "audio"
  }

  function AudioJson(a: Audio.Artifact): Json {
    Obj(map["objectKey" := Str(a.objectKey), "mimeType" := Str(Audio.MimeName(a.mimeType)),
            "extension" := Str(a.extension), "sizeBytes" := Num(a.sizeBytes as real), "sha256" := Str(a.sha256)])
  }

  /** JSON.stringify of a record. */
  function RecordJson(r: Record): Json {
    var fields := map[
      "submissionId" := Str(r.submissionId), "questionId" := Str(r.questionId), "createdAt" := Str(r.createdAt),
      "kind" := Str(KindName(r.payload)),
      "receiptId" := Str(r.receipt.receiptId), "receivedAt" := Str(r.receipt.receivedAt)];
    match r.payload
    case TextPayload(text) => Obj(fields["originalText" := Str(text)])
    case AudioPayload(audio) => Obj(fields["audio" := AudioJson(audio)])
  }

  // ---------------------------------------------------------------- reading one

  predicate Identifier(s: string, p: Platform) {
    s != [] && Representable(s, p)
  }

  function IdentifierField(json: Json, name: string, p: Platform): Option<string> {
    match StringField(json, name)
    case None => None
    case Some(s) => if Identifier(s, p) then Some(s) else None
  }

  function ReadAudio(value: Option<Json>, p: Platform): Option<Audio.Artifact> {
    if value.None? then None
    else
      var json := value.value;
      var objectKey, extension := IdentifierField(json, "objectKey", p), IdentifierField(json, "extension", p);
      var name, sizeBytes, sha256 :=
        StringField(json, "mimeType"), IntegerField(json, "sizeBytes"), StringField(json, "sha256");
      if objectKey.None? || extension.None? then None
      else if name.None? || Audio.MimeFromName(name.value).None? then None
      else if sizeBytes.None? || sizeBytes.value <= 0 then None
      else if sha256.None? || !Audio.IsSha256Hex(sha256.value) then None
      else
        Some(Audio.Artifact(objectKey.value, Audio.MimeFromName(name.value).value, extension.value, sizeBytes.value,
          sha256.value))
  }

  const IDENTIFIERS: seq<Defect> := [ReceiptId, SubmissionId, QuestionId]

  const TIMESTAMPS: seq<Defect> := [CreatedAt, ReceivedAt]

  const FIELDS: seq<Defect> := [Kind] + IDENTIFIERS + TIMESTAMPS + [OriginalText, AudioField]

  function FieldName(f: Defect): string {
    match f
    case NotAnObject => ""
    case Kind => "kind"
    case ReceiptId => "receiptId"
    case SubmissionId => "submissionId"
    case QuestionId => "questionId"
    case CreatedAt => "createdAt"
    case ReceivedAt => "receivedAt"
    case OriginalText => "originalText"
    case AudioField => "audio"
  }

  predicate InstantField(json: Json, name: string, p: Platform) {
    StringField(json, name).Some? && StorableInstant(StringField(json, name).value, p)
  }

  predicate TextField(json: Json, name: string, p: Platform) {
    StringField(json, name).Some? && Representable(StringField(json, name).value, p)
  }

  /** What is wrong with one field of an object. */
  predicate Defective(json: Json, f: Defect, p: Platform) {
    var kind := StringField(json, "kind");
    match f
    case NotAnObject => false
    case Kind => kind != Some("text") && kind != Some("audio")
    case ReceiptId => IdentifierField(json, "receiptId", p).None?
    case SubmissionId => IdentifierField(json, "submissionId", p).None?
    case QuestionId => IdentifierField(json, "questionId", p).None?
    case CreatedAt => !InstantField(json, "createdAt", p)
    case ReceivedAt => !InstantField(json, "receivedAt", p)
    case OriginalText => kind == Some("text") && !TextField(json, "originalText", p)
    case AudioField => kind == Some("audio") && ReadAudio(Field(json, "audio"), p).None?
  }

  /** The defective ones among some fields, in order. */
  function Among(json: Json, fields: seq<Defect>, p: Platform): seq<Defect> {
    if fields == [] then []
    else if Defective(json, Last(fields), p) then Among(json, Init(fields), p) + [Last(fields)]
    else Among(json, Init(fields), p)
  }

  function Defects(json: Json, p: Platform): seq<Defect> {
    Among(json, FIELDS, p)
  }

  predicate Sound(json: Json, p: Platform) {
    && !Defective(json, Kind, p) && !Defective(json, ReceiptId, p) && !Defective(json, SubmissionId, p)
    && !Defective(json, QuestionId, p) && !Defective(json, CreatedAt, p) && !Defective(json, ReceivedAt, p)
    && !Defective(json, OriginalText, p) && !Defective(json, AudioField, p)
  }

  /** The record in a line, or every reason there is none. */
  function ReadRecord(json: Json, p: Platform): Check {
    if !json.Obj? then Damaged([NotAnObject])
    else if Defects(json, p) != [] then Damaged(Defects(json, p))
    else
      NoDefectsMeansSound(json, p);
      var receipt := ServerReceipt(StringField(json, "receiptId").value, StringField(json, "receivedAt").value);
      Readable(Record(
        StringField(json, "submissionId").value, StringField(json, "questionId").value,
        StringField(json, "createdAt").value,
        receipt,
        if StringField(json, "kind") == Some("text") then TextPayload(StringField(json, "originalText").value)
        else AudioPayload(ReadAudio(Field(json, "audio"), p).value)))
  }

  /** No defects means every field is sound. */
  lemma NoDefectsMeansSound(json: Json, p: Platform)
    ensures Defects(json, p) == [] <==> Sound(json, p)
  {
    FieldsInOrder(json, p);
  }

  /** The reader as it runs: one pass over the names, pushing what is wrong. */
  method ReadInboxRecord(value: Json, p: Platform) returns (check: Check)
    ensures check == ReadRecord(value, p)
  {
    if !value.Obj? {
      return Damaged([NotAnObject]);
    }
    var defects := PushDefects(value, p);
    if defects != [] {
      return Damaged(defects);
    }
    NoDefectsMeansSound(value, p);
    var text := StringField(value, "kind") == Some("text");
    check := Readable(Record(
      StringField(value, "submissionId").value, StringField(value, "questionId").value,
      StringField(value, "createdAt").value,
      ServerReceipt(StringField(value, "receiptId").value, StringField(value, "receivedAt").value),
      if text then TextPayload(StringField(value, "originalText").value)
      else AudioPayload(ReadAudio(Field(value, "audio"), p).value)));
  }

  method PushDefects(value: Json, p: Platform) returns (defects: seq<Defect>)
    ensures defects == Defects(value, p)
  {
    var kind := StringField(value, "kind");
    defects := if kind != Some("text") && kind != Some("audio") then [Kind] else [];
    var identifiers := PushIdentifiers(value, p);
    var timestamps := PushTimestamps(value, p);
    defects := defects + identifiers + timestamps;
    if kind == Some("text") && !TextField(value, "originalText", p) {
      defects := defects + [OriginalText];
    }
    if kind == Some("audio") && ReadAudio(Field(value, "audio"), p).None? {
      defects := defects + [AudioField];
    }
    FieldsInOrder(value, p);
  }

  method PushIdentifiers(value: Json, p: Platform) returns (defects: seq<Defect>)
    ensures defects == Among(value, IDENTIFIERS, p)
  {
    defects := [];
    for i := 0 to |IDENTIFIERS|
      invariant defects == Among(value, IDENTIFIERS[..i], p)
    {
      AmongNext(value, IDENTIFIERS, i, p);
      if IdentifierField(value, FieldName(IDENTIFIERS[i]), p).None? {
        defects := defects + [IDENTIFIERS[i]];
      }
    }
    assert IDENTIFIERS[..|IDENTIFIERS|] == IDENTIFIERS;
  }

  method PushTimestamps(value: Json, p: Platform) returns (defects: seq<Defect>)
    ensures defects == Among(value, TIMESTAMPS, p)
  {
    defects := [];
    for i := 0 to |TIMESTAMPS|
      invariant defects == Among(value, TIMESTAMPS[..i], p)
    {
      AmongNext(value, TIMESTAMPS, i, p);
      if !InstantField(value, FieldName(TIMESTAMPS[i]), p) {
        defects := defects + [TIMESTAMPS[i]];
      }
    }
    assert TIMESTAMPS[..|TIMESTAMPS|] == TIMESTAMPS;
  }

  function One(json: Json, f: Defect, p: Platform): seq<Defect> {
    if Defective(json, f, p) then [f] else []
  }

  lemma AmongNext(json: Json, fields: seq<Defect>, i: nat, p: Platform)
    requires i < |fields|
    ensures Among(json, fields[..i + 1], p) == Among(json, fields[..i], p) + One(json, fields[i], p)
  {
    assert Init(fields[..i + 1]) == fields[..i];
  }

  lemma {:induction false} AmongAppend(json: Json, s: seq<Defect>, t: seq<Defect>, p: Platform)
    ensures Among(json, s + t, p) == Among(json, s, p) + Among(json, t, p)
  {
    if t == [] {
      assert s + t == s;
    } else {
      assert Init(s + t) == s + Init(t) && Last(s + t) == Last(t);
      AmongAppend(json, s, Init(t), p);
    }
  }

  lemma AmongOne(json: Json, f: Defect, p: Platform)
    ensures Among(json, [f], p) == One(json, f, p)
  {
    assert Init([f]) == [];
  }

  /** The list in the order the reader finds it. */
  lemma FieldsInOrder(json: Json, p: Platform)
    ensures Defects(json, p) == One(json, Kind, p) + Among(json, IDENTIFIERS, p) + Among(json, TIMESTAMPS, p)
                                + One(json, OriginalText, p) + One(json, AudioField, p)
    ensures Among(json, IDENTIFIERS, p)
        == One(json, ReceiptId, p) + One(json, SubmissionId, p) + One(json, QuestionId, p)
    ensures Among(json, TIMESTAMPS, p) == One(json, CreatedAt, p) + One(json, ReceivedAt, p)
  {
    AmongAppend(json, [Kind] + IDENTIFIERS + TIMESTAMPS, [OriginalText, AudioField], p);
    AmongAppend(json, [Kind] + IDENTIFIERS, TIMESTAMPS, p);
    AmongAppend(json, [Kind], IDENTIFIERS, p);
    AmongOne(json, Kind, p);
    AmongPair(json, OriginalText, AudioField, p);
    AmongPair(json, CreatedAt, ReceivedAt, p);
    AmongPair(json, ReceiptId, SubmissionId, p);
    assert IDENTIFIERS == [ReceiptId, SubmissionId] + [QuestionId];
    AmongAppend(json, [ReceiptId, SubmissionId], [QuestionId], p);
    AmongOne(json, QuestionId, p);
  }

  lemma AmongPair(json: Json, f: Defect, g: Defect, p: Platform)
    ensures Among(json, [f, g], p) == One(json, f, p) + One(json, g, p)
  {
    assert Init([f, g]) == [f];
    AmongOne(json, f, p);
  }

  // ---------------------------------------------------------------- round trip

  /** An artifact the reader accepts: a shape check, not a derivation. */
  predicate ArtifactOk(a: Audio.Artifact, p: Platform) {
    && Identifier(a.objectKey, p) && Identifier(a.extension, p)
    && 0 < a.sizeBytes <= MAX_SAFE_INTEGER && Audio.IsSha256Hex(a.sha256)
  }

  /** A record the reader accepts. */
  predicate RecordOk(r: Record, p: Platform) {
    && Identifier(r.submissionId, p) && Identifier(r.questionId, p) && Identifier(r.receipt.receiptId, p)
    && StorableInstant(r.createdAt, p) && StorableInstant(r.receipt.receivedAt, p)
    && match r.payload {
         case TextPayload(text) => Representable(text, p)
         case AudioPayload(audio) => ArtifactOk(audio, p)
       }
  }

  lemma AudioRoundTrip(a: Audio.Artifact, p: Platform)
    ensures ReadAudio(Some(AudioJson(a)), p) == if ArtifactOk(a, p) then Some(a) else None
  {
    var json := AudioJson(a);
    Audio.NamesAreExact(a.mimeType);
    IntegerPrints(a.sizeBytes);
    assert StringField(json, "objectKey") == Some(a.objectKey) && StringField(json, "extension") == Some(a.extension);
    assert StringField(json, "mimeType") == Some(Audio.MimeName(a.mimeType))
      && StringField(json, "sha256") == Some(a.sha256);
    assert Field(json, "sizeBytes") == Some(Num(a.sizeBytes as real));
  }

  /** A written line reads back as the record it was written from, exactly when the record is sound; and no
      line, whatever it holds, reads as an unsound one. */
  lemma RecordRoundTrip(r: Record, p: Platform)
    ensures ReadRecord(RecordJson(r), p) == Readable(r) <==> RecordOk(r, p)
    ensures ReadRecord(RecordJson(r), p).Readable? ==> ReadRecord(RecordJson(r), p) == Readable(r)
  {
    var json := RecordJson(r);
    RecordFields(r);
    if r.payload.AudioPayload? {
      AudioRoundTrip(r.payload.audio, p);
    }
    if RecordOk(r, p) {
      SoundWhenOk(r, p);
      NoDefectsMeansSound(json, p);
    }
    if ReadRecord(json, p).Readable? {
      NoDefectsMeansSound(json, p);
      OnlySoundRecords(json, p);
    }
  }

  lemma SoundWhenOk(r: Record, p: Platform)
    requires RecordOk(r, p)
    ensures Sound(RecordJson(r), p)
  {
    RecordFields(r);
    if r.payload.AudioPayload? {
      AudioRoundTrip(r.payload.audio, p);
    }
  }

  lemma RecordFields(r: Record)
    ensures var json := RecordJson(r);
            && json.Obj?
            && StringField(json, "submissionId") == Some(r.submissionId)
            && StringField(json, "questionId") == Some(r.questionId)
            && StringField(json, "createdAt") == Some(r.createdAt)
            && StringField(json, "kind") == Some(KindName(r.payload))
            && StringField(json, "receiptId") == Some(r.receipt.receiptId)
            && StringField(json, "receivedAt") == Some(r.receipt.receivedAt)
            && (r.payload.TextPayload? ==> StringField(json, "originalText") == Some(r.payload.originalText))
            && (r.payload.AudioPayload? ==> Field(json, "audio") == Some(AudioJson(r.payload.audio)))
  {
  }

  lemma OnlySoundArtifacts(value: Option<Json>, p: Platform)
    ensures ReadAudio(value, p).Some? ==> ArtifactOk(ReadAudio(value, p).value, p)
  {
  }

  lemma OnlySoundRecords(json: Json, p: Platform)
    ensures ReadRecord(json, p).Readable? ==> RecordOk(ReadRecord(json, p).record, p)
  {
    if ReadRecord(json, p).Readable? {
      NoDefectsMeansSound(json, p);
      OnlySoundArtifacts(Field(json, "audio"), p);
    }
  }

  // ---------------------------------------------------------------- what the routes mint

  datatype Submitted = Submitted(submissionId: string, questionId: string, createdAt: string, originalText: string)

  function ReadField(json: Json, name: string, max: nat, p: Platform): Option<string> {
    match StringField(json, name)
    case None => None
    case Some(s) => if FieldOk(s, max, p) then Some(s) else None
  }

  function ReadSubmitted(body: Json, p: Platform): Option<Submitted> {
    var id, question := ReadField(body, "submissionId", 200, p), ReadField(body, "questionId", 200, p);
    var at, text := ReadField(body, "createdAt", 40, p), ReadField(body, "originalText", 4000, p);
    if id.None? || question.None? || at.None? || text.None? then None
    else if !StorableInstant(at.value, p) then None
    else Some(Submitted(id.value, question.value, at.value, text.value))
  }

  /** The text route's record: the submitted fields as they came, and this server's receipt. */
  function MintText(body: Json, receipt: ServerReceipt, p: Platform): Option<Record> {
    match ReadSubmitted(body, p)
    case None => None
    case Some(s) => Some(Record(s.submissionId, s.questionId, s.createdAt, receipt, TextPayload(s.originalText)))
  }

  /** The audio route's record, from an accepted request and the digest of its body. */
  function MintAudio(d: Draft, sha256: string, receipt: ServerReceipt, maxBytes: nat, p: Platform): Option<Record> {
    if !Accepts(d, maxBytes, p) then None
    else
      match Audio.Describe(sha256, d.mimeType, |d.bytes|)
      case None => None
      case Some(audio) => Some(Record(d.submissionId, d.questionId, d.createdAt, receipt, AudioPayload(audio)))
  }

  /** A receipt id and a time stamp this server makes. */
  predicate ServerMade(receipt: ServerReceipt, p: Platform) {
    Identifier(receipt.receiptId, p) && StorableInstant(receipt.receivedAt, p)
  }

  /** A string of plain ASCII is well-formed. */
  ghost predicate AsciiIsWellFormed(p: Platform) {
    forall s: string :: (forall i :: 0 <= i < |s| ==> s[i] < '\U{80}') ==> p.wellFormed(s)
  }

  lemma MintedArtifactIsOk(sha256: string, m: Audio.MimeType, sizeBytes: nat, p: Platform)
    requires AsciiIsWellFormed(p)
    ensures Audio.Describe(sha256, m, sizeBytes).Some? ==> ArtifactOk(Audio.Describe(sha256, m, sizeBytes).value, p)
  {
    if Audio.Describe(sha256, m, sizeBytes).Some? {
      var key, extension := Audio.ObjectKey(sha256, m).value, Audio.Extension(m);
      forall i | 0 <= i < |extension| ensures '0' <= extension[i] < '\U{80}' {
      }
      forall i | 0 <= i < |key| ensures '.' <= key[i] < '\U{80}' {
        assert i >= 68 ==> key[i] == extension[i - 68];
        assert i < 2 ==> key[i] == sha256[i];
        assert 3 <= i < 67 ==> key[i] == sha256[i - 3];
      }
      assert p.wellFormed(key) && p.wellFormed(extension);
    }
  }

  /** Every record either route can mint is one the reader accepts, so no line it wrote is ever skipped. */
  lemma MintedTextIsReadable(body: Json, receipt: ServerReceipt, p: Platform)
    requires ServerMade(receipt, p)
    ensures var minted := MintText(body, receipt, p);
            minted.Some? ==>
              RecordOk(minted.value, p) && ReadRecord(RecordJson(minted.value), p) == Readable(minted.value)
  {
    if MintText(body, receipt, p).Some? {
      assert Blank([]);
      RecordRoundTrip(MintText(body, receipt, p).value, p);
    }
  }

  lemma MintedAudioIsReadable(d: Draft, sha256: string, receipt: ServerReceipt, maxBytes: nat, p: Platform)
    requires ServerMade(receipt, p) && AsciiIsWellFormed(p)
    ensures var minted := MintAudio(d, sha256, receipt, maxBytes, p);
            minted.Some? ==>
              RecordOk(minted.value, p) && ReadRecord(RecordJson(minted.value), p) == Readable(minted.value)
  {
    if MintAudio(d, sha256, receipt, maxBytes, p).Some? {
      var r := MintAudio(d, sha256, receipt, maxBytes, p).value;
      MintedArtifactIsOk(sha256, d.mimeType, |d.bytes|, p);
      AcceptedIdentifiers(d, maxBytes, p);
      assert RecordOk(r, p);
      RecordRoundTrip(r, p);
    }
  }

  lemma AcceptedIdentifiers(d: Draft, maxBytes: nat, p: Platform)
    requires Accepts(d, maxBytes, p)
    ensures Identifier(d.submissionId, p) && Identifier(d.questionId, p) && StorableInstant(d.createdAt, p)
  {
    assert Blank([]);
  }

  /** A recording's record names what was sent - the ids, the time, the type and size of these bytes - under the
      server's digest and receipt; and one is minted exactly for an accepted request within the product's limit. */
  lemma AudioIsVerbatim(d: Draft, sha256: string, receipt: ServerReceipt, maxBytes: nat, p: Platform)
    ensures var minted := MintAudio(d, sha256, receipt, maxBytes, p);
            && (minted.Some? <==>
                  Accepts(d, maxBytes, p) && Audio.IsSha256Hex(sha256) && |d.bytes| <= Audio.MAX_AUDIO_BYTES)
            && (minted.Some? ==>
                  var r := minted.value;
                  && r.submissionId == d.submissionId && r.questionId == d.questionId && r.createdAt == d.createdAt
                  && r.receipt == receipt && r.payload.AudioPayload?
                  && r.payload.audio.mimeType == d.mimeType && r.payload.audio.sizeBytes == |d.bytes|
                  && r.payload.audio.sha256 == sha256
                  && Audio.ObjectKey(sha256, d.mimeType) == Some(r.payload.audio.objectKey)
                  && r.payload.audio.extension == Audio.Extension(d.mimeType))
  {
  }

  /** A child's own words reach the record untouched: nothing trimmed, nothing normalised, and the receipt and
      the kind are never the client's. */
  lemma TextIsVerbatim(body: Json, receipt: ServerReceipt, p: Platform)
    requires MintText(body, receipt, p).Some?
    ensures var r := MintText(body, receipt, p).value;
            && Field(body, "originalText") == Some(Str(r.payload.originalText))
            && Field(body, "submissionId") == Some(Str(r.submissionId))
            && Field(body, "questionId") == Some(Str(r.questionId))
            && Field(body, "createdAt") == Some(Str(r.createdAt))
            && r.receipt == receipt && r.payload.TextPayload?
  {
  }
}
