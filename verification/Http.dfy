// What goes over the wire between a child's browser and the audio route, and how each side reads it:
// src/adapters/http/http-audio-answer-inbox.ts, src/adapters/http/server-receipt.ts and the guards of
// src/app/api/inbox/submissions/audio/route.ts and src/app/api/inbox/submissions/route.ts.
module Http {
  import opened Common
  import opened Json
  import opened Text
  import Audio = AudioArtifact

  // ---------------------------------------------------------------- receipts

  datatype ServerReceipt = ServerReceipt(receiptId: string, receivedAt: string)

  /** The one shape a positive answer has. */
  function Acknowledge(receipt: ServerReceipt): Json {
    Obj(map["acknowledged" := Bool(true), "receiptId" := Str(receipt.receiptId),
      "receivedAt" := Str(receipt.receivedAt)])
  }

  /** What the client accepts as proof. */
  function ReadServerReceipt(body: Json): Option<ServerReceipt> {
    var id, at := StringField(body, "receiptId"), StringField(body, "receivedAt");
    if Field(body, "acknowledged") != Some(Bool(true)) then None
    else if id.None? || Blank(id.value) || at.None? || Blank(at.value) then None
    else Some(ServerReceipt(Trim(id.value), Trim(at.value)))
  }

  function Tidied(receipt: ServerReceipt): ServerReceipt {
    ServerReceipt(Trim(receipt.receiptId), Trim(receipt.receivedAt))
  }

  /** An acknowledged receipt is read back trimmed, or not at all when a field is blank. */
  lemma ReceiptRoundTrip(receipt: ServerReceipt)
    ensures ReadServerReceipt(Acknowledge(receipt))
            == if Blank(receipt.receiptId) || Blank(receipt.receivedAt) then None else Some(Tidied(receipt))
  {
    var body := Acknowledge(receipt);
    assert StringField(body, "receiptId") == Some(receipt.receiptId);
    assert StringField(body, "receivedAt") == Some(receipt.receivedAt);
    assert Field(body, "acknowledged") == Some(Bool(true));
  }

  /** Whatever a body says, a receipt read from it has two tidy, non-blank fields and came with an
      explicit acknowledgement. */
  lemma ReceiptsAreReal(body: Json)
    requires ReadServerReceipt(body).Some?
    ensures var receipt := ReadServerReceipt(body).value;
            && Tidied(receipt) == receipt && !Blank(receipt.receiptId) && !Blank(receipt.receivedAt)
            && Field(body, "acknowledged") == Some(Bool(true))
  {
    TrimIsTidy(StringField(body, "receiptId").value);
    TrimIsTidy(StringField(body, "receivedAt").value);
  }

  // ---------------------------------------------------------------- what one attempt reports

  datatype Failure =
    | Transport | Unavailable | RateLimited | Unauthorized | Refused
    | AudioTooLarge | AudioTypeUnsupported | AudioUnreadable

  /** What reached the browser: nothing, or a status and perhaps a readable JSON body. */
  datatype HttpAnswer = NoAnswer | HttpAnswer(status: int, body: Option<Json>)

  datatype Delivery = Delivered(receipt: ServerReceipt) | NotDelivered(reason: Failure)

  function RefusalReason(status: int): Failure {
    if status == 401 || status == 403 then Unauthorized
    else if status == 429 then RateLimited
    else if status >= 500 then Unavailable
    else Refused
  }

  /** `deliver`: the answer as a receipt or a named failure. */
  function Deliver(answer: HttpAnswer): Delivery {
    match answer
    case NoAnswer => NotDelivered(Transport)
    case HttpAnswer(status, body) =>
      if !(200 <= status < 300) then NotDelivered(RefusalReason(status))
      else if body.None? then NotDelivered(Transport)
      else
        match ReadServerReceipt(body.value)
        case None => NotDelivered(Transport)
        case Some(receipt) => Delivered(receipt)
  }

  /** A child is told to record something new only for a status that says so: not for a missing answer,
      not for a positive one without a receipt, and not for one that may be different next time. */
  lemma RefusedExactlyWhen(answer: HttpAnswer)
    ensures Deliver(answer) == NotDelivered(Refused)
            <==> answer.HttpAnswer? && answer.status < 500 && !(200 <= answer.status < 300)
                 && answer.status !in {401, 403, 429}
  {
  }

  /** Every other outcome, by the status that leads to it; a receipt alone is a delivery. */
  lemma OutcomeExactlyWhen(answer: HttpAnswer)
    ensures Deliver(answer) == NotDelivered(Unauthorized) <==> answer.HttpAnswer? && answer.status in {401, 403}
    ensures Deliver(answer) == NotDelivered(RateLimited) <==> answer.HttpAnswer? && answer.status == 429
    ensures Deliver(answer) == NotDelivered(Unavailable) <==> answer.HttpAnswer? && answer.status >= 500
    ensures Deliver(answer).Delivered?
            <==> answer.HttpAnswer? && 200 <= answer.status < 300 && answer.body.Some?
                 && ReadServerReceipt(answer.body.value).Some?
    ensures Deliver(answer).Delivered? ==> Some(Deliver(answer).receipt) == ReadServerReceipt(answer.body.value)
    ensures Deliver(answer).NotDelivered? ==>
              Deliver(answer).reason in {Unauthorized, RateLimited, Unavailable, Refused, Transport}
  {
  }

  // ---------------------------------------------------------------- what the routes accept

  /** The two platform facts the guards use: which strings are well-formed UTF-16, and the UTC year of a
      string Date.parse reads. */
  datatype Platform = Platform(wellFormed: string -> bool, year: string -> Option<int>)

  predicate Representable(s: string, p: Platform) {
    '\0' !in s && p.wellFormed(s)
  }

  predicate StorableInstant(s: string, p: Platform) {
    p.year(s).Some? && 1 <= p.year(s).value <= 9999
  }

  predicate FieldOk(s: string, max: nat, p: Platform) {
    !Blank(s) && |s| <= max && Representable(s, p)
  }

  predicate IdentifiersOk(submissionId: string, questionId: string, createdAt: string, p: Platform) {
    FieldOk(submissionId, 200, p) && FieldOk(questionId, 200, p) && FieldOk(createdAt, 40, p)
      && StorableInstant(createdAt, p)
  }

  /** What the browser sends for one recording. */
  datatype Draft = Draft(
    submissionId: string, questionId: string, createdAt: string, mimeType: Audio.MimeType, bytes: seq<Audio.Byte>)

  /** An identifier both routes take. */
  predicate IdentifierTaken(s: string, p: Platform) {
    !Blank(s) && |s| <= 200 && '\0' !in s && p.wellFormed(s)
  }

  /** Exactly which recordings the audio route takes: a body that is neither empty nor over the limit, whose own bytes
      say the declared type, under two identifiers and a time both routes can keep. */
  lemma AcceptsExactlyWhen(d: Draft, maxBytes: nat, p: Platform)
    ensures Accepts(d, maxBytes, p) <==>
              && 0 < |d.bytes| <= maxBytes && Audio.Sniff(d.bytes) == Some(d.mimeType)
              && IdentifierTaken(d.submissionId, p) && IdentifierTaken(d.questionId, p)
              && IdentifierTaken(d.createdAt, p) && |d.createdAt| <= 40
              && p.year(d.createdAt).Some? && 1 <= p.year(d.createdAt).value <= 9999
  {
    Audio.NameIsDeclared(d.mimeType, "");
  }

  /** The route's guards on a request whose whole body arrived. */
  predicate Accepts(d: Draft, maxBytes: nat, p: Platform) {
    && |d.bytes| <= maxBytes
    && IdentifiersOk(d.submissionId, d.questionId, d.createdAt, p)
    && d.bytes != []
    && Audio.TypeAccepted(Some(Audio.MimeName(d.mimeType)), d.bytes)
  }
}
