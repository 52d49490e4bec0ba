// The audio delivery protocol over the real table: which drafts the store refuses is no longer left open but
// decided by the CHECK constraints of db/migrations/0001_submission_inbox.sql and 0002_submission_audio.sql.
module AudioFiling {
  import opened Common
  import opened Http
  import opened InboxRecord
  import Audio = AudioArtifact
  import Json
  import D = AudioDelivery
  import P = PostgresInbox

  /** Whether the table takes the record the route mints for a draft. */
  predicate TableTakes(
      d: Draft, digest: seq<Audio.Byte> -> string, receipt: ServerReceipt, sp: P.Spelling, p: Platform) {
    match MintAudio(d, digest(d.bytes), receipt, Audio.MAX_AUDIO_BYTES, p)
    case None => false
    case Some(record) => P.ChecksPass(P.ToRow(record, sp))
  }

  /** A setting whose store is the table. */
  ghost predicate OverTheTable(
      c: D.Setting, digest: seq<Audio.Byte> -> string, receipt: ServerReceipt, sp: P.Spelling)
  {
    && c.limit <= Audio.MAX_AUDIO_BYTES && |receipt.receiptId| <= 200
    && (forall bytes :: Audio.IsSha256Hex(digest(bytes)))
    && (forall d :: c.storable(d) <==> TableTakes(d, digest, receipt, sp, c.platform))
  }

  /** The table refuses nothing the route's guards let through. */
  lemma AcceptedIsStorable(
      c: D.Setting, digest: seq<Audio.Byte> -> string, receipt: ServerReceipt, sp: P.Spelling, d: Draft)
    requires OverTheTable(c, digest, receipt, sp)
    ensures D.Storable(d, c) <==> Accepts(d, c.limit, c.platform)
  {
    if Accepts(d, c.limit, c.platform) {
      assert Accepts(d, Audio.MAX_AUDIO_BYTES, c.platform);
      assert Audio.IsSha256Hex(digest(d.bytes));
      P.MintedPassesChecks(Json.Null, d, digest(d.bytes), receipt, Audio.MAX_AUDIO_BYTES, sp, c.platform);
    }
  }

  /** So over the table "refused" has one cause: when a fixed limit and unseen answers to broken-off bodies make it
      truthful, the recording is one the guards themselves turn away - unidentifiable, empty, too large or under
      unusable identifiers - and nothing is or will be stored under its id. */
  lemma RefusedByTheGuards(
      steps: seq<D.Step>, more: seq<D.Step>, c: D.Setting, digest: seq<Audio.Byte> -> string, receipt: ServerReceipt,
      sp: P.Spelling, m: Audio.MimeType)
    requires OverTheTable(c, digest, receipt, sp) && c.fixedLimit && c.cutAnswersStay
    requires D.Run(steps, c).sender.fields.state.failure == Some(Refused)
    ensures D.Run(steps, c).sender.fields.identity.Some?
    ensures var identity := D.Run(steps, c).sender.fields.identity.value;
            && (Audio.Sniff(Audio.Head(identity.recording.bytes, Audio.SNIFF_BYTES)) == Some(m) ==>
                  !Accepts(D.S.DraftOf(identity, m), c.limit, c.platform))
            && forall k :: 0 <= k < |D.Run(steps + more, c).rows| ==>
                 D.Run(steps + more, c).rows[k].submissionId != identity.submissionId
  {
    D.RefusalIsFinal(steps, more, c);
    D.EveryRunKeepsRefusal(steps, c);
    var identity := D.Run(steps, c).sender.fields.identity.value;
    AcceptedIsStorable(c, digest, receipt, sp, D.S.DraftOf(identity, m));
  }
}
