// Recordings on disk and the rows that point at them: src/adapters/persistence/file-audio-blob-store.ts
// and the order of src/app/api/inbox/submissions/audio/route.ts (blob, then row, then receipt).
// Any number of uploads interleave at every system call, each call may fail, the process may die, and
// the power may go.
module BlobStore {
  import opened Common
  import opened Http
  import Audio = AudioArtifact

  type Bytes = seq<Audio.Byte>

  /** A name inside a shard directory: a recording under its key, or one upload's temporary file. */
  datatype Name = Final(key: string) | Part(key: string, nonce: nat)

  /** The media directory, and the keys whose shard directory was synced after they appeared in it. */
  datatype Disk = Disk(files: map<Name, Bytes>, synced: set<string>)

  datatype Fault = NoFault | BeforeWrite | AfterWrite

  /** One system call of `store`, with what it does this time. */
  datatype Move =
    | LookUp(fails: bool)
    | OpenPart(nonce: nat, fails: bool)
    | WriteBytes(count: nat, fails: bool)
    | SyncPart(fails: bool)
    | Rename(fault: Fault)
    | RemovePart(fails: bool)
    | SyncDirectory(fails: bool)

  /** How far one upload has come. `Stored` is a resolved `store`; `own` says this call wrote the file. */
  datatype Stage =
    | Begun
    | Absent
    | Opened(nonce: nat)
    | Written(nonce: nat)
    | Synced(nonce: nat)
    | Failing(nonce: nat)
    | Renamed
    | Stored(own: bool)
    | Answered(receipt: Option<ServerReceipt>)
    | Gone

  datatype Upload = Upload(submissionId: string, bytes: Bytes, stage: Stage)

  datatype Row = Row(submissionId: string, audio: Audio.Artifact, receipt: ServerReceipt)

  datatype World = World(disk: Disk, uploads: seq<Upload>, rows: seq<Row>, nonces: set<nat>)

  /** What is fixed during a run: the digest, the recordings that ever come in, whether a write that succeeds
      wrote everything, whether the power stays on, and which shard directories were already durable. */
  datatype Setting = Setting(
    digest: Bytes -> string, recordings: set<Bytes>, wholeWrites: bool, powerStays: bool, shards: set<string>)

  datatype Step =
    | Begin(submissionId: string, bytes: Bytes)
    | Do(upload: nat, move: Move)
    | AppendRow(upload: nat, fault: Fault, receipt: ServerReceipt)
    | Crash
    | PowerLoss(lost: set<Name>)

  /** What is asked of SHA-256: 64 hexadecimal digits, and no collision among the recordings that come in. */
  ghost predicate DigestOk(c: Setting) {
    && (forall bytes :: Audio.IsSha256Hex(c.digest(bytes)))
    && (forall b1, b2 :: b1 in c.recordings && b2 in c.recordings && c.digest(b1) == c.digest(b2) ==> b1 == b2)
  }

  // ---------------------------------------------------------------- one call of `store`

  /** Bytes that write up to `count` when they are put in a file. */
  function Prefix(bytes: Bytes, count: nat): Bytes {
    if count < |bytes| then bytes[..count] else bytes
  }

  function Renaming(d: Disk, key: string, nonce: nat): Disk {
    if Part(key, nonce) in d.files
    then d.(files := (d.files - {Part(key, nonce)})[Final(key) := d.files[Part(key, nonce)]])
    else d
  }

  function SyncShard(d: Disk, key: string): Disk {
    d.(synced := d.synced + set n | n in d.files && n.Final? && Shard(n.key) == Shard(key) :: n.key)
  }

  /** The directory a key lives in: its first two characters. */
  function Shard(key: string): string {
    if |key| < 2 then key else key[..2]
  }

  /** What one system call does to the disk and to its upload; a call that is not next does nothing. */
  function Advance(d: Disk, stage: Stage, key: string, bytes: Bytes, move: Move): (Disk, Stage) {
    match (stage, move)
    case (Begun, LookUp(fails)) =>
      (d, if fails then Answered(None) else if Final(key) in d.files then Stored(false) else Absent)
    case (Absent, OpenPart(nonce, fails)) =>
      if fails then (d, Answered(None)) else (d.(files := d.files[Part(key, nonce) := []]), Opened(nonce))
    case (Opened(nonce), WriteBytes(count, fails)) =>
      (d.(files := d.files[Part(key, nonce) := Prefix(bytes, count)]), if fails then Failing(nonce) else Written(nonce))
    case (Written(nonce), SyncPart(fails)) =>
      (d, if fails then Failing(nonce) else Synced(nonce))
    case (Synced(nonce), Rename(fault)) =>
      (if fault.BeforeWrite? then d else Renaming(d, key, nonce),
       if fault.NoFault? && Part(key, nonce) in d.files then Renamed else Failing(nonce))
    case (Failing(nonce), RemovePart(fails)) =>
      (if fails then d else d.(files := d.files - {Part(key, nonce)}), Answered(None))
    case (Renamed, SyncDirectory(fails)) =>
      if fails then (d, Answered(None)) else (SyncShard(d, key), Stored(true))
    case _ => (d, stage)
  }

  /** Several system calls of one upload with nothing in between. */
  function Drive(d: Disk, stage: Stage, key: string, bytes: Bytes, moves: seq<Move>): (Disk, Stage)
    decreases |moves|
  {
    if moves == [] then (d, stage)
    else
      var (d', stage') := Advance(d, stage, key, bytes, moves[0]);
      Drive(d', stage', key, bytes, moves[1..])
  }

  /** The calls one `store` makes, in order; those its path does not reach do nothing. */
  datatype Plan = Plan(
    lookFails: bool, nonce: nat, openFails: bool, count: nat, writeFails: bool, syncFails: bool,
    renameFault: Fault, removeFails: bool, directoryFails: bool)

  function Moves(p: Plan): seq<Move> {
    [LookUp(p.lookFails), OpenPart(p.nonce, p.openFails), WriteBytes(p.count, p.writeFails), SyncPart(p.syncFails),
     Rename(p.renameFault), RemovePart(p.removeFails), SyncDirectory(p.directoryFails)]
  }

  /** How a read ends: thrown for the key, nothing there, or the file's content. */
  datatype Playback = KeyRefused | Missing | Found(content: Bytes)

  function PlaybackOf(d: Disk, key: string): Playback {
    if !Audio.KeyAccepted(key) then KeyRefused
    else if Final(key) in d.files then Found(d.files[Final(key)])
    else Missing
  }

  /** Nothing fails after the look-up. */
  predicate Faultless(p: Plan) {
    && !p.openFails && !p.writeFails && !p.syncFails && p.renameFault.NoFault? && !p.directoryFails
  }

  class FileAudioBlobStore {
    var disk: Disk

    constructor (disk: Disk)
      ensures this.disk == disk
    {
      this.disk := disk;
    }

    /** `store`, undisturbed. A refused key touches nothing; a resolved call leaves what the key held, or
        what this call wrote under a synced name; whatever happens no other name changes, and a temporary
        file stays behind only when removing it failed too. */
    method Store(objectKey: string, bytes: Bytes, plan: Plan) returns (resolved: bool)
      requires Part(objectKey, plan.nonce) !in disk.files
      modifies this
      ensures !Audio.KeyAccepted(objectKey) ==> !resolved && disk == old(disk)
      ensures Audio.KeyAccepted(objectKey) ==>
                var (d, stage) := Drive(old(disk), Begun, objectKey, bytes, Moves(plan));
                disk == d && resolved == stage.Stored? && (resolved || stage == Answered(None))
      ensures Kept(old(disk), disk, Final(objectKey), Part(objectKey, plan.nonce))
      ensures Final(objectKey) in old(disk).files ==> disk == old(disk)
      ensures resolved && Final(objectKey) !in old(disk).files ==>
                && Final(objectKey) in disk.files && disk.files[Final(objectKey)] == Prefix(bytes, plan.count)
                && objectKey in disk.synced
      ensures resolved ==> Final(objectKey) in disk.files
      ensures resolved <==>
                && Audio.KeyAccepted(objectKey) && !plan.lookFails
                && (Final(objectKey) in old(disk).files || Faultless(plan))
      ensures Part(objectKey, plan.nonce) in disk.files ==> !resolved && plan.removeFails
    {
      if !Audio.KeyAccepted(objectKey) {
        return false;
      }
      MovesLead(disk, objectKey, bytes, plan);
      OutcomeMeans(disk, objectKey, bytes, plan);
      if plan.lookFails {
        return false;
      }
      if Final(objectKey) in disk.files {
        return true;
      }
      if plan.openFails {
        return false;
      }
      var temporary := Part(objectKey, plan.nonce);
      disk := disk.(files := disk.files[temporary := Prefix(bytes, plan.count)]);
      var failed := plan.writeFails || plan.syncFails;
      if !failed {
        if !plan.renameFault.BeforeWrite? {
          disk := Renaming(disk, objectKey, plan.nonce);
        }
        failed := !plan.renameFault.NoFault?;
      }
      if failed {
        if !plan.removeFails {
          disk := disk.(files := disk.files - {temporary});
        }
        return false;
      }
      if plan.directoryFails {
        return false;
      }
      disk := SyncShard(disk, objectKey);
      resolved := true;
    }

    /** `read`: throws for a key this store did not mint, and tells a missing recording from an empty one. */
    method Read(objectKey: string) returns (playback: Playback)
      ensures playback == PlaybackOf(disk, objectKey)
    {
      if !Audio.KeyAccepted(objectKey) {
        return KeyRefused;
      }
      if Final(objectKey) !in disk.files {
        return Missing;
      }
      playback := Found(disk.files[Final(objectKey)]);
    }
  }

  /** Where the seven calls lead, path by path. */
  function Outcome(d: Disk, key: string, bytes: Bytes, p: Plan): (Disk, Stage) {
    var filled := d.(files := d.files[Part(key, p.nonce) := Prefix(bytes, p.count)]);
    if p.lookFails then (d, Answered(None))
    else if Final(key) in d.files then (d, Stored(false))
    else if p.openFails then (d, Answered(None))
    else if p.writeFails || p.syncFails then MovesFromFailing(filled, key, p)
    else MovesFromSynced(filled, key, p)
  }

  /** Every other name is untouched. */
  ghost predicate Kept(d: Disk, d': Disk, n1: Name, n2: Name) {
    forall n :: n != n1 && n != n2 ==> (n in d.files <==> n in d'.files) && (n in d.files ==> d'.files[n] == d.files[n])
  }

  lemma OutcomeMeans(d: Disk, key: string, bytes: Bytes, p: Plan)
    requires Part(key, p.nonce) !in d.files
    ensures var (d', stage) := Outcome(d, key, bytes, p);
            && Kept(d, d', Final(key), Part(key, p.nonce))
            && (Final(key) in d.files ==> d' == d)
            && (stage.Stored? && Final(key) !in d.files ==>
                  Final(key) in d'.files && d'.files[Final(key)] == Prefix(bytes, p.count) && key in d'.synced)
            && (stage.Stored? ==> Final(key) in d'.files)
            && (stage.Stored? <==> !p.lookFails && (Final(key) in d.files || Faultless(p)))
            && (Part(key, p.nonce) in d'.files ==> !stage.Stored? && p.removeFails)
  {
  }

  lemma {:induction false} Idle(d: Disk, stage: Stage, key: string, bytes: Bytes, moves: seq<Move>)
    requires stage.Stored? || stage.Answered?
    ensures Drive(d, stage, key, bytes, moves) == (d, stage)
    decreases |moves|
  {
    if moves != [] {
      Idle(d, stage, key, bytes, moves[1..]);
    }
  }

  lemma DriveOne(d: Disk, stage: Stage, key: string, bytes: Bytes, moves: seq<Move>, k: nat)
    requires k < |moves|
    ensures var (d', stage') := Advance(d, stage, key, bytes, moves[k]);
            Drive(d, stage, key, bytes, moves[k..]) == Drive(d', stage', key, bytes, moves[k + 1..])
  {
    assert moves[k..][1..] == moves[k + 1..];
  }

  lemma MovesLead(d: Disk, key: string, bytes: Bytes, p: Plan)
    ensures Drive(d, Begun, key, bytes, Moves(p)) == Outcome(d, key, bytes, p)
  {
    var m := Moves(p);
    assert m[0..] == m;
    DriveOne(d, Begun, key, bytes, m, 0);
    if p.lookFails || Final(key) in d.files {
      Idle(d, if p.lookFails then Answered(None) else Stored(false), key, bytes, m[1..]);
    } else {
      DriveOne(d, Absent, key, bytes, m, 1);
      if p.openFails {
        Idle(d, Answered(None), key, bytes, m[2..]);
      } else {
        MovesFromOpened(d.(files := d.files[Part(key, p.nonce) := []]), key, bytes, p);
        assert d.files[Part(key, p.nonce) := []][Part(key, p.nonce) := Prefix(bytes, p.count)]
            == d.files[Part(key, p.nonce) := Prefix(bytes, p.count)];
      }
    }
  }

  lemma MovesFromOpened(d: Disk, key: string, bytes: Bytes, p: Plan)
    ensures var filled := d.(files := d.files[Part(key, p.nonce) := Prefix(bytes, p.count)]);
            Drive(d, Opened(p.nonce), key, bytes, Moves(p)[2..])
            == if p.writeFails || p.syncFails then MovesFromFailing(filled, key, p)
               else MovesFromSynced(filled, key, p)
  {
    var m := Moves(p);
    var filled := d.(files := d.files[Part(key, p.nonce) := Prefix(bytes, p.count)]);
    DriveOne(d, Opened(p.nonce), key, bytes, m, 2);
    if p.writeFails {
      DriveOne(filled, Failing(p.nonce), key, bytes, m, 3);
      DriveOne(filled, Failing(p.nonce), key, bytes, m, 4);
      DriveFailing(filled, key, bytes, p);
    } else {
      DriveOne(filled, Written(p.nonce), key, bytes, m, 3);
      if p.syncFails {
        DriveOne(filled, Failing(p.nonce), key, bytes, m, 4);
        DriveFailing(filled, key, bytes, p);
      } else {
        DriveSynced(filled, key, bytes, p);
      }
    }
  }

  function MovesFromFailing(d: Disk, key: string, p: Plan): (Disk, Stage) {
    (if p.removeFails then d else d.(files := d.files - {Part(key, p.nonce)}), Answered(None))
  }

  function MovesFromSynced(d: Disk, key: string, p: Plan): (Disk, Stage) {
    if p.renameFault.BeforeWrite? then MovesFromFailing(d, key, p)
    else if p.renameFault.AfterWrite? then MovesFromFailing(Renaming(d, key, p.nonce), key, p)
    else if p.directoryFails then (Renaming(d, key, p.nonce), Answered(None))
    else (SyncShard(Renaming(d, key, p.nonce), key), Stored(true))
  }

  lemma DriveFailing(d: Disk, key: string, bytes: Bytes, p: Plan)
    ensures Drive(d, Failing(p.nonce), key, bytes, Moves(p)[5..]) == MovesFromFailing(d, key, p)
  {
    DriveOne(d, Failing(p.nonce), key, bytes, Moves(p), 5);
    Idle(MovesFromFailing(d, key, p).0, Answered(None), key, bytes, Moves(p)[6..]);
  }

  lemma DriveSynced(d: Disk, key: string, bytes: Bytes, p: Plan)
    requires Part(key, p.nonce) in d.files
    ensures Drive(d, Synced(p.nonce), key, bytes, Moves(p)[4..]) == MovesFromSynced(d, key, p)
  {
    var m := Moves(p);
    DriveOne(d, Synced(p.nonce), key, bytes, m, 4);
    if p.renameFault.BeforeWrite? {
      DriveFailing(d, key, bytes, p);
    } else if p.renameFault.AfterWrite? {
      DriveFailing(Renaming(d, key, p.nonce), key, bytes, p);
    } else {
      DriveOne(Renaming(d, key, p.nonce), Renamed, key, bytes, m, 5);
      DriveOne(Renaming(d, key, p.nonce), Renamed, key, bytes, m, 6);
      var (last, stage) := MovesFromSynced(d, key, p);
      Idle(last, stage, key, bytes, m[7..]);
    }
  }

  // ---------------------------------------------------------------- the whole system

  /** What a row says about a recording: all of it derived from the bytes. */
  function Describe(bytes: Bytes, c: Setting): Option<Audio.Artifact> {
    if Audio.Sniff(bytes).None? then None else Audio.Describe(c.digest(bytes), Audio.Sniff(bytes).value, |bytes|)
  }

  /** These bytes are what a row says they are. */
  predicate IsOf(audio: Audio.Artifact, bytes: Bytes, c: Setting) {
    && audio.sizeBytes == |bytes| && 0 < |bytes| <= Audio.MAX_AUDIO_BYTES
    && audio.sha256 == c.digest(bytes) && Audio.Sniff(bytes) == Some(audio.mimeType)
    && audio.extension == Audio.Extension(audio.mimeType)
    && Audio.ObjectKey(audio.sha256, audio.mimeType) == Some(audio.objectKey)
  }

  /** Size, digest, type, extension and key: a row says all of it of the bytes, and of no other. */
  lemma DescribedExactlyWhen(audio: Audio.Artifact, bytes: Bytes, c: Setting)
    ensures Describe(bytes, c) == Some(audio) <==> IsOf(audio, bytes, c)
  {
  }

  function KeyOf(bytes: Bytes, c: Setting): string {
    match Describe(bytes, c)
    case None => ""
    case Some(audio) => audio.objectKey
  }

  function FindRow(rows: seq<Row>, id: string): Option<Row> {
    if rows == [] then None
    else if rows[0].submissionId == id then Some(rows[0])
    else FindRow(rows[1..], id)
  }

  function SetStage(w: World, i: nat, stage: Stage): World
    requires i < |w.uploads|
  {
    w.(uploads := w.uploads[i := w.uploads[i].(stage := stage)])
  }

  /** Every request that has no answer yet dies with the process. */
  function Killed(uploads: seq<Upload>): seq<Upload> {
    seq(|uploads|, i requires 0 <= i < |uploads| =>
      if uploads[i].stage.Answered? then uploads[i] else uploads[i].(stage := Gone))
  }

  /** A name the power cannot take: its directory was synced, and that directory is itself durable. */
  predicate Lasting(d: Disk, key: string, c: Setting) {
    key in d.synced && Shard(key) in c.shards
  }

  function Appended(w: World, i: nat, fault: Fault, receipt: ServerReceipt, c: Setting): World
    requires i < |w.uploads|
  {
    var u := w.uploads[i];
    match (FindRow(w.rows, u.submissionId), Describe(u.bytes, c))
    case (Some(row), _) => SetStage(w, i, Answered(if fault.NoFault? then Some(row.receipt) else None))
    case (None, None) => SetStage(w, i, Answered(None))
    case (None, Some(audio)) =>
      var stored := if fault.BeforeWrite? then w else w.(rows := w.rows + [Row(u.submissionId, audio, receipt)]);
      SetStage(stored, i, Answered(if fault.NoFault? then Some(receipt) else None))
  }

  /** A system call this setting allows: temporary names are fresh, and a successful write may be promised
      to be whole. */
  predicate Allowed(w: World, i: nat, move: Move, c: Setting)
    requires i < |w.uploads|
  {
    match move
    case OpenPart(nonce, _) => nonce !in w.nonces
    case WriteBytes(count, fails) => c.wholeWrites && !fails ==> count >= |w.uploads[i].bytes|
    case _ => true
  }

  function Moved(w: World, i: nat, move: Move, c: Setting): World
    requires i < |w.uploads|
  {
    var u := w.uploads[i];
    var (disk, stage) := Advance(w.disk, u.stage, KeyOf(u.bytes, c), u.bytes, move);
    SetStage(w, i, stage).(disk := disk, nonces := if move.OpenPart? then w.nonces + {move.nonce} else w.nonces)
  }

  function Next(w: World, step: Step, c: Setting): World {
    match step
    case Begin(id, bytes) =>
      if bytes in c.recordings && Describe(bytes, c).Some? then w.(uploads := w.uploads + [Upload(id, bytes, Begun)])
        else w
    case Do(i, move) => if i < |w.uploads| && Allowed(w, i, move, c) then Moved(w, i, move, c) else w
    case AppendRow(i, fault, receipt) =>
      if i < |w.uploads| && w.uploads[i].stage.Stored? then Appended(w, i, fault, receipt, c) else w
    case Crash => w.(uploads := Killed(w.uploads))
    case PowerLoss(lost) =>
      if c.powerStays then w
      else
        w.(uploads := Killed(w.uploads),
           disk := w.disk.(files := map n | n in w.disk.files && (n !in lost || (n.Final? && Lasting(w.disk, n.key, c)))
                                        :: w.disk.files[n]))
  }

  const EMPTY: World := World(Disk(map[], {}), [], [], {})

  function Run(steps: seq<Step>, c: Setting): World {
    if steps == [] then EMPTY else Next(Run(Init(steps), c), Last(steps), c)
  }

  /** Further steps from a given world. */
  function Follow(w: World, steps: seq<Step>, c: Setting): World
    decreases |steps|
  {
    if steps == [] then w else Follow(Next(w, steps[0], c), steps[1..], c)
  }

  /** One upload making these calls. */
  function Calls(i: nat, moves: seq<Move>): (steps: seq<Step>)
    ensures |steps| == |moves|
    decreases |moves|
  {
    if moves == [] then [] else [Do(i, moves[0])] + Calls(i, moves[1..])
  }

  /** At most one temporary file is opened, under a fresh name, and a promised whole write is whole. */
  predicate Plannable(w: World, i: nat, moves: seq<Move>, c: Setting)
    requires i < |w.uploads|
  {
    && (forall k :: 0 <= k < |moves| ==> Allowed(w, i, moves[k], c))
    && (forall j, k :: 0 <= j < k < |moves| && moves[j].OpenPart? ==> !moves[k].OpenPart?)
  }

  /** Undisturbed, an upload's calls do to the shared disk what the class does to its own. */
  lemma {:induction false} UndisturbedIsStore(w: World, i: nat, moves: seq<Move>, c: Setting)
    requires i < |w.uploads| && Plannable(w, i, moves, c)
    ensures var u := w.uploads[i];
            var w' := Follow(w, Calls(i, moves), c);
            && |w'.uploads| == |w.uploads| && w'.rows == w.rows
            && w'.uploads[i].submissionId == u.submissionId && w'.uploads[i].bytes == u.bytes
            && (w'.disk, w'.uploads[i].stage) == Drive(w.disk, u.stage, KeyOf(u.bytes, c), u.bytes, moves)
    decreases |moves|
  {
    if moves != [] {
      var next := Next(w, Do(i, moves[0]), c);
      forall k | 0 <= k < |moves| - 1 ensures Allowed(next, i, moves[1..][k], c) {
        assert Allowed(w, i, moves[k + 1], c);
      }
      UndisturbedIsStore(next, i, moves[1..], c);
      assert Calls(i, moves)[1..] == Calls(i, moves[1..]);
    }
  }

  // ---------------------------------------------------------------- the invariant

  /** A whole recording, under the key of its own bytes. */
  predicate Complete(key: string, content: Bytes, c: Setting) {
    content in c.recordings && Describe(content, c).Some? && Describe(content, c).value.objectKey == key
  }

  /** The recording a row describes is on disk: same digest, type, size and key. */
  predicate Stands(row: Row, d: Disk, c: Setting) {
    Final(row.audio.objectKey) in d.files && Describe(d.files[Final(row.audio.objectKey)], c) == Some(row.audio)
  }

  function NonceOf(stage: Stage): Option<nat> {
    match stage
    case Opened(n) => Some(n)
    case Written(n) => Some(n)
    case Synced(n) => Some(n)
    case Failing(n) => Some(n)
    case _ => None
  }

  predicate StageOk(u: Upload, d: Disk, c: Setting) {
    var key := KeyOf(u.bytes, c);
    match u.stage
    case Written(n) => Part(key, n) in d.files && d.files[Part(key, n)] == u.bytes
    case Synced(n) => Part(key, n) in d.files && d.files[Part(key, n)] == u.bytes
    case Renamed => Final(key) in d.files
    case Stored(own) => Final(key) in d.files && (own ==> key in d.synced)
    case _ => true
  }

  predicate ReceiptOk(u: Upload, rows: seq<Row>) {
    match u.stage
    case Answered(Some(receipt)) =>
      exists k :: 0 <= k < |rows| && rows[k].submissionId == u.submissionId && rows[k].receipt == receipt
    case _ => true
  }

  predicate FilesOk(d: Disk, c: Setting) {
    && (forall n :: n in d.files && n.Final? ==> Complete(n.key, d.files[n], c))
    && (forall key :: key in d.synced && (c.powerStays || Lasting(d, key, c)) ==> Final(key) in d.files)
  }

  predicate UploadsOk(w: World, c: Setting) {
    && (forall i :: 0 <= i < |w.uploads| ==>
      w.uploads[i].bytes in c.recordings && Describe(w.uploads[i].bytes, c).Some?)
    && (forall i :: 0 <= i < |w.uploads| ==> StageOk(w.uploads[i], w.disk, c))
    && (forall i :: 0 <= i < |w.uploads| ==> ReceiptOk(w.uploads[i], w.rows))
    && (forall i :: 0 <= i < |w.uploads| && NonceOf(w.uploads[i].stage).Some? ==>
          NonceOf(w.uploads[i].stage).value in w.nonces)
    && (forall i, j :: 0 <= i < j < |w.uploads| && NonceOf(w.uploads[i].stage).Some? ==>
          NonceOf(w.uploads[i].stage) != NonceOf(w.uploads[j].stage))
  }

  /** The row's artifact was derived from some recording. */
  ghost predicate Minted(row: Row, c: Setting) {
    exists bytes :: bytes in c.recordings && Describe(bytes, c) == Some(row.audio)
  }

  ghost predicate RowsOk(w: World, c: Setting) {
    && (forall k :: 0 <= k < |w.rows| ==> Minted(w.rows[k], c))
    && (forall k :: 0 <= k < |w.rows| && c.powerStays ==> Final(w.rows[k].audio.objectKey) in w.disk.files)
    && (forall j, k :: 0 <= j < k < |w.rows| ==> w.rows[j].submissionId != w.rows[k].submissionId)
  }

  ghost predicate Inv(w: World, c: Setting) {
    FilesOk(w.disk, c) && UploadsOk(w, c) && RowsOk(w, c)
  }

  /** A complete file has exactly one possible content. */
  lemma OneContent(key: string, bytes: Bytes, content: Bytes, c: Setting)
    requires DigestOk(c) && Complete(key, bytes, c) && Complete(key, content, c)
    ensures content == bytes
  {
    Audio.KeysAreInjective(c.digest(bytes), Audio.Sniff(bytes).value, c.digest(content), Audio.Sniff(content).value);
  }

  /** A write cut short leaves something the key does not name: the file is complete exactly when every byte
      was written. */
  lemma CompleteExactlyWhenWhole(bytes: Bytes, count: nat, c: Setting)
    requires DigestOk(c) && Describe(bytes, c).Some?
    requires bytes in c.recordings
    ensures Complete(KeyOf(bytes, c), Prefix(bytes, count), c) <==> count >= |bytes|
  {
    if Complete(KeyOf(bytes, c), Prefix(bytes, count), c) {
      OneContent(KeyOf(bytes, c), bytes, Prefix(bytes, count), c);
    }
  }

  /** What one call does to the disk, as everyone else sees it: their temporary files and every recording stay
      as they are, and a recording that appears is whole. */
  ghost predicate DiskStep(d: Disk, d': Disk, nonce: Option<nat>) {
    && (forall n :: n in d.files && n.Final? ==> n in d'.files && d'.files[n] == d.files[n])
    && (forall n :: n in d.files && n.Part? && Some(n.nonce) != nonce ==> n in d'.files && d'.files[n] == d.files[n])
    && d.synced <= d'.synced
  }

  /** The name a call works under, before or after it. */
  function Working(stage: Stage, move: Move): Option<nat> {
    if stage.Absent? && move.OpenPart? then Some(move.nonce) else NonceOf(stage)
  }

  lemma AdvanceIsDiskStep(d: Disk, u: Upload, move: Move, c: Setting)
    requires DigestOk(c) && c.wholeWrites && FilesOk(d, c) && StageOk(u, d, c)
    requires u.bytes in c.recordings && Describe(u.bytes, c).Some?
    requires move.WriteBytes? && !move.fails ==> move.count >= |u.bytes|
    ensures var (d', stage') := Advance(d, u.stage, KeyOf(u.bytes, c), u.bytes, move);
            && FilesOk(d', c) && DiskStep(d, d', Working(u.stage, move))
            && StageOk(u.(stage := stage'), d', c)
            && (stage'.Answered? ==> stage'.receipt == None || u.stage == stage')
            && (NonceOf(stage').Some? ==> NonceOf(stage') == Working(u.stage, move))
  {
    var key := KeyOf(u.bytes, c);
    if u.stage.Synced? && move.Rename? {
      RenameIsDiskStep(d, u, move, c);
    }
  }

  lemma RenameIsDiskStep(d: Disk, u: Upload, move: Move, c: Setting)
    requires DigestOk(c) && FilesOk(d, c) && StageOk(u, d, c) && u.stage.Synced? && move.Rename?
    requires u.bytes in c.recordings && Describe(u.bytes, c).Some?
    ensures var (d', stage') := Advance(d, u.stage, KeyOf(u.bytes, c), u.bytes, move);
            && FilesOk(d', c) && DiskStep(d, d', Some(u.stage.nonce))
            && StageOk(u.(stage := stage'), d', c)
  {
    var key := KeyOf(u.bytes, c);
    assert Complete(key, u.bytes, c);
    if Final(key) in d.files {
      OneContent(key, d.files[Final(key)], u.bytes, c);
    }
  }

  /** Others keep their footing. */
  lemma StageKept(u: Upload, d: Disk, d': Disk, nonce: Option<nat>, c: Setting)
    requires StageOk(u, d, c) && DiskStep(d, d', nonce)
    requires NonceOf(u.stage).Some? ==> NonceOf(u.stage) != nonce
    ensures StageOk(u, d', c)
  {
  }

  lemma DoKeepsInv(w: World, i: nat, move: Move, c: Setting)
    requires DigestOk(c) && c.wholeWrites && Inv(w, c) && i < |w.uploads| && Allowed(w, i, move, c)
    ensures Inv(Moved(w, i, move, c), c)
  {
    var u, w' := w.uploads[i], Moved(w, i, move, c);
    assert StageOk(u, w.disk, c) && ReceiptOk(u, w.rows);
    AdvanceIsDiskStep(w.disk, u, move, c);
    forall j | 0 <= j < |w'.uploads| ensures StageOk(w'.uploads[j], w'.disk, c) && ReceiptOk(w'.uploads[j], w'.rows) {
      assert StageOk(w.uploads[j], w.disk, c) && ReceiptOk(w.uploads[j], w.rows);
      if j != i {
        StageKept(w.uploads[j], w.disk, w'.disk, Working(u.stage, move), c);
      }
    }
  }

  /** A row's recording is there, whole, as soon as anything is there under its key. */
  lemma PresentMeansStanding(row: Row, d: Disk, c: Setting)
    requires DigestOk(c) && FilesOk(d, c) && Minted(row, c)
    ensures Stands(row, d, c) <==> Final(row.audio.objectKey) in d.files
  {
    if Final(row.audio.objectKey) in d.files {
      var bytes :| bytes in c.recordings && Describe(bytes, c) == Some(row.audio);
      OneContent(row.audio.objectKey, bytes, d.files[Final(row.audio.objectKey)], c);
    }
  }

  lemma {:induction false} FindRowIs(rows: seq<Row>, id: string)
    ensures FindRow(rows, id).Some? ==>
        exists k :: 0 <= k < |rows| && rows[k] == FindRow(rows, id).value && rows[k].submissionId == id
    ensures FindRow(rows, id).None? ==> forall k :: 0 <= k < |rows| ==> rows[k].submissionId != id
  {
    if rows != [] && rows[0].submissionId != id {
      FindRowIs(rows[1..], id);
      if FindRow(rows, id).Some? {
        var k :| 0 <= k < |rows| - 1 && rows[1..][k] == FindRow(rows, id).value && rows[1..][k].submissionId == id;
        assert rows[k + 1] == rows[1..][k];
      } else {
        forall k | 0 <= k < |rows| ensures rows[k].submissionId != id {
          if k > 0 { assert rows[k] == rows[1..][k - 1]; }
        }
      }
    }
  }

  lemma AppendKeepsInv(w: World, i: nat, fault: Fault, receipt: ServerReceipt, c: Setting)
    requires Inv(w, c) && i < |w.uploads| && w.uploads[i].stage.Stored?
    ensures Inv(Appended(w, i, fault, receipt, c), c)
  {
    var u, w' := w.uploads[i], Appended(w, i, fault, receipt, c);
    assert StageOk(u, w.disk, c);
    AppendKeepsReceipts(w, i, fault, receipt, c);
    assert w'.disk == w.disk && w'.nonces == w.nonces && |w'.uploads| == |w.uploads|;
    assert forall j :: 0 <= j < |w.uploads| && j != i ==> w'.uploads[j] == w.uploads[j];
    assert w'.uploads[i].bytes == u.bytes && NonceOf(w'.uploads[i].stage).None? && StageOk(w'.uploads[i], w'.disk, c);
    AppendKeepsRows(w, i, fault, receipt, c);
  }

  lemma AppendKeepsRows(w: World, i: nat, fault: Fault, receipt: ServerReceipt, c: Setting)
    requires RowsOk(w, c) && i < |w.uploads| && w.uploads[i].stage.Stored? && StageOk(w.uploads[i], w.disk, c)
    requires w.uploads[i].bytes in c.recordings && Describe(w.uploads[i].bytes, c).Some?
    ensures RowsOk(Appended(w, i, fault, receipt, c), c)
  {
    var w' := Appended(w, i, fault, receipt, c);
    FindRowIs(w.rows, w.uploads[i].submissionId);
    forall k | 0 <= k < |w'.rows|
      ensures Minted(w'.rows[k], c) && (c.powerStays ==> Final(w'.rows[k].audio.objectKey) in w'.disk.files) {
      if k < |w.rows| { assert Minted(w.rows[k], c); }
    }
  }

  lemma AppendKeepsReceipts(w: World, i: nat, fault: Fault, receipt: ServerReceipt, c: Setting)
    requires i < |w.uploads| && Describe(w.uploads[i].bytes, c).Some?
    requires forall j :: 0 <= j < |w.uploads| ==> ReceiptOk(w.uploads[j], w.rows)
    ensures var w' := Appended(w, i, fault, receipt, c);
            forall j :: 0 <= j < |w'.uploads| ==> ReceiptOk(w'.uploads[j], w'.rows)
  {
    var u, w' := w.uploads[i], Appended(w, i, fault, receipt, c);
    FindRowIs(w.rows, u.submissionId);
    forall j | 0 <= j < |w'.uploads| ensures ReceiptOk(w'.uploads[j], w'.rows) {
      assert ReceiptOk(w.uploads[j], w.rows);
      assert forall k :: 0 <= k < |w.rows| ==> w'.rows[k] == w.rows[k];
      if j == i && |w'.rows| > |w.rows| {
        assert w'.rows[|w.rows|] == Row(u.submissionId, Describe(u.bytes, c).value, receipt);
      }
    }
  }

  lemma KilledKeepsInv(w: World, files: map<Name, Bytes>, c: Setting)
    requires Inv(w, c) && FilesOk(w.disk.(files := files), c)
    requires c.powerStays ==> files == w.disk.files
    ensures Inv(w.(uploads := Killed(w.uploads), disk := w.disk.(files := files)), c)
  {
    var uploads := Killed(w.uploads);
    forall j | 0 <= j < |uploads|
      ensures ReceiptOk(uploads[j], w.rows) && StageOk(uploads[j], w.disk.(files := files), c)
          && NonceOf(uploads[j].stage).None?
    {
      assert ReceiptOk(w.uploads[j], w.rows);
    }
  }

  lemma NextKeepsInv(w: World, step: Step, c: Setting)
    requires DigestOk(c) && c.wholeWrites && Inv(w, c)
    ensures Inv(Next(w, step, c), c)
  {
    match step
    case Begin(id, bytes) =>
    case Do(i, move) => if i < |w.uploads| && Allowed(w, i, move, c) { DoKeepsInv(w, i, move, c); }
    case AppendRow(i, fault, receipt) =>
      if i < |w.uploads| && w.uploads[i].stage.Stored? { AppendKeepsInv(w, i, fault, receipt, c); }
    case Crash => KilledKeepsInv(w, w.disk.files, c);
    case PowerLoss(lost) =>
      if !c.powerStays { KilledKeepsInv(w, Next(w, step, c).disk.files, c); }
  }

  lemma {:induction false} EveryRunKeepsInv(steps: seq<Step>, c: Setting)
    requires DigestOk(c) && c.wholeWrites
    ensures Inv(Run(steps, c), c)
  {
    if steps != [] {
      EveryRunKeepsInv(Init(steps), c);
      NextKeepsInv(Run(Init(steps), c), Last(steps), c);
    }
  }

  // ---------------------------------------------------------------- main results

  /** Whatever is under a recording's name is that recording: the whole content whose digest the name is. */
  lemma NoPartialRecording(steps: seq<Step>, c: Setting, key: string, bytes: Bytes)
    requires DigestOk(c) && c.wholeWrites && Final(key) in Run(steps, c).disk.files
    ensures Complete(key, Run(steps, c).disk.files[Final(key)], c)
    ensures Complete(key, bytes, c) ==> Run(steps, c).disk.files[Final(key)] == bytes
  {
    EveryRunKeepsInv(steps, c);
    if Complete(key, bytes, c) {
      OneContent(key, bytes, Run(steps, c).disk.files[Final(key)], c);
    }
  }

  /** In every run each file under a final name is the recording its name says - if and only if a successful
      write writes everything. */
  lemma NoPartialRecordingExactlyWhen(c: Setting, bytes: Bytes)
    requires DigestOk(c) && bytes in c.recordings && Describe(bytes, c).Some?
    ensures (forall steps, key: string :: Final(key) in Run(steps, c).disk.files ==>
               Complete(key, Run(steps, c).disk.files[Final(key)], c))
            <==> c.wholeWrites
  {
    if c.wholeWrites {
      forall steps, key: string | Final(key) in Run(steps, c).disk.files
        ensures Complete(key, Run(steps, c).disk.files[Final(key)], c)
      {
        NoPartialRecording(steps, c, key, bytes);
      }
    } else {
      var steps := Renamable(c, bytes, 0);
      var key := KeyOf(bytes, c);
      assert Audio.Sniff([]) == None;
      assert Final(key) in Run(steps, c).disk.files && !Complete(key, Run(steps, c).disk.files[Final(key)], c);
    }
  }

  /** Playback of a filed answer, while the power stays on: the row's key is one the store reads, and what it
      reads is the recording the row describes - the very bytes any upload with that description sent. */
  lemma PlaybackIsTheRecording(steps: seq<Step>, c: Setting, k: nat, bytes: Bytes)
    requires DigestOk(c) && c.wholeWrites && c.powerStays && k < |Run(steps, c).rows|
    ensures var w := Run(steps, c);
            var playback := PlaybackOf(w.disk, w.rows[k].audio.objectKey);
            && playback.Found? && IsOf(w.rows[k].audio, playback.content, c)
            && (bytes in c.recordings && Describe(bytes, c) == Some(w.rows[k].audio) ==> playback.content == bytes)
  {
    EveryRunKeepsInv(steps, c);
    var w := Run(steps, c);
    var row := w.rows[k];
    PresentMeansStanding(row, w.disk, c);
    DescribedExactlyWhen(row.audio, w.disk.files[Final(row.audio.objectKey)], c);
    var sent :| sent in c.recordings && Describe(sent, c) == Some(row.audio);
    Audio.AnyTypeIsListed(Audio.Sniff(sent).value);
    Audio.AcceptedKeysAreMinted(row.audio.objectKey);
    if bytes in c.recordings && Describe(bytes, c) == Some(row.audio) {
      OneContent(row.audio.objectKey, bytes, w.disk.files[Final(row.audio.objectKey)], c);
    }
  }

  /** A read tells what is there: the file's own content, an empty one included; that nothing is there; or that no such
      key was ever minted. */
  lemma PlaybackTells(d: Disk, key: string, content: Bytes)
    ensures PlaybackOf(d, key) == Found(content) <==>
              Audio.KeyAccepted(key) && Final(key) in d.files && d.files[Final(key)] == content
    ensures PlaybackOf(d, key) == Missing <==> Audio.KeyAccepted(key) && Final(key) !in d.files
  {
  }

  /** No step takes a recording away or changes it - a failed row least of all, and not a racing upload of the
      same bytes - unless the power goes. */
  lemma RecordingsStay(steps: seq<Step>, step: Step, c: Setting, key: string)
    requires DigestOk(c) && c.wholeWrites && Final(key) in Run(steps, c).disk.files
    ensures var w, w' := Run(steps, c), Run(steps + [step], c);
            c.powerStays || !step.PowerLoss? || Lasting(w.disk, key, c) ==>
              Final(key) in w'.disk.files && w'.disk.files[Final(key)] == w.disk.files[Final(key)]
  {
    EveryRunKeepsInv(steps, c);
    var w := Run(steps, c);
    assert Init(steps + [step]) == steps;
    if step.Do? && step.upload < |w.uploads| && Allowed(w, step.upload, step.move, c) {
      assert StageOk(w.uploads[step.upload], w.disk, c);
      AdvanceIsDiskStep(w.disk, w.uploads[step.upload], step.move, c);
    }
  }

  /** Every row's recording is on disk. */
  predicate NoDanglingRow(w: World, c: Setting) {
    forall k :: 0 <= k < |w.rows| ==> Stands(w.rows[k], w.disk, c)
  }

  /** A receipt is given out only beside its row, and while the power stays on only beside its recording. */
  lemma ReceiptMeansFiled(steps: seq<Step>, c: Setting, i: nat)
    requires DigestOk(c) && c.wholeWrites
    requires var w := Run(steps, c); i < |w.uploads| && w.uploads[i].stage.Answered? && w.uploads[i].stage.receipt.Some?
    ensures var w := Run(steps, c);
            exists k :: 0 <= k < |w.rows| && w.rows[k].submissionId == w.uploads[i].submissionId
                        && w.rows[k].receipt == w.uploads[i].stage.receipt.value
                        && (c.powerStays ==> Stands(w.rows[k], w.disk, c))
  {
    EveryRunKeepsInv(steps, c);
    var w := Run(steps, c);
    assert ReceiptOk(w.uploads[i], w.rows);
    var k :| 0 <= k < |w.rows| && w.rows[k].submissionId == w.uploads[i].submissionId
      && w.rows[k].receipt == w.uploads[i].stage.receipt.value;
    PresentMeansStanding(w.rows[k], w.disk, c);
  }

  /** This step completes an upload's sync of the directory a key lives in, at a moment the key is there. */
  predicate SyncsWith(w: World, step: Step, key: string, c: Setting) {
    && step.Do? && step.move == SyncDirectory(false) && step.upload < |w.uploads|
    && w.uploads[step.upload].stage.Renamed? && Shard(KeyOf(w.uploads[step.upload].bytes, c)) == Shard(key)
    && Final(key) in w.disk.files
  }

  /** Some upload's sync of the key's directory completed after the recording had appeared there. */
  predicate DirectorySynced(steps: seq<Step>, key: string, c: Setting) {
    exists k :: 0 <= k < |steps| && SyncsWith(Run(steps[..k], c), steps[k], key, c)
  }

  lemma StepSyncs(w: World, step: Step, key: string, c: Setting)
    ensures key in Next(w, step, c).disk.synced <==> key in w.disk.synced || SyncsWith(w, step, key, c)
  {
  }

  /** What the disk remembers as synced is what the calls of the run made so. */
  lemma {:induction false} SyncedByACall(steps: seq<Step>, key: string, c: Setting)
    ensures key in Run(steps, c).disk.synced <==> DirectorySynced(steps, key, c)
  {
    if steps != [] {
      SyncedByACall(Init(steps), key, c);
      StepSyncs(Run(Init(steps), c), Last(steps), key, c);
      SyncedSoFar(Init(steps), Last(steps), key, c);
      assert steps == Init(steps) + [Last(steps)];
    }
  }

  lemma SyncedSoFar(before: seq<Step>, step: Step, key: string, c: Setting)
    ensures DirectorySynced(before + [step], key, c)
            <==> DirectorySynced(before, key, c) || SyncsWith(Run(before, c), step, key, c)
  {
    var steps, n := before + [step], |before|;
    assert steps[..n] == before && steps[n] == step;
    assert forall k :: 0 <= k < n ==> steps[..k] == before[..k] && steps[k] == before[k];
    if DirectorySynced(before, key, c) {
      var k :| 0 <= k < n && SyncsWith(Run(before[..k], c), before[k], key, c);
      assert SyncsWith(Run(steps[..k], c), steps[k], key, c);
    }
    if DirectorySynced(steps, key, c) {
      var k :| 0 <= k <= n && SyncsWith(Run(steps[..k], c), steps[k], key, c);
      assert k < n ==> SyncsWith(Run(before[..k], c), before[k], key, c);
    }
  }

  /** A row survives every power loss exactly when, in the run so far, some upload completed a sync of its key's
      directory after the recording had appeared there, and that directory was itself durable. */
  lemma SurvivesPowerExactlyWhen(steps: seq<Step>, c: Setting, k: nat)
    requires DigestOk(c) && c.wholeWrites && !c.powerStays && k < |Run(steps, c).rows|
    ensures (forall lost :: Stands(Run(steps, c).rows[k], Next(Run(steps, c), PowerLoss(lost), c).disk, c))
            <==> DirectorySynced(steps, Run(steps, c).rows[k].audio.objectKey, c)
                 && Shard(Run(steps, c).rows[k].audio.objectKey) in c.shards
  {
    EveryRunKeepsInv(steps, c);
    SyncedByACall(steps, Run(steps, c).rows[k].audio.objectKey, c);
    var w := Run(steps, c);
    var row := w.rows[k];
    if Lasting(w.disk, row.audio.objectKey, c) {
      forall lost ensures Stands(row, Next(w, PowerLoss(lost), c).disk, c) {
        NextKeepsInv(w, PowerLoss(lost), c);
        PresentMeansStanding(row, Next(w, PowerLoss(lost), c).disk, c);
      }
    } else {
      var lost := {Final(row.audio.objectKey)};
      assert !Stands(row, Next(w, PowerLoss(lost), c).disk, c);
    }
  }

  /** A call that wrote the file itself has synced its directory; one that found it there promises nothing of
      the kind - the early return skips that sync. */
  lemma OwnWriteIsSynced(steps: seq<Step>, c: Setting, i: nat)
    requires DigestOk(c) && c.wholeWrites
    requires i < |Run(steps, c).uploads| && Run(steps, c).uploads[i].stage.Stored?
    ensures var w := Run(steps, c);
            var u := w.uploads[i];
            u.stage.own && Shard(KeyOf(u.bytes, c)) in c.shards ==> Lasting(w.disk, KeyOf(u.bytes, c), c)
  {
    EveryRunKeepsInv(steps, c);
    assert StageOk(Run(steps, c).uploads[i], Run(steps, c).disk, c);
  }

  lemma {:induction false} RunFollows(steps: seq<Step>, more: seq<Step>, c: Setting)
    ensures Run(steps + more, c) == Follow(Run(steps, c), more, c)
    decreases |more|
  {
    if more == [] {
      assert steps + more == steps;
    } else {
      assert steps + more == steps + [more[0]] + more[1..] && Init(steps + [more[0]]) == steps;
      RunFollows(steps + [more[0]], more[1..], c);
    }
  }

  /** The receipt an id has: that of its row, or the one now minted. */
  function ReceiptFor(rows: seq<Row>, id: string, minted: ServerReceipt): ServerReceipt {
    match FindRow(rows, id)
    case Some(row) => row.receipt
    case None => minted
  }

  /** One upload with nothing failing and nothing in between. */
  function Undisturbed(i: nat, plan: Plan, receipt: ServerReceipt): seq<Step> {
    Calls(i, Moves(plan)) + [AppendRow(i, NoFault, receipt)]
  }

  /** Whatever happened before: an upload that meets no failure is answered with the receipt of its row - the one there
      already, or the one row now added under its id - and has its recording under its key, whole when writes are. */
  lemma UploadArrives(steps: seq<Step>, c: Setting, i: nat, plan: Plan, receipt: ServerReceipt)
    requires DigestOk(c)
    requires i < |Run(steps, c).uploads| && Run(steps, c).uploads[i].stage == Begun
    requires !plan.lookFails && Faultless(plan) && plan.nonce !in Run(steps, c).nonces
    requires plan.count >= |Run(steps, c).uploads[i].bytes|
    ensures var w, w' := Run(steps, c), Run(steps + Undisturbed(i, plan, receipt), c);
            var u := w.uploads[i];
            && |w'.uploads| == |w.uploads|
            && w'.uploads[i].stage == Answered(Some(ReceiptFor(w.rows, u.submissionId, receipt)))
            && (FindRow(w.rows, u.submissionId).Some? ==> w'.rows == w.rows)
            && (FindRow(w.rows, u.submissionId).None? ==>
                  Describe(u.bytes, c).Some? && w'.rows == w.rows + [Row(u.submissionId, Describe(u.bytes, c).value,
                                                                         receipt)])
            && Final(KeyOf(u.bytes, c)) in w'.disk.files
            && (c.wholeWrites ==> w'.disk.files[Final(KeyOf(u.bytes, c))] == u.bytes)
  {
    var w, done := Run(steps, c), steps + Calls(i, Moves(plan));
    EveryUploadIsDescribed(steps, c, i);
    StoredUndisturbed(steps, c, i, plan);
    var all := steps + Undisturbed(i, plan, receipt);
    assert all == done + [AppendRow(i, NoFault, receipt)] && Init(all) == done;
    AppendedUndisturbed(Run(done, c), i, receipt, c);
    if c.wholeWrites {
      var u := w.uploads[i];
      var described := Audio.Describe(c.digest(u.bytes), Audio.Sniff(u.bytes).value, |u.bytes|).value;
      NoPartialRecording(done, c, KeyOf(u.bytes, c), u.bytes);
    }
  }

  lemma StoredUndisturbed(steps: seq<Step>, c: Setting, i: nat, plan: Plan)
    requires i < |Run(steps, c).uploads| && Run(steps, c).uploads[i].stage == Begun
    requires !plan.lookFails && Faultless(plan) && plan.nonce !in Run(steps, c).nonces
    requires plan.count >= |Run(steps, c).uploads[i].bytes|
    ensures var w, stored := Run(steps, c), Run(steps + Calls(i, Moves(plan)), c);
            && |stored.uploads| == |w.uploads| && stored.rows == w.rows && stored.uploads[i].stage.Stored?
            && stored.uploads[i].submissionId == w.uploads[i].submissionId
            && stored.uploads[i].bytes == w.uploads[i].bytes
            && Final(KeyOf(w.uploads[i].bytes, c)) in stored.disk.files
  {
    var w, moves := Run(steps, c), Moves(plan);
    RunFollows(steps, Calls(i, moves), c);
    MovesArePlannable(w, i, plan, c);
    UndisturbedIsStore(w, i, moves, c);
    FaultlessIsStored(w.disk, KeyOf(w.uploads[i].bytes, c), w.uploads[i].bytes, plan);
  }

  lemma MovesArePlannable(w: World, i: nat, plan: Plan, c: Setting)
    requires i < |w.uploads| && plan.nonce !in w.nonces && plan.count >= |w.uploads[i].bytes|
    ensures Plannable(w, i, Moves(plan), c)
  {
  }

  lemma FaultlessIsStored(d: Disk, key: string, bytes: Bytes, plan: Plan)
    requires !plan.lookFails && Faultless(plan)
    ensures var (d', stage) := Drive(d, Begun, key, bytes, Moves(plan)); stage.Stored? && Final(key) in d'.files
  {
    MovesLead(d, key, bytes, plan);
  }

  lemma AppendedUndisturbed(w: World, i: nat, receipt: ServerReceipt, c: Setting)
    requires i < |w.uploads| && w.uploads[i].stage.Stored? && Describe(w.uploads[i].bytes, c).Some?
    ensures var w', u := Next(w, AppendRow(i, NoFault, receipt), c), w.uploads[i];
            && |w'.uploads| == |w.uploads| && w'.disk == w.disk
            && w'.uploads[i].stage == Answered(Some(ReceiptFor(w.rows, u.submissionId, receipt)))
            && w'.rows == if FindRow(w.rows, u.submissionId).Some? then w.rows
                          else w.rows + [Row(u.submissionId, Describe(u.bytes, c).value, receipt)]
  {
  }

  /** Only what the route could describe is ever uploaded. */
  lemma {:induction false} EveryUploadIsDescribed(steps: seq<Step>, c: Setting, i: nat)
    requires i < |Run(steps, c).uploads|
    ensures Run(steps, c).uploads[i].bytes in c.recordings && Describe(Run(steps, c).uploads[i].bytes, c).Some?
  {
    if i < |Run(Init(steps), c).uploads| {
      EveryUploadIsDescribed(Init(steps), c, i);
    }
  }

  /** The row, write by write: a write that fails leaves the caller without a receipt, and the row is there unless it
      failed first. */
  lemma FailedRowGetsNoReceipt(steps: seq<Step>, c: Setting, i: nat, fault: Fault, receipt: ServerReceipt)
    requires i < |Run(steps, c).uploads| && Run(steps, c).uploads[i].stage.Stored? && !fault.NoFault?
    ensures var w, w' := Run(steps, c), Run(steps + [AppendRow(i, fault, receipt)], c);
            var u := w.uploads[i];
            && w'.uploads[i].stage == Answered(None) && w'.disk == w.disk
            && (w'.rows != w.rows <==> FindRow(w.rows, u.submissionId).None? && fault.AfterWrite?)
            && (w'.rows != w.rows ==>
                  Describe(u.bytes, c).Some?
                  && w'.rows == w.rows + [Row(u.submissionId, Describe(u.bytes, c).value, receipt)])
  {
    assert Init(steps + [AppendRow(i, fault, receipt)]) == steps;
    EveryUploadIsDescribed(steps, c, i);
  }

  /** What a crash or a power loss takes: every upload without an answer, and with the power any file whose name was not
      durable. */
  lemma WhatGoes(steps: seq<Step>, c: Setting, i: nat, lost: set<Name>, n: Name)
    requires i < |Run(steps, c).uploads|
    ensures var w, crashed, dark := Run(steps, c), Run(steps + [Crash], c), Run(steps + [PowerLoss(lost)], c);
            && crashed.uploads[i].stage == (if w.uploads[i].stage.Answered? then w.uploads[i].stage else Gone)
            && crashed.disk == w.disk && crashed.rows == w.rows == dark.rows
            && (!c.powerStays ==>
                  && dark.uploads[i].stage == crashed.uploads[i].stage
                  && (n in dark.disk.files <==>
                        n in w.disk.files && (n in lost ==> n.Final? && Lasting(w.disk, n.key, c))))
  {
    assert Init(steps + [Crash]) == steps && Init(steps + [PowerLoss(lost)]) == steps;
  }

  /** The promise "no row without its recording" holds in every run if and only if a successful write writes
      everything and the power stays on - whatever recording comes in. */
  lemma NoDanglingExactlyWhen(c: Setting, bytes: Bytes, receipt: ServerReceipt)
    requires DigestOk(c) && bytes in c.recordings && Describe(bytes, c).Some?
    ensures (forall steps :: NoDanglingRow(Run(steps, c), c)) <==> c.wholeWrites && c.powerStays
  {
    if c.wholeWrites && c.powerStays {
      forall steps ensures NoDanglingRow(Run(steps, c), c) {
        EveryRunKeepsInv(steps, c);
        var w := Run(steps, c);
        forall k | 0 <= k < |w.rows| ensures Stands(w.rows[k], w.disk, c) {
          PresentMeansStanding(w.rows[k], w.disk, c);
        }
      }
    } else if !c.wholeWrites {
      var steps := ShortWriteDangles(c, bytes, receipt);
      assert !NoDanglingRow(Run(steps, c), c);
    } else {
      var steps := PowerLossDangles(c, bytes, receipt);
      assert !NoDanglingRow(Run(steps, c), c);
    }
  }

  lemma Take(steps: seq<Step>, step: Step, w: World, c: Setting) returns (steps': seq<Step>)
    requires Next(Run(steps, c), step, c) == w
    ensures Run(steps', c) == w
  {
    steps' := steps + [step];
    assert Init(steps') == steps;
  }

  /** One upload alone. */
  function Alone(bytes: Bytes, files: map<Name, Bytes>, stage: Stage, nonces: set<nat>): World {
    World(Disk(files, {}), [Upload("a", bytes, stage)], [], nonces)
  }

  lemma Openable(c: Setting, bytes: Bytes) returns (steps: seq<Step>)
    requires bytes in c.recordings && Describe(bytes, c).Some?
    ensures Run(steps, c) == Alone(bytes, map[Part(KeyOf(bytes, c), 0) := []], Opened(0), {0})
  {
    steps := Take([], Begin("a", bytes), Alone(bytes, map[], Begun, {}), c);
    steps := Take(steps, Do(0, LookUp(false)), Alone(bytes, map[], Absent, {}), c);
    steps := Take(steps, Do(0, OpenPart(0, false)), Alone(bytes, map[Part(KeyOf(bytes, c), 0) := []], Opened(0), {0}),
      c);
  }

  lemma Renamable(c: Setting, bytes: Bytes, count: nat) returns (steps: seq<Step>)
    requires bytes in c.recordings && Describe(bytes, c).Some? && (c.wholeWrites ==> count >= |bytes|)
    ensures Run(steps, c) == Alone(bytes, map[Final(KeyOf(bytes, c)) := Prefix(bytes, count)], Renamed, {0})
  {
    var part := Part(KeyOf(bytes, c), 0);
    steps := Writable(c, bytes, count);
    var written := map[part := Prefix(bytes, count)];
    assert written - {part} == map[];
    steps := Take(steps, Do(0, Rename(NoFault)),
      Alone(bytes, map[Final(KeyOf(bytes, c)) := Prefix(bytes, count)], Renamed, {0}), c);
  }

  lemma Writable(c: Setting, bytes: Bytes, count: nat) returns (steps: seq<Step>)
    requires bytes in c.recordings && Describe(bytes, c).Some? && (c.wholeWrites ==> count >= |bytes|)
    ensures Run(steps, c) == Alone(bytes, map[Part(KeyOf(bytes, c), 0) := Prefix(bytes, count)], Synced(0), {0})
  {
    var part := Part(KeyOf(bytes, c), 0);
    steps := Openable(c, bytes);
    var written := map[part := Prefix(bytes, count)];
    assert map[part := []][part := Prefix(bytes, count)] == written;
    steps := Take(steps, Do(0, WriteBytes(count, false)), Alone(bytes, written, Written(0), {0}), c);
    steps := Take(steps, Do(0, SyncPart(false)), Alone(bytes, written, Synced(0), {0}), c);
  }

  /** `store` does not look at how much `write` wrote: a write of nothing is synced, renamed and given a receipt. */
  lemma ShortWriteDangles(c: Setting, bytes: Bytes, receipt: ServerReceipt) returns (steps: seq<Step>)
    requires bytes in c.recordings && Describe(bytes, c).Some? && !c.wholeWrites
    ensures !NoDanglingRow(Run(steps, c), c)
  {
    var audio := Describe(bytes, c).value;
    steps := Renamable(c, bytes, 0);
    var w := Run(steps, c);
    var synced := SyncShard(w.disk, audio.objectKey);
    steps := Take(steps, Do(0, SyncDirectory(false)), World(synced, [Upload("a", bytes, Stored(true))], [], {0}), c);
    var filed := World(synced, [Upload("a", bytes, Answered(Some(receipt)))], [Row("a", audio, receipt)], {0});
    steps := Take(steps, AppendRow(0, NoFault, receipt), filed, c);
    assert Audio.Sniff([]) == None;
    assert !Stands(filed.rows[0], filed.disk, c);
  }

  /** A second upload finds the file before its directory is synced, and files its row. */
  lemma FiledTooSoon(c: Setting, bytes: Bytes, receipt: ServerReceipt) returns (steps: seq<Step>)
    requires bytes in c.recordings && Describe(bytes, c).Some?
    ensures Run(steps, c) == World(
              Disk(map[Final(KeyOf(bytes, c)) := bytes], {}),
              [Upload("a", bytes, Renamed), Upload("b", bytes, Answered(Some(receipt)))],
              [Row("b", Describe(bytes, c).value, receipt)], {0})
  {
    var audio := Describe(bytes, c).value;
    steps := Renamable(c, bytes, |bytes|);
    var w := Run(steps, c);
    var first := Upload("a", bytes, Renamed);
    steps := Take(steps, Begin("b", bytes), w.(uploads := [first, Upload("b", bytes, Begun)]), c);
    steps := Take(steps, Do(1, LookUp(false)), w.(uploads := [first, Upload("b", bytes, Stored(false))]), c);
    var filed :=
      w.(uploads := [first, Upload("b", bytes, Answered(Some(receipt)))], rows := [Row("b", audio, receipt)]);
    steps := Take(steps, AppendRow(1, NoFault, receipt), filed, c);
  }

  /** A second upload finds the file before the first has synced the directory, gets its receipt, and the power
      goes. */
  lemma PowerLossDangles(c: Setting, bytes: Bytes, receipt: ServerReceipt) returns (steps: seq<Step>)
    requires bytes in c.recordings && Describe(bytes, c).Some? && !c.powerStays
    ensures !NoDanglingRow(Run(steps, c), c)
  {
    var audio := Describe(bytes, c).value;
    steps := FiledTooSoon(c, bytes, receipt);
    var filed := Run(steps, c);
    var dark := Next(filed, PowerLoss({Final(audio.objectKey)}), c);
    steps := Take(steps, PowerLoss({Final(audio.objectKey)}), dark, c);
    assert dark.rows == [Row("b", audio, receipt)] && !Stands(dark.rows[0], dark.disk, c);
  }
}
