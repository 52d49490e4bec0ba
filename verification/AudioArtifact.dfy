// What an audio answer is: src/domain/media/audio-artifact.ts, with the two halves that sniff it
// (src/adapters/media/audio-answer-sender.ts, src/app/api/inbox/submissions/audio/route.ts) and the
// object keys the blob store accepts (src/adapters/persistence/file-audio-blob-store.ts).
module AudioArtifact {
  import opened Common
  import opened Text

  type Byte = bv8

  datatype MimeType = WebM | Ogg | Mp4 | Mpeg | Wav

  function MimeName(m: MimeType): string {
    match m
    case WebM => "audio/webm"
    case Ogg => "audio/ogg"
    case Mp4 => "audio/mp4"
    case Mpeg => "audio/mpeg"
    case Wav => "audio/wav"
  }

  function Extension(m: MimeType): string {
    match m
    case WebM => "webm"
    case Ogg => "ogg"
    case Mp4 => "m4a"
    case Mpeg => "mp3"
    case Wav => "wav"
  }

  const ALL_TYPES: seq<MimeType> := [WebM, Ogg, Mp4, Mpeg, Wav]

  const MAX_AUDIO_BYTES: nat := 8 * 1024 * 1024

  const SNIFF_BYTES: nat := 16

  /** The accepted type a string names, by exact match. */
  function MimeFromName(s: string): Option<MimeType> {
    if s == "audio/webm" then Some(WebM)
    else if s == "audio/ogg" then Some(Ogg)
    else if s == "audio/mp4" then Some(Mp4)
    else if s == "audio/mpeg" then Some(Mpeg)
    else if s == "audio/wav" then Some(Wav)
    else None
  }

  // ---------------------------------------------------------------- sniffing

  predicate Matches(bytes: seq<Byte>, offset: nat, signature: seq<Byte>) {
    |bytes| >= offset + |signature| && forall i :: 0 <= i < |signature| ==> bytes[offset + i] == signature[i]
  }

  const RIFF: seq<Byte> := [0x52, 0x49, 0x46, 0x46]
  const WAVE: seq<Byte> := [0x57, 0x41, 0x56, 0x45]
  const OGGS: seq<Byte> := [0x4f, 0x67, 0x67, 0x53]
  const EBML: seq<Byte> := [0x1a, 0x45, 0xdf, 0xa3]
  const FTYP: seq<Byte> := [0x66, 0x74, 0x79, 0x70]
  const ID3: seq<Byte> := [0x49, 0x44, 0x33]

  function Sniff(bytes: seq<Byte>): Option<MimeType> {
    if Matches(bytes, 0, RIFF) && Matches(bytes, 8, WAVE) then Some(Wav)
    else if Matches(bytes, 0, OGGS) then Some(Ogg)
    else if Matches(bytes, 0, EBML) then Some(WebM)
    else if Matches(bytes, 4, FTYP) then Some(Mp4)
    else if Matches(bytes, 0, ID3) then Some(Mpeg)
    else if |bytes| >= 2 && bytes[0] == 0xff && bytes[1] & 0xe0 == 0xe0 then Some(Mpeg)
    else None
  }

  /** These characters stand at this place. */
  predicate Says(bytes: seq<Byte>, offset: nat, word: string) {
    |bytes| >= offset + |word| && forall i :: 0 <= i < |word| ==> bytes[offset + i] as int == word[i] as int
  }

  /** What a recording is, by its leading bytes: the words containers start with, as people read them. */
  lemma SniffedExactlyWhen(bytes: seq<Byte>)
    ensures Sniff(bytes) == Some(Wav) <==> Says(bytes, 0, "RIFF") && Says(bytes, 8, "WAVE")
    ensures Sniff(bytes) == Some(Ogg) <==> Says(bytes, 0, "OggS")
    ensures Sniff(bytes) == Some(WebM) <==> |bytes| >= 4 && bytes[..4] == [0x1a, 0x45, 0xdf, 0xa3]
    ensures Sniff(bytes) == Some(Mp4) <==>
              && Says(bytes, 4, "ftyp") && !Says(bytes, 0, "OggS") && bytes[..4] != [0x1a, 0x45, 0xdf, 0xa3]
              && !(Says(bytes, 0, "RIFF") && Says(bytes, 8, "WAVE"))
    ensures Sniff(bytes) == Some(Mpeg) <==>
              && (Says(bytes, 0, "ID3") || (|bytes| >= 2 && bytes[0] == 255 && bytes[1] >= 0xe0))
              && !Says(bytes, 4, "ftyp")
  {
    SaysMatches(bytes, 0, "RIFF", RIFF);
    SaysMatches(bytes, 8, "WAVE", WAVE);
    SaysMatches(bytes, 0, "OggS", OGGS);
    SaysMatches(bytes, 4, "ftyp", FTYP);
    SaysMatches(bytes, 0, "ID3", ID3);
    FirstByte(bytes, RIFF);
    FirstByte(bytes, OGGS);
    FirstByte(bytes, EBML);
    FirstByte(bytes, ID3);
    if |bytes| >= 4 {
      assert Matches(bytes, 0, EBML) <==> bytes[..4] == EBML by {
        assert forall i :: 0 <= i < 4 ==> bytes[..4][i] == bytes[0 + i];
      }
    }
    if |bytes| >= 2 { TopBits(bytes[1]); }
  }

  lemma FirstByte(bytes: seq<Byte>, signature: seq<Byte>)
    requires signature != []
    ensures Matches(bytes, 0, signature) ==> bytes[0] == signature[0]
  {
    assert Matches(bytes, 0, signature) ==> bytes[0 + 0] == signature[0];
  }

  lemma TopBits(b: Byte)
    ensures b & 0xe0 == 0xe0 <==> b >= 0xe0
  {
  }

  lemma SaysMatches(bytes: seq<Byte>, offset: nat, word: string, signature: seq<Byte>)
    requires |word| == |signature| && forall i :: 0 <= i < |word| ==> signature[i] as int == word[i] as int
    ensures Says(bytes, offset, word) <==> Matches(bytes, offset, signature)
  {
  }

  function Head(bytes: seq<Byte>, n: nat): seq<Byte> {
    if |bytes| <= n then bytes else bytes[..n]
  }

  lemma HeadMatches(bytes: seq<Byte>, n: nat, offset: nat, signature: seq<Byte>)
    requires offset + |signature| <= n
    ensures Matches(Head(bytes, n), offset, signature) == Matches(bytes, offset, signature)
  {
  }

  lemma HeadIsEnough(bytes: seq<Byte>, n: nat)
    requires n >= 12
    ensures Sniff(Head(bytes, n)) == Sniff(bytes)
  {
    HeadMatches(bytes, n, 0, RIFF);
    HeadMatches(bytes, n, 8, WAVE);
    HeadMatches(bytes, n, 0, OGGS);
    HeadMatches(bytes, n, 0, EBML);
    HeadMatches(bytes, n, 4, FTYP);
    HeadMatches(bytes, n, 0, ID3);
  }

  /** Reading only the first `n` bytes identifies every recording exactly when `n` is at least twelve: the
      sixteen the browser reads are enough, and the WAVE word makes eleven too few. */
  lemma TwelveBytesDecide(n: nat)
    ensures n >= 12 <==> forall bytes :: Sniff(Head(bytes, n)) == Sniff(bytes)
  {
    if n >= 12 {
      forall bytes ensures Sniff(Head(bytes, n)) == Sniff(bytes) {
        HeadIsEnough(bytes, n);
      }
    } else {
      var wav := RIFF + [0, 0, 0, 0] + WAVE;
      assert Matches(wav, 0, RIFF) && Matches(wav, 8, WAVE);
      assert Sniff(wav) == Some(Wav);
      assert !Matches(Head(wav, n), 8, WAVE);
      assert Sniff(Head(wav, n)) != Sniff(wav);
    }
  }

  // ---------------------------------------------------------------- the two halves agree

  /** The type a request declares: the header without its parameters, trimmed, in lower case. */
  function DeclaredMimeType(header: Option<string>): Option<MimeType> {
    if header.None? then None else MimeFromName(Lower(Trim(Split(header.value, ';')[0])))
  }

  lemma NameIsDeclared(m: MimeType, parameters: string)
    ensures DeclaredMimeType(Some(MimeName(m))) == Some(m)
    ensures DeclaredMimeType(Some(MimeName(m) + ";" + parameters)) == Some(m)
  {
    var name := MimeName(m);
    NameIsPlain(m);
    SplitOfJoin(name, ';', parameters);
    TidyStays(name);
    NamesAreExact(m);
  }

  lemma NameIsPlain(m: MimeType)
    ensures ';' !in MimeName(m) && Tidy(MimeName(m)) && Lower(MimeName(m)) == MimeName(m)
  {
  }

  lemma NamesAreExact(m: MimeType)
    ensures MimeFromName(MimeName(m)) == Some(m)
  {
  }

  /** Case, white space around the name and parameters behind it are the client's own; a name is not. */
  lemma SpellingDoesNotMatter(name: string, left: string, right: string, parameters: string)
    requires AllSpace(left) && AllSpace(right) && Tidy(name) && ';' !in name && ';' !in left && ';' !in right
    ensures DeclaredMimeType(Some(left + name + right)) == MimeFromName(Lower(name))
    ensures DeclaredMimeType(Some(left + name + right + ";" + parameters)) == MimeFromName(Lower(name))
  {
    SplitOfJoin(left + name + right, ';', parameters);
    TrimTakesPadding(left, name, right);
  }

  /** What the route decides from the type alone. */
  predicate TypeAccepted(header: Option<string>, bytes: seq<Byte>) {
    DeclaredMimeType(header).Some? && Sniff(bytes) == DeclaredMimeType(header)
  }

  /** The type the browser declares from the first sixteen bytes is the one the server finds in the whole
      body, so no recording the browser sends is refused as a mismatch. */
  lemma SniffedTypeIsAccepted(bytes: seq<Byte>)
    requires Sniff(Head(bytes, SNIFF_BYTES)).Some?
    ensures TypeAccepted(Some(MimeName(Sniff(Head(bytes, SNIFF_BYTES)).value)), bytes)
  {
    HeadIsEnough(bytes, SNIFF_BYTES);
    NameIsDeclared(Sniff(bytes).value, "");
  }

  // ---------------------------------------------------------------- object keys

  predicate IsHex(c: char) {
    '0' <= c <= '9' || 'a' <= c <= 'f'
  }

  predicate AllHex(s: string) {
    forall i :: 0 <= i < |s| ==> IsHex(s[i])
  }

  predicate IsSha256Hex(s: string) {
    |s| == 64 && AllHex(s)
  }

  /** The key of one recording; None stands for the thrown error. */
  function ObjectKey(sha256: string, m: MimeType): Option<string> {
    if IsSha256Hex(sha256) then Some(sha256[..2] + "/" + sha256 + "." + Extension(m)) else None
  }

  datatype Artifact = Artifact(objectKey: string, mimeType: MimeType, extension: string, sizeBytes: nat, sha256: string)

  function Describe(sha256: string, m: MimeType, sizeBytes: nat): Option<Artifact> {
    if sizeBytes == 0 || sizeBytes > MAX_AUDIO_BYTES || ObjectKey(sha256, m).None? then None
    else Some(Artifact(ObjectKey(sha256, m).value, m, Extension(m), sizeBytes, sha256))
  }

  /** The blob store's own check: its pattern, and the shard being the digest's first two characters. */
  predicate KeyAccepted(key: string) {
    && |key| > 68
    && AllHex(key[..2]) && key[2] == '/' && AllHex(key[3..67]) && key[67] == '.'
    && (exists k :: 0 <= k < |ALL_TYPES| && key[68..] == Extension(ALL_TYPES[k]))
    && key[..2] == key[3..67][..2]
  }

  lemma AnyTypeIsListed(m: MimeType)
    ensures exists k :: 0 <= k < |ALL_TYPES| && ALL_TYPES[k] == m
  {
    var k := match m case WebM => 0 case Ogg => 1 case Mp4 => 2 case Mpeg => 3 case Wav => 4;
    assert ALL_TYPES[k] == m;
  }

  /** The store accepts exactly the keys the domain mints: every minted key passes, and every key that
      passes is the minted key of its own digest and one type. */
  lemma AcceptedKeysAreMinted(key: string)
    ensures KeyAccepted(key) <==>
              exists sha256, k :: 0 <= k < |ALL_TYPES| && ObjectKey(sha256, ALL_TYPES[k]) == Some(key)
  {
    if KeyAccepted(key) {
      var k :| 0 <= k < |ALL_TYPES| && key[68..] == Extension(ALL_TYPES[k]);
      var sha256 := key[3..67];
      assert key == key[..2] + [key[2]] + key[3..67] + [key[67]] + key[68..];
      assert ObjectKey(sha256, ALL_TYPES[k]) == Some(key);
    }
    if sha256, k :| 0 <= k < |ALL_TYPES| && ObjectKey(sha256, ALL_TYPES[k]) == Some(key) {
      MintedKeyPasses(sha256, k);
    }
  }

  lemma MintedKeyPasses(sha256: string, k: nat)
    requires IsSha256Hex(sha256) && k < |ALL_TYPES|
    ensures KeyAccepted(ObjectKey(sha256, ALL_TYPES[k]).value)
  {
    var key := ObjectKey(sha256, ALL_TYPES[k]).value;
    assert key[..2] == sha256[..2] && key[3..67] == sha256 && key[68..] == Extension(ALL_TYPES[k]);
  }

  /** A key names one digest and one type: nothing is stored under a name another recording owns. */
  lemma KeysAreInjective(sha: string, m: MimeType, sha': string, m': MimeType)
    requires IsSha256Hex(sha) && ObjectKey(sha, m) == ObjectKey(sha', m')
    ensures sha == sha' && m == m'
  {
    var key := ObjectKey(sha, m).value;
    assert key[3..67] == sha && key[68..] == Extension(m);
    assert key[3..67] == sha' && key[68..] == Extension(m');
  }
}
