/**
 * The pure parts of the background-music route
 * (src/app/api/music/generate/route.ts): the 44-byte RIFF/WAVE header for
 * 48 kHz 16-bit stereo PCM, the WAV file it heads, and the music prompt and
 * tempo built from the battle state.
 */
module MusicRoute {
  import opened Common
  import opened Text

  // ---------------------------------------------------------------------------
  // Little-endian fields

  const U32Limit: nat := 0x1_0000_0000

  /** The four bytes `writeUInt32LE` stores for `v`. */
  function LE32(v: nat): (b: seq<Byte>)
    requires v < U32Limit
    ensures |b| == 4
  {
    [v % 256, (v / 0x100) % 256, (v / 0x1_0000) % 256, v / 0x100_0000]
  }

  /** The two bytes `writeUInt16LE` stores for `v`. */
  function LE16(v: nat): (b: seq<Byte>)
    requires v < 0x1_0000
    ensures |b| == 2
  {
    [v % 256, v / 256]
  }

  /** `readUInt32LE` at `off`. */
  function ReadLE32(b: seq<Byte>, off: nat): nat
    requires off + 4 <= |b|
  {
    b[off] as int + 0x100 * b[off + 1] as int + 0x1_0000 * b[off + 2] as int + 0x100_0000 * b[off + 3] as int
  }

  /** `readUInt16LE` at `off`. */
  function ReadLE16(b: seq<Byte>, off: nat): nat
    requires off + 2 <= |b|
  {
    b[off] as int + 256 * b[off + 1] as int
  }

  lemma LE32RoundTrip(v: nat)
    requires v < U32Limit
    ensures ReadLE32(LE32(v), 0) == v
  {
    var a, b := v / 0x100, v / 0x1_0000;
    assert v == v % 256 + 0x100 * a;
    assert a / 0x100 == b && a == a % 256 + 0x100 * b;
    assert b / 0x100 == v / 0x100_0000 && b == b % 256 + 0x100 * (v / 0x100_0000);
  }

  lemma LE16RoundTrip(v: nat)
    requires v < 0x1_0000
    ensures ReadLE16(LE16(v), 0) == v
  {
  }

  /** The ASCII codes of a four-letter chunk tag. */
  function Tag(s: string): (b: seq<Byte>)
    requires |s| == 4 && forall i :: 0 <= i < 4 ==> s[i] as int < 128
    ensures |b| == 4 && forall i :: 0 <= i < 4 ==> b[i] == s[i] as int
  {
    [s[0] as int, s[1] as int, s[2] as int, s[3] as int]
  }

  // ---------------------------------------------------------------------------
  // The header

  const SampleRate: nat := 48000
  const NumChannels: nat := 2
  const BitsPerSample: nat := 16
  const ByteRate: nat := SampleRate * NumChannels * BitsPerSample / 8
  const BlockAlign: nat := NumChannels * BitsPerSample / 8
  const HeaderSize: nat := 44

  /** The fields a WAV reader takes from a canonical PCM header. */
  datatype WavFormat = WavFormat(
    chunkSize: nat, fmtSize: nat, audioFormat: nat, channels: nat,
    sampleRate: nat, byteRate: nat, blockAlign: nat, bitsPerSample: nat, dataSize: nat)

  /** Reads the fields of a 44-byte header whose four tags are in place. */
  function ParseHeader(h: seq<Byte>): Option<WavFormat>
  {
    if |h| != HeaderSize || h[0..4] != Tag("RIFF") || h[8..12] != Tag("WAVE")
       || h[12..16] != Tag("fmt ") || h[36..40] != Tag("data") then None
    else Some(WavFormat(ReadLE32(h, 4), ReadLE32(h, 16), ReadLE16(h, 20), ReadLE16(h, 22), ReadLE32(h, 24),
                        ReadLE32(h, 28), ReadLE16(h, 32), ReadLE16(h, 34), ReadLE32(h, 40)))
  }

  /** A `writeUInt32LE` call throws a RangeError when the chunk size does not fit in 32 bits. */
  datatype WavError = ChunkSizeOutOfRange

  /** Copies `bytes` into `header` at `off`, as `write`/`writeUInt*LE` do. */
  method Put(header: array<Byte>, off: nat, bytes: seq<Byte>)
    requires off + |bytes| <= header.Length
    modifies header
    ensures header[..off + |bytes|] == old(header[..off]) + bytes
    ensures header[off + |bytes|..] == old(header[off + |bytes|..])
  {
    var i := 0;
    while i < |bytes|
      invariant 0 <= i <= |bytes|
      invariant header[..off + i] == old(header[..off]) + bytes[..i]
      invariant header[off + i..] == old(header[off + i..])
    {
      header[off + i] := bytes[i];
      assert bytes[..i + 1] == bytes[..i] + [bytes[i]];
      assert header[..off + i + 1] == header[..off + i] + [bytes[i]];
      i := i + 1;
    }
    assert bytes[..i] == bytes;
  }

  /**
   * `createWavHeader(pcmDataLength)`: a zero-filled 44-byte buffer with the
   * RIFF, fmt and data chunk fields written in place.
   */
  method CreateWavHeader(pcmDataLength: nat) returns (r: Result<seq<Byte>, WavError>)
    ensures r.Err? <==> 36 + pcmDataLength >= U32Limit
    ensures r.Ok? ==> |r.value| == HeaderSize
    ensures r.Ok? ==>
      ParseHeader(r.value)
      == Some(WavFormat(36 + pcmDataLength, 16, 1, NumChannels, SampleRate, ByteRate, BlockAlign, BitsPerSample, pcmDataLength))
  {
    var chunkSize := 36 + pcmDataLength;
    if chunkSize >= U32Limit {
      return Err(ChunkSizeOutOfRange);
    }
    var header := new Byte[HeaderSize](_ => 0);
    WriteRiff(header, chunkSize);
    WriteFmt(header);
    WriteData(header, pcmDataLength);
    assert header[..] == header[..36] + header[36..];
    HeaderLayout(chunkSize, pcmDataLength);
    return Ok(header[..]);
  }

  /** Writes the RIFF descriptor at the start of the header. */
  method WriteRiff(header: array<Byte>, chunkSize: nat)
    requires header.Length == HeaderSize && chunkSize < U32Limit
    modifies header
    ensures header[..12] == RiffChunk(chunkSize)
  {
    assert header[..0] == [];
    Put(header, 0, Tag("RIFF"));
    Put(header, 4, LE32(chunkSize));
    Put(header, 8, Tag("WAVE"));
  }

  /** Writes the `fmt ` sub-chunk after the RIFF descriptor. */
  method WriteFmt(header: array<Byte>)
    requires header.Length == HeaderSize
    modifies header
    ensures header[..36] == old(header[..12]) + FmtChunk()
  {
    ghost var riff := header[..12];
    Put(header, 12, Tag("fmt "));
    Put(header, 16, LE32(16));
    assert header[..20] == riff + Tag("fmt ") + LE32(16);
    Put(header, 20, LE16(1));
    Put(header, 22, LE16(NumChannels));
    assert header[..24] == riff + Tag("fmt ") + LE32(16) + LE16(1) + LE16(NumChannels);
    Put(header, 24, LE32(SampleRate));
    Put(header, 28, LE32(ByteRate));
    assert header[..32] == riff + Tag("fmt ") + LE32(16) + LE16(1) + LE16(NumChannels) + LE32(SampleRate) + LE32(ByteRate);
    Put(header, 32, LE16(BlockAlign));
    Put(header, 34, LE16(BitsPerSample));
  }

  /** Writes the `data` sub-chunk header at the end. */
  method WriteData(header: array<Byte>, dataSize: nat)
    requires header.Length == HeaderSize && dataSize < U32Limit
    modifies header
    ensures header[..] == old(header[..36]) + DataChunk(dataSize)
  {
    Put(header, 36, Tag("data"));
    Put(header, 40, LE32(dataSize));
    assert header[..] == header[..HeaderSize];
  }

  /** The RIFF chunk descriptor: tag, chunk size and format tag. */
  function RiffChunk(chunkSize: nat): (b: seq<Byte>)
    requires chunkSize < U32Limit
    ensures |b| == 12
  {
    Tag("RIFF") + LE32(chunkSize) + Tag("WAVE")
  }

  /** The `fmt ` sub-chunk of 16-bit stereo PCM at 48 kHz. */
  function FmtChunk(): (b: seq<Byte>)
    ensures |b| == 24
  {
    Tag("fmt ") + LE32(16) + LE16(1) + LE16(NumChannels) + LE32(SampleRate) + LE32(ByteRate)
    + LE16(BlockAlign) + LE16(BitsPerSample)
  }

  /** The `data` sub-chunk header. */
  function DataChunk(dataSize: nat): (b: seq<Byte>)
    requires dataSize < U32Limit
    ensures |b| == 8
  {
    Tag("data") + LE32(dataSize)
  }

  /** The header as the three chunk headers laid end to end. */
  function HeaderBytes(chunkSize: nat, dataSize: nat): (b: seq<Byte>)
    requires chunkSize < U32Limit && dataSize < U32Limit
    ensures |b| == HeaderSize
  {
    RiffChunk(chunkSize) + FmtChunk() + DataChunk(dataSize)
  }

  /** The fields of the `fmt ` sub-chunk read back as written. */
  lemma FmtChunkFields()
    ensures FmtChunk()[0..4] == Tag("fmt ")
    ensures ReadLE32(FmtChunk(), 4) == 16 && ReadLE16(FmtChunk(), 8) == 1
    ensures ReadLE16(FmtChunk(), 10) == NumChannels && ReadLE32(FmtChunk(), 12) == SampleRate
    ensures ReadLE32(FmtChunk(), 16) == ByteRate && ReadLE16(FmtChunk(), 20) == BlockAlign
    ensures ReadLE16(FmtChunk(), 22) == BitsPerSample
  {
    FmtChunkBytes();
  }

  /** The `fmt ` sub-chunk, byte by byte. */
  lemma FmtChunkBytes()
    ensures FmtChunk() == [102, 109, 116, 32, 16, 0, 0, 0, 1, 0, 2, 0, 128, 187, 0, 0, 0, 238, 2, 0, 4, 0, 16, 0]
  {
    assert Tag("fmt ") == [102, 109, 116, 32];
    assert LE32(16) == [16, 0, 0, 0] && LE16(1) == [1, 0] && LE16(NumChannels) == [2, 0];
    assert LE32(SampleRate) == [128, 187, 0, 0] && LE32(ByteRate) == [0, 238, 2, 0];
    assert LE16(BlockAlign) == [4, 0] && LE16(BitsPerSample) == [16, 0];
  }

  /** A field read inside an embedded chunk reads the chunk's own bytes. */
  lemma ReadInside(h: seq<Byte>, at: nat, c: seq<Byte>, off: nat)
    requires at + |c| <= |h| && h[at..at + |c|] == c
    ensures off + 4 <= |c| ==> ReadLE32(h, at + off) == ReadLE32(c, off)
    ensures off + 2 <= |c| ==> ReadLE16(h, at + off) == ReadLE16(c, off)
  {
    if off + 2 <= |c| {
      assert h[at + off] == c[off] && h[at + off + 1] == c[off + 1];
    }
    if off + 4 <= |c| {
      assert h[at + off + 2] == c[off + 2] && h[at + off + 3] == c[off + 3];
    }
  }

  /** Reading back the laid-out fields gives the values written. */
  lemma HeaderLayout(chunkSize: nat, dataSize: nat)
    requires chunkSize < U32Limit && dataSize < U32Limit
    ensures ParseHeader(HeaderBytes(chunkSize, dataSize))
      == Some(WavFormat(chunkSize, 16, 1, NumChannels, SampleRate, ByteRate, BlockAlign, BitsPerSample, dataSize))
  {
    HeaderTags(chunkSize, dataSize);
    HeaderSizes(chunkSize, dataSize);
    HeaderFmtFields(chunkSize, dataSize);
  }

  /** The four tags sit at offsets 0, 8, 12 and 36. */
  lemma HeaderTags(chunkSize: nat, dataSize: nat)
    requires chunkSize < U32Limit && dataSize < U32Limit
    ensures var h := HeaderBytes(chunkSize, dataSize);
      h[0..4] == Tag("RIFF") && h[8..12] == Tag("WAVE") && h[12..16] == Tag("fmt ") && h[36..40] == Tag("data")
  {
    var h := HeaderBytes(chunkSize, dataSize);
    var r := RiffChunk(chunkSize);
    var f := FmtChunk();
    var d := DataChunk(dataSize);
    assert h[0..12] == r && h[12..36] == f && h[36..44] == d;
    FmtChunkFields();
    assert h[0..4] == r[0..4] == Tag("RIFF");
    assert h[8..12] == r[8..12] == Tag("WAVE");
    assert h[12..16] == f[0..4];
    assert h[36..40] == d[0..4] == Tag("data");
  }

  /** The two size fields read back as the chunk size and the data size. */
  lemma HeaderSizes(chunkSize: nat, dataSize: nat)
    requires chunkSize < U32Limit && dataSize < U32Limit
    ensures var h := HeaderBytes(chunkSize, dataSize);
      ReadLE32(h, 4) == chunkSize && ReadLE32(h, 40) == dataSize
  {
    var h := HeaderBytes(chunkSize, dataSize);
    var r := RiffChunk(chunkSize);
    var d := DataChunk(dataSize);
    assert h[0..12] == r && h[36..44] == d;
    assert r[4..8] == LE32(chunkSize) && d[4..8] == LE32(dataSize);
    LE32RoundTrip(chunkSize);
    LE32RoundTrip(dataSize);
    ReadInside(h, 0, r, 4);
    ReadInside(h, 36, d, 4);
    assert ReadLE32(r, 4) == ReadLE32(r[4..8], 0);
    assert ReadLE32(d, 4) == ReadLE32(d[4..8], 0);
  }

  /** The `fmt ` fields read back at their offsets in the header. */
  lemma HeaderFmtFields(chunkSize: nat, dataSize: nat)
    requires chunkSize < U32Limit && dataSize < U32Limit
    ensures var h := HeaderBytes(chunkSize, dataSize);
      && ReadLE32(h, 16) == 16 && ReadLE16(h, 20) == 1 && ReadLE16(h, 22) == NumChannels
      && ReadLE32(h, 24) == SampleRate && ReadLE32(h, 28) == ByteRate
      && ReadLE16(h, 32) == BlockAlign && ReadLE16(h, 34) == BitsPerSample
  {
    var h := HeaderBytes(chunkSize, dataSize);
    var f := FmtChunk();
    assert h[12..36] == f;
    FmtChunkFields();
    ReadInside(h, 12, f, 4);
    ReadInside(h, 12, f, 8);
    ReadInside(h, 12, f, 10);
    ReadInside(h, 12, f, 12);
    ReadInside(h, 12, f, 16);
    ReadInside(h, 12, f, 20);
    ReadInside(h, 12, f, 22);
  }

  /** The header fields are those of 48 kHz, 16-bit, two-channel PCM. */
  lemma FormatConstants()
    ensures ByteRate == 192000 && BlockAlign == 4
    ensures ByteRate == SampleRate * BlockAlign
  {
  }

  /** The file the route returns: the header followed by the PCM bytes. */
  method AssembleWav(pcm: seq<Byte>) returns (r: Result<seq<Byte>, WavError>)
    ensures r.Err? <==> 36 + |pcm| >= U32Limit
    ensures r.Ok? ==> |r.value| == HeaderSize + |pcm| && r.value[HeaderSize..] == pcm
    ensures r.Ok? ==> ParseHeader(r.value[..HeaderSize]).Some?
                      && ParseHeader(r.value[..HeaderSize]).value.dataSize == |pcm|
                      && ParseHeader(r.value[..HeaderSize]).value.chunkSize == |r.value| - 8
  {
    var header := CreateWavHeader(|pcm|);
    if header.Err? {
      return Err(header.error);
    }
    assert (header.value + pcm)[..HeaderSize] == header.value;
    return Ok(header.value + pcm);
  }

  // ---------------------------------------------------------------------------
  // The prompt

  /**
   * The mood words of an element that is a key of the literal map; `light`
   * has none.
   */
  function ElementMood(element: string): Option<string>
  {
    if element == "fire" then Some("fiery intense orchestral")
    else if element == "ice" then Some("cold mysterious ethereal")
    else if element == "thunder" then Some("electric energetic percussion")
    else if element == "earth" then Some("powerful deep drums")
    else if element == "void" then Some("dark ambient cosmic")
    else None
  }

  /** The mood words of a phase that is a key of the literal map. */
  function PhaseMood(phase: string): Option<string>
  {
    if phase == "ready" then Some("calm anticipation")
    else if phase == "battle" then Some("intense epic battle")
    else if phase == "result" then Some("triumphant victory fanfare")
    else None
  }

  /** JavaScript's `o ?? fallback` on a map lookup. */
  function OrElse(o: Option<string>, fallback: string): string
  {
    if o.Some? then o.value else fallback
  }

  datatype MusicPrompt = MusicPrompt(prompt: string, bpm: int)

  const PromptTail := ", kaiju monster battle music, cinematic orchestral"

  /** `buildMusicPrompt`. */
  function BuildMusicPrompt(battleIntensity: real, element1: string, element2: string, phase: string): (p: MusicPrompt)
  {
    var e1 := OrElse(ElementMood(element1), "epic");
    var e2 := OrElse(ElementMood(element2), "battle");
    var phaseDesc := OrElse(PhaseMood(phase), "epic battle");
    MusicPrompt(phaseDesc + ", " + e1 + " vs " + e2 + PromptTail,
                Round(80.0 + battleIntensity * 0.8))
  }

  // ---------------------------------------------------------------------------
  // Reading a prompt back

  /** The first index at or after `from` where `sep` occurs in `s`. */
  function IndexOfFrom(s: string, sep: string, from: nat): (r: Option<nat>)
    decreases |s| - from
    ensures r.Some? ==> from <= r.value <= |s| - |sep| && OccursAt(s, sep, r.value)
    ensures r.None? ==> forall i :: from <= i <= |s| - |sep| ==> !OccursAt(s, sep, i)
  {
    if from + |sep| > |s| then None
    else if OccursAt(s, sep, from) then Some(from)
    else IndexOfFrom(s, sep, from + 1)
  }

  /**
   * Splits a prompt at its first ", " into the phase mood and the rest, which
   * `SplitRest` reads.
   */
  function SplitPrompt(p: string): Option<(string, string, string)>
  {
    match IndexOfFrom(p, ", ", 0)
    case None => None
    case Some(i) =>
      match SplitRest(p[i + 2..])
      case None => None
      case Some(moods) => Some((p[..i], moods.0, moods.1))
  }

  /** Splits the rest of a prompt at its first " vs " and strips the fixed tail: the two element moods. */
  function SplitRest(rest: string): Option<(string, string)>
  {
    match IndexOfFrom(rest, " vs ", 0)
    case None => None
    case Some(j) =>
      var last := rest[j + 4..];
      if EndsWith(last, PromptTail) then Some((rest[..j], last[..|last| - |PromptTail|])) else None
  }

  /**
   * A separator is found right after `a` when one of its characters, unlike
   * every character before it in the separator, never occurs in `a`.
   */
  lemma {:induction false} IndexOfAfter(a: string, sep: string, b: string, k: nat, from: nat)
    requires k < |sep| && sep[k] !in a
    requires forall m :: 0 <= m < k ==> sep[m] != sep[k]
    requires from <= |a|
    ensures IndexOfFrom(a + sep + b, sep, from) == Some(|a|)
    decreases |a| - from
  {
    var s := a + sep + b;
    assert s[|a|..|a| + |sep|] == sep;
    if from < |a| {
      var c := s[from..from + |sep|];
      if from + k < |a| {
        assert c[k] == a[from + k];
      } else {
        assert c[k] == sep[from + k - |a|];
      }
      assert !OccursAt(s, sep, from);
      IndexOfAfter(a, sep, b, k, from + 1);
    }
  }

  /** No phase text holds a ','. */
  lemma PhasePlain(phase: string)
    ensures ',' !in OrElse(PhaseMood(phase), "epic battle")
  {
    if phase == "ready" {
      assert ',' !in "calm anticipation";
    } else if phase == "battle" {
      assert ',' !in "intense epic battle";
    } else if phase == "result" {
      assert ',' !in "triumphant victory fanfare";
    } else {
      assert ',' !in "epic battle";
    }
  }

  /** No first-element text holds a 'v'. */
  lemma ElementPlain(element: string)
    ensures 'v' !in OrElse(ElementMood(element), "epic")
  {
    if element == "fire" {
      assert 'v' !in "fiery intense orchestral";
    } else if element == "ice" {
      assert 'v' !in "cold mysterious ethereal";
    } else if element == "thunder" {
      assert 'v' !in "electric energetic percussion";
    } else if element == "earth" {
      assert 'v' !in "powerful deep drums";
    } else if element == "void" {
      assert 'v' !in "dark ambient cosmic";
    } else {
      assert 'v' !in "epic";
    }
  }

  /** The rest of a prompt built from a 'v'-free first element text splits back into both element texts. */
  lemma SplitRestParts(e1: string, e2: string)
    requires 'v' !in e1
    ensures SplitRest(e1 + " vs " + e2 + PromptTail) == Some((e1, e2))
  {
    var last := e2 + PromptTail;
    var rest := e1 + " vs " + last;
    assert e1 + " vs " + e2 + PromptTail == rest;
    assert " vs "[0] != " vs "[1];
    IndexOfAfter(e1, " vs ", last, 1, 0);
    assert rest[|e1| + 4..] == last && rest[..|e1|] == e1;
    EndsWithAppend(e2, PromptTail);
    assert last[..|last| - |PromptTail|] == e2;
  }

  /** A prompt built from a comma-free phase text and a 'v'-free first element text splits back into its parts. */
  lemma SplitPromptParts(phaseDesc: string, e1: string, e2: string)
    requires ',' !in phaseDesc && 'v' !in e1
    ensures SplitPrompt(phaseDesc + ", " + e1 + " vs " + e2 + PromptTail) == Some((phaseDesc, e1, e2))
  {
    var rest := e1 + " vs " + e2 + PromptTail;
    var p := phaseDesc + ", " + rest;
    assert phaseDesc + ", " + e1 + " vs " + e2 + PromptTail == p;
    IndexOfAfter(phaseDesc, ", ", rest, 0, 0);
    assert p[|phaseDesc| + 2..] == rest && p[..|phaseDesc|] == phaseDesc;
    SplitRestParts(e1, e2);
  }

  /**
   * The prompt reads back into three parts, each chosen from its own
   * argument alone: the phase mood or 'epic battle', the first element's mood
   * or 'epic', the second element's mood or 'battle'.
   */
  lemma PromptRoundTrip(battleIntensity: real, element1: string, element2: string, phase: string)
    ensures SplitPrompt(BuildMusicPrompt(battleIntensity, element1, element2, phase).prompt)
         == Some((OrElse(PhaseMood(phase), "epic battle"), OrElse(ElementMood(element1), "epic"),
                  OrElse(ElementMood(element2), "battle")))
  {
    PhasePlain(phase);
    ElementPlain(element1);
    SplitPromptParts(OrElse(PhaseMood(phase), "epic battle"), OrElse(ElementMood(element1), "epic"),
                     OrElse(ElementMood(element2), "battle"));
  }

  /**
   * Each part falls back on its own: an unknown phase gives 'epic battle',
   * an unknown first element 'epic' and an unknown second element 'battle',
   * whatever the other arguments are; `light` is one such element.
   */
  lemma PromptFallbacks(battleIntensity: real, element1: string, element2: string, phase: string)
    ensures var parts := SplitPrompt(BuildMusicPrompt(battleIntensity, element1, element2, phase).prompt);
      parts.Some?
      && (PhaseMood(phase).None? ==> parts.value.0 == "epic battle")
      && (ElementMood(element1).None? ==> parts.value.1 == "epic")
      && (ElementMood(element2).None? ==> parts.value.2 == "battle")
    ensures ElementMood(element1).None? && ElementMood(element2).None? && PhaseMood(phase).None? ==>
      BuildMusicPrompt(battleIntensity, element1, element2, phase).prompt
        == "epic battle" + ", " + "epic" + " vs " + "battle" + ", kaiju monster battle music, cinematic orchestral"
    ensures ElementMood("light").None?
  {
    PromptRoundTrip(battleIntensity, element1, element2, phase);
  }

  /** The prompt opens with the phase mood and ends with the fixed tail. */
  lemma PromptShape(battleIntensity: real, element1: string, element2: string, phase: string)
    ensures var p := BuildMusicPrompt(battleIntensity, element1, element2, phase).prompt;
      StartsWith(p, OrElse(PhaseMood(phase), "epic battle"))
      && EndsWith(p, ", kaiju monster battle music, cinematic orchestral")
  {
    var e1 := OrElse(ElementMood(element1), "epic");
    var e2 := OrElse(ElementMood(element2), "battle");
    var phaseDesc := OrElse(PhaseMood(phase), "epic battle");
    var tail := PromptTail;
    StartsWithAppend(phaseDesc, ", ");
    StartsWithExtend(phaseDesc + ", ", e1, phaseDesc);
    StartsWithExtend(phaseDesc + ", " + e1, " vs ", phaseDesc);
    StartsWithExtend(phaseDesc + ", " + e1 + " vs ", e2, phaseDesc);
    StartsWithExtend(phaseDesc + ", " + e1 + " vs " + e2, tail, phaseDesc);
    EndsWithAppend(phaseDesc + ", " + e1 + " vs " + e2, tail);
  }

  /** The tempo is 80 at intensity 0, 160 at intensity 100, within 80..160 in between, and never falls as intensity rises. */
  lemma BpmRange(a: real, b: real)
    ensures 0.0 <= a <= 100.0 ==> 80 <= BuildMusicPrompt(a, "", "", "").bpm <= 160
    ensures BuildMusicPrompt(0.0, "", "", "").bpm == 80 && BuildMusicPrompt(100.0, "", "", "").bpm == 160
    ensures a <= b ==> BuildMusicPrompt(a, "", "", "").bpm <= BuildMusicPrompt(b, "", "", "").bpm
  {
    if a <= b {
      RoundMonotone(80.0 + a * 0.8, 80.0 + b * 0.8);
    }
  }

  /** The tempo depends on the intensity alone. */
  lemma BpmIgnoresText(battleIntensity: real, e1: string, e2: string, phase: string)
    ensures BuildMusicPrompt(battleIntensity, e1, e2, phase).bpm == BuildMusicPrompt(battleIntensity, "", "", "").bpm
  {
  }
}
