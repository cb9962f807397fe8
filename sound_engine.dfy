/**
 * The sound registry: RIFF/WAVE files read into PCM sample data (the WAVE
 * form of the Microsoft/IBM Multimedia Programming Interface and Data
 * Specifications 1.0, format tag 1), their channel count and sample width
 * mapped to an OpenAL buffer format, and sounds registered, started,
 * stopped and queried by name.
 */
module Sound {
  import opened Wrappers
  import opened Bytes

  /** Why a WAVE file is refused; each stands for an exception raised inside `SoundEngine.LoadWave` (its own throws, or a read past the end of the stream). */
  datatype WaveError =
    | NotWave                        // "RIFF" or "WAVE" missing
    | Truncated                      // a fixed-size field runs past the end
    | UnsupportedFormat(tag: int)    // a format chunk whose tag is not 1 (PCM)
    | NegativeSize                   // a chunk size below zero, which ReadBytes refuses
    | NoData                         // the chunks end without a data chunk

  /** What LoadWave hands back: channels, bits per sample, sample rate and the sample bytes. */
  datatype Wave = Wave(channels: int, bits: int, rate: int, data: seq<Byte>)

  /** The format fields read so far (all 0 before any format chunk). */
  datatype Fields = Fields(channels: int, bits: int, rate: int)

  /** Where ReadBytes(count) leaves the cursor: `count` bytes on, or at the end of the input. */
  function After(s: seq<Byte>, pos: nat, count: nat): (r: nat)
    requires pos <= |s|
    ensures pos <= r <= |s|
  {
    if pos + count <= |s| then pos + count else |s|
  }

  /**
   * The chunk loop from `pos`: each chunk is a four-character id and a
   * signed 32-bit size. A format chunk yields its fields (and skips any
   * bytes past the first 16); a data chunk ends the walk with its bytes;
   * any other chunk is skipped by exactly its size.
   */
  function Walk(s: seq<Byte>, pos: nat, f: Fields): Result<Wave, WaveError>
    requires pos <= |s|
    decreases |s| - pos
  {
    if pos == |s| then Err(NoData)
    else if pos + 8 > |s| then Err(Truncated)
    else
      var id := Chars4(s, pos);
      var size := I32(s, pos + 4);
      var body := pos + 8;
      if id == "fmt " then
        if body + 16 > |s| then Err(Truncated)
        else
          var tag := I16(s, body);
          var g := Fields(I16(s, body + 2), I16(s, body + 14), I32(s, body + 4));
          if tag != 1 then Err(UnsupportedFormat(tag))
          else Walk(s, if size > 16 then After(s, body + 16, size - 16) else body + 16, g)
      else if size < 0 then Err(NegativeSize)
      else if id == "data" then Ok(Wave(f.channels, f.bits, f.rate, s[body..After(s, body, size)]))
      else Walk(s, After(s, body, size), f)
  }

  /** A whole file: the "RIFF" id, a size that is not checked, the "WAVE" id, then the chunks. */
  function WaveOf(s: seq<Byte>): Result<Wave, WaveError> {
    if Chars4(s, 0) != "RIFF" then Err(NotWave)
    else if |s| < 8 then Err(Truncated)
    else if Chars4(s, 8) != "WAVE" then Err(NotWave)
    else Walk(s, 12, Fields(0, 0, 0))
  }

  /** The OpenAL buffer formats the loader chooses from. */
  datatype SampleFormat = Mono8 | Mono16 | Stereo8 | Stereo16

  /** One channel is mono and two are stereo; 8 bits is 8-bit and any other width 16-bit; other channel counts are refused. */
  function FormatOf(channels: int, bits: int): Option<SampleFormat> {
    if channels == 1 then Some(if bits == 8 then Mono8 else Mono16)
    else if channels == 2 then Some(if bits == 8 then Stereo8 else Stereo16)
    else None
  }

  lemma FormatTable(channels: int, bits: int)
    ensures FormatOf(channels, bits).Some? <==> channels == 1 || channels == 2
    ensures FormatOf(channels, bits) in {Some(Mono8), Some(Mono16)} <==> channels == 1
    ensures FormatOf(channels, bits) in {Some(Mono8), Some(Stereo8)} <==> (channels == 1 || channels == 2) && bits == 8
  {
  }

  /** A file holding no format chunk before its data has 0 channels, so it is refused. */
  lemma DataBeforeFormatRefused(s: seq<Byte>)
    requires 20 <= |s| && Chars4(s, 12) == "data" && I32(s, 16) >= 0
    ensures WaveOf(s).Ok? ==> FormatOf(WaveOf(s).value.channels, WaveOf(s).value.bits).None?
  {
  }

  /** The largest value the signed 16-bit and 32-bit fields can hold. */
  predicate Short(n: int) { 0 <= n < 0x8000 }
  predicate Long(n: int) { 0 <= n < Two31 }

  /** The file header: "RIFF", the (unchecked) size, "WAVE". */
  function RiffHeader(riffSize: nat): (r: seq<Byte>)
    requires riffSize < Two32
    ensures |r| == 12
  {
    TagBytes("RIFF") + LE32(riffSize) + TagBytes("WAVE")
  }

  /** A format chunk: tag, channels, rate, byte rate, block align and bits, then `extra` bytes. */
  function FormatChunk(tag: int, g: Fields, byteRate: nat, align: nat, extra: seq<Byte>): (r: seq<Byte>)
    requires Short(tag) && Short(g.channels) && Short(g.bits) && Long(g.rate) && Long(16 + |extra|)
    requires byteRate < Two32 && align < Two16
    ensures |r| == 24 + |extra|
  {
    TagBytes("fmt ") + LE32(16 + |extra|) +
    LE16(tag) + LE16(g.channels) + LE32(g.rate) + LE32(byteRate) + LE16(align) + LE16(g.bits) + extra
  }

  /** A data chunk holding `data`. */
  function DataChunk(data: seq<Byte>): (r: seq<Byte>)
    requires Long(|data|)
    ensures |r| == 8 + |data|
  {
    TagBytes("data") + LE32(|data|) + data
  }

  /**
   * A WAVE file with one format chunk (tag `tag`, `extra` bytes past the
   * first 16) and one data chunk, followed by arbitrary further bytes.
   */
  function EncodeWave(tag: int, w: Wave, extra: seq<Byte>, riffSize: nat, byteRate: nat, align: nat,
                      rest: seq<Byte>): seq<Byte>
    requires Short(tag) && Short(w.channels) && Short(w.bits) && Long(w.rate) && Long(16 + |extra|)
    requires Long(|w.data|) && riffSize < Two32 && byteRate < Two32 && align < Two16
  {
    RiffHeader(riffSize) + FormatChunk(tag, Fields(w.channels, w.bits, w.rate), byteRate, align, extra) +
    DataChunk(w.data) + rest
  }

  /** `x` sits at `at` in `s`. */
  predicate At(s: seq<Byte>, at: nat, x: seq<Byte>) {
    at + |x| <= |s| && s[at..at + |x|] == x
  }

  /** What sits inside a part sits in the whole, shifted by the part's offset. */
  lemma AtWithin(s: seq<Byte>, p: nat, x: seq<Byte>, q: nat, y: seq<Byte>)
    requires At(s, p, x) && At(x, q, y)
    ensures At(s, p + q, y)
  {
    forall i | 0 <= i < |y|
      ensures s[p + q + i] == y[i]
    {
      assert s[p + q + i] == s[p..p + |x|][q + i] == x[q + i] == x[q..q + |y|][i];
    }
    assert s[p + q..p + q + |y|] == y;
  }

  lemma TagAt(s: seq<Byte>, at: nat, t: string)
    requires |t| == 4 && forall i :: 0 <= i < 4 ==> t[i] as int < 256
    requires At(s, at, TagBytes(t))
    ensures Chars4(s, at) == t
  {
    assert s == s[..at] + TagBytes(t) + s[at + 4..];
    Chars4OfTag(s[..at], t, s[at + 4..]);
  }

  lemma ShortAt(s: seq<Byte>, at: nat, n: nat)
    requires n < 0x8000 && At(s, at, LE16(n))
    ensures I16(s, at) == n
  {
    assert s == s[..at] + LE16(n) + s[at + 2..];
    I16OfLE16(s[..at], n, s[at + 2..]);
  }

  lemma LongAt(s: seq<Byte>, at: nat, n: nat)
    requires n < Two31 && At(s, at, LE32(n))
    ensures I32(s, at) == n
  {
    assert s == s[..at] + LE32(n) + s[at + 4..];
    I32OfLE32(s[..at], n, s[at + 4..]);
  }

  /** Where each field of a format chunk sits. */
  lemma FormatLayout(tag: int, g: Fields, byteRate: nat, align: nat, extra: seq<Byte>)
    requires Short(tag) && Short(g.channels) && Short(g.bits) && Long(g.rate) && Long(16 + |extra|)
    requires byteRate < Two32 && align < Two16
    ensures var c := FormatChunk(tag, g, byteRate, align, extra);
      At(c, 0, TagBytes("fmt ")) && At(c, 4, LE32(16 + |extra|)) && At(c, 8, LE16(tag)) &&
      At(c, 10, LE16(g.channels)) && At(c, 12, LE32(g.rate)) && At(c, 22, LE16(g.bits))
  {
  }

  /** A format chunk at `p` yields its fields when its tag is 1 and is refused otherwise. */
  lemma FormatChunkAt(s: seq<Byte>, p: nat, f: Fields, tag: int, g: Fields, byteRate: nat, align: nat, extra: seq<Byte>)
    requires Short(tag) && Short(g.channels) && Short(g.bits) && Long(g.rate) && Long(16 + |extra|)
    requires byteRate < Two32 && align < Two16
    requires At(s, p, FormatChunk(tag, g, byteRate, align, extra))
    ensures Walk(s, p, f) == if tag == 1 then Walk(s, p + 24 + |extra|, g) else Err(UnsupportedFormat(tag))
  {
    var c := FormatChunk(tag, g, byteRate, align, extra);
    var body := p + 8;
    FormatLayout(tag, g, byteRate, align, extra);
    AtWithin(s, p, c, 0, TagBytes("fmt "));
    AtWithin(s, p, c, 4, LE32(16 + |extra|));
    AtWithin(s, p, c, 8, LE16(tag));
    AtWithin(s, p, c, 10, LE16(g.channels));
    AtWithin(s, p, c, 12, LE32(g.rate));
    AtWithin(s, p, c, 22, LE16(g.bits));
    TagAt(s, p, "fmt ");
    LongAt(s, p + 4, 16 + |extra|);
    ShortAt(s, body, tag);
    ShortAt(s, body + 2, g.channels);
    LongAt(s, body + 4, g.rate);
    ShortAt(s, body + 14, g.bits);
    assert Fields(I16(s, body + 2), I16(s, body + 14), I32(s, body + 4)) == g;
  }

  /** A complete data chunk at `p` ends the walk with its bytes and the fields read so far. */
  lemma DataChunkAt(s: seq<Byte>, p: nat, f: Fields, data: seq<Byte>)
    requires Long(|data|) && At(s, p, DataChunk(data))
    ensures Walk(s, p, f) == Ok(Wave(f.channels, f.bits, f.rate, data))
  {
    var c := DataChunk(data);
    assert At(c, 0, TagBytes("data")) && At(c, 4, LE32(|data|)) && At(c, 8, data);
    AtWithin(s, p, c, 0, TagBytes("data"));
    AtWithin(s, p, c, 4, LE32(|data|));
    AtWithin(s, p, c, 8, data);
    TagAt(s, p, "data");
    LongAt(s, p + 4, |data|);
  }

  /**
   * Reading an encoded file gives back the wave when the tag is 1 (PCM)
   * and refuses it otherwise. The extra format bytes are skipped, and
   * whatever follows the data chunk is never looked at.
   */
  lemma WaveRoundTrip(tag: int, w: Wave, extra: seq<Byte>, riffSize: nat, byteRate: nat, align: nat, rest: seq<Byte>)
    requires Short(tag) && Short(w.channels) && Short(w.bits) && Long(w.rate) && Long(16 + |extra|)
    requires Long(|w.data|) && riffSize < Two32 && byteRate < Two32 && align < Two16
    ensures WaveOf(EncodeWave(tag, w, extra, riffSize, byteRate, align, rest)) ==
      if tag == 1 then Ok(w) else Err(UnsupportedFormat(tag))
  {
    var g := Fields(w.channels, w.bits, w.rate);
    var h := RiffHeader(riffSize);
    var c := FormatChunk(tag, g, byteRate, align, extra);
    var d := DataChunk(w.data);
    var s := EncodeWave(tag, w, extra, riffSize, byteRate, align, rest);
    assert s == h + c + d + rest;
    assert At(s, 0, h) && At(s, 12, c) && At(s, 36 + |extra|, d);
    assert At(h, 0, TagBytes("RIFF")) && At(h, 8, TagBytes("WAVE"));
    AtWithin(s, 0, h, 0, TagBytes("RIFF"));
    AtWithin(s, 0, h, 8, TagBytes("WAVE"));
    TagAt(s, 0, "RIFF");
    TagAt(s, 8, "WAVE");
    FormatChunkAt(s, 12, Fields(0, 0, 0), tag, g, byteRate, align, extra);
    DataChunkAt(s, 36 + |extra|, g, w.data);
  }

  /** A chunk that is neither "fmt " nor "data" and fits in the input is skipped by exactly its size. */
  lemma SkipsUnknownChunk(s: seq<Byte>, pos: nat, f: Fields)
    requires pos + 8 <= |s| && Chars4(s, pos) != "fmt " && Chars4(s, pos) != "data"
    requires 0 <= I32(s, pos + 4) && pos + 8 + I32(s, pos + 4) <= |s|
    ensures Walk(s, pos, f) == Walk(s, pos + 8 + I32(s, pos + 4), f)
  {
  }

  /** The WAVE reader: a cursor over the bytes, advanced chunk by chunk until a data chunk is read. */
  method LoadWave(s: seq<Byte>) returns (r: Result<Wave, WaveError>)
    ensures r == WaveOf(s)
  {
    var riff := Chars4(s, 0);
    if riff != "RIFF" {
      return Err(NotWave);
    }
    if |s| < 8 {
      return Err(Truncated);
    }
    var wave := Chars4(s, 8);
    if wave != "WAVE" {
      return Err(NotWave);
    }
    var pos := 12;
    var channels, bits, rate := 0, 0, 0;
    var data: Option<seq<Byte>> := None;
    while pos < |s|
      invariant pos <= |s| && data.None?
      invariant Walk(s, pos, Fields(channels, bits, rate)) == WaveOf(s)
      decreases |s| - pos
    {
      if pos + 8 > |s| {
        return Err(Truncated);
      }
      var chunk := Chars4(s, pos);
      var chunkSize := I32(s, pos + 4);
      pos := pos + 8;
      if chunk == "fmt " {
        if pos + 16 > |s| {
          return Err(Truncated);
        }
        var format := I16(s, pos);
        channels := I16(s, pos + 2);
        rate := I32(s, pos + 4);
        bits := I16(s, pos + 14);
        pos := pos + 16;
        if format != 1 {
          return Err(UnsupportedFormat(format));
        }
        if chunkSize > 16 {
          pos := After(s, pos, chunkSize - 16);
        }
      } else if chunk == "data" {
        if chunkSize < 0 {
          return Err(NegativeSize);
        }
        data := Some(s[pos..After(s, pos, chunkSize)]);
        pos := After(s, pos, chunkSize);
      } else {
        if chunkSize < 0 {
          return Err(NegativeSize);
        }
        pos := After(s, pos, chunkSize);
      }
      if data.Some? {
        break;
      }
    }
    if data.None? {
      return Err(NoData);
    }
    return Ok(Wave(channels, bits, rate, data.value));
  }

  /** Why loading a sound fails: the file is refused, or its layout has no OpenAL format. */
  datatype LoadError = BadWave(reason: WaveError) | UnsupportedLayout(channels: int, bits: int)

  /** What a buffer was filled with. */
  datatype Pcm = Pcm(format: SampleFormat, data: seq<Byte>, rate: int)

  /**
   * The registry: buffer and source ids by name, and the audio library's
   * state that the registry drives (buffer contents, the buffer attached to
   * each source, and each source's loop flag, gain and playing state).
   */
  class SoundEngine {
    var buffers: map<string, int>
    var sources: map<string, int>
    var contents: map<int, Pcm>
    var attached: map<int, int>
    var looping: map<int, bool>
    var gain: map<int, real>
    var playing: set<int>

    constructor ()
      ensures buffers == map[] && sources == map[] && playing == {}
    {
      buffers := map[];
      sources := map[];
      contents := map[];
      attached := map[];
      looping := map[];
      gain := map[];
      playing := {};
    }

    /**
     * Loads the file into `buffer`, attaches it to `source` and binds `name`
     * to both, replacing any earlier binding. The two handles are what
     * `AL.GenBuffer` and `AL.GenSource` return; the contract holds for any
     * handles, fresh or not.
     * A refused file changes nothing.
     */
    method Load(name: string, file: seq<Byte>, buffer: int, source: int) returns (failure: Option<LoadError>)
      modifies this
      ensures var w := WaveOf(file);
        if w.Err? then failure == Some(BadWave(w.error)) && unchanged(this)
        else if FormatOf(w.value.channels, w.value.bits).None? then
          failure == Some(UnsupportedLayout(w.value.channels, w.value.bits)) && unchanged(this)
        else
          failure.None? &&
          buffers == old(buffers)[name := buffer] && sources == old(sources)[name := source] &&
          contents == old(contents)[buffer := Pcm(FormatOf(w.value.channels, w.value.bits).value, w.value.data, w.value.rate)] &&
          attached == old(attached)[source := buffer] &&
          looping == old(looping) && gain == old(gain) && playing == old(playing)
    {
      var w := LoadWave(file);
      if w.Err? {
        return Some(BadWave(w.error));
      }
      var format := FormatOf(w.value.channels, w.value.bits);
      if format.None? {
        return Some(UnsupportedLayout(w.value.channels, w.value.bits));
      }
      contents := contents[buffer := Pcm(format.value, w.value.data, w.value.rate)];
      attached := attached[source := buffer];
      buffers := buffers[name := buffer];
      sources := sources[name := source];
      return None;
    }

    /** Starts the named sound with the given loop flag and gain; an unknown name does nothing. */
    method Play(name: string, loop: bool := false, volume: real := 1.0)
      modifies this
      ensures name !in sources ==> unchanged(this)
      ensures name in sources ==>
        var src := sources[name];
        looping == old(looping)[src := loop] && gain == old(gain)[src := volume] && playing == old(playing) + {src} &&
        buffers == old(buffers) && sources == old(sources) && contents == old(contents) && attached == old(attached)
      ensures name in sources ==> IsPlaying(name)
    {
      if name !in sources {
        return;
      }
      var src := sources[name];
      looping := looping[src := loop];
      gain := gain[src := volume];
      playing := playing + {src};
    }

    /** Stops the named sound; an unknown name does nothing. */
    method Stop(name: string)
      modifies this
      ensures name !in sources ==> unchanged(this)
      ensures name in sources ==>
        playing == old(playing) - {sources[name]} &&
        buffers == old(buffers) && sources == old(sources) && contents == old(contents) &&
        attached == old(attached) && looping == old(looping) && gain == old(gain)
      ensures !IsPlaying(name)
    {
      if name !in sources {
        return;
      }
      playing := playing - {sources[name]};
    }

    /** The named sound's source is playing; false for an unknown name. */
    predicate IsPlaying(name: string)
      reads this
    {
      name in sources && sources[name] in playing
    }
  }
}
