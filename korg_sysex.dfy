/**
 * Korg's MIDI-safe encoding of 8-bit data (src/device/korg/sysex.go): the
 * stream is cut into chunks of 8 bytes; byte 0 of a chunk collects the most
 * significant bits of the up to 7 data bytes that follow it.
 */
module KorgSysEx {
  import opened Configuration

  /** `lo.Chunk(s, size)`: consecutive pieces of `size` elements, the last one possibly shorter. */
  function Chunk<T>(s: seq<T>, size: nat): (chunks: seq<seq<T>>)
    requires size > 0
    ensures forall k :: 0 <= k < |chunks| ==> 0 < |chunks[k]| <= size
    decreases |s|
  {
    if |s| <= size then
      (if s == [] then [] else [s])
    else
      [s[..size]] + Chunk(s[size..], size)
  }

  function Join<T>(chunks: seq<seq<T>>): seq<T>
  {
    if chunks == [] then [] else chunks[0] + Join(chunks[1..])
  }

  /** Chunking loses and reorders nothing, and only the last chunk may be short. */
  lemma {:induction false} ChunkJoin<T>(s: seq<T>, size: nat)
    requires size > 0
    ensures Join(Chunk(s, size)) == s
    ensures forall k :: 0 <= k < |Chunk(s, size)| - 1 ==> |Chunk(s, size)[k]| == size
    decreases |s|
  {
    if |s| > size {
      var rest := Chunk(s[size..], size);
      ChunkJoin(s[size..], size);
      assert Chunk(s, size) == [s[..size]] + rest;
      assert Chunk(s, size)[1..] == rest;
      assert s == s[..size] + s[size..];
    }
  }

  lemma {:induction false} ChunkCount(s: seq<Byte>, size: nat)
    requires size == 7 || size == 8
    ensures |Chunk(s, size)| == (|s| + size - 1) / size
    decreases |s|
  {
    if |s| > size {
      ChunkCount(s[size..], size);
    }
  }

  /**
   * Output byte `i` of a chunk whose collector byte is `msbs` and whose
   * data byte `i + 1` is `lsb`, computed as the source does on bytes.
   */
  function UnpackByte(msbs: Byte, i: nat, lsb: Byte): Byte
    requires i < 7
  {
    ((msbs & (1 << i)) << (7 - i)) + lsb
  }

  /**
   * Bit i of the collector becomes bit 7 of the output byte, added to the
   * data byte modulo 256; for a 7-bit data byte that is a plain merge.
   */
  lemma UnpackByteBits(msbs: Byte, i: nat, lsb: Byte)
    requires i < 7
    ensures UnpackByte(msbs, i, lsb) == (((msbs >> i) & 1) << 7) + lsb
    ensures lsb < 0x80 ==>
      UnpackByte(msbs, i, lsb) >> 7 == (msbs >> i) & 1 && UnpackByte(msbs, i, lsb) & 0x7F == lsb
  {
    // one case per bit position, so that every shift is by a constant
    if i == 0 {
    } else if i == 1 {
    } else if i == 2 {
    } else if i == 3 {
    } else if i == 4 {
    } else if i == 5 {
    } else {
      assert i == 6;
    }
  }

  function UnpackChunk(chunk: seq<Byte>): seq<Byte>
    requires 0 < |chunk| <= 8
  {
    seq(|chunk| - 1, i requires 0 <= i < |chunk| - 1 => UnpackByte(chunk[0], i, chunk[i + 1]))
  }

  ghost predicate ValidChunks(chunks: seq<seq<Byte>>)
  {
    forall k :: 0 <= k < |chunks| ==> 0 < |chunks[k]| <= 8
  }

  function UnpackChunks(chunks: seq<seq<Byte>>): seq<Byte>
    requires ValidChunks(chunks)
  {
    if chunks == [] then [] else UnpackChunk(chunks[0]) + UnpackChunks(chunks[1..])
  }

  /** The 8-bit data a MIDI-safe stream decodes to. */
  function Unpacked(midiData: seq<Byte>): seq<Byte>
  {
    UnpackChunks(Chunk(midiData, 8))
  }

  /** `MidiDataToData`: the nested loops of the source, appending one byte at a time. */
  method MidiDataToData(midiData: seq<Byte>) returns (data: seq<Byte>)
    ensures data == Unpacked(midiData)
  {
    data := [];
    var chunks := Chunk(midiData, 8);
    for c := 0 to |chunks|
      invariant data == UnpackChunks(chunks[..c])
    {
      var chunk := chunks[c];
      ghost var before := data;
      ghost var decoded := UnpackChunk(chunk);
      for i := 0 to |chunk| - 1
        invariant data == before + decoded[..i]
      {
        var b := UnpackByte(chunk[0], i, chunk[i + 1]);
        assert decoded[..i + 1] == decoded[..i] + [b];
        data := data + [b];
      }
      assert decoded[..|chunk| - 1] == decoded;
      assert chunks[..c + 1] == chunks[..c] + [chunk];
      UnpackChunksAppend(chunks[..c], [chunk]);
      UnpackChunksSingleton(chunk);
    }
    assert chunks[..|chunks|] == chunks;
  }

  lemma {:induction false} UnpackChunksAppend(a: seq<seq<Byte>>, b: seq<seq<Byte>>)
    requires ValidChunks(a) && ValidChunks(b)
    ensures ValidChunks(a + b)
    ensures UnpackChunks(a + b) == UnpackChunks(a) + UnpackChunks(b)
  {
    assert forall k :: 0 <= k < |a + b| ==> (a + b)[k] == if k < |a| then a[k] else b[k - |a|];
    if a != [] {
      assert (a + b)[0] == a[0];
      assert (a + b)[1..] == a[1..] + b;
      UnpackChunksAppend(a[1..], b);
      calc {
        UnpackChunks(a + b);
        UnpackChunk(a[0]) + UnpackChunks(a[1..] + b);
        UnpackChunk(a[0]) + (UnpackChunks(a[1..]) + UnpackChunks(b));
        (UnpackChunk(a[0]) + UnpackChunks(a[1..])) + UnpackChunks(b);
      }
    } else {
      assert a + b == b;
    }
  }

  lemma {:induction false} UnpackChunksLength(chunks: seq<seq<Byte>>)
    requires ValidChunks(chunks)
    ensures |UnpackChunks(chunks)| == |Join(chunks)| - |chunks|
  {
    if chunks != [] {
      UnpackChunksLength(chunks[1..]);
    }
  }

  /** Every chunk of k bytes yields k - 1 bytes: n bytes decode to n - ceil(n / 8). */
  lemma UnpackedLength(midiData: seq<Byte>)
    ensures |Unpacked(midiData)| == |midiData| - (|midiData| + 7) / 8
  {
    UnpackChunksLength(Chunk(midiData, 8));
    ChunkJoin(midiData, 8);
    ChunkCount(midiData, 8);
  }

  /** The 388 data bytes of a nanoKONTROL2 scene dump decode to the 339-byte scene. */
  lemma SceneDumpDecodedLength(midiData: seq<Byte>)
    requires |midiData| == 388
    ensures |Unpacked(midiData)| == 339
  {
    UnpackedLength(midiData);
  }

  lemma {:induction false} ChunkAppend(a: seq<Byte>, b: seq<Byte>)
    requires |a| % 8 == 0
    ensures Chunk(a + b, 8) == Chunk(a, 8) + Chunk(b, 8)
    decreases |a|
  {
    if a == [] {
      assert a + b == b;
    } else if |a + b| <= 8 {
      assert b == [] && a + b == a;
    } else {
      assert (a + b)[..8] == a[..8];
      assert (a + b)[8..] == a[8..] + b;
      ChunkAppend(a[8..], b);
    }
  }

  /**
   * Position i of chunk k of the stream decodes from that chunk's collector
   * byte and its data byte i + 1.
   */
  lemma {:induction false} UnpackedAt(midiData: seq<Byte>, k: nat, i: nat)
    requires i < 7 && 8 * k + i + 1 < |midiData|
    ensures 7 * k + i < |Unpacked(midiData)|
    ensures Unpacked(midiData)[7 * k + i] == UnpackByte(midiData[8 * k], i, midiData[8 * k + i + 1])
    decreases k
  {
    if |midiData| <= 8 {
      SingleChunk(midiData);
    } else {
      var head, rest := midiData[..8], midiData[8..];
      assert midiData == head + rest;
      UnpackedAppend(head, rest);
      SingleChunk(head);
      if k > 0 {
        UnpackedAt(rest, k - 1, i);
        assert rest[8 * (k - 1)] == midiData[8 * k];
        assert rest[8 * (k - 1) + i + 1] == midiData[8 * k + i + 1];
      }
    }
  }

  /** Decoding is chunk-local: a prefix made of whole chunks decodes on its own. */
  lemma UnpackedAppend(a: seq<Byte>, b: seq<Byte>)
    requires |a| % 8 == 0
    ensures Unpacked(a + b) == Unpacked(a) + Unpacked(b)
  {
    ChunkAppend(a, b);
    UnpackChunksAppend(Chunk(a, 8), Chunk(b, 8));
  }

  /** A trailing chunk of a single collector byte contributes nothing. */
  lemma TrailingCollectorIgnored(a: seq<Byte>, msbs: Byte)
    requires |a| % 8 == 0
    ensures Unpacked(a + [msbs]) == Unpacked(a)
  {
    UnpackedAppend(a, [msbs]);
    SingleChunk([msbs]);
  }

  /** A trailing partial chunk is decoded from the bytes present only. */
  lemma TrailingPartialChunk(a: seq<Byte>, tail: seq<Byte>)
    requires |a| % 8 == 0 && 0 < |tail| < 8
    ensures Unpacked(a + tail) == Unpacked(a) + UnpackChunk(tail)
  {
    UnpackedAppend(a, tail);
    SingleChunk(tail);
  }

  lemma UnpackChunksSingleton(chunk: seq<Byte>)
    requires 0 < |chunk| <= 8
    ensures UnpackChunks([chunk]) == UnpackChunk(chunk)
  {
    assert [chunk][0] == chunk && [chunk][1..] == [];
    assert UnpackChunks([chunk]) == UnpackChunk(chunk) + UnpackChunks([]);
  }

  lemma SingleChunk(chunk: seq<Byte>)
    requires 0 < |chunk| <= 8
    ensures Unpacked(chunk) == UnpackChunk(chunk)
    ensures |chunk| <= 7 ==> Packed(chunk) == PackChunk(chunk)
  {
    assert Chunk(chunk, 8) == [chunk];
    assert [chunk][0] == chunk && [chunk][1..] == [];
    assert UnpackChunks([chunk]) == UnpackChunk(chunk) + UnpackChunks([]);
    if |chunk| <= 7 {
      assert Chunk(chunk, 7) == [chunk];
      assert PackChunks([chunk]) == PackChunk(chunk) + PackChunks([]);
    }
  }

  // ---------------------------------------------------------------------
  // The encoder.

  /** The collector byte that `DataToMidiData` builds from the first `k` bytes of a chunk. */
  function Msbs(chunk: seq<Byte>, k: nat): Byte
    requires k <= |chunk| && k <= 7
  {
    if k == 0 then 0 else Msbs(chunk, k - 1) + ((chunk[k - 1] & 0x80) >> (7 - (k - 1)))
  }

  lemma {:induction false} MsbsBits(chunk: seq<Byte>, k: nat)
    requires k <= |chunk| && k <= 7
    ensures Msbs(chunk, k) >> k == 0
    ensures forall i :: 0 <= i < k ==> (Msbs(chunk, k) >> i) & 1 == chunk[i] >> 7
  {
    if k > 0 {
      MsbsBits(chunk, k - 1);
    }
  }

  function PackChunk(chunk: seq<Byte>): (packed: seq<Byte>)
    requires 0 < |chunk| <= 7
    ensures |packed| == |chunk| + 1
  {
    [Msbs(chunk, |chunk|)] + seq(|chunk|, i requires 0 <= i < |chunk| => chunk[i] & 0x7F)
  }

  function PackChunks(chunks: seq<seq<Byte>>): seq<Byte>
    requires forall k :: 0 <= k < |chunks| ==> 0 < |chunks[k]| <= 7
  {
    if chunks == [] then [] else PackChunk(chunks[0]) + PackChunks(chunks[1..])
  }

  /** What the encoder is meant to produce: each group of 7 bytes behind its collector byte. */
  function Packed(data: seq<Byte>): seq<Byte>
  {
    PackChunks(Chunk(data, 7))
  }

  /** The inner loop of `DataToMidiData`: the collector byte and the 7-bit data bytes of one chunk. */
  method PackOneChunk(chunk: seq<Byte>) returns (msbs: Byte, lsbs: seq<Byte>)
    requires 0 < |chunk| <= 7
    ensures [msbs] + lsbs == PackChunk(chunk)
  {
    msbs := 0;
    lsbs := [];
    for i := 0 to |chunk|
      invariant msbs == Msbs(chunk, i)
      invariant |lsbs| == i
      invariant forall j :: 0 <= j < i ==> lsbs[j] == chunk[j] & 0x7F
    {
      assert Msbs(chunk, i + 1) == Msbs(chunk, i) + ((chunk[i] & 0x80) >> (7 - i));
      msbs := msbs + ((chunk[i] & 0x80) >> (7 - i));
      lsbs := lsbs + [chunk[i] & 0x7F];
    }
    assert lsbs == seq(|chunk|, i requires 0 <= i < |chunk| => chunk[i] & 0x7F);
  }

  /** The chunk loop of `DataToMidiData`, appending each packed chunk to `acc`. */
  method AppendPackedChunks(acc: seq<Byte>, chunks: seq<seq<Byte>>) returns (midiData: seq<Byte>)
    requires forall k :: 0 <= k < |chunks| ==> 0 < |chunks[k]| <= 7
    ensures midiData == acc + PackChunks(chunks)
  {
    midiData := acc;
    for c := 0 to |chunks|
      invariant midiData + PackChunks(chunks[c..]) == acc + PackChunks(chunks)
    {
      var chunk := chunks[c];
      var msbs, lsbs := PackOneChunk(chunk);
      assert [msbs] + lsbs == PackChunk(chunk);
      assert chunks[c..][0] == chunk && chunks[c..][1..] == chunks[c + 1..];
      assert PackChunks(chunks[c..]) == PackChunk(chunk) + PackChunks(chunks[c + 1..]);
      midiData := midiData + [msbs];
      midiData := midiData + lsbs;
    }
  }

  /**
   * `DataToMidiData` as written: it chunks its own, still empty, output
   * instead of `data`, so the loop has nothing to do.
   */
  method DataToMidiData(data: seq<Byte>) returns (midiData: seq<Byte>)
    ensures midiData == PackChunks(Chunk([], 7))
    ensures midiData == []
  {
    midiData := [];
    var chunks := Chunk(midiData, 7);
    midiData := AppendPackedChunks(midiData, chunks);
  }

  /** As written, decoding what `DataToMidiData` returns gives back no non-empty input. */
  lemma AsWrittenRoundTripFails(data: seq<Byte>)
    requires data != []
    ensures Unpacked(PackChunks(Chunk([], 7))) != data
  {
  }

  /** `DataToMidiData` with `lo.Chunk(data, 7)`, as evidently intended. */
  method DataToMidiDataCorrected(data: seq<Byte>) returns (midiData: seq<Byte>)
    ensures midiData == Packed(data)
  {
    midiData := [];
    var chunks := Chunk(data, 7);
    midiData := AppendPackedChunks(midiData, chunks);
  }

  lemma ByteFromHalves(a: Byte, b: Byte)
    requires a >> 7 == b >> 7 && a & 0x7F == b & 0x7F
    ensures a == b
  {
  }

  lemma UnpackPackChunk(chunk: seq<Byte>)
    requires 0 < |chunk| <= 7
    ensures UnpackChunk(PackChunk(chunk)) == chunk
  {
    var packed := PackChunk(chunk);
    var out := UnpackChunk(packed);
    forall i | 0 <= i < |chunk|
      ensures out[i] == chunk[i]
    {
      assert out[i] == UnpackByte(packed[0], i, packed[i + 1]);
      UnpackPackByte(chunk, i);
    }
  }

  lemma UnpackPackByte(chunk: seq<Byte>, i: nat)
    requires i < |chunk| <= 7
    ensures UnpackByte(Msbs(chunk, |chunk|), i, chunk[i] & 0x7F) == chunk[i]
  {
    MsbsBits(chunk, |chunk|);
    RestoreByte(Msbs(chunk, |chunk|), i, chunk[i]);
  }

  lemma RestoreByte(msbs: Byte, i: nat, x: Byte)
    requires i < 7 && (msbs >> i) & 1 == x >> 7
    ensures UnpackByte(msbs, i, x & 0x7F) == x
  {
    UnpackByteBits(msbs, i, x & 0x7F);
    ByteFromHalves(UnpackByte(msbs, i, x & 0x7F), x);
  }

  /** Every byte the corrected encoder emits is a 7-bit MIDI data byte. */
  lemma {:induction false} PackedIsMidiSafe(data: seq<Byte>)
    ensures |Packed(data)| == |data| + (|data| + 6) / 7
    ensures forall i :: 0 <= i < |Packed(data)| ==> Packed(data)[i] < 0x80
    decreases |data|
  {
    if |data| > 7 {
      PackedIsMidiSafe(data[7..]);
      assert Chunk(data, 7) == [data[..7]] + Chunk(data[7..], 7);
      assert Chunk(data, 7)[1..] == Chunk(data[7..], 7);
      assert Packed(data) == PackChunk(data[..7]) + Packed(data[7..]);
      MsbsBits(data[..7], 7);
    } else if data != [] {
      SingleChunk(data);
      MsbsBits(data, |data|);
    }
  }

  /** The corrected encoder is undone by `MidiDataToData`. */
  lemma {:induction false} UnpackedPackedRoundTrip(data: seq<Byte>)
    ensures Unpacked(Packed(data)) == data
    decreases |data|
  {
    if |data| > 7 {
      var head, rest := data[..7], data[7..];
      assert Chunk(data, 7) == [head] + Chunk(rest, 7);
      assert Chunk(data, 7)[1..] == Chunk(rest, 7);
      assert Packed(data) == PackChunk(head) + Packed(rest);
      SingleChunk(PackChunk(head));
      UnpackedAppend(PackChunk(head), Packed(rest));
      UnpackPackChunk(head);
      UnpackedPackedRoundTrip(rest);
      assert data == head + rest;
    } else if data != [] {
      SingleChunk(data);
      SingleChunk(PackChunk(data));
      UnpackPackChunk(data);
    }
  }
}
