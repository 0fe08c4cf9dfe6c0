/** Format negotiation: the fixed table that maps the player's sample formats
    to the Qt device's sample layout, and the sizes derived from an entry. */
module Formats {
  import opened CInt

  datatype Option<+T> = None | Some(value: T)

  /** The player's sample formats. Only the 16- and 32-bit integer formats and
      the float format appear in the table; the 8- and 24-bit ones do not. */
  datatype AudFormat =
    | FmtFloat
    | FmtS8 | FmtU8
    | FmtS16LE | FmtS16BE | FmtU16LE | FmtU16BE
    | FmtS24LE | FmtS24BE | FmtU24LE | FmtU24BE
    | FmtS32LE | FmtS32BE | FmtU32LE | FmtU32BE

  datatype SampleType = SignedInt | UnSignedInt | Float
  datatype Endian = LittleEndian | BigEndian

  /** One row of the table: the player's code and the device's description. */
  datatype FormatEntry = FormatEntry(audFormat: AudFormat, sampleSize: nat, sampleType: SampleType, endian: Endian)

  const FORMAT_MAP: seq<FormatEntry> := [
    FormatEntry(FmtS16LE, 16, SignedInt, LittleEndian),
    FormatEntry(FmtS16BE, 16, SignedInt, BigEndian),
    FormatEntry(FmtU16LE, 16, UnSignedInt, LittleEndian),
    FormatEntry(FmtU16BE, 16, UnSignedInt, BigEndian),
    FormatEntry(FmtS32LE, 32, SignedInt, LittleEndian),
    FormatEntry(FmtS32BE, 32, SignedInt, BigEndian),
    FormatEntry(FmtU32LE, 32, UnSignedInt, LittleEndian),
    FormatEntry(FmtU32BE, 32, UnSignedInt, BigEndian),
    FormatEntry(FmtFloat, 32, Float, LittleEndian)
  ]

  /** Linear search, from index `i` on, for the first entry whose code is
      `format`. */
  function FindFrom(table: seq<FormatEntry>, format: AudFormat, i: nat): (r: Option<FormatEntry>)
    requires i <= |table|
    ensures r.Some? ==> r.value.audFormat == format && r.value in table[i..]
    decreases |table| - i
  {
    if i == |table| then None
    else if table[i].audFormat == format then Some(table[i])
    else FindFrom(table, format, i + 1)
  }

  /** The search finds nothing exactly when no entry from `i` on has the code,
      and otherwise returns the first entry that has it. */
  lemma {:induction false} FindFromFirstMatch(table: seq<FormatEntry>, format: AudFormat, i: nat)
    requires i <= |table|
    ensures FindFrom(table, format, i).None? <==> forall k :: i <= k < |table| ==> table[k].audFormat != format
    ensures FindFrom(table, format, i).Some? ==>
              exists k :: i <= k < |table| && table[k] == FindFrom(table, format, i).value && table[k].audFormat == format &&
                          forall j :: i <= j < k ==> table[j].audFormat != format
    decreases |table| - i
  {
    if i < |table| && table[i].audFormat != format {
      FindFromFirstMatch(table, format, i + 1);
    }
  }

  /** The table entry `open_audio` negotiates with, if the format is supported:
      one carrying the requested code, 16 or 32 bits wide. */
  function Lookup(format: AudFormat): (r: Option<FormatEntry>)
    ensures r.Some? ==> r.value.audFormat == format && r.value.sampleSize in {16, 32}
  {
    FindFromFirstMatch(FORMAT_MAP, format, 0);
    FindFrom(FORMAT_MAP, format, 0)
  }

  /** A found entry is a row of the table; nothing is found exactly when no
      row carries the code. */
  lemma LookupInTable(format: AudFormat)
    ensures Lookup(format).Some? ==> Lookup(format).value in FORMAT_MAP
    ensures Lookup(format).None? <==> forall i :: 0 <= i < |FORMAT_MAP| ==> FORMAT_MAP[i].audFormat != format
  {
    FindFromFirstMatch(FORMAT_MAP, format, 0);
  }

  /** Bytes a device sample of `sampleSize` bits occupies per channel: the
      whole bytes, plus one when the width leaves at least 8 bits over a
      multiple of 16. */
  function BytesPerChannel(sampleSize: nat): (r: nat)
    ensures sampleSize % 16 < 8 ==> r == sampleSize / 8
    ensures sampleSize % 16 >= 8 ==> r == sampleSize / 8 + 1
  {
    sampleSize / 8 + (sampleSize % 16) / 8
  }

  /** The device buffer, in bytes, for `ms` milliseconds of audio: whole frames
      of `bpc * chan` bytes, the frame count truncated first. */
  function BufferCapacity(bpc: int, chan: int, ms: int, rate: int): (r: int)
    ensures bpc >= 0 && chan >= 0 && ms >= 0 && rate >= 0 ==> r >= 0
  {
    var frames := Quot(ms * rate, 1000);
    var frameBytes := bpc * chan;
    frameBytes * frames
  }

  /** Formats outside the table are rejected by the lookup. */
  lemma UnsupportedFormats(format: AudFormat)
    ensures Lookup(format).None? <==> format in {FmtS8, FmtU8, FmtS24LE, FmtS24BE, FmtU24LE, FmtU24BE}
  {
    FindFromFirstMatch(FORMAT_MAP, format, 0);
    var i := match format
      case FmtS16LE => 0 case FmtS16BE => 1 case FmtU16LE => 2 case FmtU16BE => 3
      case FmtS32LE => 4 case FmtS32BE => 5 case FmtU32LE => 6 case FmtU32BE => 7
      case FmtFloat => 8
      case _ => 9;
    if i < 9 {
      assert FORMAT_MAP[i].audFormat == format && FORMAT_MAP[i] in FORMAT_MAP;
    }
  }

  /** The codes in the table are pairwise different. */
  predicate CodesDistinct(table: seq<FormatEntry>)
  {
    forall i, j :: 0 <= i < j < |table| ==> table[i].audFormat != table[j].audFormat
  }

  lemma FormatMapCodesDistinct()
    ensures CodesDistinct(FORMAT_MAP)
  {
  }

  /** No code appears twice, so the entry found is the only one for it. */
  lemma {:induction false} LookupEntry(i: nat)
    requires i < |FORMAT_MAP|
    ensures Lookup(FORMAT_MAP[i].audFormat) == Some(FORMAT_MAP[i])
  {
    FormatMapCodesDistinct();
    FindFromFirstMatch(FORMAT_MAP, FORMAT_MAP[i].audFormat, 0);
    var r := FindFrom(FORMAT_MAP, FORMAT_MAP[i].audFormat, 0);
    assert r.Some?;
    var k :| 0 <= k < |FORMAT_MAP| && FORMAT_MAP[k] == r.value && FORMAT_MAP[k].audFormat == FORMAT_MAP[i].audFormat &&
             forall j :: 0 <= j < k ==> FORMAT_MAP[j].audFormat != FORMAT_MAP[i].audFormat;
    assert k == i;
  }

  /** For every table entry the padding term vanishes: 16-bit entries take
      two bytes per channel, 32-bit entries four. */
  lemma TableBytesPerChannel(e: FormatEntry)
    requires e in FORMAT_MAP
    ensures BytesPerChannel(e.sampleSize) == e.sampleSize / 8
    ensures e.sampleSize == 16 ==> BytesPerChannel(e.sampleSize) == 2
    ensures e.sampleSize == 32 ==> BytesPerChannel(e.sampleSize) == 4
    ensures BytesPerChannel(e.sampleSize) in {2, 4}
  {
  }

  /** The capacity is a whole number of frames, and that number of frames
      lasts at most `ms` milliseconds and less than one frame more. */
  lemma {:induction false} CapacityIsWholeFrames(bpc: int, chan: int, ms: int, rate: int)
    requires bpc > 0 && chan > 0 && ms >= 0 && rate > 0
    ensures BufferCapacity(bpc, chan, ms, rate) >= 0
    ensures BufferCapacity(bpc, chan, ms, rate) % (bpc * chan) == 0
    ensures var frames := BufferCapacity(bpc, chan, ms, rate) / (bpc * chan);
            frames * 1000 <= ms * rate < (frames + 1) * 1000
  {
    var frames := Quot(ms * rate, 1000);
    var fb := bpc * chan;
    assert fb > 0;
    assert frames >= 0;
    assert BufferCapacity(bpc, chan, ms, rate) == fb * frames;
    ExactDivision(fb, frames);
  }

  /** Signed 16-bit stereo at 44100 Hz with 500 ms of buffering. */
  lemma CapacityExample()
    ensures Lookup(FmtS16LE).Some?
    ensures BufferCapacity(BytesPerChannel(Lookup(FmtS16LE).value.sampleSize), 2, 500, 44100) == 88200
  {
    LookupEntry(0);
  }
}
