/**
 * The on-disk layout of a generator file: a 9-byte header (the sticky flag
 * byte, then `highId` as a big-endian long) followed by the freed ids, one
 * big-endian long each, in the order they will be handed out again.
 */
module IdFileFormat {
  import opened Results
  import opened Bytes
  import opened IdGenerator

  const HeaderSize: nat := 9
  const IdSize: nat := 8

  /** Flag byte of a cleanly closed file. */
  const CleanFlag: byte := 0
  /** Flag byte of a file that is open, or was not closed cleanly. */
  const StickyFlag: byte := 1

  /** A file whose byte count or values cannot be a generator file. */
  datatype FormatError = Corrupt

  const LongLimit: nat := 0x8000_0000_0000_0000

  /** Every value of the file fits in a (non-negative) Java `long`. */
  predicate Storable(f: IdFile) {
    && f.highId < LongLimit
    && forall i | 0 <= i < |f.freeIds| :: f.freeIds[i] < LongLimit
  }

  function EncodeIds(ids: seq<nat>): (r: seq<byte>)
    requires forall i | 0 <= i < |ids| :: ids[i] < LongLimit
    ensures |r| == IdSize * |ids|
    ensures forall i | 0 <= i < |ids| :: DecodeLong(r[IdSize * i..IdSize * i + IdSize]) == ids[i]
  {
    if ids == [] then []
    else
      var head := EncodeLong(ids[0]);
      var tail := EncodeIds(ids[1..]);
      LongRoundTrip(ids[0]);
      assert forall i | 1 <= i < |ids| :: (head + tail)[IdSize * i..IdSize * i + IdSize] == tail[IdSize * (i - 1)..IdSize * (i - 1) + IdSize];
      head + tail
  }

  function Encode(f: IdFile): (r: seq<byte>)
    requires Storable(f)
    ensures |r| == HeaderSize + IdSize * |f.freeIds|
    ensures r[0] == (if f.sticky then StickyFlag else CleanFlag)
    ensures DecodeLong(r[1..HeaderSize]) == f.highId
  {
    var header := [if f.sticky then StickyFlag else CleanFlag] + EncodeLong(f.highId);
    LongRoundTrip(f.highId);
    assert (header + EncodeIds(f.freeIds))[1..HeaderSize] == EncodeLong(f.highId);
    header + EncodeIds(f.freeIds)
  }

  /** The `i`-th 8-byte entry of a body of whole entries. */
  function Entry(bs: seq<byte>, i: nat): int64
    requires |bs| % IdSize == 0 && i < |bs| / IdSize
  {
    DecodeLong(bs[IdSize * i..IdSize * i + IdSize])
  }

  lemma EntryOfTail(bs: seq<byte>, i: nat)
    requires |bs| % IdSize == 0 && |bs| >= IdSize && i < |bs[IdSize..]| / IdSize
    ensures Entry(bs, i + 1) == Entry(bs[IdSize..], i)
  {
    assert IdSize * (i + 1) == IdSize + IdSize * i;
    assert bs[IdSize..][IdSize * i..IdSize * i + IdSize] == bs[IdSize + IdSize * i..IdSize + IdSize * i + IdSize];
  }

  /** Reads freed-id entries; a negative entry is corrupt. */
  function DecodeIds(bs: seq<byte>): (r: Result<seq<nat>, FormatError>)
    requires |bs| % IdSize == 0
    ensures r.Failure? <==> exists i | 0 <= i < |bs| / IdSize :: Entry(bs, i) < 0
    ensures r.Success? ==> |r.value| == |bs| / IdSize
    ensures r.Success? ==> forall i | 0 <= i < |r.value| :: r.value[i] == Entry(bs, i)
    decreases |bs|
  {
    if bs == [] then Success([])
    else
      var id := Entry(bs, 0);
      var tail := bs[IdSize..];
      var rest := DecodeIds(tail);
      if id < 0 then Failure(Corrupt)
      else if rest.Failure? then
        var i :| 0 <= i < |tail| / IdSize && Entry(tail, i) < 0;
        EntryOfTail(bs, i);
        Failure(Corrupt)
      else
        assert forall i | 0 <= i < |tail| / IdSize :: Entry(bs, i + 1) == Entry(tail, i) by {
          forall i | 0 <= i < |tail| / IdSize { EntryOfTail(bs, i); }
        }
        assert forall i | 0 <= i < |bs| / IdSize :: Entry(bs, i) == ([id] + rest.value)[i];
        Success([id] + rest.value)
  }

  /**
   * Reads a generator file. A file shorter than the header, or whose body is
   * not a whole number of entries, or holding a negative value, is corrupt;
   * any non-zero flag byte reads as sticky.
   */
  function Decode(bs: seq<byte>): (r: Result<IdFile, FormatError>)
    ensures |bs| < HeaderSize || (|bs| - HeaderSize) % IdSize != 0 ==> r.Failure?
    ensures |bs| >= HeaderSize && DecodeLong(bs[1..HeaderSize]) < 0 ==> r.Failure?
    ensures r.Success? ==> |bs| >= HeaderSize && (|bs| - HeaderSize) % IdSize == 0
                           && DecodeIds(bs[HeaderSize..]) == Success(r.value.freeIds)
    ensures r.Success? ==> r.value.sticky == (bs[0] != CleanFlag)
    ensures r.Success? ==> r.value.highId == DecodeLong(bs[1..HeaderSize])
  {
    if |bs| < HeaderSize || (|bs| - HeaderSize) % IdSize != 0 then Failure(Corrupt)
    else
      var high := DecodeLong(bs[1..HeaderSize]);
      if high < 0 then Failure(Corrupt)
      else
        var ids :- DecodeIds(bs[HeaderSize..]);
        Success(IdFile(bs[0] != CleanFlag, high, ids))
  }

  lemma {:induction false} IdsRoundTrip(ids: seq<nat>)
    requires forall i | 0 <= i < |ids| :: ids[i] < LongLimit
    ensures DecodeIds(EncodeIds(ids)) == Success(ids)
  {
    if ids != [] {
      var bs := EncodeIds(ids);
      assert bs[..IdSize] == EncodeLong(ids[0]);
      assert bs[IdSize..] == EncodeIds(ids[1..]);
      LongRoundTrip(ids[0]);
      IdsRoundTrip(ids[1..]);
      assert [ids[0]] + ids[1..] == ids;
    }
  }

  /** Reading back a written file gives the same file. */
  lemma RoundTrip(f: IdFile)
    requires Storable(f)
    ensures Decode(Encode(f)) == Success(f)
  {
    var bs := Encode(f);
    assert bs[HeaderSize..] == EncodeIds(f.freeIds);
    IdsRoundTrip(f.freeIds);
  }

  lemma {:induction false} IdsBytesRoundTrip(bs: seq<byte>)
    requires |bs| % IdSize == 0 && DecodeIds(bs).Success?
    ensures forall i | 0 <= i < |DecodeIds(bs).value| :: DecodeIds(bs).value[i] < LongLimit
    ensures EncodeIds(DecodeIds(bs).value) == bs
    decreases |bs|
  {
    if bs != [] {
      LongBytesRoundTrip(bs[..IdSize]);
      IdsBytesRoundTrip(bs[IdSize..]);
      assert bs == bs[..IdSize] + bs[IdSize..];
    }
  }

  /** A readable file whose flag byte is one of the two canonical values is written back byte for byte. */
  lemma BytesRoundTrip(bs: seq<byte>)
    requires Decode(bs).Success?
    requires bs[0] == CleanFlag || bs[0] == StickyFlag
    ensures Storable(Decode(bs).value)
    ensures Encode(Decode(bs).value) == bs
  {
    IdsBytesRoundTrip(bs[HeaderSize..]);
    LongBytesRoundTrip(bs[1..HeaderSize]);
    assert bs == [bs[0]] + bs[1..HeaderSize] + bs[HeaderSize..];
  }

  /** A freshly created generator file is exactly the 9-byte header: flag 0, `highId` 0. */
  lemma EmptyFileIsHeader()
    ensures Encode(EmptyFile) == [0, 0, 0, 0, 0, 0, 0, 0, 0]
  {
  }
}
