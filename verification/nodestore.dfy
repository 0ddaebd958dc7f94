/**
 * The node store (`NodeStore`): a file of fixed-size 9-byte node records. A
 * record is the in-use flag byte, then the id of the node's first relationship
 * and the id of its first property, each a big-endian 32-bit int. Record `id`
 * starts at byte `id * 9` of the file.
 *
 * A record is read or written either through a persistence window (a buffer
 * holding a run of consecutive records, starting at record `position`) or by
 * a direct transfer between the file and a caller's buffer. Both are modelled
 * here as views of the same byte sequence, and shown to agree.
 */
module NodeStore {
  import opened Results
  import opened Bytes
  import opened IdGenerator

  /** The type and version descriptor every node store file ends with. */
  const Version := "NodeStore v0.9.1"

  const RecordSize: nat := 9

  const InUseFlag: byte := 1
  const NotInUseFlag: byte := 0

  /** The link values of a node without relationships or properties. */
  const NoNextRelationship: int32 := -1
  const NoNextProperty: int32 := -1

  /**
   * A node record as the store reads and writes it. `transfer` holds the bytes a
   * transferable record carries for the direct write path.
   */
  datatype NodeRecord = NodeRecord(
    id: int32,
    inUse: bool,
    nextRel: int32,
    nextProp: int32,
    transfer: Option<seq<byte>>)

  /**
   * Record offsets are computed in 32-bit `int` arithmetic; an id is usable
   * only while `id * 9` does not overflow.
   */
  predicate ValidId(id: int) {
    0 <= id && id * RecordSize < 0x8000_0000
  }

  function Max(a: nat, b: nat): nat {
    if a < b then b else a
  }

  // -------------------------------------------------------------------------
  // Bytes and records

  /** The 9 bytes of a record: flag, `nextRel`, `nextProp`. */
  function Encode(r: NodeRecord): (bs: seq<byte>)
    ensures |bs| == RecordSize
    ensures bs[0] == (if r.inUse then InUseFlag else NotInUseFlag)
    ensures bs[1..5] == EncodeInt(r.nextRel) && bs[5..9] == EncodeInt(r.nextProp)
  {
    [if r.inUse then InUseFlag else NotInUseFlag] + EncodeInt(r.nextRel) + EncodeInt(r.nextProp)
  }

  /** Reads the 9 bytes of record `id`; the record is in use iff its flag byte is `IN_USE`. */
  function Decode(id: int32, bs: seq<byte>): (r: NodeRecord)
    requires |bs| == RecordSize
    ensures r.id == id && r.transfer.None?
    ensures r.inUse <==> bs[0] == InUseFlag
  {
    NodeRecord(id, bs[0] == InUseFlag, DecodeInt(bs[1..5]), DecodeInt(bs[5..9]), None)
  }

  lemma RecordRoundTrip(r: NodeRecord)
    requires r.transfer.None?
    ensures Decode(r.id, Encode(r)) == r
  {
    IntRoundTrip(r.nextRel);
    IntRoundTrip(r.nextProp);
  }

  /** Bytes whose flag is one of the two flag values are re-encoded unchanged. */
  lemma RecordBytesRoundTrip(id: int32, bs: seq<byte>)
    requires |bs| == RecordSize
    requires bs[0] == InUseFlag || bs[0] == NotInUseFlag
    ensures Encode(Decode(id, bs)) == bs
  {
    IntBytesRoundTrip(bs[1..5]);
    IntBytesRoundTrip(bs[5..9]);
    assert bs == [bs[0]] + bs[1..5] + bs[5..9];
  }

  /**
   * `bs` written over `file` at byte `at`. Writing past the end grows the file;
   * a gap between the old end and `at` reads as zero bytes.
   */
  function Overwrite(file: seq<byte>, at: nat, bs: seq<byte>): (r: seq<byte>)
    ensures |r| == Max(|file|, at + |bs|)
    ensures forall k | 0 <= k < |r| ::
      r[k] == if at <= k < at + |bs| then bs[k - at] else if k < |file| then file[k] else 0
  {
    var padded := if |file| < at + |bs| then file + seq(at + |bs| - |file|, _ => 0) else file;
    padded[..at] + bs + padded[at + |bs|..]
  }

  /** The file grown to at least `n` bytes; new bytes read as zero. */
  function Grow(file: seq<byte>, n: nat): (r: seq<byte>)
    ensures |r| == Max(|file|, n)
    ensures forall k | 0 <= k < |r| :: r[k] == if k < |file| then file[k] else 0
  {
    if |file| < n then file + seq(n - |file|, _ => 0) else file
  }

  // -------------------------------------------------------------------------
  // The two views of a record: file offset and window offset

  predicate HasRecord(file: seq<byte>, id: int) {
    ValidId(id) && id * RecordSize + RecordSize <= |file|
  }

  /** The bytes of record `id` in the file, at offset `id * 9`. */
  function Slot(file: seq<byte>, id: int): (bs: seq<byte>)
    requires HasRecord(file, id)
    ensures |bs| == RecordSize
  {
    file[id * RecordSize..id * RecordSize + RecordSize]
  }

  /** A persistence window: the buffer of the records from `position` on. */
  datatype Window = Window(position: nat, buffer: seq<byte>)

  predicate Covers(w: Window, id: int) {
    && ValidId(id)
    && w.position <= id
    && (id - w.position) * RecordSize + RecordSize <= |w.buffer|
  }

  /** The bytes of record `id` in the window, at offset `(id - position) * 9`. */
  function WindowSlot(w: Window, id: int): (bs: seq<byte>)
    requires Covers(w, id)
    ensures |bs| == RecordSize
  {
    var offset := (id - w.position) * RecordSize;
    w.buffer[offset..offset + RecordSize]
  }

  /** The window over records `position .. position + count - 1` of the file. */
  function WindowOf(file: seq<byte>, position: nat, count: nat): (w: Window)
    requires (position + count) * RecordSize <= |file|
    ensures w.position == position && |w.buffer| == count * RecordSize
    ensures forall id | position <= id < position + count && ValidId(id) :: Covers(w, id)
  {
    Window(position, file[position * RecordSize..(position + count) * RecordSize])
  }

  /** A window taken from the file shows every record it covers exactly as the file holds it. */
  lemma WindowShowsFile(file: seq<byte>, position: nat, count: nat, id: int)
    requires (position + count) * RecordSize <= |file|
    requires ValidId(id) && position <= id < position + count
    ensures HasRecord(file, id)
    ensures WindowSlot(WindowOf(file, position, count), id) == Slot(file, id)
  {
  }

  // -------------------------------------------------------------------------
  // Reads

  /** The failure of a strict read: "Record[id] not in use". */
  datatype ReadError = NotInUse(id: int32)

  /**
   * The window read. A strict read (`check` false) of a free slot fails; with
   * `check` the free slot is returned as a record that is not in use.
   */
  function WindowGetRecord(w: Window, id: int32, check: bool): (r: Result<NodeRecord, ReadError>)
    requires Covers(w, id)
    ensures r.Failure? <==> !check && WindowSlot(w, id)[0] != InUseFlag
    ensures r.Failure? ==> r.error == NotInUse(id)
    ensures r.Success? ==> r.value == Decode(id, WindowSlot(w, id))
  {
    var bs := WindowSlot(w, id);
    var inUse := bs[0] == InUseFlag;
    if !inUse && !check then Failure(NotInUse(id))
    else Success(NodeRecord(id, inUse, DecodeInt(bs[1..5]), DecodeInt(bs[5..9]), None))
  }

  /**
   * The direct-transfer read as the source writes it: the 9 bytes at `id * 9`,
   * copied into the caller's buffer. The flag byte is only asserted to be
   * `IN_USE`; the record is marked in use whatever the byte holds, so with
   * assertions disabled a free slot is returned as an in-use record. On an
   * in-use slot it is the corrected read below.
   */
  function TransferGetRecordAsWritten(file: seq<byte>, id: int32): (r: NodeRecord)
    requires HasRecord(file, id)
    ensures r.id == id && r.inUse && r.transfer.None?
    ensures Slot(file, id)[0] == InUseFlag ==> TransferGetRecord(file, id) == Success(r)
  {
    var bs := Slot(file, id);
    NodeRecord(id, true, DecodeInt(bs[1..5]), DecodeInt(bs[5..9]), None)
  }

  /**
   * The direct-transfer read with the flag checked, as the window read checks
   * it: a free slot fails with "Record[id] not in use".
   */
  function TransferGetRecord(file: seq<byte>, id: int32): (r: Result<NodeRecord, ReadError>)
    requires HasRecord(file, id)
    ensures r.Failure? <==> Slot(file, id)[0] != InUseFlag
    ensures r.Failure? ==> r.error == NotInUse(id)
    ensures r.Success? ==> r.value.id == id && r.value.inUse && r.value.transfer.None?
    ensures r.Success? ==> Encode(r.value) == Slot(file, id)
  {
    var bs := Slot(file, id);
    if bs[0] != InUseFlag then Failure(NotInUse(id))
    else
      RecordBytesRoundTrip(id, bs);
      Success(Decode(id, bs))
  }

  /**
   * A free record read on the transfer path as written comes back in use,
   * where the window path refuses it: a one-record file of zero bytes, id 0.
   */
  lemma TransferReadOfFreeRecord()
    ensures var file := [NotInUseFlag, 0, 0, 0, 0, 0, 0, 0, 0];
      && HasRecord(file, 0)
      && TransferGetRecordAsWritten(file, 0).inUse
      && WindowGetRecord(WindowOf(file, 0, 1), 0, false) == Failure(NotInUse(0))
      && TransferGetRecord(file, 0) == Failure(NotInUse(0))
  {
  }

  /**
   * The window a read is served from: records `position .. position + count - 1`,
   * cut off at the end of the file.
   */
  function ReadWindow(file: seq<byte>, position: nat, count: nat): (w: Window)
    requires position * RecordSize <= |file|
    ensures w.position == position && w.position * RecordSize + |w.buffer| <= |file|
  {
    WindowOf(file, position, Min(count, |file| / RecordSize - position))
  }

  /** A read window shows the record it was taken for exactly as the file holds it. */
  lemma ReadWindowShowsFile(file: seq<byte>, position: nat, count: nat, id: int)
    requires HasRecord(file, id) && position <= id < position + count
    ensures position * RecordSize <= |file|
    ensures Covers(ReadWindow(file, position, count), id)
    ensures WindowSlot(ReadWindow(file, position, count), id) == Slot(file, id)
  {
    var c := Min(count, |file| / RecordSize - position);
    assert id + 1 <= |file| / RecordSize;
    WindowShowsFile(file, position, c, id);
  }

  /**
   * The public strict `getRecord`: the transfer path when the caller passes a
   * buffer and no window holds the record, the window path otherwise. The window
   * the pool would supply covers records `position .. position + count - 1`.
   * The transfer path is the corrected transfer read, so both paths refuse a
   * free record; the source's transfer path does not (see
   * `TransferGetRecordAsWritten`).
   */
  function GetRecord(file: seq<byte>, id: int32, hasBuffer: bool, windowed: bool, position: nat, count: nat)
    : (r: Result<NodeRecord, ReadError>)
    requires HasRecord(file, id) && position <= id < position + count
    ensures r.Failure? <==> Slot(file, id)[0] != InUseFlag
    ensures r.Failure? ==> r.error == NotInUse(id)
    ensures r.Success? ==> r.value.inUse && r.value.id == id && Encode(r.value) == Slot(file, id)
  {
    ReadWindowShowsFile(file, position, count, id);
    if hasBuffer && !windowed then TransferGetRecord(file, id)
    else
      var r := WindowGetRecord(ReadWindow(file, position, count), id, false);
      if r.Success? then RecordBytesRoundTrip(id, Slot(file, id)); r else r
  }

  /** The transfer path of `loadLightNode`: whether the flag byte is `IN_USE`. */
  function TransferLoadLight(file: seq<byte>, id: int32): bool
    requires HasRecord(file, id)
  {
    Slot(file, id)[0] == InUseFlag
  }

  /** The window path of `loadLightNode`: a checked read, then its in-use bit. */
  function WindowLoadLight(w: Window, id: int32): bool
    requires Covers(w, id)
  {
    var r := WindowGetRecord(w, id, true);
    r.Success? && r.value.inUse
  }

  /** `loadLightNode`: whether record `id` is in use, on either path; never a failure. */
  function LoadLightNode(file: seq<byte>, id: int32, hasBuffer: bool, windowed: bool, position: nat, count: nat)
    : (r: bool)
    requires HasRecord(file, id) && position <= id < position + count
    ensures r <==> Slot(file, id)[0] == InUseFlag
  {
    ReadWindowShowsFile(file, position, count, id);
    if hasBuffer && !windowed then TransferLoadLight(file, id)
    else WindowLoadLight(ReadWindow(file, position, count), id)
  }

  /**
   * The window read and the corrected transfer read decode the same bytes: the strict reads give
   * the same record or the same failure, whichever window covers it; a checked
   * window read agrees on an in-use record, and on a free slot gives what the
   * as-written transfer read gives, except for the in-use bit.
   */
  lemma ReadPathsAgree(file: seq<byte>, id: int32, position: nat, count: nat)
    requires HasRecord(file, id) && position <= id < position + count
    ensures position * RecordSize <= |file|
    ensures var w := ReadWindow(file, position, count);
      && WindowGetRecord(w, id, false) == TransferGetRecord(file, id)
      && (Slot(file, id)[0] == InUseFlag ==> WindowGetRecord(w, id, true) == TransferGetRecord(file, id))
      && (Slot(file, id)[0] != InUseFlag ==>
            WindowGetRecord(w, id, true).value.(inUse := true) == TransferGetRecordAsWritten(file, id))
      && WindowLoadLight(w, id) == TransferLoadLight(file, id)
  {
    ReadWindowShowsFile(file, position, count, id);
  }

  // -------------------------------------------------------------------------
  // Writes

  /**
   * What the window write puts at the record's offset: the whole record when it
   * is in use, only the `NOT_IN_USE` flag byte otherwise.
   */
  function Written(r: NodeRecord): (bs: seq<byte>)
    ensures |bs| == (if r.inUse then RecordSize else 1)
    ensures bs[0] == (if r.inUse then InUseFlag else NotInUseFlag)
  {
    if r.inUse then Encode(r) else [NotInUseFlag]
  }

  /** The window write of a record it covers; the window's extent does not change. */
  function WindowUpdate(w: Window, r: NodeRecord): (w': Window)
    requires Covers(w, r.id)
    ensures w'.position == w.position && |w'.buffer| == |w.buffer|
  {
    Window(w.position, Overwrite(w.buffer, (r.id - w.position) * RecordSize, Written(r)))
  }

  /** Writes the window's buffer back to the file at the window's offset. */
  function Flush(file: seq<byte>, w: Window): (r: seq<byte>)
    requires w.position * RecordSize + |w.buffer| <= |file|
    ensures |r| == |file|
  {
    Overwrite(file, w.position * RecordSize, w.buffer)
  }

  /**
   * A window write, flushed, puts exactly the written bytes at `id * 9` of the
   * file, whichever window covering the record was used.
   */
  lemma WindowWriteIsFileWrite(file: seq<byte>, r: NodeRecord, position: nat, count: nat)
    requires ValidId(r.id) && position <= r.id < position + count
    requires (position + count) * RecordSize <= |file|
    ensures Flush(file, WindowUpdate(WindowOf(file, position, count), r))
         == Overwrite(file, r.id * RecordSize, Written(r))
  {
  }

  /** The store: its record file, its id generator session, and whether it is recovering. */
  datatype Store = Store(data: seq<byte>, ids: Generator, recovery: bool)

  /**
   * The direct-transfer write: the record's transfer bytes copied to the file
   * at `id * 9`. It never frees an id.
   */
  function TransferRecord(s: Store, id: int32, payload: seq<byte>): (s': Store)
    requires ValidId(id)
    ensures s'.ids == s.ids && s'.recovery == s.recovery
    ensures |s'.data| == Max(|s.data|, id * RecordSize + |payload|)
    ensures forall k | 0 <= k < |payload| :: s'.data[id * RecordSize + k] == payload[k]
    ensures forall k | 0 <= k < |s.data| && !(id * RecordSize <= k < id * RecordSize + |payload|) :: s'.data[k] == s.data[k]
    ensures forall k | |s.data| <= k < id * RecordSize :: s'.data[k] == 0
  {
    s.(data := Overwrite(s.data, id * RecordSize, payload))
  }

  /**
   * The window write of `updateRecord`. The pool's window for the record spans
   * records `position .. position + count - 1` and grows the file to reach them.
   * Writing a record as not in use hands its id back to the generator unless the
   * store is recovering; a failure of that `freeId` is reported after the write
   * has reached the file.
   */
  function WindowUpdateRecord(s: Store, r: NodeRecord, position: nat, count: nat): (out: (Store, Option<IdError>))
    requires ValidId(r.id) && position <= r.id < position + count
    ensures out.0.recovery == s.recovery
    ensures out.0.data == Overwrite(Grow(s.data, (position + count) * RecordSize), r.id * RecordSize, Written(r))
    ensures r.inUse || s.recovery ==> out.0.ids == s.ids && out.1.None?
  {
    var file := Grow(s.data, (position + count) * RecordSize);
    WindowWriteIsFileWrite(file, r, position, count);
    var data := Flush(file, WindowUpdate(WindowOf(file, position, count), r));
    if !r.inUse && !s.recovery then
      match FreeId(s.ids, r.id)
      case Success(g) => (Store(data, g, s.recovery), None)
      case Failure(e) => (Store(data, s.ids, s.recovery), Some(e))
    else (s.(data := data), None)
  }

  /**
   * The public `updateRecord`: a transferable record that no window holds goes
   * by direct transfer, every other record through its window.
   */
  function UpdateRecord(s: Store, r: NodeRecord, windowed: bool, position: nat, count: nat): (out: (Store, Option<IdError>))
    requires ValidId(r.id) && position <= r.id < position + count
    ensures out.0.recovery == s.recovery
    ensures r.transfer.Some? && !windowed ==>
      out == (s.(data := Overwrite(s.data, r.id * RecordSize, r.transfer.value)), None)
    ensures r.transfer.None? || windowed ==>
      out.0.data == Overwrite(Grow(s.data, (position + count) * RecordSize), r.id * RecordSize, Written(r))
  {
    if r.transfer.Some? && !windowed then (TransferRecord(s, r.id, r.transfer.value), None)
    else WindowUpdateRecord(s, r, position, count)
  }

  /**
   * The window write grows the file to the window's end and then changes only
   * the bytes it writes: all nine for an in-use record, the flag byte alone for
   * a record written as not in use.
   */
  lemma WindowUpdateFrame(s: Store, r: NodeRecord, position: nat, count: nat)
    requires ValidId(r.id) && position <= r.id < position + count
    ensures var data := UpdateRecord(s, r, true, position, count).0.data;
      && |data| == Max(|s.data|, (position + count) * RecordSize)
      && HasRecord(data, r.id)
      && (forall k | 0 <= k < |data| && !(r.id * RecordSize <= k < r.id * RecordSize + |Written(r)|) ::
            data[k] == if k < |s.data| then s.data[k] else 0)
      && (r.inUse ==> Slot(data, r.id) == Encode(r))
      && (!r.inUse ==> data[r.id * RecordSize] == NotInUseFlag)
  {
  }

  /**
   * Round trip: a record written in use through a window reads back unchanged,
   * by a strict read on either path and through any window that covers it.
   */
  lemma WriteThenRead(s: Store, r: NodeRecord, position: nat, count: nat,
                      hasBuffer: bool, windowed: bool, position': nat, count': nat)
    requires ValidId(r.id) && position <= r.id < position + count
    requires r.inUse && r.transfer.None?
    requires position' <= r.id < position' + count'
    ensures HasRecord(UpdateRecord(s, r, true, position, count).0.data, r.id)
    ensures GetRecord(UpdateRecord(s, r, true, position, count).0.data, r.id, hasBuffer, windowed, position', count') == Success(r)
  {
    var data := UpdateRecord(s, r, true, position, count).0.data;
    WindowUpdateFrame(s, r, position, count);
    RecordRoundTrip(r);
    ReadPathsAgree(data, r.id, position', count');
  }

  /**
   * Round trip for the direct write: the encoding of an in-use record
   * transferred to `id * 9` reads back as that record, by a strict read on
   * either path and through any read window that covers it.
   */
  lemma TransferThenRead(s: Store, r: NodeRecord, hasBuffer: bool, windowed: bool, position: nat, count: nat)
    requires ValidId(r.id) && r.inUse && r.transfer.None?
    requires position <= r.id < position + count
    ensures HasRecord(TransferRecord(s, r.id, Encode(r)).data, r.id)
    ensures GetRecord(TransferRecord(s, r.id, Encode(r)).data, r.id, hasBuffer, windowed, position, count) == Success(r)
  {
    var data := TransferRecord(s, r.id, Encode(r)).data;
    assert HasRecord(data, r.id);
    assert Slot(data, r.id) == Encode(r) by {
      forall k | 0 <= k < RecordSize
        ensures Slot(data, r.id)[k] == Encode(r)[k]
      {
        assert data[r.id * RecordSize + k] == Encode(r)[k];
      }
    }
    RecordRoundTrip(r);
    ReadPathsAgree(data, r.id, position, count);
  }

  /**
   * `updateRecord` frees the record's id exactly when it goes through a window,
   * writes the record as not in use, and the store is not recovering. In-use
   * writes and direct transfers leave the generator alone.
   */
  lemma UpdateFreesIdExactly(s: Store, r: NodeRecord, windowed: bool, position: nat, count: nat)
    requires ValidId(r.id) && position <= r.id < position + count
    ensures var (s', err) := UpdateRecord(s, r, windowed, position, count);
      var frees := (r.transfer.None? || windowed) && !r.inUse && !s.recovery;
      && (frees && FreeId(s.ids, r.id).Success? ==> s'.ids == FreeId(s.ids, r.id).value && err.None?)
      && (frees && FreeId(s.ids, r.id).Failure? ==> s'.ids == s.ids && err == Some(FreeId(s.ids, r.id).error))
      && (!frees ==> s'.ids == s.ids && err.None?)
  {
  }

  // -------------------------------------------------------------------------
  // Creating a store

  /** A node store as created on disk: its file name, descriptor, records, and the generator files. */
  datatype StoreFiles = StoreFiles(name: string, descriptor: string, data: seq<byte>, disk: Disk)

  /** Why `createStore` fails: the documented `IOException`, or an exception of the id generator. */
  datatype CreateError = IOException | IdFailure(error: IdError)

  /**
   * `createStore(fileName)`: a null name, or a store file that already exists
   * (`stores`), is an `IOException`. Otherwise an empty store with a fresh id
   * generator file `idFile` is created; the first id the generator hands out
   * (0) is written as an in-use node with no relationships and no properties,
   * and the store is closed again. The grab size of the store's generator is
   * a parameter.
   */
  function CreateStore(stores: set<string>, disk: Disk, fileName: Option<string>, idFile: string, grabSize: int)
    : (r: Result<StoreFiles, CreateError>)
    ensures fileName.None? ==> r == Failure(IOException)
    ensures fileName.Some? && fileName.value in stores ==> r == Failure(IOException)
    ensures fileName.Some? && fileName.value !in stores && idFile in disk ==> r == Failure(IdFailure(IllegalState))
    ensures fileName.Some? && fileName.value !in stores && idFile !in disk && grabSize < 1 ==>
      r == Failure(IdFailure(IllegalArgument))
    ensures r.Success? <==> fileName.Some? && fileName.value !in stores && idFile !in disk && grabSize >= 1
    ensures r.Success? ==> r.value.name == fileName.value
  {
    if fileName.None? || fileName.value in stores then Failure(IOException)
    else
      match CreateGenerator(disk, Some(idFile))
      case Failure(e) => Failure(IdFailure(e))
      case Success(created) =>
        match Open(created, idFile, grabSize)
        case Failure(e) => Failure(IdFailure(e))
        case Success(session) =>
          var (g, id) := NextId(session.1).value;
          var (s', _) := UpdateRecord(Store([], g, false), NodeRecord(id, true, NoNextRelationship, NoNextProperty, None), true, id, 1);
          var (disk', _) := Close(session.0, s'.ids);
          Success(StoreFiles(fileName.value, Version, s'.data, disk'))
  }

  /** The first node a created store holds: id 0, in use, no relationships, no properties. */
  const FirstNode := NodeRecord(0, true, NoNextRelationship, NoNextProperty, None)

  /** Node 0 written in use into an empty record file is the file's only record. */
  lemma FirstRecord(g: Generator)
    ensures var (s, err) := UpdateRecord(Store([], g, false), FirstNode, true, 0, 1);
      && s.ids == g && err.None?
      && |s.data| == RecordSize && GetRecord(s.data, 0, false, true, 0, 1) == Success(FirstNode)
  {
    WindowUpdateFrame(Store([], g, false), FirstNode, 0, 1);
    WriteThenRead(Store([], g, false), FirstNode, 0, 1, false, true, 0, 1);
  }

  /** Opening a freshly created generator file and taking one id gives id 0. */
  lemma FreshSession(disk: Disk, idFile: string, grabSize: int)
    requires idFile !in disk && grabSize >= 1
    ensures var (disk2, g0) := Open(disk[idFile := EmptyFile], idFile, grabSize).value;
      && g0 == Generator(idFile, grabSize, 0, [], [], [], false)
      && NextId(g0) == Success((g0.(highId := 1), 0))
      && Close(disk2, g0.(highId := 1)).0 == disk[idFile := IdFile(false, 1, [])]
  {
  }

  /**
   * A created store carries the version descriptor and holds exactly one record:
   * node 0, in use, with no relationships and no properties. Its generator file
   * is closed cleanly with high id 1 and no freed ids.
   */
  lemma CreatedStore(stores: set<string>, disk: Disk, fileName: string, idFile: string, grabSize: int)
    requires fileName !in stores && idFile !in disk && grabSize >= 1
    ensures var files := CreateStore(stores, disk, Some(fileName), idFile, grabSize).value;
      && files.name == fileName
      && files.descriptor == Version
      && |files.data| == RecordSize
      && GetRecord(files.data, 0, false, true, 0, 1) == Success(FirstNode)
      && files.disk == disk[idFile := IdFile(false, 1, [])]
  {
    FreshSession(disk, idFile, grabSize);
    var g := Generator(idFile, grabSize, 1, [], [], [], false);
    FirstRecord(g);
  }
}
