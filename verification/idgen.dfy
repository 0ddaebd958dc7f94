/**
 * The record-id generator (`IdGeneratorImpl`) as a pure state machine.
 *
 * A generator file persists a clean/sticky flag, the high-water mark `highId`
 * and a FIFO list of freed ids. An open session reads the freed ids back in
 * batches of its grab size and serves them before advancing `highId`; ids freed
 * during the session go to the end of the file's list when it closes, so a
 * session never hands out an id it freed itself.
 */
module IdGenerator {
  import opened Results

  /** The exception kinds the generator raises. */
  datatype IdError = IllegalArgument | IllegalState | StoreFailure

  /**
   * `nextId` refuses to advance `highId` once it reaches this value, so the
   * largest id ever handed out is 4294967293 (0xFFFFFFFD).
   */
  const MaxHighId: nat := 4294967294

  /** The persisted generator file: header flag, high-water mark, freed ids. */
  datatype IdFile = IdFile(sticky: bool, highId: nat, freeIds: seq<nat>)

  /** The file `createGenerator` writes: clean, `highId` 0, no freed ids. */
  const EmptyFile: IdFile := IdFile(false, 0, [])

  /** The directory of generator files, by file name. */
  type Disk = map<string, IdFile>

  /**
   * An open (or closed) generator session.
   * `unread`: freed ids in the file that have not been read ahead yet;
   * `readAhead`: the batch read from the file, served first-in first-out;
   * `freed`: ids released during this session, in release order.
   */
  datatype Generator = Generator(
    name: string,
    grabSize: nat,
    highId: nat,
    unread: seq<nat>,
    readAhead: seq<nat>,
    freed: seq<nat>,
    closed: bool)
  {
    /** The ids this session will hand out, in order, before advancing `highId`. */
    function Pending(): seq<nat> {
      readAhead + unread
    }
  }

  /** Well-formed session shape: a read-ahead batch is refilled as soon as it runs dry. */
  ghost predicate Valid(g: Generator) {
    && g.grabSize > 0
    && |g.readAhead| <= g.grabSize
    && (g.readAhead == [] ==> g.unread == [])
  }

  function Min(a: nat, b: nat): nat {
    if a < b then a else b
  }

  /**
   * Reads the next batch of at most `grabSize` freed ids from the file once the
   * read-ahead batch is empty.
   */
  function Refill(g: Generator): (r: Generator)
    requires g.grabSize > 0
    requires |g.readAhead| <= g.grabSize
    ensures r.Pending() == g.Pending()
    ensures Valid(r)
    ensures r.(unread := g.unread, readAhead := g.readAhead) == g
    ensures g.readAhead != [] ==> r == g
    ensures g.readAhead == [] ==>
      var n := Min(g.grabSize, |g.unread|);
      r.readAhead == g.unread[..n] && r.unread == g.unread[n..]
  {
    if g.readAhead != [] then g
    else
      var n := Min(g.grabSize, |g.unread|);
      assert g.unread[..n] + g.unread[n..] == g.unread;
      g.(readAhead := g.unread[..n], unread := g.unread[n..])
  }

  /** `createGenerator(fileName)`. `None` models a null file name. */
  function CreateGenerator(disk: Disk, name: Option<string>): (r: Result<Disk, IdError>)
    ensures r.Success? <==> name.Some? && name.value !in disk
    ensures r.Success? ==> r.value == disk[name.value := EmptyFile]
    ensures name.None? ==> r == Failure(IllegalArgument)
    ensures name.Some? && name.value in disk ==> r == Failure(IllegalState)
  {
    if name.None? then Failure(IllegalArgument)
    else if name.value in disk then Failure(IllegalState)
    else Success(disk[name.value := EmptyFile])
  }

  /**
   * `new IdGeneratorImpl(fileName, grabSize)`: validates the grab size, refuses a
   * missing or sticky file, marks the file sticky and reads the first batch.
   */
  function Open(disk: Disk, name: string, grabSize: int): (r: Result<(Disk, Generator), IdError>)
    ensures grabSize < 1 ==> r == Failure(IllegalArgument)
    ensures grabSize >= 1 && (name !in disk || disk[name].sticky) ==> r == Failure(StoreFailure)
    ensures r.Success? <==> grabSize >= 1 && name in disk && !disk[name].sticky
    ensures r.Success? ==>
      var (disk', g) := r.value;
      && disk' == disk[name := disk[name].(sticky := true)]
      && Valid(g) && !g.closed && g.name == name && g.grabSize == grabSize
      && g.highId == disk[name].highId
      && g.Pending() == disk[name].freeIds
      && g.readAhead == disk[name].freeIds[..Min(grabSize, |disk[name].freeIds|)]
      && g.freed == []
  {
    if grabSize < 1 then Failure(IllegalArgument)
    else if name !in disk then Failure(StoreFailure)
    else
      var f := disk[name];
      if f.sticky then Failure(StoreFailure)
      else
        var g := Refill(Generator(name, grabSize, f.highId, f.freeIds, [], [], false));
        Success((disk[name := f.(sticky := true)], g))
  }

  /**
   * `nextId()`: the head of the read-ahead batch if there is one, otherwise
   * `highId`, which then advances.
   */
  function NextId(g: Generator): (r: Result<(Generator, nat), IdError>)
    requires Valid(g)
    ensures g.closed ==> r == Failure(IllegalState)
    ensures !g.closed && g.Pending() == [] && g.highId >= MaxHighId ==> r == Failure(StoreFailure)
    ensures r.Success? ==>
      var (g', id) := r.value;
      && Valid(g')
      && g'.(unread := g.unread, readAhead := g.readAhead, highId := g.highId) == g
      && (g.Pending() != [] ==> id == g.Pending()[0] && g'.Pending() == g.Pending()[1..] && g'.highId == g.highId)
      && (g.Pending() == [] ==> id == g.highId && g'.highId == g.highId + 1 && g'.Pending() == [])
      && (|g.readAhead| > 1 ==> g'.readAhead == g.readAhead[1..] && g'.unread == g.unread)
      && (|g.readAhead| == 1 ==>
            var n := Min(g.grabSize, |g.unread|);
            g'.readAhead == g.unread[..n] && g'.unread == g.unread[n..])
    ensures r.Success? <==> !g.closed && (g.Pending() != [] || g.highId < MaxHighId)
  {
    if g.closed then Failure(IllegalState)
    else if g.readAhead != [] then
      var id := g.readAhead[0];
      assert g.Pending()[1..] == g.readAhead[1..] + g.unread;
      Success((Refill(g.(readAhead := g.readAhead[1..])), id))
    else if g.highId >= MaxHighId then Failure(StoreFailure)
    else Success((g.(highId := g.highId + 1), g.highId))
  }

  /**
   * The high-water mark as `getHighId()` reports it; a closed generator has
   * forgotten it and reports -1.
   */
  function GetHighId(g: Generator): (r: int)
    ensures r == -1 <==> g.closed
    ensures !g.closed ==> r == g.highId
  {
    if g.closed then -1 else g.highId
  }

  /**
   * `freeId(id)`: ids outside `[0, getHighId())` are illegal arguments (every id
   * is, once closed); a legal id joins this session's freed list.
   */
  function FreeId(g: Generator, id: int): (r: Result<Generator, IdError>)
    ensures r.Failure? <==> id < 0 || id >= GetHighId(g)
    ensures r.Failure? ==> r.error == IllegalArgument
    ensures g.closed ==> r.Failure?
    ensures r.Success? ==> r.value == g.(freed := g.freed + [id])
  {
    if id < 0 || id >= GetHighId(g) then Failure(IllegalArgument)
    else Success(g.(freed := g.freed + [id]))
  }

  /** `setHighId(id)`: the administrative override of the high-water mark. */
  function SetHighId(g: Generator, id: nat): (r: Result<Generator, IdError>)
    ensures r.Failure? <==> g.closed
    ensures r.Failure? ==> r.error == IllegalState
    ensures r.Success? ==> GetHighId(r.value) == id && r.value.(highId := g.highId) == g
  {
    if g.closed then Failure(IllegalState)
    else Success(g.(highId := id))
  }

  /**
   * `close()`: writes the file back clean with the final `highId`; the freed
   * list keeps the ids still unread, then the ids freed in this session, then
   * the read-ahead ids that were never handed out. Closing twice does nothing.
   */
  function Close(disk: Disk, g: Generator): (r: (Disk, Generator))
    ensures g.closed ==> r == (disk, g)
    ensures !g.closed ==>
      && r.0 == disk[g.name := IdFile(false, g.highId, g.unread + g.freed + g.readAhead)]
      && r.1.closed
  {
    if g.closed then (disk, g)
    else (disk[g.name := IdFile(false, g.highId, g.unread + g.freed + g.readAhead)], g.(closed := true))
  }
}
