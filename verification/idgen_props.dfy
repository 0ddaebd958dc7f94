/**
 * Properties of the generator model that hold for every input, beyond the
 * fixed scripts: what a run of `nextId` calls hands out, that a session never
 * hands out an id it freed or one still in use, and that a reopened session
 * serves exactly the ids the previous one left in the file before it advances
 * `highId`.
 */
module IdGeneratorProps {
  import opened Results
  import opened IdGenerator

  /** `n` consecutive `nextId` calls: the session afterwards and the ids, in order. */
  function Draw(g: Generator, n: nat): (r: Result<(Generator, seq<nat>), IdError>)
    requires Valid(g)
    ensures r.Success? ==> Valid(r.value.0) && |r.value.1| == n
    decreases n
  {
    if n == 0 then Success((g, []))
    else
      var first :- NextId(g);
      var more :- Draw(first.0, n - 1);
      Success((more.0, [first.1] + more.1))
  }

  /** `freeId` of each id in turn. */
  function FreeAll(g: Generator, ids: seq<int>): (r: Result<Generator, IdError>)
    decreases |ids|
  {
    if ids == [] then Success(g)
    else
      var g' :- FreeId(g, ids[0]);
      FreeAll(g', ids[1..])
  }

  /** The ids `from`, `from + 1`, ..., `from + n - 1`. */
  function Range(from: nat, n: nat): (r: seq<nat>)
    ensures |r| == n
    ensures forall i | 0 <= i < n :: r[i] == from + i
  {
    seq(n, i requires 0 <= i < n => from + i)
  }

  /**
   * While pending ids remain, `nextId` serves them in order and `highId` stays
   * put: the first `n` calls return the first `n` pending ids.
   */
  lemma {:induction false} DrawPending(g: Generator, n: nat)
    requires Valid(g) && !g.closed && n <= |g.Pending()|
    ensures Draw(g, n).Success?
    ensures var (g', ids) := Draw(g, n).value;
      && ids == g.Pending()[..n]
      && g'.Pending() == g.Pending()[n..]
      && g' == g.(unread := g'.unread, readAhead := g'.readAhead)
    decreases n
  {
    if n > 0 {
      var (g1, id) := NextId(g).value;
      DrawPending(g1, n - 1);
      assert g.Pending()[..n] == [id] + g.Pending()[1..][..n - 1];
      assert g.Pending()[1..][n - 1..] == g.Pending()[n..];
    }
  }

  /** With nothing pending, `nextId` hands out `highId`, `highId + 1`, ... up to the capacity. */
  lemma {:induction false} DrawFresh(g: Generator, n: nat)
    requires Valid(g) && !g.closed && g.Pending() == []
    requires g.highId + n <= MaxHighId
    ensures Draw(g, n).Success?
    ensures var (g', ids) := Draw(g, n).value;
      ids == Range(g.highId, n) && g' == g.(highId := g.highId + n)
    decreases n
  {
    if n > 0 {
      var (g1, id) := NextId(g).value;
      DrawFresh(g1, n - 1);
      assert g.unread == [] && g.readAhead == [];
    }
  }

  /** Past the capacity, and with nothing pending, `nextId` is a store failure. */
  lemma CapacityExceeded(g: Generator)
    requires Valid(g) && !g.closed && g.Pending() == [] && g.highId >= MaxHighId
    ensures NextId(g) == Failure(StoreFailure)
  {
  }

  /** Pending ids first, then fresh ids from `highId`. */
  lemma {:induction false} DrawAll(g: Generator, m: nat)
    requires Valid(g) && !g.closed
    requires g.highId + m <= MaxHighId
    ensures Draw(g, |g.Pending()| + m).Success?
    ensures Draw(g, |g.Pending()| + m).value.1 == g.Pending() + Range(g.highId, m)
    decreases |g.Pending()|
  {
    if g.Pending() == [] {
      DrawFresh(g, m);
    } else {
      var (g1, id) := NextId(g).value;
      DrawAll(g1, m);
      assert [id] + g1.Pending() == g.Pending();
    }
  }

  /** Freeing ids that all lie below the high mark of an open session appends them to its freed list. */
  lemma {:induction false} FreeAllAppends(g: Generator, ids: seq<int>)
    requires !g.closed
    requires forall i | 0 <= i < |ids| :: 0 <= ids[i] < g.highId
    ensures FreeAll(g, ids).Success?
    ensures FreeAll(g, ids).value == g.(freed := g.freed + ids)
    decreases |ids|
  {
    if ids != [] {
      var g' := g.(freed := g.freed + [ids[0]]);
      FreeAllAppends(g', ids[1..]);
      assert g.freed + [ids[0]] + ids[1..] == g.freed + ids;
    }
  }

  // -------------------------------------------------------------------------
  // No id is handed out twice.

  predicate Distinct(s: seq<nat>) {
    forall i, j | 0 <= i < j < |s| :: s[i] != s[j]
  }

  lemma DistinctConcat(a: seq<nat>, b: seq<nat>)
    ensures Distinct(a + b) <==> Distinct(a) && Distinct(b) && (forall x | x in a :: x !in b)
  {
    if Distinct(a + b) {
      assert forall i, j | 0 <= i < j < |a| :: a[i] == (a + b)[i] && a[j] == (a + b)[j];
      assert forall i, j | 0 <= i < j < |b| :: b[i] == (a + b)[|a| + i] && b[j] == (a + b)[|a| + j];
      forall x | x in a
        ensures x !in b
      {
        var i :| 0 <= i < |a| && a[i] == x;
        assert forall j | 0 <= j < |b| :: b[j] == (a + b)[|a| + j] != (a + b)[i];
      }
    }
    if Distinct(a) && Distinct(b) && (forall x | x in a :: x !in b) {
      forall i, j | 0 <= i < j < |a + b|
        ensures (a + b)[i] != (a + b)[j]
      {
        if j < |a| {
        } else if i >= |a| {
          assert (a + b)[i] == b[i - |a|] && (a + b)[j] == b[j - |a|];
        } else {
          assert (a + b)[i] == a[i] && (a + b)[j] == b[j - |a|];
          assert a[i] in a;
        }
      }
    }
  }

  /**
   * The allocation invariant of a session, relative to the ids its caller holds
   * (`inUse`): the ids still to be served and the ids freed in this session are
   * all distinct and all below `highId`, and none of them is in use.
   */
  ghost predicate Sound(g: Generator, inUse: set<nat>) {
    && Valid(g)
    && Distinct(g.Pending() + g.freed)
    && (forall x | x in g.Pending() + g.freed :: x < g.highId)
    && (forall x | x in inUse :: x < g.highId && x !in g.Pending() + g.freed)
  }

  /**
   * `nextId` never returns an id freed earlier in the same session, nor one the
   * caller still holds; the caller then holds the new id too.
   */
  lemma NextIdSound(g: Generator, inUse: set<nat>)
    requires Sound(g, inUse) && NextId(g).Success?
    ensures var (g', id) := NextId(g).value;
      && id !in g.freed
      && id !in inUse
      && Sound(g', inUse + {id})
  {
    var (g', id) := NextId(g).value;
    var s := g.Pending() + g.freed;
    var s' := g'.Pending() + g'.freed;
    DistinctConcat(g.Pending(), g.freed);
    if g.Pending() != [] {
      assert s == [id] + s';
      DistinctConcat([id], s');
      assert id in g.Pending();
      assert forall x | x in s' :: x in s;
    } else {
      assert s == s' == g.freed;
    }
  }

  /** Freeing an id the caller holds keeps the invariant; the id is no longer in use. */
  lemma FreeIdSound(g: Generator, inUse: set<nat>, id: nat)
    requires Sound(g, inUse) && !g.closed && id in inUse
    ensures FreeId(g, id).Success?
    ensures Sound(FreeId(g, id).value, inUse - {id})
  {
    var g' := FreeId(g, id).value;
    assert g'.Pending() + g'.freed == (g.Pending() + g.freed) + [id];
    DistinctConcat(g.Pending() + g.freed, [id]);
  }

  /** Raising the high mark keeps the invariant. Lowering it is outside it. */
  lemma SetHighIdSound(g: Generator, inUse: set<nat>, h: nat)
    requires Sound(g, inUse) && !g.closed && h >= g.highId
    ensures SetHighId(g, h).Success?
    ensures Sound(SetHighId(g, h).value, inUse)
  {
  }

  /**
   * Closing a session and reopening its file gives a session that holds the
   * invariant for the same ids in use, resumes at the same `highId`, and will
   * serve the ids left unread, then the ids freed in the closed session, then
   * the read-ahead ids the closed session never used.
   */
  lemma ReopenSound(disk: Disk, g: Generator, inUse: set<nat>, grabSize: int)
    requires Sound(g, inUse) && !g.closed && grabSize >= 1
    ensures var (disk', closed) := Close(disk, g);
      && Open(disk', g.name, grabSize).Success?
      && var g' := Open(disk', g.name, grabSize).value.1;
      && Sound(g', inUse)
      && g'.highId == g.highId
      && g'.Pending() == g.unread + g.freed + g.readAhead
  {
    var (disk', _) := Close(disk, g);
    var g' := Open(disk', g.name, grabSize).value.1;
    assert g.Pending() + g.freed == g.readAhead + (g.unread + g.freed);
    DistinctConcat(g.readAhead, g.unread + g.freed);
    DistinctConcat(g.unread + g.freed, g.readAhead);
    assert g'.Pending() + g'.freed == (g.unread + g.freed) + g.readAhead;
    assert forall x :: x in g'.Pending() + g'.freed <==> x in g.Pending() + g.freed;
  }

  /**
   * A reopened session hands out exactly the ids written to the file, in file
   * order, before it advances `highId`; after them come fresh ids from the
   * persisted `highId`.
   */
  lemma ReopenServesFreedFirst(disk: Disk, name: string, grabSize: int, n: nat, m: nat)
    requires grabSize >= 1 && name in disk && !disk[name].sticky
    requires disk[name].highId + m <= MaxHighId
    ensures Open(disk, name, grabSize).Success?
    ensures var g := Open(disk, name, grabSize).value.1;
      var freeIds := disk[name].freeIds;
      && (n <= |freeIds| ==>
            Draw(g, n).Success? && Draw(g, n).value.1 == freeIds[..n]
            && Draw(g, n).value.0.highId == disk[name].highId)
      && Draw(g, |freeIds| + m).Success?
      && Draw(g, |freeIds| + m).value.1 == freeIds + Range(disk[name].highId, m)
  {
    var g := Open(disk, name, grabSize).value.1;
    if n <= |g.Pending()| {
      DrawPending(g, n);
    }
    DrawAll(g, m);
  }

  /**
   * The first batch read ahead is exactly `grabSize` ids (or all of them, if
   * fewer): a session closed without handing any out moves that batch to the
   * end of the file's list, behind the ids it never read.
   */
  lemma OpenThenClose(disk: Disk, name: string, grabSize: int)
    requires grabSize >= 1 && name in disk && !disk[name].sticky
    ensures Open(disk, name, grabSize).Success?
    ensures var (disk', g) := Open(disk, name, grabSize).value;
      var f := disk[name];
      var n := Min(grabSize, |f.freeIds|);
      Close(disk', g).0 == disk[name := IdFile(false, f.highId, f.freeIds[n..] + f.freeIds[..n])]
  {
    var (disk', g) := Open(disk, name, grabSize).value;
    var f := disk[name];
    var n := Min(grabSize, |f.freeIds|);
    assert g.readAhead + g.unread == f.freeIds;
    assert g.unread == f.freeIds[n..];
    assert g.unread + g.freed + g.readAhead == f.freeIds[n..] + f.freeIds[..n];
    assert disk'[name := IdFile(false, g.highId, g.unread + g.freed + g.readAhead)]
        == disk[name := IdFile(false, f.highId, f.freeIds[n..] + f.freeIds[..n])];
  }

  // -------------------------------------------------------------------------
  // testOddAndEvenWorstCase, for any set of freed ids.

  /**
   * The scenario of the test, for any capacity, grab sizes and freed ids:
   * create a generator, allocate `capacity` ids with grab size `grab1`, free
   * the ids `freed`, close, reopen with grab size `grab2`, and allocate
   * `|freed|` ids. The result is the ids of that last run.
   */
  function FreeThenReopen(capacity: nat, grab1: int, grab2: int, freed: seq<nat>): (r: Result<seq<nat>, IdError>)
  {
    var disk :- CreateGenerator(map[], Some(ScenarioFile));
    var session :- Open(disk, ScenarioFile, grab1);
    var drawn :- Draw(session.1, capacity);
    var g :- FreeAll(drawn.0, freed);
    var closed := Close(session.0, g);
    var reopened :- Open(closed.0, ScenarioFile, grab2);
    var again :- Draw(reopened.1, |freed|);
    Success(again.1)
  }

  const ScenarioFile := "testIdGenerator.id"

  /** The reopened session hands back exactly the freed ids, in the order they were freed. */
  lemma FreeAndReopen(capacity: nat, grab1: int, grab2: int, freed: seq<nat>)
    requires grab1 >= 1 && grab2 >= 1 && capacity <= MaxHighId
    requires forall i | 0 <= i < |freed| :: freed[i] < capacity
    ensures FreeThenReopen(capacity, grab1, grab2, freed) == Success(freed)
  {
    var disk := CreateGenerator(map[], Some(ScenarioFile)).value;
    var (disk1, g1) := Open(disk, ScenarioFile, grab1).value;
    DrawFresh(g1, capacity);
    var g2 := Draw(g1, capacity).value.0;
    assert g2.highId == capacity;
    FreeAllAppends(g2, freed);
    var g3 := FreeAll(g2, freed).value;
    var (disk2, _) := Close(disk1, g3);
    assert disk2[ScenarioFile] == IdFile(false, capacity, freed);
    ReopenServesFreedFirst(disk2, ScenarioFile, grab2, |freed|, 0);
  }

  /** The odd ids below `capacity`, in increasing order. */
  function Odds(capacity: nat): (r: seq<nat>)
    ensures forall i | 0 <= i < |r| :: r[i] < capacity && r[i] % 2 == 1
  {
    seq(capacity / 2, i requires 0 <= i < capacity / 2 => 2 * i + 1)
  }

  /** The even ids below `capacity`, in increasing order. */
  function Evens(capacity: nat): (r: seq<nat>)
    ensures forall i | 0 <= i < |r| :: r[i] < capacity && r[i] % 2 == 0
  {
    seq((capacity + 1) / 2, i requires 0 <= i < (capacity + 1) / 2 => 2 * i)
  }

  /**
   * The worst case of the test: 8193 ids, every odd (then every even) id freed
   * with grab size 128, reopened with grab size 2000. The 4096 odd (4097 even)
   * ids come back, each exactly once, and nothing else does.
   */
  lemma OddAndEvenWorstCase()
    ensures |Odds(8193)| == 4096 && |Evens(8193)| == 4097
    ensures Distinct(Odds(8193)) && Distinct(Evens(8193))
    ensures FreeThenReopen(8193, 128, 2000, Odds(8193)) == Success(Odds(8193))
    ensures FreeThenReopen(8193, 128, 2000, Evens(8193)) == Success(Evens(8193))
  {
    FreeAndReopen(8193, 128, 2000, Odds(8193));
    FreeAndReopen(8193, 128, 2000, Evens(8193));
  }
}
