# Neo4j record-store core in Dafny

This project models four pieces of an early Neo4j kernel and proves properties about them.

- **The record-id generator** (`IdGeneratorImpl`), as a pure state machine over a directory of generator files:
  - `createGenerator`;
  - opening a session with a grab size;
  - `nextId`, `freeId`, `setHighId`, `getHighId` and `close`.

  A generator file holds a clean/sticky flag, the high-water mark `highId`, and a first-in first-out list of freed ids. An open session:
  - reads freed ids back in batches of its grab size;
  - serves those before it advances `highId`;
  - appends the ids freed during the session at close, so the session never reuses them itself.

  The on-disk layout of the file is modelled byte for byte: a 9-byte header, then 8-byte entries. The implementation class is not part of this model; its behaviour is taken from `TestIdGenerator`. Every deterministic scenario of that test is replayed against the model call by call, with the exact ids and exceptions the test expects. The properties behind the scenarios are then proved for all inputs:
  - no id is handed out twice;
  - a session never reuses an id it freed itself;
  - a reopened session serves the freed ids in file order before fresh ones;
  - the odd/even worst case holds for any set of freed ids.
- **The node store** (`NodeStore`): a file of 9-byte node records. Each record is the in-use flag byte, then the first relationship id and the first property id, each a big-endian 32-bit int. Record `id` sits at offset `id * 9`.
  - There are two read paths and two write paths. A window is a buffer holding a run of consecutive records. The other path transfers bytes directly between the file and a caller's buffer.
  - Both paths are modelled over the same byte sequence. The window read is proved to agree with the corrected transfer read. The transfer read as written does not refuse a free record (see Findings).
  - Writing a record and reading it back returns the record.
  - A window write first grows the file to the end of the window. Writing a record that is not in use through a window then changes only its flag byte, and frees the id unless the store is in recovery.
  - A transferable record that no window holds is written by copying its transfer bytes to `id * 9`, whatever its flag. This path never frees an id.
  - `createStore` writes node 0 in use.
- **Service lookup** (`org.neo4j.helpers.Service`):
  - how key sets are built;
  - exact and case-insensitive key matching;
  - `load(type, key)`, which returns the first matching implementation or raises `NoSuchElementException`;
  - the fallback order of the four loaders;
  - `filterExceptions`.
- **`LockableNode`** of the HA layer:
  - `getId`, `equals`, `hashCode` and `toString` are real;
  - every other `Node` operation raises `UnsupportedOperationException("Lockable node")`.

Files:
- `results.dfy`: `Option` and `Result`.
- `bytes.dfy`: bytes, 32- and 64-bit two's-complement big-endian encodings, and their round trips.
- `idgen.dfy`: the generator.
- `idfile.dfy`: the generator file layout.
- `idgen_props.dfy`: the all-inputs generator properties.
- `idgen_scripts.dfy`: the test scenarios.
- `nodestore.dfy`: the node store.
- `service.dfy`: service lookup.
- `lockable.dfy`: `LockableNode`.

Exceptions are modelled as `Failure` values:
- `IllegalArgument`, `IllegalState` and `StoreFailure` for the generator;
- `NotInUse(id)` for a strict read of a free record ("Record[id] not in use");
- `NoSuchElement(message)` for service lookup;
- `UnsupportedOperation(message)` for the lockable node.

## Model

| member | source | states |
|---|---|---|
| IdGenerator.CreateGenerator | kernel/src/test/java/org/neo4j/kernel/impl/nioneo/store/TestIdGenerator.java:61-99 | A null name is an illegal argument. An existing file is an illegal state. Otherwise exactly one new file is added: clean, high id 0, no freed ids. |
| IdGenerator.Open | kernel/src/test/java/org/neo4j/kernel/impl/nioneo/store/TestIdGenerator.java:69-85 | A grab size below 1 is an illegal argument; a missing or sticky file is a store failure; and these are the only failures. On success the file is marked sticky, and the session starts at the file's high id. Its pending ids are exactly the file's freed ids, in order. The first batch read ahead is exactly the first min(grabSize, number of freed ids) of them. |
| IdGenerator.NextId | kernel/src/test/java/org/neo4j/kernel/impl/nioneo/store/TestIdGenerator.java:162-169 | On a closed generator: illegal state. Otherwise it returns the first pending id, or else the high id, which then advances. Once the high id reaches 4294967294 with nothing pending, it is a store failure. It succeeds exactly when neither failure applies, and nothing else in the session changes. Taking the last read-ahead id reads the next batch: exactly the next min(grabSize, number unread) ids. |
| IdGenerator.GetHighId | kernel/src/test/java/org/neo4j/kernel/impl/nioneo/store/TestIdGenerator.java:470-471 | The session's high id; -1 exactly when closed. |
| IdGenerator.FreeId | kernel/src/test/java/org/neo4j/kernel/impl/nioneo/store/TestIdGenerator.java:222-241 | Ids below 0 or at least the high id are illegal arguments, and so is every id after close. A legal id is appended to the session's freed list and nothing else changes. |
| IdGenerator.SetHighId | kernel/src/test/java/org/neo4j/kernel/impl/nioneo/store/TestIdGenerator.java:456-460 | Fails (illegal state) exactly when closed. Otherwise getHighId reports the new value and nothing else changes. |
| IdGenerator.Close | kernel/src/test/java/org/neo4j/kernel/impl/nioneo/store/TestIdGenerator.java:242-252 | The file is written back clean with the session's high id. Its freed list is the unread ids, then the ids freed in the session, then the read-ahead ids never handed out. Closing again changes nothing. |
| IdGenerator.Refill | kernel/src/test/java/org/neo4j/kernel/impl/nioneo/store/TestIdGenerator.java:243-252 | With ids still read ahead, nothing changes. With none, the next batch is exactly the first min(grabSize, number unread) unread ids, and the rest stay unread. The order of pending ids never changes, and the session stays well-formed. |
| IdFileFormat.Encode | kernel/src/test/java/org/neo4j/kernel/impl/nioneo/store/TestIdGenerator.java:102-115 | The file is 9 + 8·n bytes long. The first byte is the sticky flag, and bytes 1..8 decode to the high id. |
| IdFileFormat.EncodeIds | kernel/src/test/java/org/neo4j/kernel/impl/nioneo/store/TestIdGenerator.java:102-115 | Entry i of the body decodes to the i-th freed id. |
| IdFileFormat.DecodeIds | kernel/src/test/java/org/neo4j/kernel/impl/nioneo/store/TestIdGenerator.java:102-115 | The body is corrupt exactly when some 8-byte entry is negative. Otherwise entry i is the i-th freed id. |
| IdFileFormat.Decode | kernel/src/test/java/org/neo4j/kernel/impl/nioneo/store/TestIdGenerator.java:102-115 | A file shorter than the header, a body that is not whole entries, or a negative high id is corrupt. Otherwise the flag, high id and freed ids are read from their bytes. |
| IdFileFormat.RoundTrip | kernel/src/test/java/org/neo4j/kernel/impl/nioneo/store/TestIdGenerator.java:102-115 | Decoding an encoded generator file gives it back. |
| IdFileFormat.BytesRoundTrip | kernel/src/test/java/org/neo4j/kernel/impl/nioneo/store/TestIdGenerator.java:102-115 | A well-formed file with a canonical flag byte is re-encoded to the same bytes. |
| IdFileFormat.EmptyFileIsHeader | kernel/src/test/java/org/neo4j/kernel/impl/nioneo/store/TestIdGenerator.java:102-115 | A freshly created generator file is nine zero bytes. |
| IdGeneratorScripts.CreateScript | kernel/src/test/java/org/neo4j/kernel/impl/nioneo/store/TestIdGenerator.java:58-126 | Each call of testCreateIdGenerator has the outcome the test expects: illegal arguments for a null name and grab sizes 0 and -1, illegal state on re-creation, and a clean empty file at the end. |
| IdGeneratorScripts.CreatedFileIsHeader | kernel/src/test/java/org/neo4j/kernel/impl/nioneo/store/TestIdGenerator.java:100-115 | After that scenario the file is exactly the 9-byte header: flag 0, high id 0, nothing after it. |
| IdGeneratorScripts.StickyScript | kernel/src/test/java/org/neo4j/kernel/impl/nioneo/store/TestIdGenerator.java:128-153 | A second open of an open file is a store failure. After close the file opens again, as in testClose. |
| IdGeneratorScripts.NextIdScript | kernel/src/test/java/org/neo4j/kernel/impl/nioneo/store/TestIdGenerator.java:155-209 | testNextId returns exactly 0..6, 7, then 1, 3, 5, 6, 8, 9, then 2, 4, 1, 3, 5, 6, 8, 9, 10, 11. The final file has high id 12 and no freed ids. |
| IdGeneratorScripts.FreeIdScript | kernel/src/test/java/org/neo4j/kernel/impl/nioneo/store/TestIdGenerator.java:211-263 | testFreeId rejects -1 and 7, then returns 0, 1, 2, then 4, 5, 6, 3. |
| IdGeneratorScripts.CloseScript | kernel/src/test/java/org/neo4j/kernel/impl/nioneo/store/TestIdGenerator.java:265-319 | After close, nextId is an illegal state and freeId an illegal argument, on both sessions. The reopened session returns 0, 1, 2. |
| IdGeneratorScripts.UnsignedScript | kernel/src/test/java/org/neo4j/kernel/impl/nioneo/store/TestIdGenerator.java:451-491 | testUnsignedId: 4294967293 is handed out, and the next nextId exceeds the capacity. The reopened session reports high id 4294967294 and hands out 4294967293 again. |
| IdGeneratorProps.DrawPending | kernel/src/test/java/org/neo4j/kernel/impl/nioneo/store/TestIdGenerator.java:188-196 | n calls of nextId with at least n ids pending return the first n pending ids, in order, without touching the high id. |
| IdGeneratorProps.DrawFresh | kernel/src/test/java/org/neo4j/kernel/impl/nioneo/store/TestIdGenerator.java:162-165 | With nothing pending and room below the limit, n calls of nextId return highId, highId+1, … and advance the high id by n. |
| IdGeneratorProps.CapacityExceeded | kernel/src/test/java/org/neo4j/kernel/impl/nioneo/store/TestIdGenerator.java:462-468 | With nothing pending at the limit, nextId is a store failure. |
| IdGeneratorProps.DrawAll | kernel/src/test/java/org/neo4j/kernel/impl/nioneo/store/TestIdGenerator.java:188-198 | Draining a session returns all pending ids, then fresh ids from the high id. |
| IdGeneratorProps.FreeAllAppends | kernel/src/test/java/org/neo4j/kernel/impl/nioneo/store/TestIdGenerator.java:238-241 | Freeing a list of legal ids appends them, in order, to the session's freed list. |
| IdGeneratorProps.NextIdSound | kernel/src/test/java/org/neo4j/kernel/impl/nioneo/store/TestIdGenerator.java:166-169 | Under the allocation invariant, nextId returns neither an id freed in this session nor one still in use, and the invariant holds with the new id in use. |
| IdGeneratorProps.FreeIdSound | kernel/src/test/java/org/neo4j/kernel/impl/nioneo/store/TestIdGenerator.java:238-241 | Freeing an id in use succeeds and keeps the invariant with that id released. |
| IdGeneratorProps.SetHighIdSound | kernel/src/test/java/org/neo4j/kernel/impl/nioneo/store/TestIdGenerator.java:456-458 | Raising the high id keeps the invariant. |
| IdGeneratorProps.ReopenSound | kernel/src/test/java/org/neo4j/kernel/impl/nioneo/store/TestIdGenerator.java:242-252 | Close then reopen succeeds. The new session keeps the invariant for the same ids in use and resumes at the same high id. It serves the unread ids, then the freed ones, then the unused read-ahead ids. |
| IdGeneratorProps.ReopenServesFreedFirst | kernel/src/test/java/org/neo4j/kernel/impl/nioneo/store/TestIdGenerator.java:188-198 | A reopened session hands out the file's freed ids in file order before any fresh id. After them come fresh ids from the persisted high id. |
| IdGeneratorProps.FreeAndReopen | kernel/src/test/java/org/neo4j/kernel/impl/nioneo/store/TestIdGenerator.java:327-353 | For any capacity, grab sizes and freed ids below the capacity, the same sequence of calls as testOddAndEvenWorstCase gives back exactly the freed ids, in freeing order and with the same multiplicity. |
| IdGeneratorProps.OpenThenClose | kernel/src/test/java/org/neo4j/kernel/impl/nioneo/store/TestIdGenerator.java:243-252 | Opening a file and closing it at once, with no call in between, rewrites its freed list as the ids after the first batch, then the first batch of min(grabSize, number of freed ids) ids. The high id is kept and the file is clean again. |
| IdGeneratorProps.OddAndEvenWorstCase | kernel/src/test/java/org/neo4j/kernel/impl/nioneo/store/TestIdGenerator.java:321-396 | With 8193 ids and grab sizes 128 then 2000, the 4096 odd ids (and the 4097 even ids) come back, each exactly once. |
| NodeStore.Encode | src/java/org/neo4j/impl/nioneo/store/NodeStore.java:290-294 | A record is 9 bytes: the flag (1 if in use, else 0), then nextRel and nextProp as big-endian ints. |
| NodeStore.Decode | src/java/org/neo4j/impl/nioneo/store/NodeStore.java:255-263 | The record is in use exactly when its flag byte is 1. |
| NodeStore.RecordRoundTrip | src/java/org/neo4j/impl/nioneo/store/NodeStore.java:255-294 | Reading back the bytes of a written record gives the record. |
| NodeStore.RecordBytesRoundTrip | src/java/org/neo4j/impl/nioneo/store/NodeStore.java:255-294 | Record bytes with a 0 or 1 flag are re-encoded unchanged. |
| NodeStore.WindowShowsFile | src/java/org/neo4j/impl/nioneo/store/NodeStore.java:253-254 | A window taken from the file shows each record it covers at `(id - position) * 9`, with the bytes the file holds at `id * 9`. |
| NodeStore.ReadWindow | src/java/org/neo4j/impl/nioneo/store/NodeStore.java:117-127 | The window the pool supplies for a read starts at the requested position and lies within the file. |
| NodeStore.ReadWindowShowsFile | src/java/org/neo4j/impl/nioneo/store/NodeStore.java:117-127 | A read window taken for a record in the file covers it and shows the bytes the file holds at `id * 9`. |
| NodeStore.WindowGetRecord | src/java/org/neo4j/impl/nioneo/store/NodeStore.java:250-265 | A strict read of a free record fails with "not in use", and that is its only failure. Otherwise the record is decoded from its 9 bytes. |
| NodeStore.TransferGetRecordAsWritten | src/java/org/neo4j/impl/nioneo/store/NodeStore.java:101-116 | Whatever the flag byte holds, the record comes back marked in use. On an in-use slot this is the corrected read. |
| NodeStore.TransferReadOfFreeRecord | src/java/org/neo4j/impl/nioneo/store/NodeStore.java:108-111 | On a file of one free record, the as-written transfer read returns an in-use record, while the window read fails. |
| NodeStore.TransferGetRecord | src/java/org/neo4j/impl/nioneo/store/NodeStore.java:101-116 | The corrected transfer read: a free record fails with "not in use". Otherwise it returns the in-use record whose encoding is the slot's bytes. |
| NodeStore.GetRecord | src/java/org/neo4j/impl/nioneo/store/NodeStore.java:92-128 | Uses the corrected transfer read (see Findings). On either path, the read fails with "not in use" exactly when the record's flag is not 1. Otherwise it returns the in-use record whose encoding is the bytes at `id * 9`. |
| NodeStore.LoadLightNode | src/java/org/neo4j/impl/nioneo/store/NodeStore.java:152-194 | On either path and with any read window covering the record, true exactly when the flag byte at `id * 9` is 1; it never fails. |
| NodeStore.ReadPathsAgree | src/java/org/neo4j/impl/nioneo/store/NodeStore.java:92-194 | The window read and the corrected transfer read agree for any read window covering the record: the strict reads give the same result, and `loadLightNode`'s two paths give the same answer. On a free slot a checked window read matches the as-written transfer read apart from the in-use bit. |
| NodeStore.Written | src/java/org/neo4j/impl/nioneo/store/NodeStore.java:290-299 | An in-use record writes 9 bytes starting with flag 1; a free one writes only the flag byte 0. |
| NodeStore.WindowUpdate | src/java/org/neo4j/impl/nioneo/store/NodeStore.java:284-299 | A window write keeps the window's position and length. |
| NodeStore.WindowWriteIsFileWrite | src/java/org/neo4j/impl/nioneo/store/NodeStore.java:284-299 | A window write followed by a flush is the same as writing the record's bytes into the file at `id * 9`. |
| NodeStore.TransferRecord | src/java/org/neo4j/impl/nioneo/store/NodeStore.java:267-282 | The file grows to reach the end of the transferred bytes. Those bytes land at offset `id * 9`; every other byte is kept, and a gap past the old end is zero-filled. The generator is untouched. |
| NodeStore.TransferThenRead | src/java/org/neo4j/impl/nioneo/store/NodeStore.java:92-150 | The encoding of an in-use record, transferred to `id * 9`, reads back as that record: by a strict read on either path, through any read window that covers it. |
| NodeStore.WindowUpdateRecord | src/java/org/neo4j/impl/nioneo/store/NodeStore.java:284-305 | The window write amounts to growing the file to the window's end, then writing the record's bytes at `id * 9` (the whole record, or only flag 0). An in-use write, or any write during recovery, leaves the generator alone. |
| NodeStore.UpdateRecord | src/java/org/neo4j/impl/nioneo/store/NodeStore.java:130-150 | A transferable record that no window holds has its transfer bytes written at `id * 9`, with the generator untouched. Any other record is written at `id * 9` through its window. |
| NodeStore.WindowUpdateFrame | src/java/org/neo4j/impl/nioneo/store/NodeStore.java:290-304 | A window write changes only the record's slot. For an in-use record the slot becomes its encoding. For a free record only the flag byte changes, to 0, and bytes 1..8 keep their old values. |
| NodeStore.WriteThenRead | src/java/org/neo4j/impl/nioneo/store/NodeStore.java:92-150 | After an in-use record is written through a window, the file holds it, and a strict read on either path, through any read window covering it, returns it. |
| NodeStore.UpdateFreesIdExactly | src/java/org/neo4j/impl/nioneo/store/NodeStore.java:295-304 | A write frees the id exactly when the record is not in use and the store is not recovering; otherwise the generator is unchanged. |
| NodeStore.FreshSession | src/java/org/neo4j/impl/nioneo/store/NodeStore.java:84-86 | A freshly created generator file opens with nothing pending. Its first id is 0, and closing after it leaves a clean file with high id 1. |
| NodeStore.FirstRecord | src/java/org/neo4j/impl/nioneo/store/NodeStore.java:86-88 | Node 0, written in use into an empty record file, makes a 9-byte file whose strict read is that node. The generator is untouched. |
| NodeStore.CreateStore | src/java/org/neo4j/impl/nioneo/store/NodeStore.java:73-90 | A null file name or an existing store file is an `IOException`. Otherwise an existing id file is an illegal state and a grab size below 1 an illegal argument. Creation succeeds exactly when none of these applies, and the created store has the given name. |
| NodeStore.CreatedStore | src/java/org/neo4j/impl/nioneo/store/NodeStore.java:81-90 | A created store has the given name and carries the descriptor "NodeStore v0.9.1". It holds exactly one 9-byte record: node 0, in use, with no links. Its id file is clean with high id 1. |
| Service.Keys | kernel/src/main/java/org/neo4j/helpers/Service.java:226-237 | With no alternative keys (null or empty) the key set is just the key. Otherwise it is the alternative keys plus the key, and nothing else. |
| Service.CharEqualsIgnoreCase | kernel/src/main/java/org/neo4j/helpers/Service.java:171-178 | Two characters are equal ignoring case exactly when they agree after upper-casing then lower-casing. In particular, equal characters, and characters that are equal once upper-cased, are equal ignoring case. |
| Service.EqualsIgnoreCase | kernel/src/main/java/org/neo4j/helpers/Service.java:171-178 | Two strings are equal ignoring case exactly when they have the same length and agree, position by position, after upper-casing then lower-casing. Equal strings are equal ignoring case. |
| Service.Matches | kernel/src/main/java/org/neo4j/helpers/Service.java:171-178 | A plain service matches exactly its keys, as `keys.contains` does (245-248). A case-insensitive service matches a key exactly when one of its keys has the same length and agrees with it, position by position, after upper-casing then lower-casing. Every service matches its own keys. |
| Service.EqualsIgnoreCaseReflexiveSymmetric | kernel/src/main/java/org/neo4j/helpers/Service.java:171-178 | Equality ignoring case is reflexive and symmetric, whatever the case mappings. |
| Service.EqualsIgnoreCaseTransitive | kernel/src/main/java/org/neo4j/helpers/Service.java:171-178 | Equality ignoring case is transitive, whatever the case mappings. With reflexivity and symmetry it is an equivalence. |
| Service.MatchesOwnKeys | kernel/src/main/java/org/neo4j/helpers/Service.java:171-178 | A service, plain or case-insensitive, matches each of its own keys. |
| Service.MatchesIgnoresCase | kernel/src/main/java/org/neo4j/helpers/Service.java:171-178 | A case-insensitive service matches a key exactly when it matches every key equal to it ignoring case. |
| Service.IdentityCaseIsExact | kernel/src/main/java/org/neo4j/helpers/Service.java:171-178 | When case mapping changes nothing, a case-insensitive match is exactly a plain `keys.contains` match. |
| Service.LoadByKey | kernel/src/main/java/org/neo4j/helpers/Service.java:205-214 | `NoSuchElementException` with the "Could not find any implementation…" message exactly when no implementation matches. Otherwise the first matching implementation in loading order is returned. |
| Service.LoadFindsFirst | kernel/src/main/java/org/neo4j/helpers/Service.java:205-214 | An implementation preceded only by non-matching ones is the one found, whatever follows it. |
| Service.FilterExceptions | kernel/src/main/java/org/neo4j/helpers/Service.java:250-278 | Every element returned was retrieved before the first null, and every element retrieved before the first null is returned. Elements whose retrieval threw are skipped. |
| Service.FirstNull | kernel/src/main/java/org/neo4j/helpers/Service.java:250-278 | The position of the first null element, or the length when there is none. |
| Service.FetchedFrom | kernel/src/main/java/org/neo4j/helpers/Service.java:250-278 | The positions, in increasing order, of exactly the elements retrieved without an exception before the first null. |
| Service.FilterExceptionsInOrder | kernel/src/main/java/org/neo4j/helpers/Service.java:250-278 | The result is the retrieved elements before the first null, in iteration order and with their multiplicity: the values at `FetchedFrom`. |
| Service.FilterExceptionsAppend | kernel/src/main/java/org/neo4j/helpers/Service.java:250-278 | Without nulls, filtering a concatenation is the concatenation of the filtered parts. |
| Service.FilterExceptionsKeepsAll | kernel/src/main/java/org/neo4j/helpers/Service.java:250-278 | An iteration in which nothing throws loses nothing. |
| Service.Load | kernel/src/main/java/org/neo4j/helpers/Service.java:187-195 | The result comes from the first non-null loader, in the order OSGi, Java 6, Sun Java 5, own loader. It is empty when all four are null. |
| Lockable.GetId | ha/src/main/java/org/neo4j/kernel/ha/LockableNode.java:46-49 | The id widened to `long`, within the `int` range. |
| Lockable.GetIdIsConstructorId | ha/src/main/java/org/neo4j/kernel/ha/LockableNode.java:36-49 | `getId` gives back the id the node was constructed with. |
| Lockable.Equals | ha/src/main/java/org/neo4j/kernel/ha/LockableNode.java:91-98 | Equal exactly to the nodes of any kind with the same id; never equal to a non-node. |
| Lockable.HashCode | ha/src/main/java/org/neo4j/kernel/ha/LockableNode.java:100-103 | The hash is the id. |
| Lockable.EqualsIsIdentity | ha/src/main/java/org/neo4j/kernel/ha/LockableNode.java:91-103 | Among lockable nodes, equals is value equality, so it is reflexive, symmetric and transitive, and equal nodes hash alike. |
| Lockable.EqualsAnyNodeWithId | ha/src/main/java/org/neo4j/kernel/ha/LockableNode.java:91-98 | A lockable node equals exactly the node objects carrying its id. |
| Lockable.ToString | ha/src/main/java/org/neo4j/kernel/ha/LockableNode.java:105-108 | The printed form starts with "Lockable node #", and the rest reads back as a decimal `long` to the id. It has no leading zero: a 0 after the prefix and the sign occurs only for id 0. |
| Lockable.LongToString | ha/src/main/java/org/neo4j/kernel/ha/LockableNode.java:105-108 | The decimal form of a `long` starts with a minus sign exactly for negative values, and reads back as a decimal `long` to the same value. There is no leading zero: the first digit is 0 only in "0". |
| Lockable.LongToStringInjective | ha/src/main/java/org/neo4j/kernel/ha/LockableNode.java:105-108 | Distinct ids print differently. |
| Lockable.ToStringIdentifies | ha/src/main/java/org/neo4j/kernel/ha/LockableNode.java:105-108 | Two lockable nodes print the same exactly when they are equal. |
| Lockable.Invoke | ha/src/main/java/org/neo4j/kernel/ha/LockableNode.java:41-186 | Exactly the identity operations succeed: getId, equals, hashCode and toString. Every other `Node` operation raises `UnsupportedOperationException("Lockable node")`. |

## Left out

- `testRandomTest` is left out. It draws capacities, grab sizes and operations from a clock-seeded random generator and asserts nothing beyond normal completion. The all-inputs lemmas in `IdGeneratorProps` (`NextIdSound`, `FreeIdSound`, `ReopenSound`) cover any interleaving of its calls.
- IdGenerator.SetHighId: failing with an illegal state on a closed generator is a modelling choice. `IdGeneratorImpl` is not part of this model, and the test never calls `setHighId` after close.
- IdGenerator.Open: a missing generator file is a store failure, the same as a sticky one. This is a modelling choice, since the implementation is not part of this model.
- IdGenerator.Close: a second close does nothing. This is a modelling choice; the test never closes a generator twice.
- IdFileFormat.DecodeIds: a negative 8-byte entry makes the file corrupt. This is a modelling choice, since the implementation is not part of this model; ids are never negative.
- IdFileFormat.Decode: a negative high id makes the file corrupt, a modelling choice for the same reason.
- `IdGeneratorImpl` itself is not part of this model. Its behaviour is reconstructed from `TestIdGenerator`:
  - the batch read-ahead;
  - the order of freed ids at close;
  - the 4294967294 ceiling.
  The file body after the 9-byte header is assumed to be 8-byte big-endian entries.
- The generator's writing of freed ids mid-session, in batches, is folded into `close`. The file's final content is the same.
- File I/O, file channels and `FileChannel.transferTo` are replaced by byte sequences. The exception a short transfer raises (NodeStore.java:273-277) is not modelled: a transfer always moves all its bytes.
- The window pool (`acquireWindow`, `releaseWindow`, `hasWindow`), its locking, and the window's size and placement are reduced to two parameters: whether a window holds the record, and the run of records it covers.
- `AbstractStore` is not part of this model:
  - `createEmptyStore` is modelled only as writing the version descriptor, kept as its own field rather than bytes at the end of the file;
  - `isInRecoveryMode` is a flag of the store;
  - `nextId` and `freeId` of the store are the generator's.
- `Record.IN_USE` = 1, `Record.NOT_IN_USE` = 0, and a new `NodeRecord`'s links of -1 (`NO_NEXT_RELATIONSHIP`, `NO_NEXT_PROPERTY`) come from classes that are not part of this model.
- NodeStore's commented-out code (the record cache, `checkNode`, `getNextRelationshipId`, `getNextPropertyId`, `purge`) is not modelled.
- Also not modelled:
  - `toString()` returning "NodeStore";
  - `getRecordSize()`, which is the constant `RecordSize`;
  - `close()`.
- NodeStore.CreateStore: the grab size of the generator session it opens is a parameter. The generator file's name comes from `AbstractStore`, which is not part of this model, so it is a parameter too. The existing store files are a set of names.
- NodeStore.GetRecord / LoadLightNode / UpdateRecord / TransferRecord: negative ids, and ids whose offset `id * 9` overflows a 32-bit `int` (id ≥ 238609295), are excluded by the requires (`ValidId`). The source accepts any `int` id and computes the offset in 32-bit arithmetic. For such ids the offset wraps: first to a negative offset, where the channel throws, then back to a positive offset of another record. The model does not describe those cases. The same exclusion applies to `WindowGetRecord` and `WindowUpdateRecord`.
- NodeStore.TransferRecord: a gap between the old end of the file and `id * 9` reads as zero bytes (`Overwrite`). `FileChannel` leaves the content of such a gap unspecified, so this is a modelling choice.
- NodeStore.GetRecord: its transfer path is the corrected read, which refuses a free record. The source's transfer path returns such a record marked in use; `NodeStore.TransferGetRecordAsWritten` models that (see Findings).
- NodeStore.ReadWindow: a read window is cut off at the end of the file, so a read needs its record to lie inside the file. A write window instead grows the file to the window's end (`NodeStore.WindowUpdateRecord`). The pool's behaviour on a read past the end is part of `AbstractStore` and is not modelled.
- Service: the loaders are left out: OSGi, `java.util.ServiceLoader`, `sun.misc.Service` and the resource-file reader (Service.java:280-459). They involve reflection, class loading and resource files. Each loader is an input: either null, or the sequence its iterator yields.
- Service: `toString` is left out; it prints a `HashSet`, whose order is unspecified.
- Service: the `ReverseConverter` helper is left out.
- Service.FilterExceptions: models the iteration eagerly, as a sequence of retrieval outcomes. `PrefetchingIterator` is not part of this model; a `null` element is taken to end the iteration, as `fetchNextOrNull` signals it. Only an exception from the wrapped iterator's `next()` is modelled, as the skipped `Threw` outcome. Two other exceptions are not caught by `filterExceptions` and propagate out of `load(type)` and `load(type, key)`: one thrown by the wrapped iterator's `hasNext()` (Service.java:263, outside the `try` at 265-271), and the `RuntimeException` that the Sun Java 5 loader's `iterator()` raises (Service.java:371-376) when the field at 258 is initialised. Java 6's `ServiceLoader` reports a malformed provider-configuration file from `hasNext()`. Neither propagating exception can be expressed as a retrieval outcome, so neither is modelled.
- Service.CharEqualsIgnoreCase: `Character.toUpperCase` and `toLowerCase` are parameters, because Unicode case tables are not modelled.
- Null keys and null implementations are left out.
- Lockable.Invoke: method arguments play no part in any operation and are left out.
- Concurrency (`synchronized`, `volatile`) is left out throughout.

## Findings

| source | as written | input that shows it | evidently intended | confidence | as-written member | corrected member |
|---|---|---|---|---|---|---|
| src/java/org/neo4j/impl/nioneo/store/NodeStore.java:108-111 | On the direct-transfer path, `getRecord` only asserts that the flag byte is `IN_USE`, then calls `setInUse(true)` unconditionally. Java assertions are off by default, so nothing stops a free record here. | A one-record file whose flag byte is 0, read as id 0 with a buffer and no window: the transfer path returns a record marked in use. The window path throws "Record[0] not in use" for the same bytes. | Refuse the free record as the window path does (NodeStore.java:256-259), which is also how `loadLightNode`'s transfer path checks it (169-172). | medium; not executed | NodeStore.TransferGetRecordAsWritten, NodeStore.TransferReadOfFreeRecord | NodeStore.TransferGetRecord, NodeStore.GetRecord, NodeStore.ReadPathsAgree |
