/**
 * The scripted scenarios of `TestIdGenerator`, replayed against the generator
 * model. A script pairs each call with the outcome the test expects; the
 * lemmas here show that the model produces exactly those outcomes.
 *
 * Each step is established on its own against the world before it, written
 * out literally: the worlds `<Test>W<i>` are also a record of what the
 * generator file and handle hold after the i-th call of the test.
 */
module IdGeneratorScripts {
  import opened Results
  import opened IdGenerator
  import opened IdFileFormat

  /** One call a test makes on the generator API. */
  datatype Call =
    | Create(newFile: Option<string>)
    | OpenGen(file: string, grab: int)
    | Next
    | Free(id: int)
    | SetHigh(high: nat)
    | GetHigh
    | CloseGen

  /** What the test observes: normal completion, a returned value, or an exception. */
  datatype Obs = Done | Id(id: nat) | High(high: int) | Raised(kind: IdError)

  /**
   * The files on disk and the test's current generator handle. A failed open
   * leaves the handle as it was, just as the Java variable keeps its value.
   */
  datatype World = World(disk: Disk, gen: Option<Generator>)

  ghost predicate WorldValid(w: World) {
    w.gen.Some? ==> Valid(w.gen.value)
  }

  /** Performs one call and reports what the test sees. */
  function Exec(w: World, c: Call): (r: (World, Obs))
    requires WorldValid(w)
    ensures WorldValid(r.0)
    ensures r.1.Raised? ==> r.0 == w
  {
    match c
    case Create(f) =>
      (match CreateGenerator(w.disk, f)
       case Success(d) => (w.(disk := d), Done)
       case Failure(e) => (w, Raised(e)))
    case OpenGen(f, grab) =>
      (match Open(w.disk, f, grab)
       case Success((d, g)) => (World(d, Some(g)), Done)
       case Failure(e) => (w, Raised(e)))
    case Next =>
      if w.gen.None? then (w, Raised(IllegalState))
      else
        (match NextId(w.gen.value)
         case Success((g, id)) => (w.(gen := Some(g)), Id(id))
         case Failure(e) => (w, Raised(e)))
    case Free(id) =>
      if w.gen.None? then (w, Raised(IllegalState))
      else
        (match FreeId(w.gen.value, id)
         case Success(g) => (w.(gen := Some(g)), Done)
         case Failure(e) => (w, Raised(e)))
    case SetHigh(h) =>
      if w.gen.None? then (w, Raised(IllegalState))
      else
        (match SetHighId(w.gen.value, h)
         case Success(g) => (w.(gen := Some(g)), Done)
         case Failure(e) => (w, Raised(e)))
    case GetHigh =>
      if w.gen.None? then (w, Raised(IllegalState))
      else (w, High(GetHighId(w.gen.value)))
    case CloseGen =>
      if w.gen.None? then (w, Raised(IllegalState))
      else
        var (d, g) := Close(w.disk, w.gen.value);
        (World(d, Some(g)), Done)
  }

  /** A test script: calls, each with the outcome the test asserts. */
  datatype Script = End | Step(call: Call, outcome: Obs, rest: Script)

  /** Every call of the script produces the outcome the script expects. */
  predicate Replays(w: World, s: Script)
    requires WorldValid(w)
    decreases s
  {
    match s
    case End => true
    case Step(c, o, rest) =>
      var (w', seen) := Exec(w, c);
      seen == o && Replays(w', rest)
  }

  /** The world after running every call of the script. */
  function Final(w: World, s: Script): (r: World)
    requires WorldValid(w)
    ensures WorldValid(r)
    decreases s
  {
    match s
    case End => w
    case Step(c, _, rest) => Final(Exec(w, c).0, rest)
  }

  /** A script replays from `w` when its first call does and the rest replays from there. */
  lemma Cons(w: World, c: Call, o: Obs, w': World, rest: Script)
    requires WorldValid(w) && Exec(w, c) == (w', o)
    requires Replays(w', rest)
    ensures Replays(w, Step(c, o, rest))
    ensures Final(w, Step(c, o, rest)) == Final(w', rest)
  {
  }

  /**
   * Two worlds are equal when their files and handles agree field by field;
   * each step below reaches its literal world through this lemma.
   */
  lemma Agree(w: World, v: World)
    requires w.disk.Keys == v.disk.Keys <= {Name}
    requires Name in v.disk ==>
      && w.disk[Name].sticky == v.disk[Name].sticky
      && w.disk[Name].highId == v.disk[Name].highId
      && w.disk[Name].freeIds == v.disk[Name].freeIds
    requires w.gen.Some? == v.gen.Some?
    requires v.gen.Some? ==>
      var (g, h) := (w.gen.value, v.gen.value);
      && g.name == h.name && g.grabSize == h.grabSize && g.highId == h.highId
      && g.unread == h.unread && g.readAhead == h.readAhead && g.freed == h.freed
      && g.closed == h.closed
    ensures w == v
  {
  }

  /** The test's generator file, `<store path>/testIdGenerator.id`. */
  const Name := "xatest/testIdGenerator.id"

  const Start := World(map[], None)

  function Session(f: IdFile, g: Generator): World {
    World(map[Name := f], Some(g))
  }

  // ---------------------------------------------------------------------
  // testCreateIdGenerator

  const CreateW1 :=
    World(map[], None)

  lemma CreateStep1()
    ensures WorldValid(Start) && Exec(Start, Create(None)) == (CreateW1, Raised(IllegalArgument))
  {
    Agree(Exec(Start, Create(None)).0, CreateW1);
  }

  const CreateW2 :=
    World(map[Name := IdFile(false, 0, [])], None)

  lemma CreateStep2()
    ensures WorldValid(CreateW1) && Exec(CreateW1, Create(Some(Name))) == (CreateW2, Done)
  {
    Agree(Exec(CreateW1, Create(Some(Name))).0, CreateW2);
  }

  const CreateW3 :=
    World(map[Name := IdFile(false, 0, [])], None)

  lemma CreateStep3()
    ensures WorldValid(CreateW2) && Exec(CreateW2, OpenGen(Name, 0)) == (CreateW3, Raised(IllegalArgument))
  {
    Agree(Exec(CreateW2, OpenGen(Name, 0)).0, CreateW3);
  }

  const CreateW4 :=
    World(map[Name := IdFile(false, 0, [])], None)

  lemma CreateStep4()
    ensures WorldValid(CreateW3) && Exec(CreateW3, OpenGen("testIdGenerator.id", -1)) == (CreateW4, Raised(IllegalArgument))
  {
    Agree(Exec(CreateW3, OpenGen("testIdGenerator.id", -1)).0, CreateW4);
  }

  const CreateW5 :=
    World(map[Name := IdFile(true, 0, [])], Some(Generator(Name, 1008, 0, [], [], [], false)))

  lemma CreateStep5()
    ensures WorldValid(CreateW4) && Exec(CreateW4, OpenGen(Name, 1008)) == (CreateW5, Done)
  {
    Agree(Exec(CreateW4, OpenGen(Name, 1008)).0, CreateW5);
  }

  const CreateW6 :=
    World(map[Name := IdFile(true, 0, [])], Some(Generator(Name, 1008, 0, [], [], [], false)))

  lemma CreateStep6()
    ensures WorldValid(CreateW5) && Exec(CreateW5, Create(Some(Name))) == (CreateW6, Raised(IllegalState))
  {
    Agree(Exec(CreateW5, Create(Some(Name))).0, CreateW6);
  }

  const CreateW7 :=
    World(map[Name := IdFile(false, 0, [])], Some(Generator(Name, 1008, 0, [], [], [], true)))

  lemma CreateStep7()
    ensures WorldValid(CreateW6) && Exec(CreateW6, CloseGen) == (CreateW7, Done)
  {
    Agree(Exec(CreateW6, CloseGen).0, CreateW7);
  }

  const CreateFrom7: Script := End

  const CreateFrom6: Script := Step(CloseGen, Done, CreateFrom7)

  const CreateFrom5: Script := Step(Create(Some(Name)), Raised(IllegalState), CreateFrom6)

  const CreateFrom4: Script := Step(OpenGen(Name, 1008), Done, CreateFrom5)

  const CreateFrom3: Script := Step(OpenGen("testIdGenerator.id", -1), Raised(IllegalArgument), CreateFrom4)

  const CreateFrom2: Script := Step(OpenGen(Name, 0), Raised(IllegalArgument), CreateFrom3)

  const CreateFrom1: Script := Step(Create(Some(Name)), Done, CreateFrom2)

  const CreateFrom0: Script := Step(Create(None), Raised(IllegalArgument), CreateFrom1)

  const CreateTest: Script := CreateFrom0

  /**
   * testCreateIdGenerator: a null name and grab sizes 0 and -1 are illegal
   * arguments, creating over an existing file is an illegal state, and the
   * file a session opened and closed without allocating is clean and empty.
   */
  lemma CreateScript()
    ensures Replays(Start, CreateTest)
    ensures Final(Start, CreateTest).disk == map[Name := IdFile(false, 0, [])]
  {
    CreateStep7();
    Cons(CreateW6, CloseGen, Done, CreateW7, CreateFrom7);
    CreateStep6();
    Cons(CreateW5, Create(Some(Name)), Raised(IllegalState), CreateW6, CreateFrom6);
    CreateStep5();
    Cons(CreateW4, OpenGen(Name, 1008), Done, CreateW5, CreateFrom5);
    CreateStep4();
    Cons(CreateW3, OpenGen("testIdGenerator.id", -1), Raised(IllegalArgument), CreateW4, CreateFrom4);
    CreateStep3();
    Cons(CreateW2, OpenGen(Name, 0), Raised(IllegalArgument), CreateW3, CreateFrom3);
    CreateStep2();
    Cons(CreateW1, Create(Some(Name)), Done, CreateW2, CreateFrom2);
    CreateStep1();
    Cons(Start, Create(None), Raised(IllegalArgument), CreateW1, CreateFrom1);
  }

  // ---------------------------------------------------------------------
  // testStickyGenerator

  const StickyW1 :=
    World(map[Name := IdFile(false, 0, [])], None)

  lemma StickyStep1()
    ensures WorldValid(Start) && Exec(Start, Create(Some(Name))) == (StickyW1, Done)
  {
    Agree(Exec(Start, Create(Some(Name))).0, StickyW1);
  }

  const StickyW2 :=
    World(map[Name := IdFile(true, 0, [])], Some(Generator(Name, 3, 0, [], [], [], false)))

  lemma StickyStep2()
    ensures WorldValid(StickyW1) && Exec(StickyW1, OpenGen(Name, 3)) == (StickyW2, Done)
  {
    Agree(Exec(StickyW1, OpenGen(Name, 3)).0, StickyW2);
  }

  const StickyW3 :=
    World(map[Name := IdFile(true, 0, [])], Some(Generator(Name, 3, 0, [], [], [], false)))

  lemma StickyStep3()
    ensures WorldValid(StickyW2) && Exec(StickyW2, OpenGen(Name, 3)) == (StickyW3, Raised(StoreFailure))
  {
    Agree(Exec(StickyW2, OpenGen(Name, 3)).0, StickyW3);
  }

  const StickyW4 :=
    World(map[Name := IdFile(false, 0, [])], Some(Generator(Name, 3, 0, [], [], [], true)))

  lemma StickyStep4()
    ensures WorldValid(StickyW3) && Exec(StickyW3, CloseGen) == (StickyW4, Done)
  {
    Agree(Exec(StickyW3, CloseGen).0, StickyW4);
  }

  const StickyW5 :=
    World(map[Name := IdFile(true, 0, [])], Some(Generator(Name, 3, 0, [], [], [], false)))

  lemma StickyStep5()
    ensures WorldValid(StickyW4) && Exec(StickyW4, OpenGen(Name, 3)) == (StickyW5, Done)
  {
    Agree(Exec(StickyW4, OpenGen(Name, 3)).0, StickyW5);
  }

  const StickyW6 :=
    World(map[Name := IdFile(false, 0, [])], Some(Generator(Name, 3, 0, [], [], [], true)))

  lemma StickyStep6()
    ensures WorldValid(StickyW5) && Exec(StickyW5, CloseGen) == (StickyW6, Done)
  {
    Agree(Exec(StickyW5, CloseGen).0, StickyW6);
  }

  const StickyFrom6: Script := End

  const StickyFrom5: Script := Step(CloseGen, Done, StickyFrom6)

  const StickyFrom4: Script := Step(OpenGen(Name, 3), Done, StickyFrom5)

  const StickyFrom3: Script := Step(CloseGen, Done, StickyFrom4)

  const StickyFrom2: Script := Step(OpenGen(Name, 3), Raised(StoreFailure), StickyFrom3)

  const StickyFrom1: Script := Step(OpenGen(Name, 3), Done, StickyFrom2)

  const StickyFrom0: Script := Step(Create(Some(Name)), Done, StickyFrom1)

  const StickyTest: Script := StickyFrom0

  /**
   * testStickyGenerator: opening a file that is already open is a store
   * failure; once the first session closes, the file opens again.
   */
  lemma StickyScript()
    ensures Replays(Start, StickyTest)
    ensures Final(Start, StickyTest).disk == map[Name := IdFile(false, 0, [])]
  {
    StickyStep6();
    Cons(StickyW5, CloseGen, Done, StickyW6, StickyFrom6);
    StickyStep5();
    Cons(StickyW4, OpenGen(Name, 3), Done, StickyW5, StickyFrom5);
    StickyStep4();
    Cons(StickyW3, CloseGen, Done, StickyW4, StickyFrom4);
    StickyStep3();
    Cons(StickyW2, OpenGen(Name, 3), Raised(StoreFailure), StickyW3, StickyFrom3);
    StickyStep2();
    Cons(StickyW1, OpenGen(Name, 3), Done, StickyW2, StickyFrom2);
    StickyStep1();
    Cons(Start, Create(Some(Name)), Done, StickyW1, StickyFrom1);
  }

  // ---------------------------------------------------------------------
  // testNextId

  const NextIdW1 :=
    World(map[Name := IdFile(false, 0, [])], None)

  lemma NextIdStep1()
    ensures WorldValid(Start) && Exec(Start, Create(Some(Name))) == (NextIdW1, Done)
  {
    Agree(Exec(Start, Create(Some(Name))).0, NextIdW1);
  }

  const NextIdW2 :=
    World(map[Name := IdFile(true, 0, [])], Some(Generator(Name, 3, 0, [], [], [], false)))

  lemma NextIdStep2()
    ensures WorldValid(NextIdW1) && Exec(NextIdW1, OpenGen(Name, 3)) == (NextIdW2, Done)
  {
    Agree(Exec(NextIdW1, OpenGen(Name, 3)).0, NextIdW2);
  }

  const NextIdW3 :=
    World(map[Name := IdFile(true, 0, [])], Some(Generator(Name, 3, 1, [], [], [], false)))

  lemma NextIdStep3()
    ensures WorldValid(NextIdW2) && Exec(NextIdW2, Next) == (NextIdW3, Id(0))
  {
    Agree(Exec(NextIdW2, Next).0, NextIdW3);
  }

  const NextIdW4 :=
    World(map[Name := IdFile(true, 0, [])], Some(Generator(Name, 3, 2, [], [], [], false)))

  lemma NextIdStep4()
    ensures WorldValid(NextIdW3) && Exec(NextIdW3, Next) == (NextIdW4, Id(1))
  {
    Agree(Exec(NextIdW3, Next).0, NextIdW4);
  }

  const NextIdW5 :=
    World(map[Name := IdFile(true, 0, [])], Some(Generator(Name, 3, 3, [], [], [], false)))

  lemma NextIdStep5()
    ensures WorldValid(NextIdW4) && Exec(NextIdW4, Next) == (NextIdW5, Id(2))
  {
    Agree(Exec(NextIdW4, Next).0, NextIdW5);
  }

  const NextIdW6 :=
    World(map[Name := IdFile(true, 0, [])], Some(Generator(Name, 3, 4, [], [], [], false)))

  lemma NextIdStep6()
    ensures WorldValid(NextIdW5) && Exec(NextIdW5, Next) == (NextIdW6, Id(3))
  {
    Agree(Exec(NextIdW5, Next).0, NextIdW6);
  }

  const NextIdW7 :=
    World(map[Name := IdFile(true, 0, [])], Some(Generator(Name, 3, 5, [], [], [], false)))

  lemma NextIdStep7()
    ensures WorldValid(NextIdW6) && Exec(NextIdW6, Next) == (NextIdW7, Id(4))
  {
    Agree(Exec(NextIdW6, Next).0, NextIdW7);
  }

  const NextIdW8 :=
    World(map[Name := IdFile(true, 0, [])], Some(Generator(Name, 3, 6, [], [], [], false)))

  lemma NextIdStep8()
    ensures WorldValid(NextIdW7) && Exec(NextIdW7, Next) == (NextIdW8, Id(5))
  {
    Agree(Exec(NextIdW7, Next).0, NextIdW8);
  }

  const NextIdW9 :=
    World(map[Name := IdFile(true, 0, [])], Some(Generator(Name, 3, 7, [], [], [], false)))

  lemma NextIdStep9()
    ensures WorldValid(NextIdW8) && Exec(NextIdW8, Next) == (NextIdW9, Id(6))
  {
    Agree(Exec(NextIdW8, Next).0, NextIdW9);
  }

  const NextIdW10 :=
    World(map[Name := IdFile(true, 0, [])], Some(Generator(Name, 3, 7, [], [], [1], false)))

  lemma NextIdStep10()
    ensures WorldValid(NextIdW9) && Exec(NextIdW9, Free(1)) == (NextIdW10, Done)
  {
    Agree(Exec(NextIdW9, Free(1)).0, NextIdW10);
  }

  const NextIdW11 :=
    World(map[Name := IdFile(true, 0, [])], Some(Generator(Name, 3, 7, [], [], [1, 3], false)))

  lemma NextIdStep11()
    ensures WorldValid(NextIdW10) && Exec(NextIdW10, Free(3)) == (NextIdW11, Done)
  {
    Agree(Exec(NextIdW10, Free(3)).0, NextIdW11);
  }

  const NextIdW12 :=
    World(map[Name := IdFile(true, 0, [])], Some(Generator(Name, 3, 7, [], [], [1, 3, 5], false)))

  lemma NextIdStep12()
    ensures WorldValid(NextIdW11) && Exec(NextIdW11, Free(5)) == (NextIdW12, Done)
  {
    Agree(Exec(NextIdW11, Free(5)).0, NextIdW12);
  }

  const NextIdW13 :=
    World(map[Name := IdFile(true, 0, [])], Some(Generator(Name, 3, 8, [], [], [1, 3, 5], false)))

  lemma NextIdStep13()
    ensures WorldValid(NextIdW12) && Exec(NextIdW12, Next) == (NextIdW13, Id(7))
  {
    Agree(Exec(NextIdW12, Next).0, NextIdW13);
  }

  const NextIdW14 :=
    World(map[Name := IdFile(true, 0, [])], Some(Generator(Name, 3, 8, [], [], [1, 3, 5, 6], false)))

  lemma NextIdStep14()
    ensures WorldValid(NextIdW13) && Exec(NextIdW13, Free(6)) == (NextIdW14, Done)
  {
    Agree(Exec(NextIdW13, Free(6)).0, NextIdW14);
  }

  const NextIdW15 :=
    World(map[Name := IdFile(false, 8, [1, 3, 5, 6])], Some(Generator(Name, 3, 8, [], [], [1, 3, 5, 6], true)))

  lemma NextIdStep15()
    ensures WorldValid(NextIdW14) && Exec(NextIdW14, CloseGen) == (NextIdW15, Done)
  {
    Agree(Exec(NextIdW14, CloseGen).0, NextIdW15);
  }

  const NextIdW16 :=
    World(map[Name := IdFile(true, 8, [1, 3, 5, 6])], Some(Generator(Name, 5, 8, [], [1, 3, 5, 6], [], false)))

  lemma NextIdStep16()
    ensures WorldValid(NextIdW15) && Exec(NextIdW15, OpenGen(Name, 5)) == (NextIdW16, Done)
  {
    Agree(Exec(NextIdW15, OpenGen(Name, 5)).0, NextIdW16);
  }

  const NextIdW17 :=
    World(map[Name := IdFile(true, 8, [1, 3, 5, 6])], Some(Generator(Name, 5, 8, [], [1, 3, 5, 6], [2], false)))

  lemma NextIdStep17()
    ensures WorldValid(NextIdW16) && Exec(NextIdW16, Free(2)) == (NextIdW17, Done)
  {
    Agree(Exec(NextIdW16, Free(2)).0, NextIdW17);
  }

  const NextIdW18 :=
    World(map[Name := IdFile(true, 8, [1, 3, 5, 6])], Some(Generator(Name, 5, 8, [], [1, 3, 5, 6], [2, 4], false)))

  lemma NextIdStep18()
    ensures WorldValid(NextIdW17) && Exec(NextIdW17, Free(4)) == (NextIdW18, Done)
  {
    Agree(Exec(NextIdW17, Free(4)).0, NextIdW18);
  }

  const NextIdW19 :=
    World(map[Name := IdFile(true, 8, [1, 3, 5, 6])], Some(Generator(Name, 5, 8, [], [3, 5, 6], [2, 4], false)))

  lemma NextIdStep19()
    ensures WorldValid(NextIdW18) && Exec(NextIdW18, Next) == (NextIdW19, Id(1))
  {
    Agree(Exec(NextIdW18, Next).0, NextIdW19);
  }

  const NextIdW20 :=
    World(map[Name := IdFile(true, 8, [1, 3, 5, 6])], Some(Generator(Name, 5, 8, [], [3, 5, 6], [2, 4, 1], false)))

  lemma NextIdStep20()
    ensures WorldValid(NextIdW19) && Exec(NextIdW19, Free(1)) == (NextIdW20, Done)
  {
    Agree(Exec(NextIdW19, Free(1)).0, NextIdW20);
  }

  const NextIdW21 :=
    World(map[Name := IdFile(true, 8, [1, 3, 5, 6])], Some(Generator(Name, 5, 8, [], [5, 6], [2, 4, 1], false)))

  lemma NextIdStep21()
    ensures WorldValid(NextIdW20) && Exec(NextIdW20, Next) == (NextIdW21, Id(3))
  {
    Agree(Exec(NextIdW20, Next).0, NextIdW21);
  }

  const NextIdW22 :=
    World(map[Name := IdFile(true, 8, [1, 3, 5, 6])], Some(Generator(Name, 5, 8, [], [5, 6], [2, 4, 1, 3], false)))

  lemma NextIdStep22()
    ensures WorldValid(NextIdW21) && Exec(NextIdW21, Free(3)) == (NextIdW22, Done)
  {
    Agree(Exec(NextIdW21, Free(3)).0, NextIdW22);
  }

  const NextIdW23 :=
    World(map[Name := IdFile(true, 8, [1, 3, 5, 6])], Some(Generator(Name, 5, 8, [], [6], [2, 4, 1, 3], false)))

  lemma NextIdStep23()
    ensures WorldValid(NextIdW22) && Exec(NextIdW22, Next) == (NextIdW23, Id(5))
  {
    Agree(Exec(NextIdW22, Next).0, NextIdW23);
  }

  const NextIdW24 :=
    World(map[Name := IdFile(true, 8, [1, 3, 5, 6])], Some(Generator(Name, 5, 8, [], [6], [2, 4, 1, 3, 5], false)))

  lemma NextIdStep24()
    ensures WorldValid(NextIdW23) && Exec(NextIdW23, Free(5)) == (NextIdW24, Done)
  {
    Agree(Exec(NextIdW23, Free(5)).0, NextIdW24);
  }

  const NextIdW25 :=
    World(map[Name := IdFile(true, 8, [1, 3, 5, 6])], Some(Generator(Name, 5, 8, [], [], [2, 4, 1, 3, 5], false)))

  lemma NextIdStep25()
    ensures WorldValid(NextIdW24) && Exec(NextIdW24, Next) == (NextIdW25, Id(6))
  {
    Agree(Exec(NextIdW24, Next).0, NextIdW25);
  }

  const NextIdW26 :=
    World(map[Name := IdFile(true, 8, [1, 3, 5, 6])], Some(Generator(Name, 5, 8, [], [], [2, 4, 1, 3, 5, 6], false)))

  lemma NextIdStep26()
    ensures WorldValid(NextIdW25) && Exec(NextIdW25, Free(6)) == (NextIdW26, Done)
  {
    Agree(Exec(NextIdW25, Free(6)).0, NextIdW26);
  }

  const NextIdW27 :=
    World(map[Name := IdFile(true, 8, [1, 3, 5, 6])], Some(Generator(Name, 5, 9, [], [], [2, 4, 1, 3, 5, 6], false)))

  lemma NextIdStep27()
    ensures WorldValid(NextIdW26) && Exec(NextIdW26, Next) == (NextIdW27, Id(8))
  {
    Agree(Exec(NextIdW26, Next).0, NextIdW27);
  }

  const NextIdW28 :=
    World(map[Name := IdFile(true, 8, [1, 3, 5, 6])], Some(Generator(Name, 5, 9, [], [], [2, 4, 1, 3, 5, 6, 8], false)))

  lemma NextIdStep28()
    ensures WorldValid(NextIdW27) && Exec(NextIdW27, Free(8)) == (NextIdW28, Done)
  {
    Agree(Exec(NextIdW27, Free(8)).0, NextIdW28);
  }

  const NextIdW29 :=
    World(map[Name := IdFile(true, 8, [1, 3, 5, 6])], Some(Generator(Name, 5, 10, [], [], [2, 4, 1, 3, 5, 6, 8], false)))

  lemma NextIdStep29()
    ensures WorldValid(NextIdW28) && Exec(NextIdW28, Next) == (NextIdW29, Id(9))
  {
    Agree(Exec(NextIdW28, Next).0, NextIdW29);
  }

  const NextIdW30 :=
    World(map[Name := IdFile(true, 8, [1, 3, 5, 6])], Some(Generator(Name, 5, 10, [], [], [2, 4, 1, 3, 5, 6, 8, 9], false)))

  lemma NextIdStep30()
    ensures WorldValid(NextIdW29) && Exec(NextIdW29, Free(9)) == (NextIdW30, Done)
  {
    Agree(Exec(NextIdW29, Free(9)).0, NextIdW30);
  }

  const NextIdW31 :=
    World(map[Name := IdFile(false, 10, [2, 4, 1, 3, 5, 6, 8, 9])], Some(Generator(Name, 5, 10, [], [], [2, 4, 1, 3, 5, 6, 8, 9], true)))

  lemma NextIdStep31()
    ensures WorldValid(NextIdW30) && Exec(NextIdW30, CloseGen) == (NextIdW31, Done)
  {
    Agree(Exec(NextIdW30, CloseGen).0, NextIdW31);
  }

  const NextIdW32 :=
    World(map[Name := IdFile(true, 10, [2, 4, 1, 3, 5, 6, 8, 9])], Some(Generator(Name, 3, 10, [3, 5, 6, 8, 9], [2, 4, 1], [], false)))

  lemma NextIdStep32()
    ensures WorldValid(NextIdW31) && Exec(NextIdW31, OpenGen(Name, 3)) == (NextIdW32, Done)
  {
    Agree(Exec(NextIdW31, OpenGen(Name, 3)).0, NextIdW32);
  }

  const NextIdW33 :=
    World(map[Name := IdFile(true, 10, [2, 4, 1, 3, 5, 6, 8, 9])], Some(Generator(Name, 3, 10, [3, 5, 6, 8, 9], [4, 1], [], false)))

  lemma NextIdStep33()
    ensures WorldValid(NextIdW32) && Exec(NextIdW32, Next) == (NextIdW33, Id(2))
  {
    Agree(Exec(NextIdW32, Next).0, NextIdW33);
  }

  const NextIdW34 :=
    World(map[Name := IdFile(true, 10, [2, 4, 1, 3, 5, 6, 8, 9])], Some(Generator(Name, 3, 10, [3, 5, 6, 8, 9], [1], [], false)))

  lemma NextIdStep34()
    ensures WorldValid(NextIdW33) && Exec(NextIdW33, Next) == (NextIdW34, Id(4))
  {
    Agree(Exec(NextIdW33, Next).0, NextIdW34);
  }

  const NextIdW35 :=
    World(map[Name := IdFile(true, 10, [2, 4, 1, 3, 5, 6, 8, 9])], Some(Generator(Name, 3, 10, [8, 9], [3, 5, 6], [], false)))

  lemma NextIdStep35()
    ensures WorldValid(NextIdW34) && Exec(NextIdW34, Next) == (NextIdW35, Id(1))
  {
    Agree(Exec(NextIdW34, Next).0, NextIdW35);
  }

  const NextIdW36 :=
    World(map[Name := IdFile(true, 10, [2, 4, 1, 3, 5, 6, 8, 9])], Some(Generator(Name, 3, 10, [8, 9], [5, 6], [], false)))

  lemma NextIdStep36()
    ensures WorldValid(NextIdW35) && Exec(NextIdW35, Next) == (NextIdW36, Id(3))
  {
    Agree(Exec(NextIdW35, Next).0, NextIdW36);
  }

  const NextIdW37 :=
    World(map[Name := IdFile(true, 10, [2, 4, 1, 3, 5, 6, 8, 9])], Some(Generator(Name, 3, 10, [8, 9], [6], [], false)))

  lemma NextIdStep37()
    ensures WorldValid(NextIdW36) && Exec(NextIdW36, Next) == (NextIdW37, Id(5))
  {
    Agree(Exec(NextIdW36, Next).0, NextIdW37);
  }

  const NextIdW38 :=
    World(map[Name := IdFile(true, 10, [2, 4, 1, 3, 5, 6, 8, 9])], Some(Generator(Name, 3, 10, [], [8, 9], [], false)))

  lemma NextIdStep38()
    ensures WorldValid(NextIdW37) && Exec(NextIdW37, Next) == (NextIdW38, Id(6))
  {
    Agree(Exec(NextIdW37, Next).0, NextIdW38);
  }

  const NextIdW39 :=
    World(map[Name := IdFile(true, 10, [2, 4, 1, 3, 5, 6, 8, 9])], Some(Generator(Name, 3, 10, [], [9], [], false)))

  lemma NextIdStep39()
    ensures WorldValid(NextIdW38) && Exec(NextIdW38, Next) == (NextIdW39, Id(8))
  {
    Agree(Exec(NextIdW38, Next).0, NextIdW39);
  }

  const NextIdW40 :=
    World(map[Name := IdFile(true, 10, [2, 4, 1, 3, 5, 6, 8, 9])], Some(Generator(Name, 3, 10, [], [], [], false)))

  lemma NextIdStep40()
    ensures WorldValid(NextIdW39) && Exec(NextIdW39, Next) == (NextIdW40, Id(9))
  {
    Agree(Exec(NextIdW39, Next).0, NextIdW40);
  }

  const NextIdW41 :=
    World(map[Name := IdFile(true, 10, [2, 4, 1, 3, 5, 6, 8, 9])], Some(Generator(Name, 3, 11, [], [], [], false)))

  lemma NextIdStep41()
    ensures WorldValid(NextIdW40) && Exec(NextIdW40, Next) == (NextIdW41, Id(10))
  {
    Agree(Exec(NextIdW40, Next).0, NextIdW41);
  }

  const NextIdW42 :=
    World(map[Name := IdFile(true, 10, [2, 4, 1, 3, 5, 6, 8, 9])], Some(Generator(Name, 3, 12, [], [], [], false)))

  lemma NextIdStep42()
    ensures WorldValid(NextIdW41) && Exec(NextIdW41, Next) == (NextIdW42, Id(11))
  {
    Agree(Exec(NextIdW41, Next).0, NextIdW42);
  }

  const NextIdW43 :=
    World(map[Name := IdFile(false, 12, [])], Some(Generator(Name, 3, 12, [], [], [], true)))

  lemma NextIdStep43()
    ensures WorldValid(NextIdW42) && Exec(NextIdW42, CloseGen) == (NextIdW43, Done)
  {
    Agree(Exec(NextIdW42, CloseGen).0, NextIdW43);
  }

  const NextIdFrom43: Script := End

  const NextIdFrom42: Script := Step(CloseGen, Done, NextIdFrom43)

  const NextIdFrom41: Script := Step(Next, Id(11), NextIdFrom42)

  const NextIdFrom40: Script := Step(Next, Id(10), NextIdFrom41)

  const NextIdFrom39: Script := Step(Next, Id(9), NextIdFrom40)

  const NextIdFrom38: Script := Step(Next, Id(8), NextIdFrom39)

  const NextIdFrom37: Script := Step(Next, Id(6), NextIdFrom38)

  const NextIdFrom36: Script := Step(Next, Id(5), NextIdFrom37)

  const NextIdFrom35: Script := Step(Next, Id(3), NextIdFrom36)

  const NextIdFrom34: Script := Step(Next, Id(1), NextIdFrom35)

  const NextIdFrom33: Script := Step(Next, Id(4), NextIdFrom34)

  const NextIdFrom32: Script := Step(Next, Id(2), NextIdFrom33)

  const NextIdFrom31: Script := Step(OpenGen(Name, 3), Done, NextIdFrom32)

  const NextIdFrom30: Script := Step(CloseGen, Done, NextIdFrom31)

  const NextIdFrom29: Script := Step(Free(9), Done, NextIdFrom30)

  const NextIdFrom28: Script := Step(Next, Id(9), NextIdFrom29)

  const NextIdFrom27: Script := Step(Free(8), Done, NextIdFrom28)

  const NextIdFrom26: Script := Step(Next, Id(8), NextIdFrom27)

  const NextIdFrom25: Script := Step(Free(6), Done, NextIdFrom26)

  const NextIdFrom24: Script := Step(Next, Id(6), NextIdFrom25)

  const NextIdFrom23: Script := Step(Free(5), Done, NextIdFrom24)

  const NextIdFrom22: Script := Step(Next, Id(5), NextIdFrom23)

  const NextIdFrom21: Script := Step(Free(3), Done, NextIdFrom22)

  const NextIdFrom20: Script := Step(Next, Id(3), NextIdFrom21)

  const NextIdFrom19: Script := Step(Free(1), Done, NextIdFrom20)

  const NextIdFrom18: Script := Step(Next, Id(1), NextIdFrom19)

  const NextIdFrom17: Script := Step(Free(4), Done, NextIdFrom18)

  const NextIdFrom16: Script := Step(Free(2), Done, NextIdFrom17)

  const NextIdFrom15: Script := Step(OpenGen(Name, 5), Done, NextIdFrom16)

  const NextIdFrom14: Script := Step(CloseGen, Done, NextIdFrom15)

  const NextIdFrom13: Script := Step(Free(6), Done, NextIdFrom14)

  const NextIdFrom12: Script := Step(Next, Id(7), NextIdFrom13)

  const NextIdFrom11: Script := Step(Free(5), Done, NextIdFrom12)

  const NextIdFrom10: Script := Step(Free(3), Done, NextIdFrom11)

  const NextIdFrom9: Script := Step(Free(1), Done, NextIdFrom10)

  const NextIdFrom8: Script := Step(Next, Id(6), NextIdFrom9)

  const NextIdFrom7: Script := Step(Next, Id(5), NextIdFrom8)

  const NextIdFrom6: Script := Step(Next, Id(4), NextIdFrom7)

  const NextIdFrom5: Script := Step(Next, Id(3), NextIdFrom6)

  const NextIdFrom4: Script := Step(Next, Id(2), NextIdFrom5)

  const NextIdFrom3: Script := Step(Next, Id(1), NextIdFrom4)

  const NextIdFrom2: Script := Step(Next, Id(0), NextIdFrom3)

  const NextIdFrom1: Script := Step(OpenGen(Name, 3), Done, NextIdFrom2)

  const NextIdFrom0: Script := Step(Create(Some(Name)), Done, NextIdFrom1)

  const NextIdTest: Script := NextIdFrom0

  /**
   * testNextId: new ids are consecutive; ids freed in a session are not
   * reused by it (7 follows the frees of 1, 3, 5); a reopened session hands
   * out the freed ids in the order they were written, interleaved with its
   * own frees, and only then resumes at the persisted high id.
   */
  lemma NextIdScript()
    ensures Replays(Start, NextIdTest)
    ensures Final(Start, NextIdTest).disk == map[Name := IdFile(false, 12, [])]
  {
    NextIdStep43();
    Cons(NextIdW42, CloseGen, Done, NextIdW43, NextIdFrom43);
    NextIdStep42();
    Cons(NextIdW41, Next, Id(11), NextIdW42, NextIdFrom42);
    NextIdStep41();
    Cons(NextIdW40, Next, Id(10), NextIdW41, NextIdFrom41);
    NextIdStep40();
    Cons(NextIdW39, Next, Id(9), NextIdW40, NextIdFrom40);
    NextIdStep39();
    Cons(NextIdW38, Next, Id(8), NextIdW39, NextIdFrom39);
    NextIdStep38();
    Cons(NextIdW37, Next, Id(6), NextIdW38, NextIdFrom38);
    NextIdStep37();
    Cons(NextIdW36, Next, Id(5), NextIdW37, NextIdFrom37);
    NextIdStep36();
    Cons(NextIdW35, Next, Id(3), NextIdW36, NextIdFrom36);
    NextIdStep35();
    Cons(NextIdW34, Next, Id(1), NextIdW35, NextIdFrom35);
    NextIdStep34();
    Cons(NextIdW33, Next, Id(4), NextIdW34, NextIdFrom34);
    NextIdStep33();
    Cons(NextIdW32, Next, Id(2), NextIdW33, NextIdFrom33);
    NextIdStep32();
    Cons(NextIdW31, OpenGen(Name, 3), Done, NextIdW32, NextIdFrom32);
    NextIdStep31();
    Cons(NextIdW30, CloseGen, Done, NextIdW31, NextIdFrom31);
    NextIdStep30();
    Cons(NextIdW29, Free(9), Done, NextIdW30, NextIdFrom30);
    NextIdStep29();
    Cons(NextIdW28, Next, Id(9), NextIdW29, NextIdFrom29);
    NextIdStep28();
    Cons(NextIdW27, Free(8), Done, NextIdW28, NextIdFrom28);
    NextIdStep27();
    Cons(NextIdW26, Next, Id(8), NextIdW27, NextIdFrom27);
    NextIdStep26();
    Cons(NextIdW25, Free(6), Done, NextIdW26, NextIdFrom26);
    NextIdStep25();
    Cons(NextIdW24, Next, Id(6), NextIdW25, NextIdFrom25);
    NextIdStep24();
    Cons(NextIdW23, Free(5), Done, NextIdW24, NextIdFrom24);
    NextIdStep23();
    Cons(NextIdW22, Next, Id(5), NextIdW23, NextIdFrom23);
    NextIdStep22();
    Cons(NextIdW21, Free(3), Done, NextIdW22, NextIdFrom22);
    NextIdStep21();
    Cons(NextIdW20, Next, Id(3), NextIdW21, NextIdFrom21);
    NextIdStep20();
    Cons(NextIdW19, Free(1), Done, NextIdW20, NextIdFrom20);
    NextIdStep19();
    Cons(NextIdW18, Next, Id(1), NextIdW19, NextIdFrom19);
    NextIdStep18();
    Cons(NextIdW17, Free(4), Done, NextIdW18, NextIdFrom18);
    NextIdStep17();
    Cons(NextIdW16, Free(2), Done, NextIdW17, NextIdFrom17);
    NextIdStep16();
    Cons(NextIdW15, OpenGen(Name, 5), Done, NextIdW16, NextIdFrom16);
    NextIdStep15();
    Cons(NextIdW14, CloseGen, Done, NextIdW15, NextIdFrom15);
    NextIdStep14();
    Cons(NextIdW13, Free(6), Done, NextIdW14, NextIdFrom14);
    NextIdStep13();
    Cons(NextIdW12, Next, Id(7), NextIdW13, NextIdFrom13);
    NextIdStep12();
    Cons(NextIdW11, Free(5), Done, NextIdW12, NextIdFrom12);
    NextIdStep11();
    Cons(NextIdW10, Free(3), Done, NextIdW11, NextIdFrom11);
    NextIdStep10();
    Cons(NextIdW9, Free(1), Done, NextIdW10, NextIdFrom10);
    NextIdStep9();
    Cons(NextIdW8, Next, Id(6), NextIdW9, NextIdFrom9);
    NextIdStep8();
    Cons(NextIdW7, Next, Id(5), NextIdW8, NextIdFrom8);
    NextIdStep7();
    Cons(NextIdW6, Next, Id(4), NextIdW7, NextIdFrom7);
    NextIdStep6();
    Cons(NextIdW5, Next, Id(3), NextIdW6, NextIdFrom6);
    NextIdStep5();
    Cons(NextIdW4, Next, Id(2), NextIdW5, NextIdFrom5);
    NextIdStep4();
    Cons(NextIdW3, Next, Id(1), NextIdW4, NextIdFrom4);
    NextIdStep3();
    Cons(NextIdW2, Next, Id(0), NextIdW3, NextIdFrom3);
    NextIdStep2();
    Cons(NextIdW1, OpenGen(Name, 3), Done, NextIdW2, NextIdFrom2);
    NextIdStep1();
    Cons(Start, Create(Some(Name)), Done, NextIdW1, NextIdFrom1);
  }

  // ---------------------------------------------------------------------
  // testFreeId

  const FreeIdW1 :=
    World(map[Name := IdFile(false, 0, [])], None)

  lemma FreeIdStep1()
    ensures WorldValid(Start) && Exec(Start, Create(Some(Name))) == (FreeIdW1, Done)
  {
    Agree(Exec(Start, Create(Some(Name))).0, FreeIdW1);
  }

  const FreeIdW2 :=
    World(map[Name := IdFile(true, 0, [])], Some(Generator(Name, 3, 0, [], [], [], false)))

  lemma FreeIdStep2()
    ensures WorldValid(FreeIdW1) && Exec(FreeIdW1, OpenGen(Name, 3)) == (FreeIdW2, Done)
  {
    Agree(Exec(FreeIdW1, OpenGen(Name, 3)).0, FreeIdW2);
  }

  const FreeIdW3 :=
    World(map[Name := IdFile(true, 0, [])], Some(Generator(Name, 3, 1, [], [], [], false)))

  lemma FreeIdStep3()
    ensures WorldValid(FreeIdW2) && Exec(FreeIdW2, Next) == (FreeIdW3, Id(0))
  {
    Agree(Exec(FreeIdW2, Next).0, FreeIdW3);
  }

  const FreeIdW4 :=
    World(map[Name := IdFile(true, 0, [])], Some(Generator(Name, 3, 2, [], [], [], false)))

  lemma FreeIdStep4()
    ensures WorldValid(FreeIdW3) && Exec(FreeIdW3, Next) == (FreeIdW4, Id(1))
  {
    Agree(Exec(FreeIdW3, Next).0, FreeIdW4);
  }

  const FreeIdW5 :=
    World(map[Name := IdFile(true, 0, [])], Some(Generator(Name, 3, 3, [], [], [], false)))

  lemma FreeIdStep5()
    ensures WorldValid(FreeIdW4) && Exec(FreeIdW4, Next) == (FreeIdW5, Id(2))
  {
    Agree(Exec(FreeIdW4, Next).0, FreeIdW5);
  }

  const FreeIdW6 :=
    World(map[Name := IdFile(true, 0, [])], Some(Generator(Name, 3, 4, [], [], [], false)))

  lemma FreeIdStep6()
    ensures WorldValid(FreeIdW5) && Exec(FreeIdW5, Next) == (FreeIdW6, Id(3))
  {
    Agree(Exec(FreeIdW5, Next).0, FreeIdW6);
  }

  const FreeIdW7 :=
    World(map[Name := IdFile(true, 0, [])], Some(Generator(Name, 3, 5, [], [], [], false)))

  lemma FreeIdStep7()
    ensures WorldValid(FreeIdW6) && Exec(FreeIdW6, Next) == (FreeIdW7, Id(4))
  {
    Agree(Exec(FreeIdW6, Next).0, FreeIdW7);
  }

  const FreeIdW8 :=
    World(map[Name := IdFile(true, 0, [])], Some(Generator(Name, 3, 6, [], [], [], false)))

  lemma FreeIdStep8()
    ensures WorldValid(FreeIdW7) && Exec(FreeIdW7, Next) == (FreeIdW8, Id(5))
  {
    Agree(Exec(FreeIdW7, Next).0, FreeIdW8);
  }

  const FreeIdW9 :=
    World(map[Name := IdFile(true, 0, [])], Some(Generator(Name, 3, 7, [], [], [], false)))

  lemma FreeIdStep9()
    ensures WorldValid(FreeIdW8) && Exec(FreeIdW8, Next) == (FreeIdW9, Id(6))
  {
    Agree(Exec(FreeIdW8, Next).0, FreeIdW9);
  }

  const FreeIdW10 :=
    World(map[Name := IdFile(true, 0, [])], Some(Generator(Name, 3, 7, [], [], [], false)))

  lemma FreeIdStep10()
    ensures WorldValid(FreeIdW9) && Exec(FreeIdW9, Free(-1)) == (FreeIdW10, Raised(IllegalArgument))
  {
    Agree(Exec(FreeIdW9, Free(-1)).0, FreeIdW10);
  }

  const FreeIdW11 :=
    World(map[Name := IdFile(true, 0, [])], Some(Generator(Name, 3, 7, [], [], [], false)))

  lemma FreeIdStep11()
    ensures WorldValid(FreeIdW10) && Exec(FreeIdW10, Free(7)) == (FreeIdW11, Raised(IllegalArgument))
  {
    Agree(Exec(FreeIdW10, Free(7)).0, FreeIdW11);
  }

  const FreeIdW12 :=
    World(map[Name := IdFile(true, 0, [])], Some(Generator(Name, 3, 7, [], [], [0], false)))

  lemma FreeIdStep12()
    ensures WorldValid(FreeIdW11) && Exec(FreeIdW11, Free(0)) == (FreeIdW12, Done)
  {
    Agree(Exec(FreeIdW11, Free(0)).0, FreeIdW12);
  }

  const FreeIdW13 :=
    World(map[Name := IdFile(true, 0, [])], Some(Generator(Name, 3, 7, [], [], [0, 1], false)))

  lemma FreeIdStep13()
    ensures WorldValid(FreeIdW12) && Exec(FreeIdW12, Free(1)) == (FreeIdW13, Done)
  {
    Agree(Exec(FreeIdW12, Free(1)).0, FreeIdW13);
  }

  const FreeIdW14 :=
    World(map[Name := IdFile(true, 0, [])], Some(Generator(Name, 3, 7, [], [], [0, 1, 2], false)))

  lemma FreeIdStep14()
    ensures WorldValid(FreeIdW13) && Exec(FreeIdW13, Free(2)) == (FreeIdW14, Done)
  {
    Agree(Exec(FreeIdW13, Free(2)).0, FreeIdW14);
  }

  const FreeIdW15 :=
    World(map[Name := IdFile(true, 0, [])], Some(Generator(Name, 3, 7, [], [], [0, 1, 2, 3], false)))

  lemma FreeIdStep15()
    ensures WorldValid(FreeIdW14) && Exec(FreeIdW14, Free(3)) == (FreeIdW15, Done)
  {
    Agree(Exec(FreeIdW14, Free(3)).0, FreeIdW15);
  }

  const FreeIdW16 :=
    World(map[Name := IdFile(true, 0, [])], Some(Generator(Name, 3, 7, [], [], [0, 1, 2, 3, 4], false)))

  lemma FreeIdStep16()
    ensures WorldValid(FreeIdW15) && Exec(FreeIdW15, Free(4)) == (FreeIdW16, Done)
  {
    Agree(Exec(FreeIdW15, Free(4)).0, FreeIdW16);
  }

  const FreeIdW17 :=
    World(map[Name := IdFile(true, 0, [])], Some(Generator(Name, 3, 7, [], [], [0, 1, 2, 3, 4, 5], false)))

  lemma FreeIdStep17()
    ensures WorldValid(FreeIdW16) && Exec(FreeIdW16, Free(5)) == (FreeIdW17, Done)
  {
    Agree(Exec(FreeIdW16, Free(5)).0, FreeIdW17);
  }

  const FreeIdW18 :=
    World(map[Name := IdFile(true, 0, [])], Some(Generator(Name, 3, 7, [], [], [0, 1, 2, 3, 4, 5, 6], false)))

  lemma FreeIdStep18()
    ensures WorldValid(FreeIdW17) && Exec(FreeIdW17, Free(6)) == (FreeIdW18, Done)
  {
    Agree(Exec(FreeIdW17, Free(6)).0, FreeIdW18);
  }

  const FreeIdW19 :=
    World(map[Name := IdFile(false, 7, [0, 1, 2, 3, 4, 5, 6])], Some(Generator(Name, 3, 7, [], [], [0, 1, 2, 3, 4, 5, 6], true)))

  lemma FreeIdStep19()
    ensures WorldValid(FreeIdW18) && Exec(FreeIdW18, CloseGen) == (FreeIdW19, Done)
  {
    Agree(Exec(FreeIdW18, CloseGen).0, FreeIdW19);
  }

  const FreeIdW20 :=
    World(map[Name := IdFile(true, 7, [0, 1, 2, 3, 4, 5, 6])], Some(Generator(Name, 2, 7, [2, 3, 4, 5, 6], [0, 1], [], false)))

  lemma FreeIdStep20()
    ensures WorldValid(FreeIdW19) && Exec(FreeIdW19, OpenGen(Name, 2)) == (FreeIdW20, Done)
  {
    Agree(Exec(FreeIdW19, OpenGen(Name, 2)).0, FreeIdW20);
  }

  const FreeIdW21 :=
    World(map[Name := IdFile(true, 7, [0, 1, 2, 3, 4, 5, 6])], Some(Generator(Name, 2, 7, [2, 3, 4, 5, 6], [1], [], false)))

  lemma FreeIdStep21()
    ensures WorldValid(FreeIdW20) && Exec(FreeIdW20, Next) == (FreeIdW21, Id(0))
  {
    Agree(Exec(FreeIdW20, Next).0, FreeIdW21);
  }

  const FreeIdW22 :=
    World(map[Name := IdFile(true, 7, [0, 1, 2, 3, 4, 5, 6])], Some(Generator(Name, 2, 7, [4, 5, 6], [2, 3], [], false)))

  lemma FreeIdStep22()
    ensures WorldValid(FreeIdW21) && Exec(FreeIdW21, Next) == (FreeIdW22, Id(1))
  {
    Agree(Exec(FreeIdW21, Next).0, FreeIdW22);
  }

  const FreeIdW23 :=
    World(map[Name := IdFile(true, 7, [0, 1, 2, 3, 4, 5, 6])], Some(Generator(Name, 2, 7, [4, 5, 6], [3], [], false)))

  lemma FreeIdStep23()
    ensures WorldValid(FreeIdW22) && Exec(FreeIdW22, Next) == (FreeIdW23, Id(2))
  {
    Agree(Exec(FreeIdW22, Next).0, FreeIdW23);
  }

  const FreeIdW24 :=
    World(map[Name := IdFile(false, 7, [4, 5, 6, 3])], Some(Generator(Name, 2, 7, [4, 5, 6], [3], [], true)))

  lemma FreeIdStep24()
    ensures WorldValid(FreeIdW23) && Exec(FreeIdW23, CloseGen) == (FreeIdW24, Done)
  {
    Agree(Exec(FreeIdW23, CloseGen).0, FreeIdW24);
  }

  const FreeIdW25 :=
    World(map[Name := IdFile(true, 7, [4, 5, 6, 3])], Some(Generator(Name, 2, 7, [6, 3], [4, 5], [], false)))

  lemma FreeIdStep25()
    ensures WorldValid(FreeIdW24) && Exec(FreeIdW24, OpenGen(Name, 2)) == (FreeIdW25, Done)
  {
    Agree(Exec(FreeIdW24, OpenGen(Name, 2)).0, FreeIdW25);
  }

  const FreeIdW26 :=
    World(map[Name := IdFile(true, 7, [4, 5, 6, 3])], Some(Generator(Name, 2, 7, [6, 3], [5], [], false)))

  lemma FreeIdStep26()
    ensures WorldValid(FreeIdW25) && Exec(FreeIdW25, Next) == (FreeIdW26, Id(4))
  {
    Agree(Exec(FreeIdW25, Next).0, FreeIdW26);
  }

  const FreeIdW27 :=
    World(map[Name := IdFile(true, 7, [4, 5, 6, 3])], Some(Generator(Name, 2, 7, [], [6, 3], [], false)))

  lemma FreeIdStep27()
    ensures WorldValid(FreeIdW26) && Exec(FreeIdW26, Next) == (FreeIdW27, Id(5))
  {
    Agree(Exec(FreeIdW26, Next).0, FreeIdW27);
  }

  const FreeIdW28 :=
    World(map[Name := IdFile(true, 7, [4, 5, 6, 3])], Some(Generator(Name, 2, 7, [], [3], [], false)))

  lemma FreeIdStep28()
    ensures WorldValid(FreeIdW27) && Exec(FreeIdW27, Next) == (FreeIdW28, Id(6))
  {
    Agree(Exec(FreeIdW27, Next).0, FreeIdW28);
  }

  const FreeIdW29 :=
    World(map[Name := IdFile(true, 7, [4, 5, 6, 3])], Some(Generator(Name, 2, 7, [], [], [], false)))

  lemma FreeIdStep29()
    ensures WorldValid(FreeIdW28) && Exec(FreeIdW28, Next) == (FreeIdW29, Id(3))
  {
    Agree(Exec(FreeIdW28, Next).0, FreeIdW29);
  }

  const FreeIdW30 :=
    World(map[Name := IdFile(false, 7, [])], Some(Generator(Name, 2, 7, [], [], [], true)))

  lemma FreeIdStep30()
    ensures WorldValid(FreeIdW29) && Exec(FreeIdW29, CloseGen) == (FreeIdW30, Done)
  {
    Agree(Exec(FreeIdW29, CloseGen).0, FreeIdW30);
  }

  const FreeIdFrom30: Script := End

  const FreeIdFrom29: Script := Step(CloseGen, Done, FreeIdFrom30)

  const FreeIdFrom28: Script := Step(Next, Id(3), FreeIdFrom29)

  const FreeIdFrom27: Script := Step(Next, Id(6), FreeIdFrom28)

  const FreeIdFrom26: Script := Step(Next, Id(5), FreeIdFrom27)

  const FreeIdFrom25: Script := Step(Next, Id(4), FreeIdFrom26)

  const FreeIdFrom24: Script := Step(OpenGen(Name, 2), Done, FreeIdFrom25)

  const FreeIdFrom23: Script := Step(CloseGen, Done, FreeIdFrom24)

  const FreeIdFrom22: Script := Step(Next, Id(2), FreeIdFrom23)

  const FreeIdFrom21: Script := Step(Next, Id(1), FreeIdFrom22)

  const FreeIdFrom20: Script := Step(Next, Id(0), FreeIdFrom21)

  const FreeIdFrom19: Script := Step(OpenGen(Name, 2), Done, FreeIdFrom20)

  const FreeIdFrom18: Script := Step(CloseGen, Done, FreeIdFrom19)

  const FreeIdFrom17: Script := Step(Free(6), Done, FreeIdFrom18)

  const FreeIdFrom16: Script := Step(Free(5), Done, FreeIdFrom17)

  const FreeIdFrom15: Script := Step(Free(4), Done, FreeIdFrom16)

  const FreeIdFrom14: Script := Step(Free(3), Done, FreeIdFrom15)

  const FreeIdFrom13: Script := Step(Free(2), Done, FreeIdFrom14)

  const FreeIdFrom12: Script := Step(Free(1), Done, FreeIdFrom13)

  const FreeIdFrom11: Script := Step(Free(0), Done, FreeIdFrom12)

  const FreeIdFrom10: Script := Step(Free(7), Raised(IllegalArgument), FreeIdFrom11)

  const FreeIdFrom9: Script := Step(Free(-1), Raised(IllegalArgument), FreeIdFrom10)

  const FreeIdFrom8: Script := Step(Next, Id(6), FreeIdFrom9)

  const FreeIdFrom7: Script := Step(Next, Id(5), FreeIdFrom8)

  const FreeIdFrom6: Script := Step(Next, Id(4), FreeIdFrom7)

  const FreeIdFrom5: Script := Step(Next, Id(3), FreeIdFrom6)

  const FreeIdFrom4: Script := Step(Next, Id(2), FreeIdFrom5)

  const FreeIdFrom3: Script := Step(Next, Id(1), FreeIdFrom4)

  const FreeIdFrom2: Script := Step(Next, Id(0), FreeIdFrom3)

  const FreeIdFrom1: Script := Step(OpenGen(Name, 3), Done, FreeIdFrom2)

  const FreeIdFrom0: Script := Step(Create(Some(Name)), Done, FreeIdFrom1)

  const FreeIdTest: Script := FreeIdFrom0

  /**
   * testFreeId: freeing -1 or an id never handed out is an illegal argument;
   * with grab size 2 the id 3 is read ahead but not used before close, so
   * the next session serves the unread 4, 5, 6 first and 3 last.
   */
  lemma FreeIdScript()
    ensures Replays(Start, FreeIdTest)
    ensures Final(Start, FreeIdTest).disk == map[Name := IdFile(false, 7, [])]
  {
    FreeIdStep30();
    Cons(FreeIdW29, CloseGen, Done, FreeIdW30, FreeIdFrom30);
    FreeIdStep29();
    Cons(FreeIdW28, Next, Id(3), FreeIdW29, FreeIdFrom29);
    FreeIdStep28();
    Cons(FreeIdW27, Next, Id(6), FreeIdW28, FreeIdFrom28);
    FreeIdStep27();
    Cons(FreeIdW26, Next, Id(5), FreeIdW27, FreeIdFrom27);
    FreeIdStep26();
    Cons(FreeIdW25, Next, Id(4), FreeIdW26, FreeIdFrom26);
    FreeIdStep25();
    Cons(FreeIdW24, OpenGen(Name, 2), Done, FreeIdW25, FreeIdFrom25);
    FreeIdStep24();
    Cons(FreeIdW23, CloseGen, Done, FreeIdW24, FreeIdFrom24);
    FreeIdStep23();
    Cons(FreeIdW22, Next, Id(2), FreeIdW23, FreeIdFrom23);
    FreeIdStep22();
    Cons(FreeIdW21, Next, Id(1), FreeIdW22, FreeIdFrom22);
    FreeIdStep21();
    Cons(FreeIdW20, Next, Id(0), FreeIdW21, FreeIdFrom21);
    FreeIdStep20();
    Cons(FreeIdW19, OpenGen(Name, 2), Done, FreeIdW20, FreeIdFrom20);
    FreeIdStep19();
    Cons(FreeIdW18, CloseGen, Done, FreeIdW19, FreeIdFrom19);
    FreeIdStep18();
    Cons(FreeIdW17, Free(6), Done, FreeIdW18, FreeIdFrom18);
    FreeIdStep17();
    Cons(FreeIdW16, Free(5), Done, FreeIdW17, FreeIdFrom17);
    FreeIdStep16();
    Cons(FreeIdW15, Free(4), Done, FreeIdW16, FreeIdFrom16);
    FreeIdStep15();
    Cons(FreeIdW14, Free(3), Done, FreeIdW15, FreeIdFrom15);
    FreeIdStep14();
    Cons(FreeIdW13, Free(2), Done, FreeIdW14, FreeIdFrom14);
    FreeIdStep13();
    Cons(FreeIdW12, Free(1), Done, FreeIdW13, FreeIdFrom13);
    FreeIdStep12();
    Cons(FreeIdW11, Free(0), Done, FreeIdW12, FreeIdFrom12);
    FreeIdStep11();
    Cons(FreeIdW10, Free(7), Raised(IllegalArgument), FreeIdW11, FreeIdFrom11);
    FreeIdStep10();
    Cons(FreeIdW9, Free(-1), Raised(IllegalArgument), FreeIdW10, FreeIdFrom10);
    FreeIdStep9();
    Cons(FreeIdW8, Next, Id(6), FreeIdW9, FreeIdFrom9);
    FreeIdStep8();
    Cons(FreeIdW7, Next, Id(5), FreeIdW8, FreeIdFrom8);
    FreeIdStep7();
    Cons(FreeIdW6, Next, Id(4), FreeIdW7, FreeIdFrom7);
    FreeIdStep6();
    Cons(FreeIdW5, Next, Id(3), FreeIdW6, FreeIdFrom6);
    FreeIdStep5();
    Cons(FreeIdW4, Next, Id(2), FreeIdW5, FreeIdFrom5);
    FreeIdStep4();
    Cons(FreeIdW3, Next, Id(1), FreeIdW4, FreeIdFrom4);
    FreeIdStep3();
    Cons(FreeIdW2, Next, Id(0), FreeIdW3, FreeIdFrom3);
    FreeIdStep2();
    Cons(FreeIdW1, OpenGen(Name, 3), Done, FreeIdW2, FreeIdFrom2);
    FreeIdStep1();
    Cons(Start, Create(Some(Name)), Done, FreeIdW1, FreeIdFrom1);
  }

  // ---------------------------------------------------------------------
  // testClose

  const CloseW1 :=
    World(map[Name := IdFile(false, 0, [])], None)

  lemma CloseStep1()
    ensures WorldValid(Start) && Exec(Start, Create(Some(Name))) == (CloseW1, Done)
  {
    Agree(Exec(Start, Create(Some(Name))).0, CloseW1);
  }

  const CloseW2 :=
    World(map[Name := IdFile(true, 0, [])], Some(Generator(Name, 2, 0, [], [], [], false)))

  lemma CloseStep2()
    ensures WorldValid(CloseW1) && Exec(CloseW1, OpenGen(Name, 2)) == (CloseW2, Done)
  {
    Agree(Exec(CloseW1, OpenGen(Name, 2)).0, CloseW2);
  }

  const CloseW3 :=
    World(map[Name := IdFile(false, 0, [])], Some(Generator(Name, 2, 0, [], [], [], true)))

  lemma CloseStep3()
    ensures WorldValid(CloseW2) && Exec(CloseW2, CloseGen) == (CloseW3, Done)
  {
    Agree(Exec(CloseW2, CloseGen).0, CloseW3);
  }

  const CloseW4 :=
    World(map[Name := IdFile(false, 0, [])], Some(Generator(Name, 2, 0, [], [], [], true)))

  lemma CloseStep4()
    ensures WorldValid(CloseW3) && Exec(CloseW3, Next) == (CloseW4, Raised(IllegalState))
  {
    Agree(Exec(CloseW3, Next).0, CloseW4);
  }

  const CloseW5 :=
    World(map[Name := IdFile(false, 0, [])], Some(Generator(Name, 2, 0, [], [], [], true)))

  lemma CloseStep5()
    ensures WorldValid(CloseW4) && Exec(CloseW4, Free(0)) == (CloseW5, Raised(IllegalArgument))
  {
    Agree(Exec(CloseW4, Free(0)).0, CloseW5);
  }

  const CloseW6 :=
    World(map[Name := IdFile(true, 0, [])], Some(Generator(Name, 2, 0, [], [], [], false)))

  lemma CloseStep6()
    ensures WorldValid(CloseW5) && Exec(CloseW5, OpenGen(Name, 2)) == (CloseW6, Done)
  {
    Agree(Exec(CloseW5, OpenGen(Name, 2)).0, CloseW6);
  }

  const CloseW7 :=
    World(map[Name := IdFile(true, 0, [])], Some(Generator(Name, 2, 1, [], [], [], false)))

  lemma CloseStep7()
    ensures WorldValid(CloseW6) && Exec(CloseW6, Next) == (CloseW7, Id(0))
  {
    Agree(Exec(CloseW6, Next).0, CloseW7);
  }

  const CloseW8 :=
    World(map[Name := IdFile(true, 0, [])], Some(Generator(Name, 2, 2, [], [], [], false)))

  lemma CloseStep8()
    ensures WorldValid(CloseW7) && Exec(CloseW7, Next) == (CloseW8, Id(1))
  {
    Agree(Exec(CloseW7, Next).0, CloseW8);
  }

  const CloseW9 :=
    World(map[Name := IdFile(true, 0, [])], Some(Generator(Name, 2, 3, [], [], [], false)))

  lemma CloseStep9()
    ensures WorldValid(CloseW8) && Exec(CloseW8, Next) == (CloseW9, Id(2))
  {
    Agree(Exec(CloseW8, Next).0, CloseW9);
  }

  const CloseW10 :=
    World(map[Name := IdFile(false, 3, [])], Some(Generator(Name, 2, 3, [], [], [], true)))

  lemma CloseStep10()
    ensures WorldValid(CloseW9) && Exec(CloseW9, CloseGen) == (CloseW10, Done)
  {
    Agree(Exec(CloseW9, CloseGen).0, CloseW10);
  }

  const CloseW11 :=
    World(map[Name := IdFile(false, 3, [])], Some(Generator(Name, 2, 3, [], [], [], true)))

  lemma CloseStep11()
    ensures WorldValid(CloseW10) && Exec(CloseW10, Next) == (CloseW11, Raised(IllegalState))
  {
    Agree(Exec(CloseW10, Next).0, CloseW11);
  }

  const CloseW12 :=
    World(map[Name := IdFile(false, 3, [])], Some(Generator(Name, 2, 3, [], [], [], true)))

  lemma CloseStep12()
    ensures WorldValid(CloseW11) && Exec(CloseW11, Free(0)) == (CloseW12, Raised(IllegalArgument))
  {
    Agree(Exec(CloseW11, Free(0)).0, CloseW12);
  }

  const CloseFrom12: Script := End

  const CloseFrom11: Script := Step(Free(0), Raised(IllegalArgument), CloseFrom12)

  const CloseFrom10: Script := Step(Next, Raised(IllegalState), CloseFrom11)

  const CloseFrom9: Script := Step(CloseGen, Done, CloseFrom10)

  const CloseFrom8: Script := Step(Next, Id(2), CloseFrom9)

  const CloseFrom7: Script := Step(Next, Id(1), CloseFrom8)

  const CloseFrom6: Script := Step(Next, Id(0), CloseFrom7)

  const CloseFrom5: Script := Step(OpenGen(Name, 2), Done, CloseFrom6)

  const CloseFrom4: Script := Step(Free(0), Raised(IllegalArgument), CloseFrom5)

  const CloseFrom3: Script := Step(Next, Raised(IllegalState), CloseFrom4)

  const CloseFrom2: Script := Step(CloseGen, Done, CloseFrom3)

  const CloseFrom1: Script := Step(OpenGen(Name, 2), Done, CloseFrom2)

  const CloseFrom0: Script := Step(Create(Some(Name)), Done, CloseFrom1)

  const CloseTest: Script := CloseFrom0

  /**
   * testClose: after close, nextId is an illegal state and freeId an illegal
   * argument; a reopened generator resumes at the persisted high id 0.
   */
  lemma CloseScript()
    ensures Replays(Start, CloseTest)
    ensures Final(Start, CloseTest).disk == map[Name := IdFile(false, 3, [])]
  {
    CloseStep12();
    Cons(CloseW11, Free(0), Raised(IllegalArgument), CloseW12, CloseFrom12);
    CloseStep11();
    Cons(CloseW10, Next, Raised(IllegalState), CloseW11, CloseFrom11);
    CloseStep10();
    Cons(CloseW9, CloseGen, Done, CloseW10, CloseFrom10);
    CloseStep9();
    Cons(CloseW8, Next, Id(2), CloseW9, CloseFrom9);
    CloseStep8();
    Cons(CloseW7, Next, Id(1), CloseW8, CloseFrom8);
    CloseStep7();
    Cons(CloseW6, Next, Id(0), CloseW7, CloseFrom7);
    CloseStep6();
    Cons(CloseW5, OpenGen(Name, 2), Done, CloseW6, CloseFrom6);
    CloseStep5();
    Cons(CloseW4, Free(0), Raised(IllegalArgument), CloseW5, CloseFrom5);
    CloseStep4();
    Cons(CloseW3, Next, Raised(IllegalState), CloseW4, CloseFrom4);
    CloseStep3();
    Cons(CloseW2, CloseGen, Done, CloseW3, CloseFrom3);
    CloseStep2();
    Cons(CloseW1, OpenGen(Name, 2), Done, CloseW2, CloseFrom2);
    CloseStep1();
    Cons(Start, Create(Some(Name)), Done, CloseW1, CloseFrom1);
  }

  // ---------------------------------------------------------------------
  // testUnsignedId

  const UnsignedW1 :=
    World(map[Name := IdFile(false, 0, [])], None)

  lemma UnsignedStep1()
    ensures WorldValid(Start) && Exec(Start, Create(Some(Name))) == (UnsignedW1, Done)
  {
    Agree(Exec(Start, Create(Some(Name))).0, UnsignedW1);
  }

  const UnsignedW2 :=
    World(map[Name := IdFile(true, 0, [])], Some(Generator(Name, 1, 0, [], [], [], false)))

  lemma UnsignedStep2()
    ensures WorldValid(UnsignedW1) && Exec(UnsignedW1, OpenGen(Name, 1)) == (UnsignedW2, Done)
  {
    Agree(Exec(UnsignedW1, OpenGen(Name, 1)).0, UnsignedW2);
  }

  const UnsignedW3 :=
    World(map[Name := IdFile(true, 0, [])], Some(Generator(Name, 1, 4294967293, [], [], [], false)))

  lemma UnsignedStep3()
    ensures WorldValid(UnsignedW2) && Exec(UnsignedW2, SetHigh(4294967293)) == (UnsignedW3, Done)
  {
    Agree(Exec(UnsignedW2, SetHigh(4294967293)).0, UnsignedW3);
  }

  const UnsignedW4 :=
    World(map[Name := IdFile(true, 0, [])], Some(Generator(Name, 1, 4294967294, [], [], [], false)))

  lemma UnsignedStep4()
    ensures WorldValid(UnsignedW3) && Exec(UnsignedW3, Next) == (UnsignedW4, Id(4294967293))
  {
    Agree(Exec(UnsignedW3, Next).0, UnsignedW4);
  }

  const UnsignedW5 :=
    World(map[Name := IdFile(true, 0, [])], Some(Generator(Name, 1, 4294967294, [], [], [4294967293], false)))

  lemma UnsignedStep5()
    ensures WorldValid(UnsignedW4) && Exec(UnsignedW4, Free(4294967293)) == (UnsignedW5, Done)
  {
    Agree(Exec(UnsignedW4, Free(4294967293)).0, UnsignedW5);
  }

  const UnsignedW6 :=
    World(map[Name := IdFile(true, 0, [])], Some(Generator(Name, 1, 4294967294, [], [], [4294967293], false)))

  lemma UnsignedStep6()
    ensures WorldValid(UnsignedW5) && Exec(UnsignedW5, Next) == (UnsignedW6, Raised(StoreFailure))
  {
    Agree(Exec(UnsignedW5, Next).0, UnsignedW6);
  }

  const UnsignedW7 :=
    World(map[Name := IdFile(false, 4294967294, [4294967293])], Some(Generator(Name, 1, 4294967294, [], [], [4294967293], true)))

  lemma UnsignedStep7()
    ensures WorldValid(UnsignedW6) && Exec(UnsignedW6, CloseGen) == (UnsignedW7, Done)
  {
    Agree(Exec(UnsignedW6, CloseGen).0, UnsignedW7);
  }

  const UnsignedW8 :=
    World(map[Name := IdFile(true, 4294967294, [4294967293])], Some(Generator(Name, 1, 4294967294, [], [4294967293], [], false)))

  lemma UnsignedStep8()
    ensures WorldValid(UnsignedW7) && Exec(UnsignedW7, OpenGen(Name, 1)) == (UnsignedW8, Done)
  {
    Agree(Exec(UnsignedW7, OpenGen(Name, 1)).0, UnsignedW8);
  }

  const UnsignedW9 :=
    World(map[Name := IdFile(true, 4294967294, [4294967293])], Some(Generator(Name, 1, 4294967294, [], [4294967293], [], false)))

  lemma UnsignedStep9()
    ensures WorldValid(UnsignedW8) && Exec(UnsignedW8, GetHigh) == (UnsignedW9, High(4294967294))
  {
    Agree(Exec(UnsignedW8, GetHigh).0, UnsignedW9);
  }

  const UnsignedW10 :=
    World(map[Name := IdFile(true, 4294967294, [4294967293])], Some(Generator(Name, 1, 4294967294, [], [], [], false)))

  lemma UnsignedStep10()
    ensures WorldValid(UnsignedW9) && Exec(UnsignedW9, Next) == (UnsignedW10, Id(4294967293))
  {
    Agree(Exec(UnsignedW9, Next).0, UnsignedW10);
  }

  const UnsignedW11 :=
    World(map[Name := IdFile(true, 4294967294, [4294967293])], Some(Generator(Name, 1, 4294967294, [], [], [], false)))

  lemma UnsignedStep11()
    ensures WorldValid(UnsignedW10) && Exec(UnsignedW10, Next) == (UnsignedW11, Raised(StoreFailure))
  {
    Agree(Exec(UnsignedW10, Next).0, UnsignedW11);
  }

  const UnsignedW12 :=
    World(map[Name := IdFile(false, 4294967294, [])], Some(Generator(Name, 1, 4294967294, [], [], [], true)))

  lemma UnsignedStep12()
    ensures WorldValid(UnsignedW11) && Exec(UnsignedW11, CloseGen) == (UnsignedW12, Done)
  {
    Agree(Exec(UnsignedW11, CloseGen).0, UnsignedW12);
  }

  const UnsignedFrom12: Script := End

  const UnsignedFrom11: Script := Step(CloseGen, Done, UnsignedFrom12)

  const UnsignedFrom10: Script := Step(Next, Raised(StoreFailure), UnsignedFrom11)

  const UnsignedFrom9: Script := Step(Next, Id(4294967293), UnsignedFrom10)

  const UnsignedFrom8: Script := Step(GetHigh, High(4294967294), UnsignedFrom9)

  const UnsignedFrom7: Script := Step(OpenGen(Name, 1), Done, UnsignedFrom8)

  const UnsignedFrom6: Script := Step(CloseGen, Done, UnsignedFrom7)

  const UnsignedFrom5: Script := Step(Next, Raised(StoreFailure), UnsignedFrom6)

  const UnsignedFrom4: Script := Step(Free(4294967293), Done, UnsignedFrom5)

  const UnsignedFrom3: Script := Step(Next, Id(4294967293), UnsignedFrom4)

  const UnsignedFrom2: Script := Step(SetHigh(4294967293), Done, UnsignedFrom3)

  const UnsignedFrom1: Script := Step(OpenGen(Name, 1), Done, UnsignedFrom2)

  const UnsignedFrom0: Script := Step(Create(Some(Name)), Done, UnsignedFrom1)

  const UnsignedTest: Script := UnsignedFrom0

  /**
   * testUnsignedId: after setHighId(4294967293) the next id is 4294967293 and
   * the one after exceeds the capacity; the file keeps high id 4294967294, and
   * the freed top id is handed out again by the next session.
   */
  lemma UnsignedScript()
    ensures Replays(Start, UnsignedTest)
    ensures Final(Start, UnsignedTest).disk == map[Name := IdFile(false, 4294967294, [])]
  {
    UnsignedStep12();
    Cons(UnsignedW11, CloseGen, Done, UnsignedW12, UnsignedFrom12);
    UnsignedStep11();
    Cons(UnsignedW10, Next, Raised(StoreFailure), UnsignedW11, UnsignedFrom11);
    UnsignedStep10();
    Cons(UnsignedW9, Next, Id(4294967293), UnsignedW10, UnsignedFrom10);
    UnsignedStep9();
    Cons(UnsignedW8, GetHigh, High(4294967294), UnsignedW9, UnsignedFrom9);
    UnsignedStep8();
    Cons(UnsignedW7, OpenGen(Name, 1), Done, UnsignedW8, UnsignedFrom8);
    UnsignedStep7();
    Cons(UnsignedW6, CloseGen, Done, UnsignedW7, UnsignedFrom7);
    UnsignedStep6();
    Cons(UnsignedW5, Next, Raised(StoreFailure), UnsignedW6, UnsignedFrom6);
    UnsignedStep5();
    Cons(UnsignedW4, Free(4294967293), Done, UnsignedW5, UnsignedFrom5);
    UnsignedStep4();
    Cons(UnsignedW3, Next, Id(4294967293), UnsignedW4, UnsignedFrom4);
    UnsignedStep3();
    Cons(UnsignedW2, SetHigh(4294967293), Done, UnsignedW3, UnsignedFrom3);
    UnsignedStep2();
    Cons(UnsignedW1, OpenGen(Name, 1), Done, UnsignedW2, UnsignedFrom2);
    UnsignedStep1();
    Cons(Start, Create(Some(Name)), Done, UnsignedW1, UnsignedFrom1);
  }

  /**
   * The end of testCreateIdGenerator: the file of a session opened and closed
   * without allocating is exactly the 9-byte header, flag byte 0 and `highId` 0.
   */
  lemma CreatedFileIsHeader()
    ensures Name in Final(Start, CreateTest).disk
    ensures var f := Final(Start, CreateTest).disk[Name];
      Storable(f) && Encode(f) == [0, 0, 0, 0, 0, 0, 0, 0, 0]
  {
  }
}
