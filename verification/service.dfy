/**
 * Service lookup (`org.neo4j.helpers.Service`): implementations of a service
 * carry a set of keys, and a lookup by key returns the first implementation,
 * in loading order, whose keys match. Implementations come from the first of
 * four loaders that is available; the loading machinery itself (class loaders,
 * resource files, reflection) is abstracted into the loaders' outcomes.
 */
module Service {
  import opened Results

  /**
   * The key set of an implementation: the main key alone when there are no
   * alternative keys (none given, or an empty list), otherwise the alternative
   * keys together with the main key.
   */
  function Keys(key: string, altKeys: Option<seq<string>>): (r: set<string>)
    ensures key in r
    ensures altKeys.None? || altKeys.value == [] ==> r == {key}
    ensures forall k :: k in r <==> k == key || (altKeys.Some? && k in altKeys.value)
  {
    if altKeys.None? || altKeys.value == [] then {key}
    else (set k | k in altKeys.value) + {key}
  }

  /**
   * A service implementation: its keys (as `Keys` builds them in the
   * constructor), whether it is a case-insensitive service, and the
   * implementation object itself.
   */
  datatype Impl<T> = Impl(keys: set<string>, caseInsensitive: bool, value: T)

  // -------------------------------------------------------------------------
  // Matching

  /**
   * Two characters are equal ignoring case, as Java compares them: equal, or
   * equal once upper-cased, or equal once upper-cased and then lower-cased.
   * `upper` and `lower` stand for `Character.toUpperCase` and `toLowerCase`.
   */
  function CharEqualsIgnoreCase(upper: char -> char, lower: char -> char, a: char, b: char): (r: bool)
    ensures a == b ==> r
    ensures upper(a) == upper(b) ==> r
    ensures r <==> lower(upper(a)) == lower(upper(b))
  {
    a == b || upper(a) == upper(b) || lower(upper(a)) == lower(upper(b))
  }

  /** `String.equalsIgnoreCase`: same length, and equal ignoring case position by position. */
  function EqualsIgnoreCase(upper: char -> char, lower: char -> char, a: string, b: string): (r: bool)
    ensures a == b ==> r
    ensures r <==> |a| == |b| && forall i | 0 <= i < |a| :: lower(upper(a[i])) == lower(upper(b[i]))
  {
    |a| == |b| && forall i | 0 <= i < |a| :: CharEqualsIgnoreCase(upper, lower, a[i], b[i])
  }

  /**
   * `matches(key)`: a plain service matches exactly its keys; a case-insensitive
   * service matches any key some key of it equals ignoring case.
   */
  function Matches<T>(upper: char -> char, lower: char -> char, impl: Impl<T>, key: string): (r: bool)
    ensures key in impl.keys ==> r
    ensures !impl.caseInsensitive ==> (r <==> key in impl.keys)
    ensures impl.caseInsensitive ==> (r <==> exists id | id in impl.keys ::
      |id| == |key| && forall i | 0 <= i < |id| :: lower(upper(id[i])) == lower(upper(key[i])))
  {
    if impl.caseInsensitive then
      assert key in impl.keys ==> EqualsIgnoreCase(upper, lower, key, key);
      exists id | id in impl.keys :: EqualsIgnoreCase(upper, lower, id, key)
    else key in impl.keys
  }

  /** Equality ignoring case is reflexive and symmetric; `EqualsIgnoreCaseTransitive` completes the equivalence. */
  lemma EqualsIgnoreCaseReflexiveSymmetric(upper: char -> char, lower: char -> char, a: string, b: string)
    ensures EqualsIgnoreCase(upper, lower, a, a)
    ensures EqualsIgnoreCase(upper, lower, a, b) <==> EqualsIgnoreCase(upper, lower, b, a)
  {
  }

  /** Equality ignoring case is transitive, whatever the case mappings. */
  lemma EqualsIgnoreCaseTransitive(upper: char -> char, lower: char -> char, a: string, b: string, c: string)
    requires EqualsIgnoreCase(upper, lower, a, b) && EqualsIgnoreCase(upper, lower, b, c)
    ensures EqualsIgnoreCase(upper, lower, a, c)
  {
    forall i | 0 <= i < |a|
      ensures CharEqualsIgnoreCase(upper, lower, a[i], c[i])
    {
      assert CharEqualsIgnoreCase(upper, lower, a[i], b[i]) && CharEqualsIgnoreCase(upper, lower, b[i], c[i]);
    }
  }

  /** A case-insensitive service cannot tell apart two keys that are equal ignoring case. */
  lemma MatchesIgnoresCase<T>(upper: char -> char, lower: char -> char, impl: Impl<T>, k1: string, k2: string)
    requires impl.caseInsensitive && EqualsIgnoreCase(upper, lower, k1, k2)
    ensures Matches(upper, lower, impl, k1) <==> Matches(upper, lower, impl, k2)
  {
  }

  /** Whatever the case conversions, a service matches each of its own keys. */
  lemma MatchesOwnKeys<T>(upper: char -> char, lower: char -> char, impl: Impl<T>, key: string)
    requires key in impl.keys
    ensures Matches(upper, lower, impl, key)
  {
  }

  /**
   * With case conversions that change nothing, the case-insensitive service
   * matches exactly what the plain one does.
   */
  lemma IdentityCaseIsExact<T>(upper: char -> char, lower: char -> char, impl: Impl<T>, key: string)
    requires forall c :: upper(c) == c && lower(c) == c
    ensures Matches(upper, lower, impl, key) <==> key in impl.keys
  {
    if impl.caseInsensitive && Matches(upper, lower, impl, key) {
      var id :| id in impl.keys && EqualsIgnoreCase(upper, lower, id, key);
      assert id == key;
    }
    if key in impl.keys {
      MatchesOwnKeys(upper, lower, impl, key);
    }
  }

  // -------------------------------------------------------------------------
  // Lookup by key

  /** The failure of a lookup by key. */
  datatype LoadError = NoSuchElement(message: string)

  function NotFoundMessage(typeName: string, key: string): string {
    "Could not find any implementation of " + typeName + " with a key=\"" + key + "\""
  }

  /**
   * `load(type, key)`: the first of the loaded implementations that matches the
   * key; `NoSuchElement` when none does.
   */
  function LoadByKey<T>(upper: char -> char, lower: char -> char, impls: seq<Impl<T>>, typeName: string, key: string)
    : (r: Result<Impl<T>, LoadError>)
    ensures r.Failure? <==> forall i | 0 <= i < |impls| :: !Matches(upper, lower, impls[i], key)
    ensures r.Failure? ==> r.error == NoSuchElement(NotFoundMessage(typeName, key))
    ensures r.Success? ==> exists i | 0 <= i < |impls| ::
      && impls[i] == r.value
      && Matches(upper, lower, impls[i], key)
      && forall j | 0 <= j < i :: !Matches(upper, lower, impls[j], key)
    decreases |impls|
  {
    if impls == [] then Failure(NoSuchElement(NotFoundMessage(typeName, key)))
    else if Matches(upper, lower, impls[0], key) then Success(impls[0])
    else
      var r := LoadByKey(upper, lower, impls[1..], typeName, key);
      assert forall i | 1 <= i < |impls| :: impls[1..][i - 1] == impls[i];
      r
  }

  /**
   * An implementation that comes earlier than every other implementation
   * matching the key is the one found, whichever implementations follow.
   */
  lemma {:induction false} LoadFindsFirst<T>(upper: char -> char, lower: char -> char,
      before: seq<Impl<T>>, impl: Impl<T>, after: seq<Impl<T>>, typeName: string, key: string)
    requires forall i | 0 <= i < |before| :: !Matches(upper, lower, before[i], key)
    requires Matches(upper, lower, impl, key)
    ensures LoadByKey(upper, lower, before + [impl] + after, typeName, key) == Success(impl)
    decreases |before|
  {
    if before != [] {
      assert (before + [impl] + after)[1..] == before[1..] + [impl] + after;
      LoadFindsFirst(upper, lower, before[1..], impl, after, typeName, key);
    }
  }

  // -------------------------------------------------------------------------
  // Loading

  /**
   * What retrieving one element from a loader's iterator gives: an element,
   * a null, or an exception.
   */
  datatype Fetch<T> = Fetched(value: T) | Null | Threw

  /**
   * `filterExceptions`: the elements of the iteration, in order, skipping those
   * whose retrieval threw. A null element reads as the end of the iteration, as
   * a prefetching iterator's `fetchNextOrNull` signals it.
   */
  function FilterExceptions<T>(s: seq<Fetch<T>>): (r: seq<T>)
    ensures |r| <= |s|
    ensures forall k | 0 <= k < |r| :: exists i | 0 <= i < |s| ::
      s[i] == Fetched(r[k]) && forall j | 0 <= j < i :: !s[j].Null?
    ensures forall i | 0 <= i < |s| && s[i].Fetched? && (forall j | 0 <= j < i :: !s[j].Null?) ::
      s[i].value in r
    decreases |s|
  {
    if s == [] then []
    else
      var rest := FilterExceptions(s[1..]);
      assert forall i | 1 <= i < |s| :: s[1..][i - 1] == s[i];
      match s[0]
      case Threw => rest
      case Null => []
      case Fetched(v) => [v] + rest
  }

  /** Where the iteration ends: the position of the first null, or the length. */
  function FirstNull<T>(s: seq<Fetch<T>>): (n: nat)
    ensures n <= |s|
    ensures n < |s| ==> s[n].Null?
    ensures forall j | 0 <= j < n :: !s[j].Null?
    decreases |s|
  {
    if s == [] || s[0].Null? then 0
    else
      var n := FirstNull(s[1..]);
      assert forall j | 1 <= j < |s| :: s[1..][j - 1] == s[j];
      1 + n
  }

  /**
   * The positions, from `from` on and before the first null, of the elements
   * that were retrieved, in increasing order.
   */
  function FetchedFrom<T>(s: seq<Fetch<T>>, from: nat): (idx: seq<nat>)
    requires from <= FirstNull(s)
    ensures forall k | 0 <= k < |idx| :: from <= idx[k] < FirstNull(s) && s[idx[k]].Fetched?
    ensures forall k, l | 0 <= k < l < |idx| :: idx[k] < idx[l]
    ensures forall i | from <= i < FirstNull(s) && s[i].Fetched? :: i in idx
    decreases FirstNull(s) - from
  {
    if from == FirstNull(s) then []
    else if s[from].Fetched? then [from] + FetchedFrom(s, from + 1)
    else FetchedFrom(s, from + 1)
  }

  /** The values of the elements at positions `idx`. */
  function ValuesAt<T>(s: seq<Fetch<T>>, idx: seq<nat>): (r: seq<T>)
    requires forall k | 0 <= k < |idx| :: idx[k] < |s| && s[idx[k]].Fetched?
    ensures |r| == |idx|
    ensures forall k | 0 <= k < |idx| :: s[idx[k]] == Fetched(r[k])
  {
    seq(|idx|, k requires 0 <= k < |idx| => s[idx[k]].value)
  }

  /**
   * `filterExceptions` yields, in iteration order and with repeats, exactly the
   * elements retrieved before the first null: the values at the increasing
   * positions of the retrieved elements, and at no other positions.
   */
  lemma FilterExceptionsInOrder<T>(s: seq<Fetch<T>>)
    ensures FilterExceptions(s) == ValuesAt(s, FetchedFrom(s, 0))
  {
    FilterExceptionsFrom(s, 0);
    assert s[0..] == s;
  }

  lemma {:induction false} FilterExceptionsFrom<T>(s: seq<Fetch<T>>, from: nat)
    requires from <= FirstNull(s)
    ensures FilterExceptions(s[from..]) == ValuesAt(s, FetchedFrom(s, from))
    decreases FirstNull(s) - from
  {
    if from < FirstNull(s) {
      FilterExceptionsFrom(s, from + 1);
      FilterExceptionsStep(s, from);
      var rest := FetchedFrom(s, from + 1);
      if s[from].Fetched? {
        assert FetchedFrom(s, from) == [from] + rest;
        ValuesAtCons(s, from, rest);
      } else {
        assert FetchedFrom(s, from) == rest;
      }
    } else if from < |s| {
      FilterExceptionsStep(s, from);
    }
  }

  /** One step of `filterExceptions` from position `from`. */
  lemma FilterExceptionsStep<T>(s: seq<Fetch<T>>, from: nat)
    requires from < |s|
    ensures s[from].Threw? ==> FilterExceptions(s[from..]) == FilterExceptions(s[from + 1..])
    ensures s[from].Null? ==> FilterExceptions(s[from..]) == []
    ensures s[from].Fetched? ==> FilterExceptions(s[from..]) == [s[from].value] + FilterExceptions(s[from + 1..])
  {
    var t := s[from..];
    assert t[0] == s[from] && t[1..] == s[from + 1..];
  }

  /** The values at `[i] + idx` are the value at `i`, then those at `idx`. */
  lemma ValuesAtCons<T>(s: seq<Fetch<T>>, i: nat, idx: seq<nat>)
    requires i < |s| && s[i].Fetched?
    requires forall k | 0 <= k < |idx| :: idx[k] < |s| && s[idx[k]].Fetched?
    ensures ValuesAt(s, [i] + idx) == [s[i].value] + ValuesAt(s, idx)
  {
  }

  /** Without nulls, filtering a concatenation filters each part. */
  lemma {:induction false} FilterExceptionsAppend<T>(a: seq<Fetch<T>>, b: seq<Fetch<T>>)
    requires forall i | 0 <= i < |a| :: !a[i].Null?
    ensures FilterExceptions(a + b) == FilterExceptions(a) + FilterExceptions(b)
    decreases |a|
  {
    if a != [] {
      assert (a + b)[0] == a[0];
      assert (a + b)[1..] == a[1..] + b;
      FilterExceptionsAppend(a[1..], b);
    } else {
      assert a + b == b;
    }
  }

  /** An iteration in which nothing throws and nothing is null loses nothing. */
  lemma {:induction false} FilterExceptionsKeepsAll<T>(s: seq<Fetch<T>>)
    requires forall i | 0 <= i < |s| :: s[i].Fetched?
    ensures FilterExceptions(s) == seq(|s|, i requires 0 <= i < |s| => s[i].value)
    decreases |s|
  {
    if s != [] {
      FilterExceptionsKeepsAll(s[1..]);
    }
  }

  /** A platform loader's outcome as `load(type)` sees it: through `filterExceptions`. */
  function Filtered<T>(loader: Option<seq<Fetch<T>>>): Option<seq<T>> {
    match loader
    case None => None
    case Some(s) => Some(FilterExceptions(s))
  }

  /**
   * `load(type)`: the implementations from the first loader that is available,
   * tried in the order OSGi, Java 6 `ServiceLoader`, Sun's Java 5 `Service`, and
   * the resource-file reader of this class; none available gives no
   * implementations. The two platform loaders go through `filterExceptions`.
   * `None` stands for a loader that returned null.
   */
  function Load<T>(osgi: Option<seq<T>>, java6: Option<seq<Fetch<T>>>,
                   sunJava5: Option<seq<Fetch<T>>>, ownLoader: Option<seq<T>>): (r: seq<T>)
    ensures var loaders := [osgi, Filtered(java6), Filtered(sunJava5), ownLoader];
      || ((forall i | 0 <= i < 4 :: loaders[i].None?) && r == [])
      || exists i | 0 <= i < 4 :: loaders[i].Some? && r == loaders[i].value
                                 && forall j | 0 <= j < i :: loaders[j].None?
  {
    var loaders := [osgi, Filtered(java6), Filtered(sunJava5), ownLoader];
    if osgi.Some? then assert loaders[0].Some?; osgi.value
    else if java6.Some? then assert loaders[1].Some?; FilterExceptions(java6.value)
    else if sunJava5.Some? then assert loaders[2].Some?; FilterExceptions(sunJava5.value)
    else if ownLoader.Some? then assert loaders[3].Some?; ownLoader.value
    else []
  }
}
