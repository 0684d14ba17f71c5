/**
 * The key of the calculator's memo maps (Models/DifficultyAttributesKey.cs):
 * a C# record of the beatmap id, the hit-object limit and an array of mods,
 * the mods ordered by acronym first.
 *
 * The record's generated equality compares the Mod[] field as a reference.
 * A Dafny datatype with an `array<Mod>` field has exactly that equality:
 * two keys are equal when their ids and limits are equal and they hold the
 * same array object. The record's extra `Equals(Mod[]?)` compares contents.
 */
module DifficultyKey {
  import opened Wrappers
  import opened Game

  datatype DifficultyAttributesKey = DifficultyAttributesKey(beatmapId: int, hitObjects: Option<int>, mods: array<Mod>)
  {
    /**
     * `Equals(Mod[]? other)`: false for null, otherwise `SequenceEqual`: the
     * same length and equal mods position by position. The id and the limit
     * take no part.
     */
    function Equals(other: array?<Mod>): (r: bool)
      reads mods, other
      ensures other == null ==> !r
      ensures r <==> other != null && mods.Length == other.Length
                     && forall i :: 0 <= i < mods.Length ==> mods[i] == other[i]
    {
      other != null && mods[..] == other[..]
    }
  }

  /** `Equals(Mod[]?)` reads only the mods: keys differing in id and limit agree on it. */
  lemma EqualsIgnoresIdAndLimit(key: DifficultyAttributesKey, beatmapId: int, hitObjects: Option<int>,
                                other: array?<Mod>)
    ensures key.(beatmapId := beatmapId, hitObjects := hitObjects).Equals(other) == key.Equals(other)
  {
  }

  /** The comparison is order-sensitive: the same two mods the other way round are not equal. */
  lemma EqualsIsOrderSensitive(key: DifficultyAttributesKey, other: array<Mod>, a: Mod, b: Mod)
    requires a != b && key.mods[..] == [a, b] && other[..] == [b, a]
    ensures !key.Equals(other)
  {
    assert key.mods[0] == a && other[0] == b;
  }

  /**
   * The record's own equality: keys with different arrays are different,
   * whatever the arrays hold.
   */
  lemma KeysWithDifferentArraysDiffer(k1: DifficultyAttributesKey, k2: DifficultyAttributesKey)
    requires k1.mods != k2.mods
    ensures k1 != k2
  {
  }

  // `scoreMods.OrderBy(m => m.Acronym)`.

  /** Ordinal string order: the first differing character decides, a proper prefix comes first. */
  predicate AcronymLe(a: string, b: string)
  {
    if a == [] then true
    else if b == [] then false
    else if a[0] != b[0] then a[0] < b[0]
    else AcronymLe(a[1..], b[1..])
  }

  lemma {:induction false} AcronymLeReflexive(a: string)
    ensures AcronymLe(a, a)
  {
    if a != [] {
      AcronymLeReflexive(a[1..]);
    }
  }

  lemma {:induction false} AcronymLeTotal(a: string, b: string)
    ensures AcronymLe(a, b) || AcronymLe(b, a)
  {
    if a != [] && b != [] && a[0] == b[0] {
      AcronymLeTotal(a[1..], b[1..]);
    }
  }

  lemma {:induction false} AcronymLeTransitive(a: string, b: string, c: string)
    requires AcronymLe(a, b) && AcronymLe(b, c)
    ensures AcronymLe(a, c)
  {
    if a != [] && b != [] && c != [] && a[0] == b[0] && b[0] == c[0] {
      AcronymLeTransitive(a[1..], b[1..], c[1..]);
    }
  }

  lemma {:induction false} AcronymLeAntisymmetric(a: string, b: string)
    requires AcronymLe(a, b) && AcronymLe(b, a)
    ensures a == b
  {
    if a != [] && b != [] {
      AcronymLeAntisymmetric(a[1..], b[1..]);
      assert a == [a[0]] + a[1..] && b == [b[0]] + b[1..];
    }
  }

  predicate SortedByAcronym(s: seq<Mod>) {
    forall i, j :: 0 <= i < j < |s| ==> AcronymLe(s[i].acronym, s[j].acronym)
  }

  /** Insert `m` before the first mod whose acronym is not below it, so that sorting is stable. */
  function InsertByAcronym(m: Mod, s: seq<Mod>): (r: seq<Mod>)
    ensures multiset(r) == multiset(s) + multiset{m}
    ensures SortedByAcronym(s) ==> SortedByAcronym(r)
  {
    if s == [] || AcronymLe(m.acronym, s[0].acronym) then
      InsertedFirstSorted(m, s);
      [m] + s
    else
      var r := [s[0]] + InsertByAcronym(m, s[1..]);
      InsertedLaterSorted(m, s, r);
      assert s == [s[0]] + s[1..];
      r
  }

  lemma InsertedFirstSorted(m: Mod, s: seq<Mod>)
    requires s == [] || AcronymLe(m.acronym, s[0].acronym)
    ensures SortedByAcronym(s) ==> SortedByAcronym([m] + s)
  {
    if SortedByAcronym(s) && s != [] {
      forall j | 0 < j < |s| + 1 ensures AcronymLe(m.acronym, ([m] + s)[j].acronym) {
        if j > 1 {
          AcronymLeTransitive(m.acronym, s[0].acronym, s[j - 1].acronym);
        }
      }
    }
  }

  lemma InsertedLaterSorted(m: Mod, s: seq<Mod>, r: seq<Mod>)
    requires s != [] && !AcronymLe(m.acronym, s[0].acronym)
    requires r == [s[0]] + InsertByAcronym(m, s[1..])
    ensures SortedByAcronym(s) ==> SortedByAcronym(r)
  {
    if SortedByAcronym(s) {
      AcronymLeTotal(m.acronym, s[0].acronym);
      var t := InsertByAcronym(m, s[1..]);
      forall j | 0 <= j < |t| ensures AcronymLe(s[0].acronym, t[j].acronym) {
        assert t[j] in multiset(t);
        assert t[j] in multiset(s[1..]) || t[j] == m;
        if t[j] != m {
          var k :| 0 <= k < |s[1..]| && s[1..][k] == t[j];
          assert s[k + 1] == t[j];
        }
      }
    }
  }

  /** The mods ordered by acronym: sorted, and the same mods as the input. */
  function OrderByAcronym(mods: seq<Mod>): (r: seq<Mod>)
    ensures multiset(r) == multiset(mods) && |r| == |mods|
    ensures SortedByAcronym(r)
  {
    if mods == [] then []
    else
      assert mods == [mods[0]] + mods[1..];
      InsertByAcronym(mods[0], OrderByAcronym(mods[1..]))
  }

  /** No two different mods among these share an acronym. */
  predicate AcronymsIdentify(ms: multiset<Mod>) {
    forall x, y :: x in ms && y in ms && x.acronym == y.acronym ==> x == y
  }

  /** Two sorted orderings of the same mods are the same sequence when acronyms identify the mods. */
  lemma {:induction false} SortedOrderUnique(a: seq<Mod>, b: seq<Mod>)
    requires SortedByAcronym(a) && SortedByAcronym(b) && multiset(a) == multiset(b)
    requires AcronymsIdentify(multiset(a))
    ensures a == b
    decreases |a|
  {
    if a != [] {
      SortedHeadsEqual(a, b);
      TailsSameMods(a, b);
      SortedTail(a);
      SortedTail(b);
      SortedOrderUnique(a[1..], b[1..]);
      assert a == [a[0]] + a[1..] && b == [b[0]] + b[1..];
    }
  }

  /** The first of two sorted orderings of the same mods is the same mod. */
  lemma SortedHeadsEqual(a: seq<Mod>, b: seq<Mod>)
    requires a != [] && SortedByAcronym(a) && SortedByAcronym(b) && multiset(a) == multiset(b)
    requires AcronymsIdentify(multiset(a))
    ensures b != [] && a[0] == b[0]
  {
    assert a[0] in multiset(b);
    assert b != [];
    assert b[0] in multiset(a) by { assert b[0] in multiset(b); }
    var j :| 0 <= j < |b| && b[j] == a[0];
    var i :| 0 <= i < |a| && a[i] == b[0];
    assert AcronymLe(a[0].acronym, b[0].acronym) by {
      if i > 0 { assert AcronymLe(a[0].acronym, a[i].acronym); } else { AcronymLeReflexive(a[0].acronym); }
    }
    assert AcronymLe(b[0].acronym, a[0].acronym) by {
      if j > 0 { assert AcronymLe(b[0].acronym, b[j].acronym); } else { AcronymLeReflexive(b[0].acronym); }
    }
    AcronymLeAntisymmetric(a[0].acronym, b[0].acronym);
  }

  /** Taking the same first mod off the same mods leaves the same mods, still identified by acronym. */
  lemma TailsSameMods(a: seq<Mod>, b: seq<Mod>)
    requires a != [] && b != [] && a[0] == b[0] && multiset(a) == multiset(b)
    requires AcronymsIdentify(multiset(a))
    ensures multiset(a[1..]) == multiset(b[1..]) && AcronymsIdentify(multiset(a[1..]))
  {
    assert a == [a[0]] + a[1..] && b == [b[0]] + b[1..];
    assert multiset(a) == multiset{a[0]} + multiset(a[1..]);
    assert multiset(b) == multiset{b[0]} + multiset(b[1..]);
    assert multiset(a[1..]) == multiset(a) - multiset{a[0]};
    assert multiset(b[1..]) == multiset(b) - multiset{b[0]};
    forall x, y | x in multiset(a[1..]) && y in multiset(a[1..]) && x.acronym == y.acronym ensures x == y {
      assert x in multiset(a) && y in multiset(a);
    }
  }

  lemma SortedTail(s: seq<Mod>)
    requires s != [] && SortedByAcronym(s)
    ensures SortedByAcronym(s[1..])
  {
    forall i, j | 0 <= i < j < |s[1..]| ensures AcronymLe(s[1..][i].acronym, s[1..][j].acronym) {
      assert s[1..][i] == s[i + 1] && s[1..][j] == s[j + 1];
    }
  }

  /**
   * Why the mods are ordered before the key is built: the same mods given
   * in any order give the same ordered sequence, so `Equals(Mod[]?)` holds
   * between the arrays built from them.
   */
  lemma OrderByAcronymCanonical(a: seq<Mod>, b: seq<Mod>)
    requires multiset(a) == multiset(b) && AcronymsIdentify(multiset(a))
    ensures OrderByAcronym(a) == OrderByAcronym(b)
  {
    SortedOrderUnique(OrderByAcronym(a), OrderByAcronym(b));
  }
}
