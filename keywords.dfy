/**
 * Keyword similarity of main.py `calculate_keyword_match_score`: the Jaccard
 * index |S ∩ P| / |S ∪ P| of the two keyword lists taken as sets, and 0 when
 * either list is empty.
 */
module Keywords {

  function AsSet(keywords: seq<string>): (r: set<string>)
    ensures forall k :: k in r <==> k in keywords
  {
    set k | k in keywords
  }

  function KeywordMatchScore(studentKeywords: seq<string>, professorKeywords: seq<string>): (r: real) {
    if studentKeywords == [] || professorKeywords == [] then 0.0
    else
      var s := AsSet(studentKeywords);
      var p := AsSet(professorKeywords);
      var union := |s + p|;
      if union == 0 then 0.0 else |s * p| as real / union as real
  }

  lemma {:induction false} SubsetCard(a: set<string>, b: set<string>)
    requires a <= b
    ensures |a| <= |b|
  {
    if a != {} {
      var x :| x in a;
      SubsetCard(a - {x}, b - {x});
    }
  }

  lemma Ratio(i: nat, u: nat)
    requires 0 < u && i <= u
    ensures 0.0 <= i as real / u as real <= 1.0
    ensures (i as real / u as real) * u as real == i as real
  {
  }

  /** Once both lists are non-empty the union is non-empty, so the `union == 0` guard never fires. */
  lemma UnionNonEmpty(studentKeywords: seq<string>, professorKeywords: seq<string>)
    requires studentKeywords != [] && professorKeywords != []
    ensures |AsSet(studentKeywords) + AsSet(professorKeywords)| > 0
  {
    assert studentKeywords[0] in AsSet(studentKeywords) + AsSet(professorKeywords);
  }

  /** The score is |S ∩ P| / |S ∪ P| (stated without the division), lies in [0, 1], and is 0 when a list is empty. */
  lemma ScoreRange(studentKeywords: seq<string>, professorKeywords: seq<string>)
    ensures 0.0 <= KeywordMatchScore(studentKeywords, professorKeywords) <= 1.0
    ensures studentKeywords == [] || professorKeywords == [] ==> KeywordMatchScore(studentKeywords, professorKeywords) == 0.0
    ensures studentKeywords != [] && professorKeywords != [] ==>
      && |AsSet(studentKeywords) + AsSet(professorKeywords)| > 0
      && KeywordMatchScore(studentKeywords, professorKeywords) * |AsSet(studentKeywords) + AsSet(professorKeywords)| as real
         == |AsSet(studentKeywords) * AsSet(professorKeywords)| as real
  {
    if studentKeywords != [] && professorKeywords != [] {
      var s := AsSet(studentKeywords);
      var p := AsSet(professorKeywords);
      UnionNonEmpty(studentKeywords, professorKeywords);
      SubsetCard(s * p, s + p);
      Ratio(|s * p|, |s + p|);
    }
  }

  /** Swapping the two lists does not change the score. */
  lemma Symmetric(studentKeywords: seq<string>, professorKeywords: seq<string>)
    ensures KeywordMatchScore(studentKeywords, professorKeywords) == KeywordMatchScore(professorKeywords, studentKeywords)
  {
    var s := AsSet(studentKeywords);
    var p := AsSet(professorKeywords);
    assert s + p == p + s && s * p == p * s;
  }

  /** Order and repeats do not matter: lists with the same keywords score the same. */
  lemma OnlySetsMatter(s1: seq<string>, p1: seq<string>, s2: seq<string>, p2: seq<string>)
    requires forall k :: k in s1 <==> k in s2
    requires forall k :: k in p1 <==> k in p2
    ensures KeywordMatchScore(s1, p1) == KeywordMatchScore(s2, p2)
  {
    assert AsSet(s1) == AsSet(s2) && AsSet(p1) == AsSet(p2);
    assert s1 == [] <==> s2 == [] by {
      if s1 != [] { assert s1[0] in s2; }
      if s2 != [] { assert s2[0] in s1; }
    }
    assert p1 == [] <==> p2 == [] by {
      if p1 != [] { assert p1[0] in p2; }
      if p2 != [] { assert p2[0] in p1; }
    }
  }

  /** Identical non-empty lists score 1; lists with no keyword in common score 0. */
  lemma Extremes(studentKeywords: seq<string>, professorKeywords: seq<string>)
    ensures studentKeywords != [] ==> KeywordMatchScore(studentKeywords, studentKeywords) == 1.0
    ensures (forall k :: k in studentKeywords ==> k !in professorKeywords) ==>
      KeywordMatchScore(studentKeywords, professorKeywords) == 0.0
  {
    var s := AsSet(studentKeywords);
    var p := AsSet(professorKeywords);
    if studentKeywords != [] {
      assert s + s == s && s * s == s;
      assert studentKeywords[0] in s;
    }
    if forall k :: k in studentKeywords ==> k !in professorKeywords {
      assert s * p == {};
    }
  }
}
