/**
 * Pattern lookup of `GoalPlanner.find_similar_patterns`
 * (jarvis_planner.py): the library entries whose stored signature equals
 * the plan's, each with similarity 1.0 and its evaluation score (None
 * counting as 0.0), sorted by non-increasing score with `list.sort`'s
 * stability.
 */
module Patterns {
  import opened Common
  import opened Plans

  /** One element of the returned list: `pattern_id`, `plan`, `similarity`, `score`. */
  datatype Match = Match(patternId: string, pattern: Plan, similarity: real, score: real)

  /** `evaluation_score or 0.0`. */
  function ScoreOrZero(s: Option<real>): real
  {
    if s.Some? then s.value else 0.0
  }

  /** The matches in library order, before sorting. */
  function Candidates(keys: seq<string>, lib: map<string, Plan>, sig: string): (r: seq<Match>)
    requires forall i :: 0 <= i < |keys| ==> keys[i] in lib
    reads lib.Values
    ensures forall j :: 0 <= j < |r| ==>
      r[j].patternId in lib && r[j].pattern == lib[r[j].patternId] &&
      r[j].pattern.patternSignature == Some(sig) && r[j].similarity == 1.0 &&
      r[j].score == ScoreOrZero(r[j].pattern.evaluationScore)
    ensures forall j :: 0 <= j < |r| ==> r[j].patternId in keys
    ensures forall i :: 0 <= i < |keys| && lib[keys[i]].patternSignature == Some(sig) ==>
      exists j :: 0 <= j < |r| && r[j].patternId == keys[i]
  {
    if |keys| == 0 then []
    else
      var init := Candidates(keys[..|keys| - 1], lib, sig);
      var k := keys[|keys| - 1];
      var p := lib[k];
      assert forall i :: 0 <= i < |keys| - 1 ==> keys[..|keys| - 1][i] == keys[i];
      if p.patternSignature == Some(sig) then
        var r := init + [Match(k, p, 1.0, ScoreOrZero(p.evaluationScore))];
        assert r[|r| - 1].patternId == k;
        assert forall j :: 0 <= j < |init| ==> r[j] == init[j];
        r
      else init
  }

  // ----------------------------------------------------- stable sorting

  predicate SortedDesc(s: seq<Match>)
  {
    forall i, j :: 0 <= i < j < |s| ==> s[i].score >= s[j].score
  }

  /** The elements with score `v`, in order. */
  function WithScore(s: seq<Match>, v: real): seq<Match>
  {
    if |s| == 0 then [] else (if s[0].score == v then [s[0]] else []) + WithScore(s[1..], v)
  }

  lemma {:induction false} WithScoreAppend(a: seq<Match>, b: seq<Match>, v: real)
    ensures WithScore(a + b, v) == WithScore(a, v) + WithScore(b, v)
  {
    if |a| == 0 {
      assert a + b == b;
    } else {
      var ab := a + b;
      assert ab[0] == a[0] && ab[1..] == a[1..] + b;
      WithScoreAppend(a[1..], b, v);
      var h := if a[0].score == v then [a[0]] else [];
      assert WithScore(ab, v) == h + WithScore(a[1..] + b, v);
      assert WithScore(a, v) == h + WithScore(a[1..], v);
    }
  }

  lemma {:induction false} WithScoreNone(s: seq<Match>, v: real)
    requires forall i :: 0 <= i < |s| ==> s[i].score < v
    ensures WithScore(s, v) == []
  {
    if |s| > 0 {
      WithScoreNone(s[1..], v);
    }
  }

  /** Insert `m` after every element scoring at least as much. */
  function InsertDesc(s: seq<Match>, m: Match): seq<Match>
  {
    if |s| == 0 then [m]
    else if s[0].score >= m.score then [s[0]] + InsertDesc(s[1..], m)
    else [m] + s
  }

  /** `sort(key=score, reverse=True)`: a stable sort by non-increasing score. */
  function SortDesc(s: seq<Match>): seq<Match>
  {
    if |s| == 0 then [] else InsertDesc(SortDesc(s[..|s| - 1]), s[|s| - 1])
  }

  /** Every score of `InsertDesc(s, m)` is bounded by a bound on `s` and `m`. */
  lemma {:induction false} InsertDescBound(s: seq<Match>, m: Match, b: real)
    requires forall i :: 0 <= i < |s| ==> s[i].score <= b
    requires m.score <= b
    ensures forall j :: 0 <= j < |InsertDesc(s, m)| ==> InsertDesc(s, m)[j].score <= b
  {
    if |s| > 0 && s[0].score >= m.score {
      InsertDescBound(s[1..], m, b);
    }
  }

  lemma {:induction false} InsertDescSorted(s: seq<Match>, m: Match)
    requires SortedDesc(s)
    ensures SortedDesc(InsertDesc(s, m))
  {
    if |s| > 0 && s[0].score >= m.score {
      InsertDescSorted(s[1..], m);
      InsertDescBound(s[1..], m, s[0].score);
    }
  }

  lemma {:induction false} InsertDescPerm(s: seq<Match>, m: Match)
    ensures multiset(InsertDesc(s, m)) == multiset(s) + multiset{m}
    ensures |InsertDesc(s, m)| == |s| + 1
  {
    if |s| > 0 && s[0].score >= m.score {
      InsertDescPerm(s[1..], m);
      assert s == [s[0]] + s[1..];
    }
  }

  lemma {:induction false} InsertDescStable(s: seq<Match>, m: Match, v: real)
    requires SortedDesc(s)
    ensures WithScore(InsertDesc(s, m), v) == WithScore(s, v) + (if m.score == v then [m] else [])
  {
    if |s| == 0 {
      assert WithScore([m], v) == (if m.score == v then [m] else []) + WithScore([], v);
    } else if s[0].score >= m.score {
      InsertDescStable(s[1..], m, v);
      WithScoreAppend([s[0]], InsertDesc(s[1..], m), v);
      WithScoreAppend([s[0]], s[1..], v);
      assert [s[0]] + s[1..] == s;
      assert WithScore([s[0]], v) == (if s[0].score == v then [s[0]] else []) + WithScore([], v);
    } else {
      WithScoreAppend([m], s, v);
      assert WithScore([m], v) == (if m.score == v then [m] else []) + WithScore([], v);
      if m.score == v {
        WithScoreNone(s, v);
      }
    }
  }

  lemma {:induction false} SortDescSorted(s: seq<Match>)
    ensures SortedDesc(SortDesc(s))
  {
    if |s| > 0 {
      SortDescSorted(s[..|s| - 1]);
      InsertDescSorted(SortDesc(s[..|s| - 1]), s[|s| - 1]);
    }
  }

  lemma {:induction false} SortDescPerm(s: seq<Match>)
    ensures multiset(SortDesc(s)) == multiset(s)
  {
    if |s| > 0 {
      var init := s[..|s| - 1];
      SortDescPerm(init);
      InsertDescPerm(SortDesc(init), s[|s| - 1]);
      assert s == init + [s[|s| - 1]];
    }
  }

  lemma {:induction false} SortDescStable(s: seq<Match>, v: real)
    ensures WithScore(SortDesc(s), v) == WithScore(s, v)
  {
    if |s| > 0 {
      var init := s[..|s| - 1];
      var m := s[|s| - 1];
      SortDescStable(init, v);
      SortDescSorted(init);
      InsertDescStable(SortDesc(init), m, v);
      assert s == init + [m];
      WithScoreAppend(init, [m], v);
      assert WithScore([m], v) == (if m.score == v then [m] else []) + WithScore([], v);
    }
  }

  /**
   * The sorted list has non-increasing scores, holds exactly the same
   * matches, and keeps the input order among matches with equal scores.
   */
  lemma SortDescCorrect(s: seq<Match>)
    ensures SortedDesc(SortDesc(s))
    ensures multiset(SortDesc(s)) == multiset(s)
    ensures forall v :: WithScore(SortDesc(s), v) == WithScore(s, v)
  {
    SortDescSorted(s);
    SortDescPerm(s);
    forall v ensures WithScore(SortDesc(s), v) == WithScore(s, v) {
      SortDescStable(s, v);
    }
  }
}
