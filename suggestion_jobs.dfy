/** The one-off job that populates contribution scores: its map step emits
    (score category, author) for every accepted suggestion, the pairs are
    grouped by category, and the reduce step gives each author in a category
    the number of times they were emitted under it. */
module SuggestionJobs {
  import opened SuggestionModels

  /** The fields of a stored suggestion that the job reads. */
  datatype ScoringRecord = ScoringRecord(suggestionId: string, status: Status, authorId: string, scoreCategory: string)

  /** What the map step yields: the score category (the shuffle key) and the
      author id (the value). */
  type Emission = (string, string)

  /** A score record's key: (author id, score category). */
  type ScoreKey = (string, string)

  // ---------------------------------------------------------------------
  // The pipeline

  /** The map step: one pair for an accepted suggestion, nothing otherwise. */
  function MapStep(x: ScoringRecord): (r: seq<Emission>)
    ensures |r| == if x.status == Accepted then 1 else 0
    ensures forall e :: e in r ==> e == (x.scoreCategory, x.authorId)
  {
    if x.status == Accepted then [(x.scoreCategory, x.authorId)] else []
  }

  /** Every pair the map step yields over the stored suggestions, in the order
      they are visited. */
  function Emitted(xs: seq<ScoringRecord>): (r: seq<Emission>)
    ensures |r| <= |xs|
    ensures forall e :: e in r ==> exists x :: x in xs && x.status == Accepted && e == (x.scoreCategory, x.authorId)
  {
    if xs == [] then [] else MapStep(xs[0]) + Emitted(xs[1..])
  }

  /** The shuffle: the values emitted under one category key. */
  function Shuffle(pairs: seq<Emission>, category: string): (r: seq<string>)
    ensures |r| <= |pairs|
    ensures forall a :: a in r <==> (category, a) in pairs
  {
    if pairs == [] then []
    else (if pairs[0].0 == category then [pairs[0].1] else []) + Shuffle(pairs[1..], category)
  }

  /** The reduce step for one category key: the score of an author is the
      number of times the author appears among the key's values. */
  function ReduceCount(authors: seq<string>, author: string): (n: nat)
    ensures n <= |authors|
    ensures n > 0 <==> author in authors
  {
    if authors == [] then 0
    else (if authors[0] == author then 1 else 0) + ReduceCount(authors[1..], author)
  }

  /** The (author, category) pairs that receive a score. */
  function ScoreKeys(pairs: seq<Emission>): (r: set<ScoreKey>)
    ensures forall k :: k in r <==> (k.1, k.0) in pairs
  {
    if pairs == [] then {} else {(pairs[0].1, pairs[0].0)} + ScoreKeys(pairs[1..])
  }

  /** The scores the job writes, one per (author, category) pair. */
  function Scores(xs: seq<ScoringRecord>): (r: map<ScoreKey, nat>)
    ensures forall k :: k in r <==> (k.1, k.0) in Emitted(xs)
    ensures forall k :: k in r ==> 0 < r[k] <= |xs|
  {
    var pairs := Emitted(xs);
    map k | k in ScoreKeys(pairs) :: ReduceCount(Shuffle(pairs, k.1), k.0)
  }

  // ---------------------------------------------------------------------
  // The reference definition: counting accepted suggestions directly

  function AcceptedWith(xs: seq<ScoringRecord>, author: string, category: string): nat
  {
    if xs == [] then 0
    else (if xs[0].status == Accepted && xs[0].authorId == author && xs[0].scoreCategory == category then 1 else 0)
         + AcceptedWith(xs[1..], author, category)
  }

  function AcceptedCount(xs: seq<ScoringRecord>): nat
  {
    if xs == [] then 0 else (if xs[0].status == Accepted then 1 else 0) + AcceptedCount(xs[1..])
  }

  /** The accepted suggestions among `xs`, in order. */
  function AcceptedOnly(xs: seq<ScoringRecord>): (r: seq<ScoringRecord>)
    ensures forall x :: x in r ==> x in xs && x.status == Accepted
  {
    if xs == [] then []
    else (if xs[0].status == Accepted then [xs[0]] else []) + AcceptedOnly(xs[1..])
  }

  // ---------------------------------------------------------------------
  // The pipeline computes the reference counts

  /** The map step emits exactly one pair per accepted suggestion. */
  lemma {:induction false} EmittedLength(xs: seq<ScoringRecord>)
    ensures |Emitted(xs)| == AcceptedCount(xs)
  {
    if xs != [] {
      EmittedLength(xs[1..]);
    }
  }

  lemma {:induction false} ShuffleAppend(p: seq<Emission>, q: seq<Emission>, category: string)
    ensures Shuffle(p + q, category) == Shuffle(p, category) + Shuffle(q, category)
  {
    if p == [] {
      assert p + q == q;
    } else {
      assert (p + q)[0] == p[0] && (p + q)[1..] == p[1..] + q;
      ShuffleAppend(p[1..], q, category);
    }
  }

  lemma {:induction false} ReduceCountAppend(p: seq<string>, q: seq<string>, author: string)
    ensures ReduceCount(p + q, author) == ReduceCount(p, author) + ReduceCount(q, author)
  {
    if p == [] {
      assert p + q == q;
    } else {
      assert (p + q)[0] == p[0] && (p + q)[1..] == p[1..] + q;
      ReduceCountAppend(p[1..], q, author);
    }
  }

  /** After the shuffle and the reduce, an author's score in a category is the
      number of accepted suggestions with that author and category. */
  lemma {:induction false} ReduceCountsAccepted(xs: seq<ScoringRecord>, author: string, category: string)
    ensures ReduceCount(Shuffle(Emitted(xs), category), author) == AcceptedWith(xs, author, category)
  {
    if xs != [] {
      var x := xs[0];
      ShuffleAppend(MapStep(x), Emitted(xs[1..]), category);
      ReduceCountAppend(Shuffle(MapStep(x), category), Shuffle(Emitted(xs[1..]), category), author);
      ReduceCountsAccepted(xs[1..], author, category);
      if x.status == Accepted {
        assert Shuffle(MapStep(x), category) == (if x.scoreCategory == category then [x.authorId] else []);
      } else {
        assert Shuffle(MapStep(x), category) == [];
      }
    }
  }

  /** A pair is emitted exactly when some accepted suggestion carries it. */
  lemma {:induction false} EmittedIffAccepted(xs: seq<ScoringRecord>, author: string, category: string)
    ensures (category, author) in Emitted(xs) <==> AcceptedWith(xs, author, category) > 0
  {
    if xs != [] {
      EmittedIffAccepted(xs[1..], author, category);
      assert Emitted(xs) == MapStep(xs[0]) + Emitted(xs[1..]);
    }
  }

  /** The job's result: a pair has a score exactly when it has an accepted
      suggestion, and the score is the number of them. */
  lemma ScoresAreAcceptedCounts(xs: seq<ScoringRecord>, author: string, category: string)
    ensures (author, category) in Scores(xs) <==> AcceptedWith(xs, author, category) > 0
    ensures (author, category) in Scores(xs) ==> Scores(xs)[(author, category)] == AcceptedWith(xs, author, category)
  {
    var pairs := Emitted(xs);
    EmittedIffAccepted(xs, author, category);
    ReduceCountsAccepted(xs, author, category);
  }

  /** Two job results that agree with the same counts are the same map. */
  lemma ScoresEqual(xs: seq<ScoringRecord>, ys: seq<ScoringRecord>)
    requires forall a, c :: AcceptedWith(xs, a, c) == AcceptedWith(ys, a, c)
    ensures Scores(xs) == Scores(ys)
  {
    forall k | true
      ensures (k in Scores(xs) <==> k in Scores(ys))
      ensures k in Scores(xs) ==> Scores(xs)[k] == Scores(ys)[k]
    {
      ScoresAreAcceptedCounts(xs, k.0, k.1);
      ScoresAreAcceptedCounts(ys, k.0, k.1);
    }
  }

  // ---------------------------------------------------------------------
  // Suggestions that are not accepted contribute nothing

  lemma {:induction false} AcceptedOnlyKeepsCounts(xs: seq<ScoringRecord>, author: string, category: string)
    ensures AcceptedWith(AcceptedOnly(xs), author, category) == AcceptedWith(xs, author, category)
  {
    if xs != [] {
      var head := if xs[0].status == Accepted then [xs[0]] else [];
      AcceptedWithAppend(head, AcceptedOnly(xs[1..]), author, category);
      AcceptedOnlyKeepsCounts(xs[1..], author, category);
    }
  }

  /** Dropping every suggestion in review, invalid or rejected leaves every
      score as it was. */
  lemma ScoresIgnoreUnaccepted(xs: seq<ScoringRecord>)
    ensures Scores(AcceptedOnly(xs)) == Scores(xs)
  {
    forall a, c ensures AcceptedWith(AcceptedOnly(xs), a, c) == AcceptedWith(xs, a, c) {
      AcceptedOnlyKeepsCounts(xs, a, c);
    }
    ScoresEqual(AcceptedOnly(xs), xs);
  }

  // ---------------------------------------------------------------------
  // The order in which suggestions are visited does not matter

  lemma {:induction false} AcceptedWithAppend(p: seq<ScoringRecord>, q: seq<ScoringRecord>, author: string, category: string)
    ensures AcceptedWith(p + q, author, category) == AcceptedWith(p, author, category) + AcceptedWith(q, author, category)
  {
    if p == [] {
      assert p + q == q;
    } else {
      assert (p + q)[0] == p[0] && (p + q)[1..] == p[1..] + q;
      AcceptedWithAppend(p[1..], q, author, category);
    }
  }

  /** Taking the i-th element out of a sequence. */
  lemma RemoveAt(ys: seq<ScoringRecord>, i: nat, author: string, category: string)
    requires i < |ys|
    ensures multiset(ys[..i] + ys[i + 1..]) == multiset(ys) - multiset{ys[i]}
    ensures AcceptedWith(ys, author, category)
            == AcceptedWith([ys[i]], author, category) + AcceptedWith(ys[..i] + ys[i + 1..], author, category)
  {
    assert ys == ys[..i] + [ys[i]] + ys[i + 1..];
    AcceptedWithAppend(ys[..i] + [ys[i]], ys[i + 1..], author, category);
    AcceptedWithAppend(ys[..i], [ys[i]], author, category);
    AcceptedWithAppend(ys[..i], ys[i + 1..], author, category);
  }

  lemma {:induction false} AcceptedWithPermutation(xs: seq<ScoringRecord>, ys: seq<ScoringRecord>, author: string, category: string)
    requires multiset(xs) == multiset(ys)
    ensures AcceptedWith(xs, author, category) == AcceptedWith(ys, author, category)
    decreases |xs|
  {
    if xs == [] {
      assert |ys| == |multiset(ys)| == 0;
      assert ys == [];
    } else {
      var x := xs[0];
      assert x in multiset(xs);
      assert x in ys;
      var i :| 0 <= i < |ys| && ys[i] == x;
      var rest := ys[..i] + ys[i + 1..];
      RemoveAt(ys, i, author, category);
      assert multiset(xs) == multiset{x} + multiset(xs[1..]) by {
        assert xs == [x] + xs[1..];
      }
      assert multiset(xs[1..]) == multiset(rest);
      AcceptedWithPermutation(xs[1..], rest, author, category);
      assert AcceptedWith(xs, author, category)
             == AcceptedWith([x], author, category) + AcceptedWith(xs[1..], author, category);
    }
  }

  /** The scores depend only on which suggestions exist, not on the order in
      which the job visits them. */
  lemma ScoresOrderIndependent(xs: seq<ScoringRecord>, ys: seq<ScoringRecord>)
    requires multiset(xs) == multiset(ys)
    ensures Scores(xs) == Scores(ys)
  {
    forall a, c ensures AcceptedWith(xs, a, c) == AcceptedWith(ys, a, c) {
      AcceptedWithPermutation(xs, ys, a, c);
    }
    ScoresEqual(xs, ys);
  }

  // ---------------------------------------------------------------------
  // The scores add up to the number of accepted suggestions

  ghost function Pick(m: map<ScoreKey, nat>): (k: ScoreKey)
    requires m != map[]
    ensures k in m
  {
    var k :| k in m; k
  }

  /** The sum of all scores in a result. */
  ghost function TotalScore(m: map<ScoreKey, nat>): nat
    decreases m.Keys
  {
    if m == map[] then 0 else m[Pick(m)] + TotalScore(m - {Pick(m)})
  }

  lemma {:induction false} TotalScoreRemove(m: map<ScoreKey, nat>, k: ScoreKey)
    requires k in m
    ensures TotalScore(m) == m[k] + TotalScore(m - {k})
    decreases m.Keys
  {
    var j := Pick(m);
    if j != k {
      calc {
        TotalScore(m);
        m[j] + TotalScore(m - {j});
        { TotalScoreRemove(m - {j}, k); }
        m[j] + m[k] + TotalScore(m - {j} - {k});
        { assert m - {j} - {k} == m - {k} - {j}; }
        m[k] + (m[j] + TotalScore(m - {k} - {j}));
        { TotalScoreRemove(m - {k}, j); }
        m[k] + TotalScore(m - {k});
      }
    }
  }

  /** Adding one to a pair's score (from 0 when it had none) adds one to the
      total. */
  lemma TotalScoreIncrement(m: map<ScoreKey, nat>, k: ScoreKey)
    ensures TotalScore(m[k := (if k in m then m[k] else 0) + 1]) == TotalScore(m) + 1
  {
    var m' := m[k := (if k in m then m[k] else 0) + 1];
    TotalScoreRemove(m', k);
    if k in m {
      TotalScoreRemove(m, k);
      assert m' - {k} == m - {k};
    } else {
      assert m' - {k} == m;
    }
  }

  /** A suggestion that is not accepted leaves the job's result unchanged. */
  lemma ScoresConsUnaccepted(xs: seq<ScoringRecord>)
    requires xs != [] && xs[0].status != Accepted
    ensures Scores(xs) == Scores(xs[1..])
  {
    assert Emitted(xs) == Emitted(xs[1..]);
  }

  /** One accepted suggestion adds one to the score of its own pair and
      leaves every other pair's score (or its absence) as it was. */
  lemma ScoresConsAcceptedAt(xs: seq<ScoringRecord>, j: ScoreKey)
    requires xs != [] && xs[0].status == Accepted
    ensures j == (xs[0].authorId, xs[0].scoreCategory) ==>
              j in Scores(xs) && Scores(xs)[j] == (if j in Scores(xs[1..]) then Scores(xs[1..])[j] else 0) + 1
    ensures j != (xs[0].authorId, xs[0].scoreCategory) ==>
              (j in Scores(xs) <==> j in Scores(xs[1..])) && (j in Scores(xs) ==> Scores(xs)[j] == Scores(xs[1..])[j])
  {
    ScoresAreAcceptedCounts(xs, j.0, j.1);
    ScoresAreAcceptedCounts(xs[1..], j.0, j.1);
  }

  /** A map that agrees with `m` off `k` and holds one more than `m` at `k`
      is `m` with `k` incremented. */
  lemma IncrementedAt(s: map<ScoreKey, nat>, m: map<ScoreKey, nat>, k: ScoreKey)
    requires k in s && s[k] == (if k in m then m[k] else 0) + 1
    requires forall j :: j != k ==> (j in s <==> j in m)
    requires forall j :: j != k && j in s ==> s[j] == m[j]
    ensures s == m[k := (if k in m then m[k] else 0) + 1]
  {
  }

  /** An accepted suggestion adds one to its (author, category) score,
      starting from 0 when the pair had none. */
  lemma ScoresConsAccepted(xs: seq<ScoringRecord>)
    requires xs != [] && xs[0].status == Accepted
    ensures var k, m := (xs[0].authorId, xs[0].scoreCategory), Scores(xs[1..]);
            Scores(xs) == m[k := (if k in m then m[k] else 0) + 1]
  {
    var k, m, s := (xs[0].authorId, xs[0].scoreCategory), Scores(xs[1..]), Scores(xs);
    ScoresConsAcceptedAt(xs, k);
    forall j | j != k
      ensures j in s <==> j in m
      ensures j in s ==> s[j] == m[j]
    {
      ScoresConsAcceptedAt(xs, j);
    }
    IncrementedAt(s, m, k);
  }

  /** One more suggestion adds one to the total when it is accepted and
      nothing otherwise. */
  lemma TotalScoreCons(xs: seq<ScoringRecord>)
    requires xs != []
    ensures TotalScore(Scores(xs)) == (if xs[0].status == Accepted then 1 else 0) + TotalScore(Scores(xs[1..]))
  {
    if xs[0].status != Accepted {
      ScoresConsUnaccepted(xs);
    } else {
      ScoresConsAccepted(xs);
      TotalScoreIncrement(Scores(xs[1..]), (xs[0].authorId, xs[0].scoreCategory));
    }
  }

  /** The scores summed over all (author, category) pairs equal the number of
      accepted suggestions. */
  lemma {:induction false} TotalScoreIsAcceptedCount(xs: seq<ScoringRecord>)
    ensures TotalScore(Scores(xs)) == AcceptedCount(xs)
  {
    if xs == [] {
      assert Scores(xs) == map[];
    } else {
      TotalScoreIsAcceptedCount(xs[1..]);
      TotalScoreCons(xs);
    }
  }

  // ---------------------------------------------------------------------
  // The job's test scenario

  /** The seven suggestions of the job's test: six accepted, one in review. */
  const TestRecords: seq<ScoringRecord> := [
    ScoringRecord("thread_1", InReview, "author_1", "content.Algebra"),
    ScoringRecord("thread_2", Accepted, "author_1", "content.Algebra"),
    ScoringRecord("thread_3", Accepted, "author_1", "content.Algorithms"),
    ScoringRecord("thread_4", Accepted, "author_2", "content.Algebra"),
    ScoringRecord("thread_5", Accepted, "author_2", "content.Algebra"),
    ScoringRecord("thread_6", Accepted, "author_2", "content.Algorithms"),
    ScoringRecord("thread_7", Accepted, "author_2", "content.Algebra")
  ]

  /** The scores the job's test asserts, and their total of six. */
  lemma TestScenarioScores()
    ensures ("author_1", "content.Algebra") in Scores(TestRecords)
    ensures Scores(TestRecords)[("author_1", "content.Algebra")] == 1
    ensures ("author_1", "content.Algorithms") in Scores(TestRecords)
    ensures Scores(TestRecords)[("author_1", "content.Algorithms")] == 1
    ensures ("author_2", "content.Algebra") in Scores(TestRecords)
    ensures Scores(TestRecords)[("author_2", "content.Algebra")] == 3
    ensures ("author_2", "content.Algorithms") in Scores(TestRecords)
    ensures Scores(TestRecords)[("author_2", "content.Algorithms")] == 1
    ensures TotalScore(Scores(TestRecords)) == 6
  {
    CountTestRecord("author_1", "content.Algebra", 1);
    CountTestRecord("author_1", "content.Algorithms", 1);
    CountTestRecord("author_2", "content.Algebra", 3);
    CountTestRecord("author_2", "content.Algorithms", 1);
    TotalScoreIsAcceptedCount(TestRecords);
    CountTestAccepted();
  }

  lemma CountTestRecord(author: string, category: string, n: nat)
    requires (author, category, n) in {("author_1", "content.Algebra", 1), ("author_1", "content.Algorithms", 1),
                                       ("author_2", "content.Algebra", 3), ("author_2", "content.Algorithms", 1)}
    ensures (author, category) in Scores(TestRecords) && Scores(TestRecords)[(author, category)] == n
  {
    var xs := TestRecords;
    assert xs[6..][1..] == [];
    assert xs[5..][1..] == xs[6..];
    assert xs[4..][1..] == xs[5..];
    assert xs[3..][1..] == xs[4..];
    assert xs[2..][1..] == xs[3..];
    assert xs[1..][1..] == xs[2..];
    assert AcceptedWith(xs, author, category) == n;
    ScoresAreAcceptedCounts(xs, author, category);
  }

  lemma CountTestAccepted()
    ensures AcceptedCount(TestRecords) == 6
  {
    var xs := TestRecords;
    assert xs[6..][1..] == [];
    assert xs[5..][1..] == xs[6..];
    assert xs[4..][1..] == xs[5..];
    assert xs[3..][1..] == xs[4..];
    assert xs[2..][1..] == xs[3..];
    assert xs[1..][1..] == xs[2..];
  }
}
