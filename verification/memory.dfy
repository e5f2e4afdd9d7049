/**
 * The in-process vector store (src/memory.rs): a map from id to entry, with
 * store, delete, and a linear-scan search ranked by cosine similarity.
 *
 * Floats are real numbers. The square root that turns a sum of squares into a
 * magnitude is not interpreted: the store is given one (`sqrt`) and nothing is
 * assumed about it except where a lemma says so.
 */
module Memory {
  import opened Common
  import opened EmbeddingProvider

  datatype MemoryEntry = MemoryEntry(
    id: string,
    text: string,
    metadata: map<string, string>,
    session: Option<string>,
    embedding: Embedding)

  datatype SearchResult = SearchResult(
    id: string,
    text: string,
    metadata: map<string, string>,
    session: Option<string>,
    score: real)

  // ---------------------------------------------------------------------------
  // Cosine similarity
  // ---------------------------------------------------------------------------

  /** Sum of pairwise products over `zip`, which stops at the shorter vector. */
  function Dot(a: seq<real>, b: seq<real>): real
    decreases |a|
  {
    if |a| == 0 || |b| == 0 then 0.0 else a[0] * b[0] + Dot(a[1..], b[1..])
  }

  /** A product kept as a term of its own, so that squares are reasoned about like any product. */
  function Product(x: real, y: real): real {
    x * y
  }

  function SumOfSquares(a: seq<real>): real
    decreases |a|
  {
    if |a| == 0 then 0.0 else Product(a[0], a[0]) + SumOfSquares(a[1..])
  }

  /**
   * `cosine_similarity`: 0 when either magnitude is 0, otherwise the dot
   * product divided by the product of the magnitudes.
   */
  function CosineSimilarity(a: seq<real>, b: seq<real>, sqrt: real -> real): (r: real)
    ensures sqrt(SumOfSquares(a)) == 0.0 || sqrt(SumOfSquares(b)) == 0.0 ==> r == 0.0
    ensures Dot(a, b) == 0.0 ==> r == 0.0
  {
    var magA := sqrt(SumOfSquares(a));
    var magB := sqrt(SumOfSquares(b));
    if magA == 0.0 || magB == 0.0 then 0.0 else Dot(a, b) / Product(magA, magB)
  }

  lemma ProductPositive(x: real, y: real)
    requires x > 0.0 && y > 0.0
    ensures Product(x, y) > 0.0
  {
    assert x * y > 0.0 * y;
  }

  lemma ProductOfNegatives(x: real, y: real)
    requires x < 0.0 && y < 0.0
    ensures Product(x, y) > 0.0
  {
    ProductPositive(-x, -y);
    assert x * y == (-x) * (-y);
  }

  /** A square is never negative, is zero for zero and positive otherwise. */
  lemma SquareFacts(x: real)
    ensures Product(x, x) >= 0.0
    ensures x != 0.0 ==> Product(x, x) > 0.0
    ensures x == 0.0 ==> Product(x, x) == 0.0
  {
    if x < 0.0 {
      ProductOfNegatives(x, x);
    } else if x > 0.0 {
      ProductPositive(x, x);
    }
  }

  /**
   * A sum of squares is never negative; it is zero for the zero vector and
   * strictly positive as soon as one component is non-zero.
   */
  lemma {:induction false} SumOfSquaresSign(a: seq<real>)
    ensures SumOfSquares(a) >= 0.0
    ensures (forall i :: 0 <= i < |a| ==> a[i] == 0.0) ==> SumOfSquares(a) == 0.0
    ensures (exists i :: 0 <= i < |a| && a[i] != 0.0) ==> SumOfSquares(a) > 0.0
    decreases |a|
  {
    if |a| > 0 {
      var tail := a[1..];
      SumOfSquaresSign(tail);
      SquareFacts(a[0]);
      if forall i :: 0 <= i < |a| ==> a[i] == 0.0 {
        forall i | 0 <= i < |tail| ensures tail[i] == 0.0 {
          assert tail[i] == a[i + 1];
        }
      }
      if exists i :: 0 <= i < |a| && a[i] != 0.0 {
        var i :| 0 <= i < |a| && a[i] != 0.0;
        if i > 0 {
          assert tail[i - 1] != 0.0;
        }
      }
    }
  }

  /** A vector's dot product with itself is its sum of squares. */
  lemma {:induction false} DotSelf(a: seq<real>)
    ensures Dot(a, a) == SumOfSquares(a)
    decreases |a|
  {
    if |a| > 0 {
      DotSelf(a[1..]);
    }
  }

  /** Similarity with the zero vector is 0, for any square root with sqrt(0) = 0. */
  lemma CosineWithZeroVector(a: seq<real>, b: seq<real>, sqrt: real -> real)
    requires sqrt(0.0) == 0.0
    requires forall i :: 0 <= i < |b| ==> b[i] == 0.0
    ensures CosineSimilarity(a, b, sqrt) == 0.0
  {
    SumOfSquaresSign(b);
  }

  /**
   * With an exact square root, a non-zero vector's similarity with itself is
   * 1 (in real arithmetic; the f32 computation is only close to it).
   */
  lemma CosineWithItself(a: seq<real>, sqrt: real -> real)
    requires exists i :: 0 <= i < |a| && a[i] != 0.0
    requires sqrt(SumOfSquares(a)) * sqrt(SumOfSquares(a)) == SumOfSquares(a)
    ensures CosineSimilarity(a, a, sqrt) == 1.0
  {
    var ss := SumOfSquares(a);
    var m := sqrt(ss);
    SumOfSquaresSign(a);
    DotSelf(a);
    assert ss != 0.0;
    SquareFacts(m);
    assert m != 0.0;
    assert Product(m, m) == ss;
    DivSelf(ss);
  }

  lemma DivSelf(x: real)
    requires x != 0.0
    ensures x / x == 1.0
  {
  }

  // ---------------------------------------------------------------------------
  // Ranking: `sort_by` on descending score
  // ---------------------------------------------------------------------------

  predicate SortedByScoreDesc(s: seq<SearchResult>) {
    forall i, j :: 0 <= i < j < |s| ==> s[i].score >= s[j].score
  }

  function IdsOf(s: seq<SearchResult>): set<string> {
    set r | r in s :: r.id
  }

  predicate DistinctIds(s: seq<SearchResult>) {
    forall i, j :: 0 <= i < j < |s| ==> s[i].id != s[j].id
  }

  /** Inserts `x` before the first element that scores no higher. */
  function InsertByScore(x: SearchResult, s: seq<SearchResult>): (r: seq<SearchResult>)
    ensures |r| == |s| + 1
    decreases |s|
  {
    if s == [] || x.score >= s[0].score then [x] + s else [s[0]] + InsertByScore(x, s[1..])
  }

  /** The order `sort_by(|a, b| b.score.partial_cmp(&a.score))` produces, up to ties. */
  function SortByScoreDesc(s: seq<SearchResult>): (r: seq<SearchResult>)
    ensures |r| == |s|
    decreases |s|
  {
    if s == [] then [] else InsertByScore(s[0], SortByScoreDesc(s[1..]))
  }

  lemma {:induction false} InsertByScorePermutes(x: SearchResult, s: seq<SearchResult>)
    ensures multiset(InsertByScore(x, s)) == multiset(s) + multiset{x}
    decreases |s|
  {
    if s != [] && x.score < s[0].score {
      InsertByScorePermutes(x, s[1..]);
      assert s == [s[0]] + s[1..];
    }
  }

  lemma {:induction false} InsertByScoreSorted(x: SearchResult, s: seq<SearchResult>)
    requires SortedByScoreDesc(s)
    ensures SortedByScoreDesc(InsertByScore(x, s))
    decreases |s|
  {
    if s != [] && x.score < s[0].score {
      var tail := InsertByScore(x, s[1..]);
      InsertByScoreSorted(x, s[1..]);
      InsertByScorePermutes(x, s[1..]);
      forall j | 0 <= j < |tail| ensures s[0].score >= tail[j].score {
        assert tail[j] in multiset(s[1..]) + multiset{x};
        if tail[j] != x {
          assert tail[j] in s[1..];
        }
      }
    }
  }

  /** Sorting orders by descending score and keeps every element exactly as often. */
  lemma {:induction false} SortByScoreDescFacts(s: seq<SearchResult>)
    ensures SortedByScoreDesc(SortByScoreDesc(s))
    ensures multiset(SortByScoreDesc(s)) == multiset(s)
    decreases |s|
  {
    if s != [] {
      var rest := SortByScoreDesc(s[1..]);
      SortByScoreDescFacts(s[1..]);
      InsertByScoreSorted(s[0], rest);
      InsertByScorePermutes(s[0], rest);
      assert s == [s[0]] + s[1..];
    }
  }

  lemma IdsOfSnoc(s: seq<SearchResult>, x: SearchResult)
    ensures IdsOf(s + [x]) == IdsOf(s) + {x.id}
  {
    forall id | id in IdsOf(s + [x]) ensures id in IdsOf(s) + {x.id} {
      var y :| y in s + [x] && y.id == id;
      if y != x { assert y in s; }
    }
  }

  /** A sequence has no more ids than elements. */
  lemma {:induction false} IdsCountBound(s: seq<SearchResult>)
    ensures |IdsOf(s)| <= |s|
    decreases |s|
  {
    if s != [] {
      var init := s[..|s| - 1];
      IdsCountBound(init);
      assert s == init + [s[|s| - 1]];
      IdsOfSnoc(init, s[|s| - 1]);
    }
  }

  /** In a sequence with distinct ids, the last id is not among the earlier ones. */
  lemma LastIdFresh(s: seq<SearchResult>)
    requires s != [] && DistinctIds(s)
    ensures s[|s| - 1].id !in IdsOf(s[..|s| - 1])
  {
    var init := s[..|s| - 1];
    forall y | y in init ensures y.id != s[|s| - 1].id {
      var k :| 0 <= k < |init| && init[k] == y;
      assert s[k] == y;
    }
  }

  /** A sequence with distinct ids has exactly as many ids as elements. */
  lemma {:induction false} DistinctIdsCount(s: seq<SearchResult>)
    requires DistinctIds(s)
    ensures |IdsOf(s)| == |s|
    decreases |s|
  {
    if s != [] {
      var init := s[..|s| - 1];
      var last := s[|s| - 1];
      assert DistinctIds(init);
      DistinctIdsCount(init);
      LastIdFresh(s);
      assert s == init + [last];
      IdsOfSnoc(init, last);
      CardAddFresh(IdsOf(init), last.id);
    }
  }

  /** Conversely, as many ids as elements means no id occurs twice. */
  lemma IdsCountDistinct(s: seq<SearchResult>)
    requires |IdsOf(s)| == |s|
    ensures DistinctIds(s)
  {
    forall i, j | 0 <= i < j < |s| ensures s[i].id != s[j].id {
      if s[i].id == s[j].id {
        var t := s[..j] + s[j + 1..];
        IdsCountBound(t);
        forall id | id in IdsOf(s) ensures id in IdsOf(t) {
          var y :| y in s && y.id == id;
          var k :| 0 <= k < |s| && s[k] == y;
          if k < j { assert t[k] == y; }
          else if k > j { assert t[k - 1] == y; }
          else { assert t[i] == s[i]; }
        }
        assert IdsOf(s) <= IdsOf(t);
        assert |IdsOf(s)| <= |IdsOf(t)| by { SubsetCard(IdsOf(s), IdsOf(t)); }
        assert false;
      }
    }
  }

  lemma CardAddFresh<T>(a: set<T>, x: T)
    requires x !in a
    ensures |a + {x}| == |a| + 1
  {
  }

  lemma SubsetCard<T>(a: set<T>, b: set<T>)
    requires a <= b
    ensures |a| <= |b|
  {
    assert b == a + (b - a);
  }

  /** Rearranging a sequence keeps its ids, and keeps them distinct. */
  lemma PermutationKeepsIds(a: seq<SearchResult>, b: seq<SearchResult>)
    requires multiset(a) == multiset(b)
    ensures IdsOf(a) == IdsOf(b)
    ensures DistinctIds(a) ==> DistinctIds(b)
  {
    forall id | id in IdsOf(a) ensures id in IdsOf(b) {
      var y :| y in a && y.id == id;
      assert y in multiset(b);
    }
    forall id | id in IdsOf(b) ensures id in IdsOf(a) {
      var y :| y in b && y.id == id;
      assert y in multiset(a);
    }
    assert IdsOf(a) == IdsOf(b);
    if DistinctIds(a) {
      DistinctIdsCount(a);
      assert |a| == |b| by {
        assert |multiset(a)| == |multiset(b)|;
      }
      IdsCountDistinct(b);
    }
  }

  /**
   * Sorting by descending score and keeping the first `n` gives the top `n`:
   * sorted, drawn from the input, ids still distinct, and nothing left out
   * scores above anything kept.
   */
  lemma TopOfSorted(scored: seq<SearchResult>, n: nat)
    requires n <= |scored|
    ensures var results := SortByScoreDesc(scored)[..n];
      && SortedByScoreDesc(results)
      && (forall i :: 0 <= i < n ==> results[i] in scored)
      && (DistinctIds(scored) ==> DistinctIds(results))
      && (forall x, i :: x in scored && x.id !in IdsOf(results) && 0 <= i < n ==> x.score <= results[i].score)
  {
    var sorted := SortByScoreDesc(scored);
    var results := sorted[..n];
    SortByScoreDescFacts(scored);
    PermutationKeepsIds(scored, sorted);
    forall i | 0 <= i < n ensures results[i] in scored {
      assert results[i] in multiset(sorted);
    }
    SortedPrefixDominates(sorted, n);
    forall x | x in scored ensures x in sorted {
      assert x in multiset(sorted);
    }
  }

  /** A prefix of a descending sequence is descending and scores no lower than any element it leaves out. */
  lemma SortedPrefixDominates(sorted: seq<SearchResult>, n: nat)
    requires n <= |sorted| && SortedByScoreDesc(sorted)
    ensures SortedByScoreDesc(sorted[..n])
    ensures forall x, i :: x in sorted && x.id !in IdsOf(sorted[..n]) && 0 <= i < n ==> x.score <= sorted[i].score
  {
    var prefix := sorted[..n];
    assert forall k :: 0 <= k < n ==> prefix[k] == sorted[k] && prefix[k].id in IdsOf(prefix);
    forall x, i | x in sorted && x.id !in IdsOf(prefix) && 0 <= i < n ensures x.score <= sorted[i].score {
      var j :| 0 <= j < |sorted| && sorted[j] == x;
      assert n <= j;
    }
  }

  // ---------------------------------------------------------------------------
  // The store
  // ---------------------------------------------------------------------------

  /** Whether an entry passes the session filter of `search`: untagged entries never match a tag. */
  predicate MatchesSession(e: MemoryEntry, session: Option<string>) {
    match session
    case Some(s) => e.session == Some(s)
    case None => true
  }

  /** The ids `search` considers: every key whose entry passes the session filter. */
  function CandidateIds(entries: map<string, MemoryEntry>, session: Option<string>): set<string> {
    set k | k in entries && MatchesSession(entries[k], session)
  }

  /** The result an entry becomes: its own fields and its similarity to the query. */
  function ToSearchResult(e: MemoryEntry, query: Embedding, sqrt: real -> real): SearchResult {
    SearchResult(e.id, e.text, e.metadata, e.session, CosineSimilarity(query, e.embedding, sqrt))
  }

  /** `MemoryStore`, single-threaded: the read/write lock is not modelled. */
  class MemoryStore {
    var entries: map<string, MemoryEntry>
    /** The square root used for magnitudes (f32 `sqrt` in the source). */
    const sqrt: real -> real

    /** Every entry is stored under its own id. */
    ghost predicate Valid()
      reads this
    {
      forall k :: k in entries ==> entries[k].id == k
    }

    /** `MemoryStore::new`: an empty store. */
    constructor (sqrt: real -> real)
      ensures Valid() && entries == map[] && this.sqrt == sqrt
    {
      entries := map[];
      this.sqrt := sqrt;
    }

    /**
     * `store`: binds a fresh id (the UUID the source generates) to a new entry
     * holding the given fields; nothing else changes.
     */
    method Store(text: string, metadata: map<string, string>, session: Option<string>, embedding: Embedding, freshId: string)
      returns (id: string)
      requires Valid()
      requires freshId !in entries
      modifies this
      ensures Valid()
      ensures id == freshId && id !in old(entries)
      ensures entries == old(entries)[id := MemoryEntry(id, text, metadata, session, embedding)]
    {
      id := freshId;
      var entry := MemoryEntry(id, text, metadata, session, embedding);
      entries := entries[id := entry];
    }

    /** `delete`: reports whether `id` was stored, and removes it; nothing else changes. */
    method Delete(id: string) returns (existed: bool)
      requires Valid()
      modifies this
      ensures Valid()
      ensures existed <==> id in old(entries)
      ensures id !in entries
      ensures entries == old(entries) - {id}
    {
      existed := id in entries;
      entries := entries - {id};
    }

    /**
     * The scan of `search`: every entry that passes the session filter, scored
     * against the query, in the map's (unspecified) iteration order.
     */
    method ScoreCandidates(query: Embedding, session: Option<string>) returns (scored: seq<SearchResult>)
      requires Valid()
      ensures IdsOf(scored) == CandidateIds(entries, session)
      ensures DistinctIds(scored)
      ensures forall y :: y in scored ==> y.id in entries && y == ToSearchResult(entries[y.id], query, sqrt)
    {
      var candidates := CandidateIds(entries, session);
      scored := [];
      var pending := entries.Keys;
      while pending != {}
        invariant pending <= entries.Keys
        invariant forall y :: y in scored ==> y.id in entries && y == ToSearchResult(entries[y.id], query, sqrt)
        invariant IdsOf(scored) == candidates - pending
        invariant DistinctIds(scored)
        decreases pending
      {
        var k :| k in pending;
        var e := entries[k];
        if MatchesSession(e, session) {
          IdsOfSnoc(scored, ToSearchResult(e, query, sqrt));
          scored := scored + [ToSearchResult(e, query, sqrt)];
        }
        pending := pending - {k};
      }
    }

    /**
     * `search`: scores every entry that passes the session filter, sorts by
     * descending score and keeps the first `limit`. Reads the map only.
     */
    method Search(query: Embedding, limit: nat, session: Option<string>) returns (results: seq<SearchResult>)
      requires Valid()
      ensures |results| == Min(limit, |CandidateIds(entries, session)|)
      ensures forall i :: 0 <= i < |results| ==>
        && results[i].id in CandidateIds(entries, session)
        && results[i] == ToSearchResult(entries[results[i].id], query, sqrt)
      ensures forall i :: 0 <= i < |results| && session.Some? ==> results[i].session == session
      ensures DistinctIds(results)
      ensures SortedByScoreDesc(results)
      ensures forall k, i :: k in CandidateIds(entries, session) && k !in IdsOf(results) && 0 <= i < |results| ==>
        ToSearchResult(entries[k], query, sqrt).score <= results[i].score
    {
      var scored := ScoreCandidates(query, session);
      DistinctIdsCount(scored);
      var sorted := SortByScoreDesc(scored);
      var n := Min(limit, |sorted|);
      results := sorted[..n];
      TopOfSorted(scored, n);
      forall k, i | k in CandidateIds(entries, session) && k !in IdsOf(results) && 0 <= i < |results|
        ensures ToSearchResult(entries[k], query, sqrt).score <= results[i].score
      {
        var y :| y in scored && y.id == k;
      }
    }
  }

  /** Deleting an id twice: the first call reports it, the second does not, and it is gone. */
  method DeleteTwice(store: MemoryStore, id: string) returns (first: bool, second: bool)
    requires store.Valid()
    modifies store
    ensures first <==> id in old(store.entries)
    ensures !second
    ensures store.entries == old(store.entries) - {id}
  {
    first := store.Delete(id);
    second := store.Delete(id);
  }
}
