/**
 * VectorStore: a flat (exhaustive) L2 nearest-neighbour index of fixed dimension, with a map
 * from the index's slot numbers to WhatsApp message ids.
 *
 * The FAISS IndexFlatL2 is modelled by the sequence of vectors it stores and by an exact
 * search: every stored vector is scored by squared Euclidean distance to the query and the
 * slots are ranked by (distance, slot), so that equally distant vectors come out in
 * insertion order.
 */
module VectorIndex {

  /** An embedding; exact reals stand in for the single-precision floats FAISS stores. */
  type Vector = seq<real>

  function Min(a: int, b: int): int {
    if a <= b then a else b
  }

  /** The squared Euclidean distance IndexFlatL2 ranks by. */
  function SqDist(u: Vector, v: Vector): (d: real)
    requires |u| == |v|
    ensures d >= 0.0
  {
    if |u| == 0 then 0.0
    else
      var diff := u[|u| - 1] - v[|v| - 1];
      SqDist(u[..|u| - 1], v[..|v| - 1]) + diff * diff
  }

  /** A vector is at distance zero from itself. */
  lemma {:induction false} SqDistSelf(v: Vector)
    ensures SqDist(v, v) == 0.0
  {
    if |v| > 0 {
      SqDistSelf(v[..|v| - 1]);
    }
  }

  /** Every stored vector has the query's length. */
  predicate SameDim(vs: seq<Vector>, q: Vector) {
    forall i :: 0 <= i < |vs| ==> |vs[i]| == |q|
  }

  /** The distance of each stored vector to the query, by slot. */
  function Distances(vs: seq<Vector>, q: Vector): (ds: seq<real>)
    requires SameDim(vs, q)
    ensures |ds| == |vs|
    ensures forall i :: 0 <= i < |vs| ==> ds[i] == SqDist(vs[i], q)
  {
    seq(|vs|, i requires 0 <= i < |vs| => SqDist(vs[i], q))
  }

  // ---------------------------------------------------------------------------
  // Ranking of slots by distance
  // ---------------------------------------------------------------------------

  /** Slot i ranks strictly ahead of slot j: it is closer, or as close and inserted earlier. */
  predicate Before(ds: seq<real>, i: int, j: int)
    requires 0 <= i < |ds| && 0 <= j < |ds|
  {
    ds[i] < ds[j] || (ds[i] == ds[j] && i < j)
  }

  /** Every element of s is a slot of an index holding n vectors. */
  predicate Slots(s: seq<int>, n: int) {
    forall i :: 0 <= i < |s| ==> 0 <= s[i] < n
  }

  /** s lists slots in strictly increasing rank. */
  predicate Ranked(ds: seq<real>, s: seq<int>)
    requires Slots(s, |ds|)
  {
    forall a, b :: 0 <= a < b < |s| ==> Before(ds, s[a], s[b])
  }

  /** Inserts slot j into the ranked list s. */
  function Insert(ds: seq<real>, s: seq<int>, j: int): (r: seq<int>)
    requires Slots(s, |ds|) && 0 <= j < |ds|
    ensures |r| == |s| + 1
    ensures forall x :: x in r <==> x in s || x == j
    ensures Slots(r, |ds|)
  {
    if s == [] then [j]
    else if Before(ds, j, s[0]) then [j] + s
    else [s[0]] + Insert(ds, s[1..], j)
  }

  /** Insertion keeps a ranked list ranked. */
  lemma {:induction false} InsertRanked(ds: seq<real>, s: seq<int>, j: int)
    requires Slots(s, |ds|) && 0 <= j < |ds|
    requires Ranked(ds, s) && j !in s
    ensures Ranked(ds, Insert(ds, s, j))
  {
    var r := Insert(ds, s, j);
    if s == [] {
    } else if Before(ds, j, s[0]) {
      forall a, b | 0 <= a < b < |r| ensures Before(ds, r[a], r[b]) {
        if a > 0 {
          assert r[a] == s[a - 1] && r[b] == s[b - 1];
        } else {
          assert r[b] == s[b - 1];
        }
      }
    } else {
      var t := s[1..];
      assert Ranked(ds, t) by {
        forall a, b | 0 <= a < b < |t| ensures Before(ds, t[a], t[b]) {
          assert t[a] == s[a + 1] && t[b] == s[b + 1];
        }
      }
      InsertRanked(ds, t, j);
      var it := Insert(ds, t, j);
      assert r == [s[0]] + it;
      forall a, b | 0 <= a < b < |r| ensures Before(ds, r[a], r[b]) {
        var x := r[b];
        assert x == it[b - 1];
        assert x in it;
        if a > 0 {
          assert r[a] == it[a - 1];
        } else if x != j {
          assert x in t;
          var c :| 0 <= c < |t| && t[c] == x;
          assert s[c + 1] == x;
        }
      }
    }
  }

  /** The slots 0 .. n-1 in order of increasing distance, lower slot first on ties. */
  function Rank(ds: seq<real>, n: nat): (r: seq<int>)
    requires n <= |ds|
    ensures |r| == n
    ensures forall x :: x in r <==> 0 <= x < n
    ensures Slots(r, |ds|)
    ensures Ranked(ds, r)
  {
    if n == 0 then []
    else
      var prev := Rank(ds, n - 1);
      InsertRanked(ds, prev, n - 1);
      Insert(ds, prev, n - 1)
  }

  /** The label buffer a k-nearest search fills: the k best slots, then -1 where none is left. */
  function Labels(ds: seq<real>, k: nat): (labels: seq<int>)
    ensures |labels| == k
    ensures forall i :: 0 <= i < k ==> (labels[i] == -1 <==> i >= |ds|)
    ensures forall i :: 0 <= i < k && i < |ds| ==> 0 <= labels[i] < |ds|
  {
    var r := Rank(ds, |ds|);
    seq(k, i requires 0 <= i < k => if i < |r| then r[i] else -1)
  }

  /** The slots a k-nearest search returns: the first min(k, n) of the ranking. */
  function NearestSlots(ds: seq<real>, k: nat): seq<int> {
    Rank(ds, |ds|)[..Min(k, |ds|)]
  }

  /**
   * The nearest slots come in rank order, each is distinct, and every stored slot left out
   * ranks behind every slot returned: the search returns the k nearest vectors.
   */
  lemma NearestAreClosest(ds: seq<real>, k: nat)
    ensures var near := NearestSlots(ds, k);
      && |near| == Min(k, |ds|)
      && Slots(near, |ds|)
      && (forall a, b :: 0 <= a < b < |near| ==> Before(ds, near[a], near[b]) && near[a] != near[b])
      && (forall a, b :: 0 <= a < b < |near| ==> ds[near[a]] <= ds[near[b]])
      && (forall j, s :: 0 <= j < |near| && 0 <= s < |ds| && s !in near ==> Before(ds, near[j], s))
  {
    var r := Rank(ds, |ds|);
    var near := NearestSlots(ds, k);
    forall j, s | 0 <= j < |near| && 0 <= s < |ds| && s !in near ensures Before(ds, near[j], s) {
      assert s in r;
      var c :| 0 <= c < |r| && r[c] == s;
      assert near[j] == r[j];
    }
  }

  // ---------------------------------------------------------------------------
  // Resolving labels to message ids
  // ---------------------------------------------------------------------------

  /** The ids the result loop collects from a label buffer, skipping -1 and unmapped slots. */
  function Resolve(labels: seq<int>, idMap: map<int, string>): seq<string> {
    if labels == [] then []
    else
      var last := labels[|labels| - 1];
      Resolve(labels[..|labels| - 1], idMap) + (if last != -1 && last in idMap then [idMap[last]] else [])
  }

  /** Resolving a padded ranking whose slots are all mapped yields one id per slot, in order. */
  lemma {:induction false} ResolvePadded(labels: seq<int>, r: seq<int>, idMap: map<int, string>, i: nat)
    requires i <= |labels|
    requires forall j :: 0 <= j < |labels| ==> labels[j] == (if j < |r| then r[j] else -1)
    requires forall x :: x in r ==> x != -1 && x in idMap
    ensures |Resolve(labels[..i], idMap)| == Min(i, |r|)
    ensures forall j :: 0 <= j < Min(i, |r|) ==> Resolve(labels[..i], idMap)[j] == idMap[r[j]]
  {
    if i > 0 {
      ResolvePadded(labels, r, idMap, i - 1);
      assert labels[..i][..i - 1] == labels[..i - 1];
      if i - 1 < |r| {
        assert r[i - 1] in r;
      }
    }
  }

  // ---------------------------------------------------------------------------
  // The index state
  // ---------------------------------------------------------------------------

  /** What a VectorStore holds: m_index's vectors, m_id_map and m_current_faiss_id. */
  datatype IndexState = IndexState(vectors: seq<Vector>, idMap: map<int, string>, nextId: int)

  /** The index state of a freshly constructed store. */
  const EmptyIndex: IndexState := IndexState([], map[], 0)

  /**
   * The store's invariant: the map's keys are exactly the slots 0 .. nextId-1, the index
   * holds nextId vectors, and each has the store's dimension.
   */
  ghost predicate Coherent(st: IndexState, dim: nat) {
    && |st.vectors| == st.nextId
    && (forall s :: s in st.idMap <==> 0 <= s < st.nextId)
    && (forall i :: 0 <= i < |st.vectors| ==> |st.vectors[i]| == dim)
  }

  /** The state after AddIndex(msgId, e): unchanged when e has the wrong dimension. */
  function Added(st: IndexState, dim: nat, msgId: string, e: Vector): IndexState {
    if |e| != dim then st
    else IndexState(st.vectors + [e], st.idMap[st.nextId := msgId], st.nextId + 1)
  }

  /**
   * A successful add keeps the invariant, maps exactly one new slot -- the old counter --
   * to msgId, and leaves every older entry as it was.
   */
  lemma AddedCoherent(st: IndexState, dim: nat, msgId: string, e: Vector)
    requires Coherent(st, dim)
    ensures Coherent(Added(st, dim, msgId, e), dim)
    ensures |e| == dim ==> Added(st, dim, msgId, e).idMap.Keys == st.idMap.Keys + {st.nextId}
    ensures |e| == dim ==> st.nextId !in st.idMap
    ensures forall s :: s in st.idMap ==> Added(st, dim, msgId, e).idMap[s] == st.idMap[s]
  {
  }

  /** The ids Search returns for query q and count k. */
  function SearchResult(st: IndexState, q: Vector, k: nat): seq<string>
    requires q == [] || SameDim(st.vectors, q)
  {
    if q == [] then [] else Resolve(Labels(Distances(st.vectors, q), k), st.idMap)
  }

  /**
   * On a coherent index a non-empty query gets exactly min(k, n) ids: the ids of the nearest
   * slots, in rank order. Nothing is padded and nothing is skipped.
   */
  lemma SearchReturnsNearest(st: IndexState, dim: nat, q: Vector, k: nat)
    requires Coherent(st, dim) && q != [] && |q| == dim
    ensures var near := NearestSlots(Distances(st.vectors, q), k);
      && Slots(near, |st.vectors|)
      && |SearchResult(st, q, k)| == |near| == Min(k, |st.vectors|)
      && forall j :: 0 <= j < |near| ==> near[j] in st.idMap && SearchResult(st, q, k)[j] == st.idMap[near[j]]
  {
    var ds := Distances(st.vectors, q);
    var r := Rank(ds, |ds|);
    var labels := Labels(ds, k);
    ResolvePadded(labels, r, st.idMap, k);
    assert labels[..k] == labels;
    NearestAreClosest(ds, k);
  }

  /** Every id a search returns was stored under some slot. */
  lemma SearchIdsWereAdded(st: IndexState, dim: nat, q: Vector, k: nat)
    requires Coherent(st, dim) && (q == [] || |q| == dim)
    ensures forall id :: id in SearchResult(st, q, k) ==> id in st.idMap.Values
  {
    if q != [] {
      SearchReturnsNearest(st, dim, q, k);
      var near := NearestSlots(Distances(st.vectors, q), k);
      forall id | id in SearchResult(st, q, k) ensures id in st.idMap.Values {
        var j :| 0 <= j < |SearchResult(st, q, k)| && SearchResult(st, q, k)[j] == id;
        assert near[j] in st.idMap;
      }
    }
  }

  /** When the index holds at most k vectors, a search returns every stored id. */
  lemma SmallIndexReturnsAll(st: IndexState, dim: nat, q: Vector, k: nat)
    requires Coherent(st, dim) && q != [] && |q| == dim && |st.vectors| <= k
    ensures forall s :: 0 <= s < st.nextId ==> st.idMap[s] in SearchResult(st, q, k)
  {
    SearchReturnsNearest(st, dim, q, k);
    var ds := Distances(st.vectors, q);
    var near := NearestSlots(ds, k);
    var r := Rank(ds, |ds|);
    assert near == r;
    forall s | 0 <= s < st.nextId ensures st.idMap[s] in SearchResult(st, q, k) {
      assert s in r;
      var c :| 0 <= c < |r| && r[c] == s;
      assert SearchResult(st, q, k)[c] == st.idMap[s];
    }
  }

  /** Querying with a stored vector puts a vector at distance zero first. */
  lemma StoredVectorRanksFirst(st: IndexState, dim: nat, i: nat, k: nat)
    requires Coherent(st, dim) && i < |st.vectors| && st.vectors[i] != [] && k > 0
    ensures var q := st.vectors[i];
      var near := NearestSlots(Distances(st.vectors, q), k);
      |near| > 0 && 0 <= near[0] < |st.vectors| && SqDist(st.vectors[near[0]], q) == 0.0
  {
    var q := st.vectors[i];
    var ds := Distances(st.vectors, q);
    SqDistSelf(q);
    NearestAreClosest(ds, k);
    var near := NearestSlots(ds, k);
    assert near[0] in near;
    if near[0] != i && i !in near {
      assert Before(ds, near[0], i);
    } else if near[0] != i {
      var c :| 0 <= c < |near| && near[c] == i;
      assert Before(ds, near[0], near[c]);
    }
  }

  // ---------------------------------------------------------------------------
  // The store
  // ---------------------------------------------------------------------------

  class VectorStore {
    /** m_dimension: the length every stored vector must have. */
    const dimension: nat
    /** The vectors held by m_index, by slot. */
    var vectors: seq<Vector>
    /** m_id_map: slot number to WhatsApp message id. */
    var idMap: map<int, string>
    /** m_current_faiss_id: the slot the next vector will occupy. */
    var currentId: int

    function State(): IndexState
      reads this
    {
      IndexState(vectors, idMap, currentId)
    }

    ghost predicate Valid()
      reads this
    {
      Coherent(State(), dimension)
    }

    /** An empty index of the given dimension, its counter at 0. */
    constructor (dimension: nat)
      ensures this.dimension == dimension
      ensures State() == EmptyIndex
      ensures Valid()
    {
      this.dimension := dimension;
      vectors := [];
      idMap := map[];
      currentId := 0;
    }

    /**
     * Stores `embedding` under the next slot and maps that slot to `msgId`; an embedding of
     * the wrong dimension is rejected and nothing changes.
     */
    method AddIndex(msgId: string, embedding: Vector)
      requires Valid()
      modifies this
      ensures Valid()
      ensures State() == Added(old(State()), dimension, msgId, embedding)
      ensures |embedding| != dimension ==> State() == old(State())
      ensures |embedding| == dimension ==>
        && vectors == old(vectors) + [embedding]
        && idMap == old(idMap)[old(currentId) := msgId]
        && old(currentId) !in old(idMap)
        && currentId == old(currentId) + 1
    {
      if |embedding| != dimension {
        return;
      }
      vectors := vectors + [embedding];
      idMap := idMap[currentId := msgId];
      currentId := currentId + 1;
      AddedCoherent(old(State()), dimension, msgId, embedding);
    }

    /**
     * The ids of the (at most) k stored vectors nearest to `query`, closest first. An empty
     * query returns nothing; the store is only read.
     */
    method Search(query: Vector, k: nat) returns (results: seq<string>)
      requires Valid()
      requires query == [] || |query| == dimension
      ensures results == SearchResult(State(), query, k)
      ensures query == [] ==> results == []
      ensures query != [] ==> |results| == Min(k, |vectors|)
      ensures |results| <= k && |results| <= |vectors|
      ensures forall id :: id in results ==> id in idMap.Values
    {
      SearchIdsWereAdded(State(), dimension, query, k);
      if query == [] {
        return [];
      }
      var labels := Labels(Distances(vectors, query), k);
      results := [];
      for i := 0 to k
        invariant results == Resolve(labels[..i], idMap)
      {
        var foundId := labels[i];
        if foundId != -1 && foundId in idMap {
          results := results + [idMap[foundId]];
        }
        assert labels[..i + 1][..i] == labels[..i];
      }
      assert labels[..k] == labels;
      SearchReturnsNearest(State(), dimension, query, k);
    }
  }
}
