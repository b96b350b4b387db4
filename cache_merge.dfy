/** Cache hydration: the `deepmerge` call of `initializeApollo` together with
    its `arrayMerge` option (libs/apolloClient.ts:76-85).

    `deepmerge` itself is library code. Its behaviour is modelled here as an
    explicit assumption: two arrays are combined by the array policy, two
    objects are combined key by key (recursing on keys present in both), and
    in every other case the incoming value replaces the existing one.
    `lodash/isEqual` on JSON values is structural equality, which is `==` on
    the datatype `Json`. */
module CacheMerge {
  import opened JsonValues

  /** `destinationArray.filter((d) => sourceArray.every((s) => !isEqual(d, s)))`:
      the existing elements that have no structurally equal element in the
      incoming array, in their original order. */
  function Unmatched(destination: seq<Json>, source: seq<Json>): seq<Json>
  {
    if destination == [] then []
    else
      (if destination[0] in source then [] else [destination[0]])
      + Unmatched(destination[1..], source)
  }

  /** The `arrayMerge` callback: the incoming array, then the existing elements
      it does not already contain. */
  function ArrayMerge(destination: seq<Json>, source: seq<Json>): seq<Json>
  {
    source + Unmatched(destination, source)
  }

  /** `deepmerge`'s object merge with the `arrayMerge` option, on JSON values:
      two arrays go through the array policy, two objects are merged key by
      key, and any other incoming value replaces the existing one, which is
      deepmerge's rule for a key whose incoming value is not a mergeable
      object. The top-level call at line 78 always receives two objects (a
      snapshot and `initialState`), so deepmerge's different treatment of a
      scalar passed at the top level is never reached. */
  function Merge(target: Json, source: Json): (r: Json)
    ensures target.Obj? && source.Obj? ==> r.Obj? && r.fields.Keys == target.fields.Keys + source.fields.Keys
    decreases source
  {
    match (target, source)
    case (Arr(d), Arr(s)) => Arr(ArrayMerge(d, s))
    case (Obj(t), Obj(s)) =>
      Obj(map k | k in t.Keys + s.Keys ::
            if k in s && k in t then Merge(t[k], s[k])
            else if k in s then s[k]
            else t[k])
    case _ => source
  }

  /** The content `restore` receives: the existing snapshot merged with the
      incoming one (lines 76-83). */
  function Hydrate(existing: Snapshot, incoming: Snapshot): Snapshot
  {
    Merge(Obj(existing), Obj(incoming)).fields
  }

  /** The cache content after `initializeApollo` with this `initialState`:
      nothing is merged or restored when there is no state (line 75). */
  function Hydrated(existing: Snapshot, initialState: Option<Snapshot>): Snapshot
  {
    match initialState
    case None => existing
    case Some(incoming) => Hydrate(existing, incoming)
  }

  // ---------------------------------------------------------------------------
  // The array policy

  /** The merged array begins with the whole incoming array, in its order. */
  lemma ArrayMergeStartsWithIncoming(destination: seq<Json>, source: seq<Json>)
    ensures |ArrayMerge(destination, source)| >= |source|
    ensures ArrayMerge(destination, source)[..|source|] == source
  {
  }

  /** The kept elements are exactly the existing elements no incoming element
      equals. */
  lemma {:induction false} UnmatchedMembers(destination: seq<Json>, source: seq<Json>)
    ensures forall x :: x in Unmatched(destination, source) <==> x in destination && x !in source
  {
    if destination != [] {
      UnmatchedMembers(destination[1..], source);
      assert destination == [destination[0]] + destination[1..];
    }
  }

  /** An element appears after the incoming prefix iff it is an existing
      element that no incoming element equals; so no element of the tail
      repeats an element of the prefix. */
  lemma ArrayMergeTail(destination: seq<Json>, source: seq<Json>)
    ensures var r := ArrayMerge(destination, source);
      forall x :: x in r[|source|..] <==> x in destination && x !in source
    ensures var r := ArrayMerge(destination, source);
      forall i, j :: 0 <= i < |source| <= j < |r| ==> r[i] != r[j]
  {
    var r := ArrayMerge(destination, source);
    assert r[|source|..] == Unmatched(destination, source);
    UnmatchedMembers(destination, source);
    forall i, j | 0 <= i < |source| <= j < |r| ensures r[i] != r[j] {
      assert r[i] == source[i] && r[i] in source;
      assert r[j] == r[|source|..][j - |source|] && r[j] in Unmatched(destination, source);
    }
  }

  /** Every existing element that is not matched is kept with all its
      occurrences, and every matched one is dropped: duplicates inside the
      existing array are not removed. */
  lemma {:induction false} UnmatchedCounts(destination: seq<Json>, source: seq<Json>)
    ensures forall x :: multiset(Unmatched(destination, source))[x]
                        == if x in source then 0 else multiset(destination)[x]
  {
    if destination != [] {
      UnmatchedCounts(destination[1..], source);
      assert destination == [destination[0]] + destination[1..];
    }
  }

  /** `a` is obtained from `b` by deleting elements, so the elements of `a`
      keep their relative order in `b`. */
  predicate Subsequence(a: seq<Json>, b: seq<Json>)
  {
    if a == [] then true
    else if b == [] then false
    else (a[0] == b[0] && Subsequence(a[1..], b[1..])) || Subsequence(a, b[1..])
  }

  /** The kept existing elements keep their relative order. */
  lemma {:induction false} UnmatchedIsSubsequence(destination: seq<Json>, source: seq<Json>)
    ensures Subsequence(Unmatched(destination, source), destination)
  {
    if destination != [] {
      UnmatchedIsSubsequence(destination[1..], source);
      var kept := Unmatched(destination, source);
      if destination[0] !in source {
        assert kept[0] == destination[0] && kept[1..] == Unmatched(destination[1..], source);
      } else {
        assert kept == Unmatched(destination[1..], source);
      }
    }
  }

  /** The filter, applied from position `lo` on, keeps one element per
      position at or after `lo` whose element no incoming element equals. */
  lemma {:induction false} UnmatchedLengthFrom(destination: seq<Json>, source: seq<Json>, lo: nat)
    requires lo <= |destination|
    ensures |Unmatched(destination[lo..], source)|
            == |set i | lo <= i < |destination| && destination[i] !in source|
    decreases |destination| - lo
  {
    var all := set i | lo <= i < |destination| && destination[i] !in source;
    if lo == |destination| {
      assert all == {};
    } else {
      UnmatchedLengthFrom(destination, source, lo + 1);
      var later := set i | lo + 1 <= i < |destination| && destination[i] !in source;
      var here: set<int> := if destination[lo] in source then {} else {lo};
      assert destination[lo..][1..] == destination[lo + 1..];
      assert all == here + later;
      assert lo !in later;
    }
  }

  /** The filter keeps one element per existing position whose element no
      incoming element equals. */
  lemma UnmatchedLength(destination: seq<Json>, source: seq<Json>)
    ensures |Unmatched(destination, source)| == |set i | 0 <= i < |destination| && destination[i] !in source|
  {
    UnmatchedLengthFrom(destination, source, 0);
    assert destination[0..] == destination;
  }

  /** The merged array has the incoming length plus one for each existing
      position whose element no incoming element equals. */
  lemma ArrayMergeLength(destination: seq<Json>, source: seq<Json>)
    ensures |ArrayMerge(destination, source)|
            == |source| + |set i | 0 <= i < |destination| && destination[i] !in source|
  {
    UnmatchedLength(destination, source);
  }

  lemma {:induction false} UnmatchedAppend(a: seq<Json>, b: seq<Json>, source: seq<Json>)
    ensures Unmatched(a + b, source) == Unmatched(a, source) + Unmatched(b, source)
  {
    if a != [] {
      var head := if a[0] in source then [] else [a[0]];
      assert (a + b)[0] == a[0] && (a + b)[1..] == a[1..] + b;
      UnmatchedAppend(a[1..], b, source);
      calc {
        Unmatched(a + b, source);
        head + Unmatched(a[1..] + b, source);
        head + (Unmatched(a[1..], source) + Unmatched(b, source));
        (head + Unmatched(a[1..], source)) + Unmatched(b, source);
      }
    } else {
      assert a + b == b;
    }
  }

  lemma {:induction false} UnmatchedAllMatched(a: seq<Json>, source: seq<Json>)
    requires forall x :: x in a ==> x in source
    ensures Unmatched(a, source) == []
  {
    if a != [] {
      UnmatchedAllMatched(a[1..], source);
    }
  }

  lemma {:induction false} UnmatchedNoneMatched(a: seq<Json>, source: seq<Json>)
    requires forall x :: x in a ==> x !in source
    ensures Unmatched(a, source) == a
  {
    if a != [] {
      UnmatchedNoneMatched(a[1..], source);
    }
  }

  /** Merging the same incoming array a second time changes nothing. */
  lemma ArrayMergeIdempotent(destination: seq<Json>, source: seq<Json>)
    ensures ArrayMerge(ArrayMerge(destination, source), source) == ArrayMerge(destination, source)
  {
    var kept := Unmatched(destination, source);
    UnmatchedAppend(source, kept, source);
    UnmatchedAllMatched(source, source);
    UnmatchedMembers(destination, source);
    UnmatchedNoneMatched(kept, source);
    calc {
      ArrayMerge(ArrayMerge(destination, source), source);
      source + Unmatched(source + kept, source);
      source + (Unmatched(source, source) + Unmatched(kept, source));
      source + ([] + kept);
      ArrayMerge(destination, source);
    }
  }

  /** An array merged with itself is unchanged. */
  lemma ArrayMergeSelf(a: seq<Json>)
    ensures ArrayMerge(a, a) == a
  {
    UnmatchedAllMatched(a, a);
  }

  /** A worked example: existing `[{id:1,v:"a"},{id:2,v:"b"}]`,
      incoming `[{id:2,v:"b"},{id:3,v:"c"}]`. */
  lemma ArrayMergeExample()
    ensures
      var e1 := Obj(map["id" := Num(1), "v" := Str("a")]);
      var e2 := Obj(map["id" := Num(2), "v" := Str("b")]);
      var e3 := Obj(map["id" := Num(3), "v" := Str("c")]);
      ArrayMerge([e1, e2], [e2, e3]) == [e2, e3, e1]
  {
    var e1 := Obj(map["id" := Num(1), "v" := Str("a")]);
    var e2 := Obj(map["id" := Num(2), "v" := Str("b")]);
    var e3 := Obj(map["id" := Num(3), "v" := Str("c")]);
    assert e1.fields["id"] != e2.fields["id"] && e1.fields["id"] != e3.fields["id"];
    assert e1 !in [e2, e3];
  }

  // ---------------------------------------------------------------------------
  // The deep merge

  /** Merging a value into itself leaves it unchanged. */
  lemma {:induction false} MergeSelf(x: Json)
    ensures Merge(x, x) == x
    decreases x
  {
    match x
    case Arr(a) => ArrayMergeSelf(a);
    case Obj(f) =>
      forall k | k in f ensures Merge(x, x).fields[k] == f[k] {
        MergeSelf(f[k]);
      }
    case _ =>
  }

  /** Hydrating a second time with the same incoming value changes nothing. */
  lemma {:induction false} MergeIdempotent(target: Json, source: Json)
    ensures Merge(Merge(target, source), source) == Merge(target, source)
    decreases source
  {
    var once := Merge(target, source);
    match (target, source)
    case (Arr(d), Arr(s)) => ArrayMergeIdempotent(d, s);
    case (Obj(t), Obj(s)) =>
      forall k | k in once.fields ensures Merge(once, source).fields[k] == once.fields[k] {
        if k in s {
          if k in t {
            MergeIdempotent(t[k], s[k]);
          } else {
            MergeSelf(s[k]);
          }
        }
      }
    case _ => MergeSelf(source);
  }

  /** `r` contains everything `s` says: equal scalars, arrays that begin with
      `s`'s array, and objects that have every property of `s`, recursively. */
  predicate Covers(r: Json, s: Json)
    decreases s
  {
    match (r, s)
    case (Arr(ri), Arr(si)) => |si| <= |ri| && ri[..|si|] == si
    case (Obj(rf), Obj(sf)) => forall k :: k in sf ==> k in rf && Covers(rf[k], sf[k])
    case _ => r == s
  }

  lemma {:induction false} CoversSelf(s: Json)
    ensures Covers(s, s)
    decreases s
  {
    match s
    case Obj(sf) =>
      forall k | k in sf ensures Covers(sf[k], sf[k]) {
        CoversSelf(sf[k]);
      }
    case _ =>
  }

  /** Hydration never loses incoming data: every incoming scalar wins, every
      incoming array heads the merged array, every incoming property is present. */
  lemma {:induction false} MergeCoversIncoming(target: Json, source: Json)
    ensures Covers(Merge(target, source), source)
    decreases source
  {
    match (target, source)
    case (Arr(d), Arr(s)) =>
    case (Obj(t), Obj(s)) =>
      var r := Merge(target, source);
      forall k | k in s ensures k in r.fields && Covers(r.fields[k], s[k]) {
        if k in t {
          MergeCoversIncoming(t[k], s[k]);
        } else {
          CoversSelf(s[k]);
        }
      }
    case _ => CoversSelf(source);
  }

  /** Records the incoming snapshot does not mention survive hydration as
      they were, and no record disappears. */
  lemma HydrateKeepsExisting(existing: Snapshot, incoming: Snapshot)
    ensures Hydrate(existing, incoming).Keys == existing.Keys + incoming.Keys
    ensures forall k :: k in existing && k !in incoming ==> Hydrate(existing, incoming)[k] == existing[k]
  {
  }

  /** Hydrating an empty cache adopts the incoming snapshot verbatim. */
  lemma HydrateIntoEmpty(incoming: Snapshot)
    ensures Hydrate(map[], incoming) == incoming
  {
    var r := Hydrate(map[], incoming);
    assert r.Keys == incoming.Keys;
    forall k | k in incoming ensures r[k] == incoming[k] { }
  }

  /** Hydrating twice with the same snapshot equals hydrating once. */
  lemma HydrateIdempotent(existing: Snapshot, incoming: Snapshot)
    ensures Hydrate(Hydrate(existing, incoming), incoming) == Hydrate(existing, incoming)
  {
    MergeIdempotent(Obj(existing), Obj(incoming));
  }
}
