/**
 * Keeping the first element seen for each key, in the order met: what the
 * dispatcher's `seen` set does to matched rules (by channel id) and what
 * the bot-update poller's `chatsMap` does to chats (by chat id).
 */
module FirstSeen {

  /** The keys of a sequence, position by position. */
  function KeysOf<T, K(==)>(xs: seq<T>, key: T -> K): (ks: seq<K>)
    ensures |ks| == |xs|
    ensures forall i :: 0 <= i < |xs| ==> ks[i] == key(xs[i])
  {
    if xs == [] then [] else [key(xs[0])] + KeysOf(xs[1..], key)
  }

  /**
   * Walks `xs` left to right, dropping every element whose key is in
   * `seen` and adding each kept element's key to `seen`.
   */
  function DedupFrom<T, K(==)>(xs: seq<T>, key: T -> K, seen: set<K>): seq<T> {
    if xs == [] then []
    else if key(xs[0]) in seen then DedupFrom(xs[1..], key, seen)
    else [xs[0]] + DedupFrom(xs[1..], key, seen + {key(xs[0])})
  }

  /** One step of the walk. */
  lemma DedupFromCons<T, K>(x: T, xs: seq<T>, key: T -> K, seen: set<K>)
    ensures DedupFrom([x] + xs, key, seen) ==
      if key(x) in seen then DedupFrom(xs, key, seen) else [x] + DedupFrom(xs, key, seen + {key(x)})
  {
    assert ([x] + xs)[1..] == xs;
  }

  /** The first element for each key, in order of first appearance. */
  function Dedup<T, K(==)>(xs: seq<T>, key: T -> K): seq<T> {
    DedupFrom(xs, key, {})
  }

  predicate DistinctKeys<T, K(==)>(xs: seq<T>, key: T -> K) {
    forall i, j :: 0 <= i < j < |xs| ==> key(xs[i]) != key(xs[j])
  }

  /** Kept elements have pairwise different keys, none of them already seen. */
  lemma {:induction false} DedupFromDistinct<T, K>(xs: seq<T>, key: T -> K, seen: set<K>)
    ensures DistinctKeys(DedupFrom(xs, key, seen), key)
    ensures forall i :: 0 <= i < |DedupFrom(xs, key, seen)| ==> key(DedupFrom(xs, key, seen)[i]) !in seen
  {
    if xs != [] {
      if key(xs[0]) in seen {
        DedupFromDistinct(xs[1..], key, seen);
      } else {
        DedupFromDistinct(xs[1..], key, seen + {key(xs[0])});
      }
    }
  }

  /** Kept elements come from the input. */
  lemma {:induction false} DedupFromSubset<T, K>(xs: seq<T>, key: T -> K, seen: set<K>)
    ensures forall x :: x in DedupFrom(xs, key, seen) ==> x in xs
  {
    if xs != [] {
      var seen' := if key(xs[0]) in seen then seen else seen + {key(xs[0])};
      DedupFromSubset(xs[1..], key, seen');
      assert forall x :: x in xs[1..] ==> x in xs;
    }
  }

  /** Every key of the input that was not already seen is kept, and no other key appears. */
  lemma {:induction false} DedupFromKeys<T, K>(xs: seq<T>, key: T -> K, seen: set<K>)
    ensures forall k :: k in KeysOf(DedupFrom(xs, key, seen), key) <==> k in KeysOf(xs, key) && k !in seen
  {
    if xs != [] {
      var rest := KeysOf(xs[1..], key);
      assert KeysOf(xs, key) == [key(xs[0])] + rest;
      if key(xs[0]) in seen {
        DedupFromKeys(xs[1..], key, seen);
      } else {
        var tail := DedupFrom(xs[1..], key, seen + {key(xs[0])});
        DedupFromKeys(xs[1..], key, seen + {key(xs[0])});
        assert KeysOf([xs[0]] + tail, key) == [key(xs[0])] + KeysOf(tail, key);
      }
    }
  }

  /** Position `i` of `xs` holds the first element with its key. */
  predicate IsFirst<T, K(==)>(xs: seq<T>, key: T -> K, i: int) {
    0 <= i < |xs| && forall j :: 0 <= j < i ==> key(xs[j]) != key(xs[i])
  }

  /** Every position moved one further on. */
  function Shift(ps: seq<nat>): (r: seq<nat>)
    ensures |r| == |ps| && forall i :: 0 <= i < |ps| ==> r[i] == ps[i] + 1
  {
    seq(|ps|, i requires 0 <= i < |ps| => ps[i] + 1)
  }

  /** The positions of `xs` that `DedupFrom` keeps. */
  function KeptPositions<T, K(==)>(xs: seq<T>, key: T -> K, seen: set<K>): seq<nat> {
    if xs == [] then []
    else if key(xs[0]) in seen then Shift(KeptPositions(xs[1..], key, seen))
    else [0] + Shift(KeptPositions(xs[1..], key, seen + {key(xs[0])}))
  }

  /** First positions in `xs[1..]` whose key differs from `xs[0]`'s are first positions in `xs`. */
  lemma ShiftKeepsFirst<T, K>(xs: seq<T>, key: T -> K, tail: seq<T>, tps: seq<nat>)
    requires xs != [] && |tps| == |tail|
    requires forall j :: 0 <= j < |tps| ==>
      IsFirst(xs[1..], key, tps[j]) && xs[1..][tps[j]] == tail[j] && key(tail[j]) != key(xs[0])
    ensures forall j :: 0 <= j < |tps| ==> IsFirst(xs, key, Shift(tps)[j]) && xs[Shift(tps)[j]] == tail[j]
  {
    forall j | 0 <= j < |tps|
      ensures IsFirst(xs, key, Shift(tps)[j]) && xs[Shift(tps)[j]] == tail[j]
    {
      var p := tps[j];
      assert xs[p + 1] == xs[1..][p];
      forall i | 0 <= i < p + 1 ensures key(xs[i]) != key(xs[p + 1]) {
        if i > 0 { assert xs[i] == xs[1..][i - 1]; }
      }
    }
  }

  /**
   * The kept elements are those at strictly increasing positions of the
   * input, each holding the first element of the input with its key.
   */
  lemma {:induction false} DedupFromFirst<T, K>(xs: seq<T>, key: T -> K, seen: set<K>)
    ensures var out, ps := DedupFrom(xs, key, seen), KeptPositions(xs, key, seen);
      && |ps| == |out|
      && (forall j :: 0 <= j < |ps| ==> IsFirst(xs, key, ps[j]) && xs[ps[j]] == out[j])
      && (forall j1, j2 :: 0 <= j1 < j2 < |ps| ==> ps[j1] < ps[j2])
  {
    if xs != [] {
      var x := xs[0];
      var seen' := if key(x) in seen then seen else seen + {key(x)};
      var tail, tps := DedupFrom(xs[1..], key, seen'), KeptPositions(xs[1..], key, seen');
      DedupFromFirst(xs[1..], key, seen');
      DedupFromDistinct(xs[1..], key, seen');
      var sps := Shift(tps);
      ShiftKeepsFirst(xs, key, tail, tps);
      if key(x) !in seen {
        var out, ps := [x] + tail, [0] + sps;
        assert forall j :: 0 < j < |ps| ==> ps[j] == sps[j - 1] && out[j] == tail[j - 1];
      }
    }
  }

  /** The facts about `DedupFrom`, for a walk that starts with nothing seen. */
  lemma DedupCharacterised<T, K>(xs: seq<T>, key: T -> K)
    ensures DistinctKeys(Dedup(xs, key), key)
    ensures forall k :: k in KeysOf(Dedup(xs, key), key) <==> k in KeysOf(xs, key)
    ensures var out, ps := Dedup(xs, key), KeptPositions(xs, key, {});
      && |ps| == |out|
      && (forall j :: 0 <= j < |ps| ==> IsFirst(xs, key, ps[j]) && xs[ps[j]] == out[j])
      && (forall j1, j2 :: 0 <= j1 < j2 < |ps| ==> ps[j1] < ps[j2])
  {
    DedupFromDistinct(xs, key, {});
    DedupFromKeys(xs, key, {});
    DedupFromFirst(xs, key, {});
  }
}
