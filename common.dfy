/** Small shared vocabulary: an optional value and strictly increasing index sequences,
    used to state that a filter keeps exactly the selected positions, in order. */
module Common {

  datatype Option<+T> = None | Some(value: T)

  /** The positions in `idx` are strictly increasing, so a sequence read through them keeps
      the order of the sequence it was read from. */
  ghost predicate Increasing(idx: seq<int>)
  {
    forall a, b :: 0 <= a < b < |idx| ==> idx[a] < idx[b]
  }

  /** Prepending a position smaller than every position of an increasing sequence keeps it increasing. */
  lemma IncreasingCons(j: int, idx: seq<int>)
    requires Increasing(idx)
    requires forall k :: 0 <= k < |idx| ==> j < idx[k]
    ensures Increasing([j] + idx)
  {
  }

  function Min(a: int, b: int): (m: int)
    ensures m <= a && m <= b
    ensures m == a || m == b
  {
    if a <= b then a else b
  }

  /** The JavaScript chain `s.filter(keep).map(f)`: the images of the kept elements, in order. */
  function FilterMap<A, B>(s: seq<A>, keep: A -> bool, f: A -> B): (r: seq<B>)
    ensures |r| <= |s|
  {
    if s == [] then [] else (if keep(s[0]) then [f(s[0])] else []) + FilterMap(s[1..], keep, f)
  }

  /** The positions of `s`, from `i` on, whose element `keep` accepts, in increasing order. */
  ghost function KeptFrom<A>(s: seq<A>, keep: A -> bool, i: nat): (idx: seq<int>)
    requires i <= |s|
    ensures forall k :: 0 <= k < |idx| ==> i <= idx[k] < |s|
    decreases |s| - i
  {
    if i == |s| then []
    else (if keep(s[i]) then [i] else []) + KeptFrom(s, keep, i + 1)
  }

  /** The kept positions are increasing, hold accepted elements, and include every accepted
      position. */
  lemma KeptFromSpec<A>(s: seq<A>, keep: A -> bool, i: nat)
    requires i <= |s|
    ensures Increasing(KeptFrom(s, keep, i))
    ensures forall k :: 0 <= k < |KeptFrom(s, keep, i)| ==> keep(s[KeptFrom(s, keep, i)[k]])
    ensures forall j :: i <= j < |s| && keep(s[j]) ==> j in KeptFrom(s, keep, i)
  {
    KeptIncreasing(s, keep, i);
    KeptAccepted(s, keep, i);
    KeptComplete(s, keep, i);
  }

  lemma {:induction false} KeptIncreasing<A>(s: seq<A>, keep: A -> bool, i: nat)
    requires i <= |s|
    ensures Increasing(KeptFrom(s, keep, i))
    decreases |s| - i
  {
    if i < |s| {
      KeptIncreasing(s, keep, i + 1);
      if keep(s[i]) {
        IncreasingCons(i, KeptFrom(s, keep, i + 1));
      }
    }
  }

  lemma {:induction false} KeptAccepted<A>(s: seq<A>, keep: A -> bool, i: nat)
    requires i <= |s|
    ensures forall k :: 0 <= k < |KeptFrom(s, keep, i)| ==> keep(s[KeptFrom(s, keep, i)[k]])
    decreases |s| - i
  {
    if i < |s| {
      KeptAccepted(s, keep, i + 1);
      var idx := KeptFrom(s, keep, i);
      var rest := KeptFrom(s, keep, i + 1);
      forall k | 0 <= k < |idx| ensures keep(s[idx[k]]) {
        if keep(s[i]) {
          if k > 0 { assert idx[k] == rest[k - 1]; }
        } else {
          assert idx[k] == rest[k];
        }
      }
    }
  }

  lemma {:induction false} KeptComplete<A>(s: seq<A>, keep: A -> bool, i: nat)
    requires i <= |s|
    ensures forall j :: i <= j < |s| && keep(s[j]) ==> j in KeptFrom(s, keep, i)
    decreases |s| - i
  {
    if i < |s| {
      KeptComplete(s, keep, i + 1);
      var idx := KeptFrom(s, keep, i);
      var rest := KeptFrom(s, keep, i + 1);
      forall j | i <= j < |s| && keep(s[j]) ensures j in idx {
        if j == i {
          assert idx[0] == i;
        } else {
          assert j in rest;
        }
      }
    }
  }

  /** `FilterMap` reads exactly the kept positions: its k-th result is `f` of the k-th kept element. */
  lemma {:induction false} FilterMapAt<A, B>(s: seq<A>, keep: A -> bool, f: A -> B, i: nat)
    requires i <= |s|
    ensures |FilterMap(s[i..], keep, f)| == |KeptFrom(s, keep, i)|
    ensures forall k :: 0 <= k < |KeptFrom(s, keep, i)| ==>
              FilterMap(s[i..], keep, f)[k] == f(s[KeptFrom(s, keep, i)[k]])
    decreases |s| - i
  {
    if i < |s| {
      FilterMapAt(s, keep, f, i + 1);
      assert s[i..][1..] == s[i + 1..];
      assert s[i..][0] == s[i];
    }
  }

  /** Membership in `FilterMap`: a value is produced exactly when a kept element maps to it. */
  lemma {:induction false} FilterMapMembers<A, B>(s: seq<A>, keep: A -> bool, f: A -> B, y: B)
    ensures y in FilterMap(s, keep, f) <==> exists x :: x in s && keep(x) && f(x) == y
  {
    if s != [] {
      FilterMapMembers(s[1..], keep, f, y);
      assert forall x :: x in s <==> x == s[0] || x in s[1..];
    }
  }

  /** `FilterMapAt` for the whole sequence, with the facts of `KeptFromSpec`. */
  lemma FilterMapSelects<A, B>(s: seq<A>, keep: A -> bool, f: A -> B)
    ensures Increasing(KeptFrom(s, keep, 0))
    ensures forall k :: 0 <= k < |KeptFrom(s, keep, 0)| ==>
              0 <= KeptFrom(s, keep, 0)[k] < |s| && keep(s[KeptFrom(s, keep, 0)[k]])
    ensures forall j :: 0 <= j < |s| && keep(s[j]) ==> j in KeptFrom(s, keep, 0)
    ensures |FilterMap(s, keep, f)| == |KeptFrom(s, keep, 0)|
    ensures forall k :: 0 <= k < |KeptFrom(s, keep, 0)| ==>
              FilterMap(s, keep, f)[k] == f(s[KeptFrom(s, keep, 0)[k]])
  {
    FilterMapAt(s, keep, f, 0);
    KeptFromSpec(s, keep, 0);
    assert s[0..] == s;
  }
}
