/** Optional and fallible results, standing in for Java's nullable references and thrown exceptions. */
module Wrappers {

  datatype Option<T> = None | Some(value: T)
  {
    function GetOr(default: T): T
    {
      if Some? then value else default
    }
  }

  /** The Java exceptions the modelled code can raise. */
  datatype Failure =
    | NullPointer
    | IllegalArgument(message: string)

  datatype Result<T> = Ok(value: T) | Err(error: Failure)
}

/** Searches over sequences, the shape of Java's enhanced-for loops with an early return. */
module Search {
  import opened Wrappers

  /** The index of the first element satisfying `p`, if any. */
  function FirstIndex<T>(xs: seq<T>, p: T -> bool): (r: Option<nat>)
    ensures r.Some? ==> r.value < |xs| && p(xs[r.value])
    ensures r.Some? ==> forall j :: 0 <= j < r.value ==> !p(xs[j])
    ensures r.None? ==> forall j :: 0 <= j < |xs| ==> !p(xs[j])
  {
    if xs == [] then None
    else if p(xs[0]) then Some(0)
    else match FirstIndex(xs[1..], p)
      case None => None
      case Some(i) => Some(i + 1)
  }

  /** The first element satisfying `p`, or `fallback` when there is none. */
  function FirstOr<T>(xs: seq<T>, p: T -> bool, fallback: T): (r: T)
    ensures (exists j :: 0 <= j < |xs| && p(xs[j])) ==> r in xs && p(r)
    ensures (forall j :: 0 <= j < |xs| ==> !p(xs[j])) ==> r == fallback
  {
    match FirstIndex(xs, p)
    case Some(i) => xs[i]
    case None => fallback
  }

  /** `FirstOr` picks an element that no earlier element beats. */
  lemma FirstOrIsFirst<T>(xs: seq<T>, p: T -> bool, fallback: T, k: nat)
    requires k < |xs| && p(xs[k])
    requires forall j :: 0 <= j < k ==> !p(xs[j])
    ensures FirstOr(xs, p, fallback) == xs[k]
  {
  }

  /** The elements of `s` that satisfy `p`. */
  function Filter<T(!new)>(s: set<T>, p: T -> bool): (r: set<T>)
    ensures forall x :: x in r <==> x in s && p(x)
  {
    set x | x in s && p(x)
  }

  /** Adding one element to the set adds it to the filtered set exactly when it satisfies `p`. */
  lemma FilterAdd<T(!new)>(s: set<T>, x: T, p: T -> bool)
    ensures p(x) ==> Filter(s + {x}, p) == Filter(s, p) + {x}
    ensures !p(x) ==> Filter(s + {x}, p) == Filter(s, p)
  {
  }

  /** A stream's `filter(p)` collected to a list: the elements satisfying `p`, in their original order. */
  function Keep<T>(xs: seq<T>, p: T -> bool): (r: seq<T>)
    ensures |r| <= |xs|
    ensures forall i :: 0 <= i < |r| ==> p(r[i])
  {
    if xs == [] then []
    else if p(xs[0]) then [xs[0]] + Keep(xs[1..], p)
    else Keep(xs[1..], p)
  }

  /** An element is kept exactly when it is in the list and satisfies `p`. */
  lemma {:induction false} KeepMembers<T>(xs: seq<T>, p: T -> bool, x: T)
    ensures x in Keep(xs, p) <==> x in xs && p(x)
  {
    if xs != [] {
      KeepMembers(xs[1..], p, x);
      assert xs == [xs[0]] + xs[1..];
    }
  }

  /** Filtering a concatenation filters each part and keeps the parts in order. */
  lemma {:induction false} KeepAppend<T>(xs: seq<T>, ys: seq<T>, p: T -> bool)
    ensures Keep(xs + ys, p) == Keep(xs, p) + Keep(ys, p)
  {
    if xs == [] {
      assert xs + ys == ys;
    } else {
      assert (xs + ys)[0] == xs[0] && (xs + ys)[1..] == xs[1..] + ys;
      KeepAppend(xs[1..], ys, p);
    }
  }

  /** A kept element occurs as often as in the list; a dropped one not at all. */
  lemma {:induction false} KeepCounts<T>(xs: seq<T>, p: T -> bool, x: T)
    ensures multiset(Keep(xs, p))[x] == if p(x) then multiset(xs)[x] else 0
  {
    if xs != [] {
      KeepCounts(xs[1..], p, x);
      assert xs == [xs[0]] + xs[1..];
    }
  }

  /** Java's `List.remove(Object)`: drop the first occurrence of `x`, keep the rest in order. */
  function RemoveFirst<T(==)>(xs: seq<T>, x: T): (r: seq<T>)
    ensures x !in xs ==> r == xs
    ensures x in xs ==> |r| == |xs| - 1
    ensures multiset(r) == multiset(xs) - multiset{x}
  {
    if xs == [] then []
    else
      assert xs == [xs[0]] + xs[1..];
      if xs[0] == x then xs[1..]
      else [xs[0]] + RemoveFirst(xs[1..], x)
  }

  /** Removal cuts out exactly the first occurrence and keeps every other element in its original order. */
  lemma {:induction false} RemoveFirstCutsFirstOccurrence<T>(xs: seq<T>, x: T, k: nat)
    requires k < |xs| && xs[k] == x && x !in xs[..k]
    ensures RemoveFirst(xs, x) == xs[..k] + xs[k + 1..]
  {
    if k == 0 {
      assert xs[..k] + xs[k + 1..] == xs[1..];
    } else {
      CutShifts(xs, x, k);
      RemoveFirstCutsFirstOccurrence(xs[1..], x, k - 1);
      RemoveFirstSkipsHead(xs, x);
    }
  }

  /** Removal keeps a head that is not `x` and continues in the tail. */
  lemma RemoveFirstSkipsHead<T>(xs: seq<T>, x: T)
    requires xs != [] && xs[0] != x
    ensures RemoveFirst(xs, x) == [xs[0]] + RemoveFirst(xs[1..], x)
  {
  }

  /** Cutting position `k` out of a list is keeping its head and cutting position `k - 1` out of its tail. */
  lemma CutShifts<T>(xs: seq<T>, x: T, k: nat)
    requires 0 < k < |xs| && x !in xs[..k]
    ensures xs[0] != x && x !in xs[1..][..k - 1]
    ensures xs[..k] + xs[k + 1..] == [xs[0]] + (xs[1..][..k - 1] + xs[1..][k..])
  {
    assert xs[0] == xs[..k][0];
    assert xs[1..][..k - 1] == xs[1..k] && xs[1..][k..] == xs[k + 1..];
    assert xs[..k] == [xs[0]] + xs[1..k];
  }
}
