/**
 * The JavaScript library searches the panel relies on: `Array.prototype.find`,
 * `Array.prototype.filter` on definedness, and `String.prototype.includes`.
 */
module Search {
  import opened Wrappers

  /** `k` is the position of the first element of `s` that satisfies `p`. */
  ghost predicate IsFirst<T>(s: seq<T>, p: T -> bool, k: nat)
  {
    k < |s| && p(s[k]) && forall j :: 0 <= j < k ==> !p(s[j])
  }

  /** `Array.prototype.findIndex`, with "not found" as None rather than -1. */
  function FindIndex<T>(s: seq<T>, p: T -> bool): (r: Option<nat>)
    ensures r.Some? ==> IsFirst(s, p, r.value)
    ensures r.None? <==> forall j :: 0 <= j < |s| ==> !p(s[j])
    decreases |s|
  {
    if s == [] then None
    else if p(s[0]) then Some(0)
    else match FindIndex(s[1..], p)
      case None => None
      case Some(k) => Some(k + 1)
  }

  /** `Array.prototype.find`: the first element satisfying `p`, or undefined. */
  function Find<T>(s: seq<T>, p: T -> bool): (r: Option<T>)
    ensures r.None? <==> forall j :: 0 <= j < |s| ==> !p(s[j])
    ensures r.Some? ==> exists k: nat :: IsFirst(s, p, k) && s[k] == r.value
    ensures forall k: nat :: IsFirst(s, p, k) ==> r == Some(s[k])
  {
    match FindIndex(s, p)
    case None => None
    case Some(k) => Some(s[k])
  }

  /** `xs.filter(x => typeof x !== 'undefined')`: the defined entries, in order. */
  function Defined<T>(xs: seq<Option<T>>): (r: seq<T>)
    ensures |r| <= |xs|
    ensures forall i :: 0 <= i < |r| ==> Some(r[i]) in xs
    decreases |xs|
  {
    if xs == [] then []
    else (if xs[0].Some? then [xs[0].value] else []) + Defined(xs[1..])
  }

  lemma {:induction false} DefinedAppend<T>(xs: seq<Option<T>>, ys: seq<Option<T>>)
    ensures Defined(xs + ys) == Defined(xs) + Defined(ys)
    decreases |xs|
  {
    if xs == [] {
      assert xs + ys == ys;
    } else {
      assert (xs + ys)[1..] == xs[1..] + ys;
      DefinedAppend(xs[1..], ys);
    }
  }

  /** When every entry is defined, filtering keeps them all, position by position. */
  lemma {:induction false} DefinedAllSome<T>(xs: seq<Option<T>>)
    requires forall i :: 0 <= i < |xs| ==> xs[i].Some?
    ensures |Defined(xs)| == |xs|
    ensures forall i :: 0 <= i < |xs| ==> Defined(xs)[i] == xs[i].value
    decreases |xs|
  {
    if xs != [] {
      DefinedAllSome(xs[1..]);
    }
  }

  /** `sub` occurs in `s` starting at position `i`. */
  ghost predicate OccursAt(s: string, sub: string, i: nat)
  {
    i + |sub| <= |s| && s[i..i + |sub|] == sub
  }

  /** `String.prototype.includes`. */
  function Includes(s: string, sub: string): bool
    decreases |s|
  {
    if sub <= s then true
    else if s == [] then false
    else Includes(s[1..], sub)
  }

  /** `includes` holds exactly when the text occurs at some position. */
  lemma {:induction false} IncludesIff(s: string, sub: string)
    ensures Includes(s, sub) <==> exists i: nat :: OccursAt(s, sub, i)
    decreases |s|
  {
    if sub <= s {
      assert OccursAt(s, sub, 0);
    } else if s != [] {
      IncludesIff(s[1..], sub);
      if exists i: nat :: OccursAt(s[1..], sub, i) {
        var i: nat :| OccursAt(s[1..], sub, i);
        assert s[1..][i..i + |sub|] == s[i + 1..i + 1 + |sub|];
        assert OccursAt(s, sub, i + 1);
      }
      if exists i: nat :: OccursAt(s, sub, i) {
        var i: nat :| OccursAt(s, sub, i);
        if i > 0 {
          assert s[1..][i - 1..i - 1 + |sub|] == s[i..i + |sub|];
          assert OccursAt(s[1..], sub, i - 1);
        }
      }
    }
  }
}
