/** Definitions shared by every component. */
module Prelude {

  /** The conventional optional value: a nullable column, or a lookup that may miss. */
  datatype Option<+T> = None | Some(value: T)

  function Min(a: real, b: real): real {
    if a <= b then a else b
  }

  function Max(a: real, b: real): real {
    if a <= b then b else a
  }

  ghost predicate Distinct<T>(s: seq<T>) {
    forall i, j :: 0 <= i < j < |s| ==> s[i] != s[j]
  }

  /** The elements of a sequence, as a set. */
  function Elements<T>(s: seq<T>): set<T> {
    set x | x in s
  }

  /** A sequence without repetitions is as long as its set is large. */
  lemma {:induction false} DistinctCount<T>(s: seq<T>)
    requires Distinct(s)
    ensures |Elements(s)| == |s|
  {
    if s == [] {
      assert Elements(s) == {};
    } else {
      var init, last := s[..|s| - 1], s[|s| - 1];
      DistinctCount(init);
      assert s == init + [last] && last !in init;
      assert Elements(s) == Elements(init) + {last};
    }
  }

  /** `out` is what of `s` is kept, in order. */
  ghost predicate Kept<T(!new)>(s: seq<T>, keep: T -> bool, out: seq<T>) {
    exists at: seq<nat> :: KeptAt(s, keep, out, at)
  }

  ghost predicate KeptAt<T(!new)>(s: seq<T>, keep: T -> bool, out: seq<T>, at: seq<nat>) {
    && |at| == |out|
    && (forall k :: 0 <= k < |at| ==> at[k] < |s| && out[k] == s[at[k]])
    && (forall k, m :: 0 <= k < m < |at| ==> at[k] < at[m])
    && (forall i: nat :: i < |s| ==> (keep(s[i]) <==> i in at))
  }

  /** One element more is kept at the end, or not at all. */
  lemma KeptMore<T(!new)>(s: seq<T>, keep: T -> bool, out: seq<T>, x: T)
    requires Kept(s, keep, out)
    ensures Kept(s + [x], keep, if keep(x) then out + [x] else out)
  {
    var at :| KeptAt(s, keep, out, at);
    hide KeptAt;
    if keep(x) {
      KeptToo(s, keep, out, at, x);
    } else {
      LeftOut(s, keep, out, at, x);
    }
  }

  lemma KeptToo<T(!new)>(s: seq<T>, keep: T -> bool, out: seq<T>, at: seq<nat>, x: T)
    requires KeptAt(s, keep, out, at) && keep(x)
    ensures KeptAt(s + [x], keep, out + [x], at + [|s|])
  {
    var at' := at + [|s|];
    forall i: nat | i < |s + [x]| ensures keep((s + [x])[i]) <==> i in at' {
      assert i < |s| ==> (s + [x])[i] == s[i];
    }
  }

  lemma LeftOut<T(!new)>(s: seq<T>, keep: T -> bool, out: seq<T>, at: seq<nat>, x: T)
    requires KeptAt(s, keep, out, at) && !keep(x)
    ensures KeptAt(s + [x], keep, out, at)
  {
    forall i: nat | i < |s + [x]| ensures keep((s + [x])[i]) <==> i in at {
      assert i < |s| ==> (s + [x])[i] == s[i];
    }
  }

  lemma KeptNothing<T(!new)>(keep: T -> bool)
    ensures Kept([], keep, [])
  {
    assert KeptAt([], keep, [], []);
  }
}
