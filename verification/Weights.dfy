/** How much work a handler can still cause: the measure by which re-entrant callbacks terminate. */
module Weights {
  import opened IoTypes

  function Weight(h: Handler): nat
    decreases h
  {
    1 + ScriptWeight(h.script)
  }

  function ScriptWeight(s: seq<Action>): nat
    decreases s
  {
    if s == [] then 0 else ActionWeight(s[0]) + ScriptWeight(s[1..])
  }

  function ActionWeight(a: Action): nat
    decreases a
  {
    match a
    case Post(Some(h)) => Weight(h)
    case PostDelay(Some(h), _) => Weight(h)
    case Sched(_, _, Some(h)) => Weight(h)
    case SchedTimeout(_, _, Some(h), _) => Weight(h)
    case _ => 0
  }

  // ---------- sums over bags ----------

  ghost function Pick<T>(b: multiset<T>): (x: T)
    requires b != multiset{}
    ensures x in b
  {
    var x :| x in b;
    x
  }

  ghost function Sum<T>(b: multiset<T>, w: T -> nat): nat
    decreases |b|
  {
    if b == multiset{} then 0 else w(Pick(b)) + Sum(b - multiset{Pick(b)}, w)
  }

  /** The sum does not depend on the order in which the elements are picked. */
  lemma {:induction false} SumAdd<T>(b: multiset<T>, x: T, w: T -> nat)
    ensures Sum(b + multiset{x}, w) == Sum(b, w) + w(x)
    decreases |b|
  {
    var c := b + multiset{x};
    var y := Pick(c);
    if y == x {
      assert c - multiset{x} == b;
    } else {
      var d := b - multiset{y};
      assert c - multiset{y} == d + multiset{x};
      SumAdd(d, x, w);
      assert d + multiset{y} == b;
      SumAdd(d, y, w);
    }
  }

  lemma SumRemove<T>(b: multiset<T>, x: T, w: T -> nat)
    requires x in b
    ensures Sum(b, w) == Sum(b - multiset{x}, w) + w(x)
  {
    assert (b - multiset{x}) + multiset{x} == b;
    SumAdd(b - multiset{x}, x, w);
  }
}
