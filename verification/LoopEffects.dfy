/** What the API calls of callbacks come to: handlers invoked since a given moment stop the service if they say so,
    what they post, delay and register is taken, and what they cancel is served (src/iosvc_post.c,
    src/iosvc_sched.c, src/iosvc_cancel.c). */
module LoopEffects {
  import opened IoTypes
  import opened DeadlineHeap
  import opened IoModel
  import opened Weights
  import opened LoopState

  // ---------- counting calls ----------

  /** All calls made by the handlers invoked since `from`. */
  function Made(log: seq<Call>, from: nat): multiset<Action> {
    if |log| <= from then multiset{} else Made(log[..|log| - 1], from) + multiset(ScriptOf(log[|log| - 1]))
  }

  lemma {:induction false} MadeCat(l1: seq<Call>, l2: seq<Call>, from: nat)
    requires from <= |l1| && l1 <= l2
    ensures Made(l2, from) == Made(l1, from) + Made(l2, |l1|)
    decreases |l2|
  {
    if l1 == l2 {
    } else {
      MadeCat(l1, l2[..|l2| - 1], from);
    }
  }

  lemma MadeFirst(l: seq<Call>, c: Call, log: seq<Call>)
    requires l + [c] <= log
    ensures Made(log, |l|) == multiset(ScriptOf(c)) + Made(log, |l| + 1)
  {
    var l1 := l + [c];
    MadeCat(l1, log, |l|);
    assert Made(l1[..|l1| - 1], |l|) == multiset{};
  }

  /** How many of the delayed handlers accepted were `d`. */
  ghost function Tally(bag: multiset<Entry<Delayed>>, d: Delayed): nat { Sum(bag, Counts(d)) }

  function Counts(d: Delayed): Entry<Delayed> -> nat { (e: Entry<Delayed>) => if e.item == d then 1 else 0 }

  lemma TallyAdd(bag: multiset<Entry<Delayed>>, e: Entry<Delayed>, d: Delayed)
    ensures Tally(bag + multiset{e}, d) == Tally(bag, d) + if e.item == d then 1 else 0
  {
    hide Sum;
    SumAdd(bag, e, Counts(d));
  }

  /** A call that registers `h` for `k`, unless something is registered for it already. */
  predicate Registers(a: Action, k: Key, h: Handler) {
    (a.Sched? || a.SchedTimeout?) && a.fd == k.fd && a.wt == Some(k.wt) && a.hnd == Some(h)
  }

  /** How many calls register `h` for `k`. */
  ghost function Registering(acts: multiset<Action>, k: Key, h: Handler): nat { Sum(acts, Registrar(k, h)) }

  function Registrar(k: Key, h: Handler): Action -> nat { (a: Action) => if Registers(a, k, h) then 1 else 0 }

  lemma {:induction false} RegisteringCat(acts: multiset<Action>, acts': multiset<Action>, k: Key, h: Handler)
    ensures Registering(acts + acts', k, h) == Registering(acts, k, h) + Registering(acts', k, h)
    decreases |acts'|
  {
    hide Sum;
    if acts' == multiset{} {
      assert acts + acts' == acts;
      NoneRegistering(k, h);
    } else {
      var a :| a in acts';
      var rest := acts' - multiset{a};
      RegisteringCat(acts, rest, k, h);
      SumAdd(rest, a, Registrar(k, h));
      SumAdd(acts + rest, a, Registrar(k, h));
      assert rest + multiset{a} == acts' && (acts + rest) + multiset{a} == acts + acts';
    }
  }

  lemma NoneRegistering(k: Key, h: Handler)
    ensures Registering(multiset{}, k, h) == 0
  {
  }

  lemma OneRegistering(a: Action, k: Key, h: Handler)
    ensures Registering(multiset{a}, k, h) == if Registers(a, k, h) then 1 else 0
  {
    hide Sum;
    NoneRegistering(k, h);
    SumAdd(multiset{}, a, Registrar(k, h));
    assert multiset{} + multiset{a} == multiset{a};
  }

  // ---------- what is taken ----------

  /** Nothing has been taken but what these calls ask for. */
  ghost predicate AtMost(a: Snap, b: Snap, acts: multiset<Action>) {
    && (forall h :: multiset(b.posts)[h] <= multiset(a.posts)[h] + acts[Post(Some(h))])
    && (forall d :: Tally(b.taken, d) <= Tally(a.taken, d) + acts[PostDelay(Some(d.hnd), d.ms)])
    && (forall k, h :: b.regd[(k, h)] <= a.regd[(k, h)] + Registering(acts, k, h))
  }

  /** Every handler posted, and every one to be called later on, has been taken as often as these calls ask for. */
  ghost predicate AllTaken(a: Snap, b: Snap, acts: multiset<Action>) {
    && (forall h :: multiset(b.posts)[h] == multiset(a.posts)[h] + acts[Post(Some(h))])
    && (forall d: Delayed :: d.ms >= 0 ==> Tally(b.taken, d) == Tally(a.taken, d) + acts[PostDelay(Some(d.hnd), d.ms)])
  }

  lemma AtMostCat(a: Snap, b: Snap, c: Snap, s: multiset<Action>, t: multiset<Action>)
    requires AtMost(a, b, s) && AtMost(b, c, t)
    ensures AtMost(a, c, s + t)
  {
    hide Tally, Registering;
    forall k, h
      ensures c.regd[(k, h)] <= a.regd[(k, h)] + Registering(s + t, k, h)
    {
      RegisteringCat(s, t, k, h);
      assert b.regd[(k, h)] <= a.regd[(k, h)] + Registering(s, k, h);
    }
    forall h
      ensures multiset(c.posts)[h] <= multiset(a.posts)[h] + (s + t)[Post(Some(h))]
    {
      assert multiset(b.posts)[h] <= multiset(a.posts)[h] + s[Post(Some(h))];
    }
    forall d
      ensures Tally(c.taken, d) <= Tally(a.taken, d) + (s + t)[PostDelay(Some(d.hnd), d.ms)]
    {
      assert Tally(b.taken, d) <= Tally(a.taken, d) + s[PostDelay(Some(d.hnd), d.ms)];
    }
  }

  lemma AllTakenCat(a: Snap, b: Snap, c: Snap, s: multiset<Action>, t: multiset<Action>)
    requires AllTaken(a, b, s) && AllTaken(b, c, t)
    ensures AllTaken(a, c, s + t)
  {
    hide Tally;
    forall h
      ensures multiset(c.posts)[h] == multiset(a.posts)[h] + (s + t)[Post(Some(h))]
    {
      assert multiset(b.posts)[h] == multiset(a.posts)[h] + s[Post(Some(h))];
    }
    forall d: Delayed | d.ms >= 0
      ensures Tally(c.taken, d) == Tally(a.taken, d) + (s + t)[PostDelay(Some(d.hnd), d.ms)]
    {
      assert Tally(b.taken, d) == Tally(a.taken, d) + s[PostDelay(Some(d.hnd), d.ms)];
    }
  }

  /** A call that asks for something to be registered for `k`. */
  predicate Asks(a: Action, k: Key) {
    (a.Sched? || a.SchedTimeout?) && a.fd == k.fd && a.wt == Some(k.wt) && a.hnd.Some?
  }

  predicate EventRan(log: seq<Call>, from: nat, k: Key) {
    exists j :: from <= j < |log| && log[j].RunEvent? && log[j].key == k
  }

  /** Whatever these calls, made when the log had length `from`, ask to be registered for is so still, or a handler
      for it has been called since. */
  ghost predicate Heeded(log: seq<Call>, from: nat, regs: map<Key, Handler>, script: seq<Action>) {
    forall a, k :: a in script && Asks(a, k) ==> k in regs || EventRan(log, from, k)
  }

  ghost predicate AllHeeded(a: Snap, b: Snap, script: seq<Action>) {
    Heeded(b.log, |a.log|, b.io.regs, script)
    && forall i :: |a.log| <= i < |b.log| ==> Heeded(b.log, i + 1, b.io.regs, ScriptOf(b.log[i]))
  }

  /** Whatever was registered at the beginning and cancelled since has been called. */
  predicate CancelsServed(a: Snap, b: Snap, script: seq<Action>) {
    forall k :: k in a.io.regs && (Cancel(k.fd, k.wt) in script || Asked(b.log, |a.log|, |b.log|, k)) ==>
      Served(b.log, |a.log|, k, a.io.regs[k])
  }

  /** The calls of `script` and of all handlers invoked meanwhile have had their effect. */
  ghost predicate Complete(a: Snap, b: Snap, script: seq<Action>) {
    AllTaken(a, b, multiset(script) + Made(b.log, |a.log|)) && AllHeeded(a, b, script) && CancelsServed(a, b, script)
  }

  /** Only these calls have had an effect; as long as the service is running, all of them had. */
  ghost predicate Carried(a: Snap, b: Snap, script: seq<Action>) {
    AtMost(a, b, multiset(script) + Made(b.log, |a.log|)) && (b.status.Running? ==> Complete(a, b, script))
  }

  lemma HeededLater(l1: seq<Call>, l2: seq<Call>, from: nat, r1: map<Key, Handler>, r2: map<Key, Handler>,
      script: seq<Action>)
    requires from <= |l1| && l1 <= l2 && Heeded(l1, from, r1, script) && Accounted(r1, |l1|, r2, l2)
    ensures Heeded(l2, from, r2, script)
  {
    forall a, k | a in script && Asks(a, k)
      ensures k in r2 || EventRan(l2, from, k)
    {
      if k !in r1 {
        var j :| from <= j < |l1| && l1[j].RunEvent? && l1[j].key == k;
        assert l2[j] == l1[j];
      }
    }
  }

  lemma AllHeededCat(a: Snap, b: Snap, c: Snap, s: seq<Action>, t: seq<Action>)
    requires AllHeeded(a, b, s) && AllHeeded(b, c, t) && a.log <= b.log <= c.log
    requires Accounted(b.io.regs, |b.log|, c.io.regs, c.log)
    ensures AllHeeded(a, c, s + t)
  {
    hide Heeded, Accounted;
    HeededLater(b.log, c.log, |a.log|, b.io.regs, c.io.regs, s);
    HeededEarlier(c.log, |a.log|, |b.log|, c.io.regs, s, t);
    forall i | |a.log| <= i < |c.log|
      ensures Heeded(c.log, i + 1, c.io.regs, ScriptOf(c.log[i]))
    {
      if i < |b.log| {
        assert c.log[i] == b.log[i];
        HeededLater(b.log, c.log, i + 1, b.io.regs, c.io.regs, ScriptOf(b.log[i]));
      }
    }
  }

  lemma HeededEarlier(log: seq<Call>, from: nat, from': nat, regs: map<Key, Handler>, s: seq<Action>, t: seq<Action>)
    requires from <= from' && Heeded(log, from, regs, s) && Heeded(log, from', regs, t)
    ensures Heeded(log, from, regs, s + t)
  {
  }

  lemma CancelsServedCat(a: Snap, b: Snap, c: Snap, s: seq<Action>, t: seq<Action>)
    requires CancelsServed(a, b, s) && CancelsServed(b, c, t) && a.log <= b.log <= c.log
    requires Accounted(a.io.regs, |a.log|, b.io.regs, b.log)
    ensures CancelsServed(a, c, s + t)
  {
    forall k | k in a.io.regs && (Cancel(k.fd, k.wt) in s + t || Asked(c.log, |a.log|, |c.log|, k))
      ensures Served(c.log, |a.log|, k, a.io.regs[k])
    {
      if Served(b.log, |a.log|, k, a.io.regs[k]) {
        ServedLater(b.log, c.log, |a.log|, |a.log|, k, a.io.regs[k]);
      } else {
        AskedBetween(b.log, c.log, |a.log|, k);
        ServedLater(c.log, c.log, |b.log|, |a.log|, k, a.io.regs[k]);
      }
    }
  }

  lemma ServedLater(l1: seq<Call>, l2: seq<Call>, from: nat, from': nat, k: Key, h: Handler)
    requires l1 <= l2 && from' <= from && Served(l1, from, k, h)
    ensures Served(l2, from', k, h)
  {
    var i :| from <= i < |l1| && l1[i].RunEvent? && l1[i].key == k && l1[i].hnd == h;
    assert l2[i] == l1[i];
  }

  lemma AskedBetween(l1: seq<Call>, l2: seq<Call>, from: nat, k: Key)
    requires from <= |l1| && l1 <= l2
    ensures Asked(l2, from, |l2|, k) <==> Asked(l1, from, |l1|, k) || Asked(l2, |l1|, |l2|, k)
  {
    forall j | from <= j < |l1|
      ensures l2[j] == l1[j]
    {
    }
  }

  lemma CarriedCat(a: Snap, b: Snap, c: Snap, s: seq<Action>, t: seq<Action>)
    requires Carried(a, b, s) && Carried(b, c, t) && a.log <= b.log <= c.log && StatusSteps(b.status, c.status)
    requires Accounted(a.io.regs, |a.log|, b.io.regs, b.log) && Accounted(b.io.regs, |b.log|, c.io.regs, c.log)
    ensures Carried(a, c, s + t)
  {
    hide AtMost, AllTaken, AllHeeded, CancelsServed, Accounted, Made;
    var m, n := multiset(s) + Made(b.log, |a.log|), multiset(t) + Made(c.log, |b.log|);
    MadeCat(b.log, c.log, |a.log|);
    assert m + n == multiset(s + t) + Made(c.log, |a.log|);
    AtMostCat(a, b, c, m, n);
    if c.status.Running? {
      AllTakenCat(a, b, c, m, n);
      AllHeededCat(a, b, c, s, t);
      CancelsServedCat(a, b, c, s, t);
    }
  }

  // ---------- stopping ----------

  /** A handler invoked since `from` stops the service. */
  predicate StopIn(log: seq<Call>, from: nat) { exists i :: from <= i < |log| && Stop in ScriptOf(log[i]) }

  /** A running service is stopped exactly by these calls and by the handlers invoked meanwhile. */
  predicate StopsBy(a: Snap, b: Snap, script: seq<Action>) {
    a.status.Running? ==> (b.status.Stopping? <==> Stop in script || StopIn(b.log, |a.log|))
  }

  lemma StopsCat(a: Snap, b: Snap, c: Snap, s: seq<Action>, t: seq<Action>)
    requires StopsBy(a, b, s) && StopsBy(b, c, t) && a.log <= b.log <= c.log
    requires StatusSteps(a.status, b.status) && StatusSteps(b.status, c.status)
    ensures StopsBy(a, c, s + t)
  {
    if StopIn(b.log, |a.log|) {
      var i :| |a.log| <= i < |b.log| && Stop in ScriptOf(b.log[i]);
      assert c.log[i] == b.log[i];
    }
    if i :| |a.log| <= i < |c.log| && Stop in ScriptOf(c.log[i]) {
      assert i < |b.log| ==> c.log[i] == b.log[i];
    }
  }

  // ---------- all effects together ----------

  ghost predicate Effects(a: Snap, b: Snap, script: seq<Action>) { StopsBy(a, b, script) && Carried(a, b, script) }

  lemma EffectsRefl(a: Snap)
    ensures Effects(a, a, [])
  {
    hide Registering;
  }

  lemma EffectsCat(a: Snap, b: Snap, c: Snap, s: seq<Action>, t: seq<Action>)
    requires Effects(a, b, s) && Effects(b, c, t) && a.log <= b.log <= c.log
    requires StatusSteps(a.status, b.status) && StatusSteps(b.status, c.status)
    requires Accounted(a.io.regs, |a.log|, b.io.regs, b.log) && Accounted(b.io.regs, |b.log|, c.io.regs, c.log)
    ensures Effects(a, c, s + t)
  {
    hide Carried, Accounted, StopsBy;
    StopsCat(a, b, c, s, t);
    CarriedCat(a, b, c, s, t);
  }

  /** States that agree in all that callbacks bring about. */
  predicate Alike(a: Snap, b: Snap) {
    && b.status == a.status && b.log == a.log && b.io.regs == a.io.regs
    && b.posts == a.posts && b.taken == a.taken && b.regd == a.regd
  }

  lemma EffectsAlike(a: Snap, b: Snap, a': Snap, b': Snap, script: seq<Action>)
    requires Effects(a, b, script) && Alike(a, a') && Alike(b, b')
    ensures Effects(a', b', script)
  {
    hide Tally, Registering, Made, Heeded, StopIn, Asked, Served;
  }

  /** The call `c`, and all that its handler does: nothing that was stored before it is touched, except the
      registration of the event itself. */
  lemma CalledEffects(a: Snap, a1: Snap, b: Snap, c: Call)
    requires a1.status == a.status && a1.log == a.log + [c] && a1.log <= b.log && Effects(a1, b, ScriptOf(c))
    requires a1.posts == a.posts && a1.taken == a.taken && a1.regd == a.regd
    requires forall k :: k in a.io.regs ==>
      (k in a1.io.regs && a1.io.regs[k] == a.io.regs[k]) || (c.RunEvent? && c.key == k && c.hnd == a.io.regs[k])
    ensures Effects(a, b, [])
  {
    hide Tally, Registering, Made, Heeded, CancelsServed, StopIn, AllHeeded;
    assert b.log[|a.log|] == c;
    CalledStops(a, a1, b, c);
    MadeFirst(a.log, c, b.log);
    var none: seq<Action> := [];
    assert multiset(none) + Made(b.log, |a.log|) == multiset(ScriptOf(c)) + Made(b.log, |a1.log|);
    if b.status.Running? {
      CalledHeeded(a, a1, b, c);
      CalledServed(a, a1, b, c);
    }
  }

  lemma CalledStops(a: Snap, a1: Snap, b: Snap, c: Call)
    requires a1.status == a.status && a1.log == a.log + [c] && a1.log <= b.log && StopsBy(a1, b, ScriptOf(c))
    ensures StopsBy(a, b, [])
  {
    assert b.log[|a.log|] == c;
  }

  lemma CalledHeeded(a: Snap, a1: Snap, b: Snap, c: Call)
    requires a1.log == a.log + [c] && a1.log <= b.log && AllHeeded(a1, b, ScriptOf(c))
    ensures AllHeeded(a, b, [])
  {
    assert b.log[|a.log|] == c;
  }

  lemma CalledServed(a: Snap, a1: Snap, b: Snap, c: Call)
    requires a1.log == a.log + [c] && a1.log <= b.log && CancelsServed(a1, b, ScriptOf(c))
    requires forall k :: k in a.io.regs ==>
      (k in a1.io.regs && a1.io.regs[k] == a.io.regs[k]) || (c.RunEvent? && c.key == k && c.hnd == a.io.regs[k])
    ensures CancelsServed(a, b, [])
  {
    assert b.log[|a.log|] == c;
    forall k | k in a.io.regs && Asked(b.log, |a.log|, |b.log|, k)
      ensures Served(b.log, |a.log|, k, a.io.regs[k])
    {
      if k in a1.io.regs && a1.io.regs[k] == a.io.regs[k] {
        CalledAsked(a1.log, b.log, k);
        ServedLater(b.log, b.log, |a1.log|, |a.log|, k, a.io.regs[k]);
      }
    }
  }

  lemma CalledAsked(l1: seq<Call>, l2: seq<Call>, k: Key)
    requires 0 < |l1| && l1 <= l2 && Asked(l2, |l1| - 1, |l2|, k)
    ensures Cancel(k.fd, k.wt) in ScriptOf(l1[|l1| - 1]) || Asked(l2, |l1|, |l2|, k)
  {
    assert l2[|l1| - 1] == l1[|l1| - 1];
  }

  /** What a service does once it is no longer running takes nothing more. */
  lemma CarriedOn(a: Snap, b: Snap, c: Snap, script: seq<Action>)
    requires Carried(a, b, script) && a.log <= b.log <= c.log && !c.status.Running?
    requires c.posts == b.posts && c.taken == b.taken && c.regd == b.regd
    ensures Carried(a, c, script)
  {
    hide Tally, Made, Registering;
    MadeCat(b.log, c.log, |a.log|);
    var acts, more := multiset(script) + Made(b.log, |a.log|), Made(c.log, |b.log|);
    assert acts + more == multiset(script) + Made(c.log, |a.log|);
    forall k, h
      ensures Registering(acts, k, h) <= Registering(acts + more, k, h)
    {
      RegisteringCat(acts, more, k, h);
    }
  }
}
