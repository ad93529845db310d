/** Callbacks that keep to their own descriptor, and what they leave behind: only callbacks of the same kind. */
module LoopTame {
  import opened IoTypes
  import opened DeadlineHeap
  import opened IoModel
  import opened Weights
  import opened LoopState
  import opened LoopRounds
  import opened LoopDispatch
  import opened LoopCalls
  import opened LoopEffects
  import opened LoopScripts

  // ---------- callbacks that keep to their own descriptor ----------

  /** Such a handler cancels nothing and registers only for the descriptor that it is itself registered for, and
      there only handlers of this kind; one that is not registered for a descriptor registers nothing. */
  predicate Local(h: Handler, own: Option<int>)
    decreases h
  {
    forall a :: a in h.script ==> LocalCall(a, own)
  }

  predicate LocalCall(a: Action, own: Option<int>)
    decreases a
  {
    match a
    case Sched(fd, _, hnd) => own == Some(fd) && (hnd.Some? ==> Local(hnd.value, own))
    case SchedTimeout(fd, _, hnd, ms) => own == Some(fd) && ms >= 0 && (hnd.Some? ==> Local(hnd.value, own))
    case _ => !a.Cancel?
  }

  /** All that such a handler posts, directly or through others, cancels and registers nothing. */
  predicate Modest(h: Handler)
    decreases h
  {
    forall a :: a in h.script ==> ModestCall(a)
  }

  predicate ModestCall(a: Action)
    decreases a
  {
    match a
    case Post(Some(h)) => Local(h, None) && Modest(h)
    case PostDelay(Some(h), _) => Local(h, None) && Modest(h)
    case Sched(_, _, Some(h)) => Modest(h)
    case SchedTimeout(_, _, Some(h), _) => Modest(h)
    case _ => true
  }

  predicate TamePosts(sync: seq<Handler>) { forall h :: h in sync ==> Local(h, None) && Modest(h) }

  predicate TameDelays(delays: seq<Entry<Delayed>>) {
    forall e :: e in delays ==> Local(e.item.hnd, None) && Modest(e.item.hnd)
  }

  predicate TameRegs(regs: map<Key, Handler>) { forall k :: k in regs ==> Local(regs[k], Some(k.fd)) }

  predicate ModestRegs(regs: map<Key, Handler>) { forall k :: k in regs ==> Modest(regs[k]) }

  /** All that is stored is of this kind. */
  predicate Orderly(s: Snap) {
    TamePosts(s.sync) && TameDelays(s.delays) && TameRegs(s.io.regs) && ModestRegs(s.io.regs)
  }

  lemma LocalCalm(h: Handler, own: Option<int>, polls: seq<PollFd>)
    requires Local(h, own) && (own.Some? ==> HasPoll(polls, own.value))
    ensures CalmScript(h.script, false, polls)
  {
    forall a | a in h.script
      ensures Calm(a, false, polls)
    {
      assert LocalCall(a, own);
    }
  }

  lemma LocalCancels(h: Handler, own: Option<int>)
    requires Local(h, own)
    ensures NoCancels(h.script)
  {
    forall a | a in h.script
      ensures !a.Cancel?
    {
      assert LocalCall(a, own);
    }
  }

  /** Handlers that keep to their own descriptor are calm while it is being served. */
  lemma TameIsCalm(s: Snap, k: Key)
    requires Ok(s) && TameRegs(s.io.regs) && k in s.io.regs
    ensures CalmScript(s.io.regs[k].script, false, s.io.polls)
  {
    hide Ok, Local, CalmScript;
    RegsPolled(s, k);
    LocalCalm(s.io.regs[k], Some(k.fd), s.io.polls);
  }

  /** A callback of this kind keeps the registrations so. */
  lemma RegsStayTame(a: Snap, b: Snap, h: Handler, own: Option<int>, but: Option<Key>)
    requires Local(h, own) && Brought(a, b, h.script, but) && TameRegs(a.io.regs)
    ensures TameRegs(b.io.regs)
  {
    hide BroughtDelays, BroughtTimers, FirstFor, Heard, PostsOf, Tally;
    HeardMeans(a.status, h.script);
    forall k | k in b.io.regs
      ensures Local(b.io.regs[k], Some(k.fd))
    {
      if c :| c in h.script && Registers(c, k, b.io.regs[k]) {
        assert LocalCall(c, own);
      }
    }
  }

  lemma PostsStayTame(status: Status, script: seq<Action>)
    requires forall a :: a in script ==> ModestCall(a)
    ensures TamePosts(PostsOf(status, script))
  {
    if script != [] {
      PostsStayTame(status, script[..|script| - 1]);
      assert ModestCall(script[|script| - 1]);
    }
  }

  lemma SyncStaysTame(a: Snap, b: Snap, h: Handler, but: Option<Key>)
    requires Modest(h) && Brought(a, b, h.script, but) && TamePosts(a.sync)
    ensures TamePosts(b.sync)
  {
    hide BroughtDelays, BroughtRegs, BroughtTimers;
    PostsStayTame(a.status, h.script);
  }

  lemma DelaysStayTame(a: Snap, b: Snap, h: Handler, but: Option<Key>)
    requires Modest(h) && Brought(a, b, h.script, but) && TameDelays(a.delays)
    ensures TameDelays(b.delays)
  {
    hide BroughtRegs, BroughtTimers, Tally;
    HeardMeans(a.status, h.script);
    forall e | e in b.delays
      ensures Local(e.item.hnd, None) && Modest(e.item.hnd)
    {
      if e !in a.delays {
        assert ModestCall(PostDelay(Some(e.item.hnd), e.item.ms));
      }
    }
  }

  lemma RegsStayModest(a: Snap, b: Snap, h: Handler, but: Option<Key>)
    requires Modest(h) && Brought(a, b, h.script, but) && ModestRegs(a.io.regs)
    ensures ModestRegs(b.io.regs)
  {
    hide BroughtDelays, BroughtTimers, FirstFor, Heard, PostsOf, Tally;
    HeardMeans(a.status, h.script);
    forall k | k in b.io.regs
      ensures Modest(b.io.regs[k])
    {
      if c :| c in h.script && Registers(c, k, b.io.regs[k]) {
        assert ModestCall(c);
      }
    }
  }

  lemma StaysOrderly(a: Snap, b: Snap, h: Handler, own: Option<int>, but: Option<Key>)
    requires Local(h, own) && Modest(h) && Brought(a, b, h.script, but) && Orderly(a)
    ensures Orderly(b)
  {
    hide Brought, Local, Modest, TamePosts, TameDelays, TameRegs, ModestRegs;
    RegsStayTame(a, b, h, own, but);
    DelaysStayTame(a, b, h, but);
    RegsStayModest(a, b, h, but);
    SyncStaysTame(a, b, h, but);
  }

  lemma OrderlyParts(a: Snap, b: Snap)
    requires b.sync == a.sync && b.delays == a.delays && b.io.regs == a.io.regs
    ensures Orderly(a) <==> Orderly(b)
  {
  }

  // ---------- phases ----------

  /** What every phase of a round does: it stops the service only through a callback, and keeps what is stored of
      the kind described. */
  ghost predicate Flows(a: Snap, b: Snap) { Effects(a, b, []) && (Orderly(a) ==> Orderly(b)) }

  /** Phases that only call registered handlers. */
  ghost predicate Serves(a: Snap, b: Snap) { Flows(a, b) && (TameRegs(a.io.regs) ==> TameRegs(b.io.regs)) }

  lemma ServesRefl(a: Snap)
    requires a.status.Running? || a.status.Stopping?
    ensures Serves(a, a) && Flows(a, a)
  {
    hide Effects;
    EffectsRefl(a);
  }

  lemma ServesFlows(a: Snap, b: Snap)
    ensures Serves(a, b) ==> Flows(a, b)
  {
  }

  lemma ServesTame(a: Snap, b: Snap)
    ensures Serves(a, b) && TameRegs(a.io.regs) ==> TameRegs(b.io.regs)
  {
  }

  lemma FlowsOrderly(a: Snap, b: Snap)
    ensures Flows(a, b) && Orderly(a) ==> Orderly(b) && TameRegs(b.io.regs)
  {
  }

  lemma FlowsTrans(a: Snap, b: Snap, c: Snap)
    requires Flows(a, b) && Flows(b, c) && Goes(a, b) && Goes(b, c)
    ensures Flows(a, c)
  {
    hide Orderly, Effects, Accounted;
    var none: seq<Action> := [];
    EffectsCat(a, b, c, none, none);
    assert none + none == none;
  }

  lemma ServesTrans(a: Snap, b: Snap, c: Snap)
    requires Serves(a, b) && Serves(b, c) && Goes(a, b) && Goes(b, c)
    ensures Serves(a, c)
  {
    hide TameRegs, Flows, Goes;
    FlowsTrans(a, b, c);
  }

  lemma ServesSteps(a: Snap, b: Snap, c: Snap)
    requires Serves(a, b) && Serves(b, c) && Steps(a, b) && Steps(b, c)
    ensures Serves(a, c)
  {
    hide Serves, Steps, Goes;
    StepsGoes(a, b);
    StepsGoes(b, c);
    ServesTrans(a, b, c);
  }

  /** The same phase, seen with other descriptors open or poll entries cleared. */
  lemma ServesAlike(a: Snap, b: Snap, a': Snap, b': Snap)
    requires Serves(a, b) && Alike(a, a') && Alike(b, b')
    requires a'.sync == a.sync && a'.delays == a.delays && b'.sync == b.sync && b'.delays == b.delays
    ensures Serves(a', b')
  {
    hide Effects, Orderly, TameRegs;
    EffectsAlike(a, b, a', b', []);
    OrderlyParts(a, a');
    OrderlyParts(b, b');
  }

  lemma CalledServes(a: Snap, b: Snap, k: Key)
    requires k in a.io.regs && Called(a, b, k)
    ensures Serves(a, b)
  {
    hide Brought, Effects, Local, Modest, NoCancels;
    if TameRegs(a.io.regs) {
      LocalCancels(a.io.regs[k], Some(k.fd));
      RegsStayTame(a, b, a.io.regs[k], Some(k.fd), Some(k));
      if Orderly(a) {
        StaysOrderly(a, b, a.io.regs[k], Some(k.fd), Some(k));
      }
    }
  }

  // ---------- run_sync_handlers ----------

  /** All calls of these handlers, one handler after the other. */
  function Scripts(ran: seq<Handler>): seq<Action> {
    if ran == [] then [] else Scripts(ran[..|ran| - 1]) + ran[|ran| - 1].script
  }

  function Runs(ran: seq<Handler>): (calls: seq<Call>)
    ensures |calls| == |ran| && forall i :: 0 <= i < |ran| ==> calls[i] == RunPost(ran[i])
  {
    seq(|ran|, i requires 0 <= i < |ran| => RunPost(ran[i]))
  }

  /** The front handler `h` of `h + q` has run and posted. */
  lemma FrontRan(status: Status, now: Status, q0: seq<Handler>, ran: seq<Handler>, h: Handler, q: seq<Handler>)
    requires ran + ([h] + q) == q0 + PostsOf(status, Scripts(ran)) && StatusSteps(status, now)
    requires status.Running? ==> (now.Stopping? <==> Stop in Scripts(ran))
    ensures (ran + [h]) + (q + PostsOf(now, h.script)) == q0 + PostsOf(status, Scripts(ran + [h]))
    ensures Runs(ran + [h]) == Runs(ran) + [RunPost(h)]
  {
    hide PostsOf;
    var posted := PostsOf(now, h.script);
    assert (ran + [h])[..|ran|] == ran;
    PostsCat(status, Scripts(ran), h.script);
    PostsRefused(status, h.script);
    PostsRefused(now, h.script);
    calc {
      (ran + [h]) + (q + posted);
      (ran + ([h] + q)) + posted;
      (q0 + PostsOf(status, Scripts(ran))) + posted;
      q0 + (PostsOf(status, Scripts(ran)) + posted);
    }
    assert PostsOf(status, Scripts(ran)) + [] == PostsOf(status, Scripts(ran));
  }

  /** The front of the queue has run, and is popped. */
  lemma FrontFlows(s: Snap, s2: Snap)
    requires s.sync != [] && s2.sync != [] && Started(s).log <= s2.log && Ran(Started(s), s2, s.sync[0].script)
    ensures Flows(s, Popped(s2))
    ensures NoCancels(s.sync[0].script) ==> FrontBrought(s, Popped(s2))
    ensures TamePosts(s.sync) && NoCancels(s.sync[0].script) ==> TamePosts(Popped(s2).sync)
  {
    hide Effects, Brought, PostsOf, Local, Modest, NoCancels;
    var h := s.sync[0];
    CalledEffects(s, Started(s), s2, RunPost(h));
    EffectsAlike(s, s2, s, Popped(s2), []);
    if NoCancels(h.script) {
      FrontLeaves(s, s2);
      if TamePosts(s.sync) {
        SyncStaysTame(Started(s), s2, h, None);
      }
    }
    if Orderly(s) {
      assert Local(h, None);
      LocalCancels(h, None);
      StaysOrderly(Started(s), s2, h, None, None);
    }
  }

  /** What the front handler leaves behind when it cancels nothing. */
  ghost predicate FrontBrought(a: Snap, b: Snap)
    requires a.sync != []
  {
    Brought(a.(sync := a.sync[1..]), b, a.sync[0].script, None)
  }

  lemma FrontLeaves(s: Snap, s2: Snap)
    requires s.sync != [] && s2.sync != [] && Brought(Started(s), s2, s.sync[0].script, None)
    ensures FrontBrought(s, Popped(s2)) && Popped(s2).sync == s.sync[1..] + PostsOf(s.status, s.sync[0].script)
  {
    hide PostsOf, Heard, Tally, FirstFor;
  }

  /** The front of the queue has run, invoking nothing else, and what it has posted queues behind the others. */
  predicate FrontRun(a: Snap, b: Snap)
    requires a.sync != []
  {
    var h := a.sync[0];
    && b.log == a.log + [RunPost(h)] && b.sync == a.sync[1..] + PostsOf(a.status, h.script)
    && (a.status.Running? ==> (b.status.Stopping? <==> Stop in h.script))
    && (TamePosts(a.sync) ==> TamePosts(b.sync))
  }

  lemma FrontRuns(s: Snap, s2: Snap, walking: bool)
    requires s.sync != [] && s2.sync != [] && Steps(Started(s), s2) && Ran(Started(s), s2, s.sync[0].script)
    requires CalmScript(s.sync[0].script, walking, s.io.polls) && OnlyCancels(s2.log, |s.log| + 1, s.sync[0].script)
    ensures FrontRun(s, Popped(s2))
  {
    hide PostsOf, TamePosts, OnlyCancels, Steps, CalmScript, NoCancels, Carried, BroughtDelays, BroughtRegs,
      BroughtTimers;
    var h := s.sync[0];
    StepsLog(Started(s), s2);
    CalmCancels(h.script, walking, s.io.polls);
    NothingInvoked(Started(s).log, s2.log, h.script);
    FrontFlows(s, s2);
  }

  /** All that holds when the front of the queue has run and is popped. */
  lemma FrontEnded(s: Snap, s2: Snap, walking: bool)
    requires Ok(s) && AtRest(s) && s.sync != [] && Steps(Started(s), s2) && Ok(s2)
    requires Work(s2) <= Work(Started(s)) + ScriptWeight(s.sync[0].script) && Ran(Started(s), s2, s.sync[0].script)
    requires OnlyCancels(s2.log, |s.log| + 1, s.sync[0].script)
    ensures s2.sync != []
    ensures
      var b := Popped(s2);
      && Ok(b) && AtRest(b) && Goes(s, b) && Work(b) < Work(s) && Flows(s, b)
      && |b.log| > |s.log| && b.log[|s.log|] == RunPost(s.sync[0]) && Following(b.log, |s.log|)
      && (NoCancels(s.sync[0].script) ==> FrontBrought(s, b))
      && (CalmScript(s.sync[0].script, walking, s.io.polls) ==> FrontRun(s, b))
  {
    hide Ok, Steps, Work, Goes, AtRest, OnlyCancels, Following, CalmScript, Ran, Flows, FrontRun, FrontBrought,
      NoCancels;
    FrontEnds(s, s2);
    StepsLog(Started(s), s2);
    CancelsFollow(Started(s).log, s2.log, s.sync[0].script);
    FrontFlows(s, s2);
    if CalmScript(s.sync[0].script, walking, s.io.polls) {
      FrontRuns(s, s2, walking);
    }
  }

  /** Since `s` just these handlers have run. */
  predicate RanSoFar(s: Snap, b: Snap, ran: seq<Handler>) {
    && TamePosts(b.sync) && b.log == s.log + Runs(ran) && ran + b.sync == s.sync + PostsOf(s.status, Scripts(ran))
    && (s.status.Running? ==> (b.status.Stopping? <==> Stop in Scripts(ran)))
  }

  lemma NoneRan(s: Snap)
    requires (s.status.Running? || s.status.Stopping?)
    ensures TamePosts(s.sync) ==> RanSoFar(s, s, [])
  {
    assert [] + s.sync == s.sync + [] && s.log == s.log + Runs([]);
  }

  lemma FrontIsTame(s: Snap, s1: Snap, ran: seq<Handler>)
    requires RanSoFar(s, s1, ran) && s1.sync != []
    ensures CalmScript(s1.sync[0].script, false, s1.io.polls)
  {
    hide Local, Modest, CalmScript, PostsOf, Scripts;
    assert Local(s1.sync[0], None);
    LocalCalm(s1.sync[0], None, s1.io.polls);
  }

  lemma RanOneMore(s: Snap, s1: Snap, s2: Snap, ran: seq<Handler>)
    requires RanSoFar(s, s1, ran) && s1.sync != [] && FrontRun(s1, s2)
    requires StatusSteps(s.status, s1.status) && StatusSteps(s1.status, s2.status)
    ensures RanSoFar(s, s2, ran + [s1.sync[0]])
  {
    hide PostsOf, TamePosts, Runs;
    var h, q := s1.sync[0], s1.sync[1..];
    assert s1.sync == [h] + q;
    FrontRan(s.status, s1.status, s.sync, ran, h, q);
    assert (ran + [h])[..|ran|] == ran;
    assert Scripts(ran + [h]) == Scripts(ran) + h.script;
    assert s.log + Runs(ran) + [RunPost(h)] == s.log + (Runs(ran) + [RunPost(h)]);
  }

  lemma AllRan(s: Snap, b: Snap, ran: seq<Handler>)
    requires RanSoFar(s, b, ran) && b.sync == []
    ensures b.log == s.log + Runs(ran) && ran == s.sync + PostsOf(s.status, Scripts(ran))
  {
    assert ran + [] == ran;
  }
}
