/** The client-side cache of publisher listeners, across crashes and restarts of the service.
    A proxy belongs to one life of the service; calls through a proxy of an earlier life, or
    while the service is down, fail. */
module ListenerCache {
  import opened Errno
  import opened Collections

  const MAX_TOPIC_SIZE := 128
  const MAX_LISTENER_SIZE := 256
  const TOPIC_MIN := 0
  const TOPIC_MAX := 9

  type Topic = int
  type Listener = nat
  type Cache = map<Topic, set<Listener>>

  datatype Proxy = NoProxy | ProxyOf(life: nat)

  /** `life`, `up` and `registered` are the service's; `restored` and `refused` are history:
      a restore completed in this life, and a registration that the service accepted was
      refused by the cache for its size. */
  datatype State = State(
    cache: Cache,
    proxy: Proxy,
    life: nat,
    up: bool,
    registered: set<(Topic, Listener)>,
    restored: bool,
    refused: bool)

  const INITIAL_STATE := State(map[], NoProxy, 0, false, {}, false, false)

  datatype Done = Done(st: State, ret: int)

  predicate IsTopicValid(topic: Topic) {
    TOPIC_MIN < topic < TOPIC_MAX
  }

  function Cached(cache: Cache, topic: Topic): set<Listener> {
    if topic in cache then cache[topic] else {}
  }

  /** The cached (topic, listener) pairs. */
  function Pairs(cache: Cache): set<(Topic, Listener)> {
    set t, l | t in cache && l in cache[t] :: (t, l)
  }

  // ----- the cache

  /** The new cache, and whether the listener was accepted. A lookup by `operator[]` inserts
      an empty set. */
  function AddToCache(cache: Cache, topic: Topic, listener: Listener): (Cache, bool) {
    if |cache| >= MAX_TOPIC_SIZE then (cache, false)
    else if |Cached(cache, topic)| >= MAX_LISTENER_SIZE then (cache[topic := Cached(cache, topic)], false)
    else (cache[topic := Cached(cache, topic) + {listener}], true)
  }

  function RemoveFromCache(cache: Cache, topic: Topic, listener: Listener): Cache {
    cache[topic := Cached(cache, topic) - {listener}]
  }

  // ----- the steps

  /** The proxy is kept once obtained, and can be obtained while the service is up. */
  function GetProxy(st: State): State {
    if st.proxy == NoProxy && st.up then st.(proxy := ProxyOf(st.life)) else st
  }

  predicate Reaches(st: State) {
    st.up && st.proxy == ProxyOf(st.life)
  }

  function Keep(st: State, topic: Topic, listener: Listener): Done {
    var (cache, ok) := AddToCache(st.cache, topic, listener);
    if ok then Done(st.(cache := cache), DH_FWK_SUCCESS)
    else Done(st.(cache := cache), ERR_DH_FWK_PUBLISH_LISTENER_OVER_SIZE)
  }

  function Register(st: State, topic: Topic, listener: Listener): Done {
    if !IsTopicValid(topic) then Done(st, ERR_DH_FWK_PARA_INVALID)
    else
      var st1 := GetProxy(st);
      if st1.proxy == NoProxy then Keep(st1, topic, listener)
      else if !Reaches(st1) then Done(st1, ERR_DH_FWK_SERVICE_IPC_SEND_REQUEST_FAIL)
      else
        var kept := Keep(st1.(registered := st1.registered + {(topic, listener)}), topic, listener);
        if kept.ret == DH_FWK_SUCCESS then kept else kept.(st := kept.st.(refused := true))
  }

  function Unregister(st: State, topic: Topic, listener: Listener): Done {
    if !IsTopicValid(topic) then Done(st, ERR_DH_FWK_PARA_INVALID)
    else
      var st1 := GetProxy(st);
      var st2 := st1.(cache := RemoveFromCache(st1.cache, topic, listener));
      if st1.proxy == NoProxy then Done(st2, DH_FWK_SUCCESS)
      else if !Reaches(st1) then Done(st2, ERR_DH_FWK_SERVICE_IPC_SEND_REQUEST_FAIL)
      else Done(st2.(registered := st1.registered - {(topic, listener)}), DH_FWK_SUCCESS)
  }

  function Crash(st: State): State {
    st.(up := false, registered := {}, restored := false)
  }

  function Restart(st: State): State {
    if st.up then st else st.(up := true, life := st.life + 1, refused := false)
  }

  /** The notification that the service stopped. */
  function OnRemove(st: State): State {
    st.(proxy := NoProxy)
  }

  /** The notification that the service started: all cached pairs are registered again. */
  function OnAdd(st: State): State {
    var st1 := GetProxy(st);
    if Reaches(st1) then st1.(registered := st1.registered + Pairs(st1.cache), restored := true) else st1
  }

  datatype Step =
    | DoRegister(topic: Topic, listener: Listener)
    | DoUnregister(topic: Topic, listener: Listener)
    | DoCrash
    | DoRestart
    | SeeRemoved
    | SeeAdded

  function Next(st: State, step: Step): State {
    match step
    case DoRegister(t, l) => Register(st, t, l).st
    case DoUnregister(t, l) => Unregister(st, t, l).st
    case DoCrash => Crash(st)
    case DoRestart => Restart(st)
    case SeeRemoved => OnRemove(st)
    case SeeAdded => OnAdd(st)
  }

  function Run(st: State, steps: seq<Step>): State
    decreases |steps|
  {
    if steps == [] then st else Run(Next(st, steps[0]), steps[1..])
  }

  // ----- what holds in every run

  ghost predicate Bounded(cache: Cache) {
    forall t :: t in cache ==> IsTopicValid(t) && |cache[t]| <= MAX_LISTENER_SIZE
  }

  ghost predicate Invariant(st: State) {
    && Bounded(st.cache)
    && (st.proxy.ProxyOf? ==> st.proxy.life <= st.life)
    // down, or not yet reached in this life: nothing is registered
    && (!st.up || (st.proxy.ProxyOf? && st.proxy.life < st.life) ==> st.registered == {} && !st.restored)
    // restored: everything cached is registered
    && (st.restored ==> Pairs(st.cache) <= st.registered)
    // without a refusal in this life, nothing else is
    && (st.up && !st.refused ==> st.registered <= Pairs(st.cache))
  }

  lemma PairsAfterAdd(cache: Cache, topic: Topic, listener: Listener)
    ensures var (c, ok) := AddToCache(cache, topic, listener);
      Pairs(c) == if ok then Pairs(cache) + {(topic, listener)} else Pairs(cache)
  {
    var (c, ok) := AddToCache(cache, topic, listener);
    assert forall t :: Cached(c, t) == if ok && t == topic then Cached(cache, t) + {listener} else Cached(cache, t);
    PairsAreCached(c);
    PairsAreCached(cache);
  }

  lemma PairsAfterRemove(cache: Cache, topic: Topic, listener: Listener)
    ensures Pairs(RemoveFromCache(cache, topic, listener)) == Pairs(cache) - {(topic, listener)}
  {
    PairsAreCached(cache);
    PairsAreCached(RemoveFromCache(cache, topic, listener));
  }

  lemma PairsAreCached(cache: Cache)
    ensures forall t, l :: (t, l) in Pairs(cache) <==> l in Cached(cache, t)
  {
  }

  lemma BoundedAfter(cache: Cache, topic: Topic, listener: Listener)
    requires Bounded(cache) && IsTopicValid(topic)
    ensures Bounded(AddToCache(cache, topic, listener).0)
    ensures Bounded(RemoveFromCache(cache, topic, listener))
  {
    SmallerSet(Cached(cache, topic), listener);
  }

  lemma SmallerSet(s: set<Listener>, x: Listener)
    ensures |s - {x}| <= |s| && |s + {x}| <= |s| + 1
  {
    assert s - {x} + (s * {x}) == s;
    assert s + {x} == s + ({x} - s);
  }

  lemma RegisterKeepsInvariant(st: State, topic: Topic, listener: Listener)
    requires Invariant(st)
    ensures Invariant(Register(st, topic, listener).st)
  {
    if IsTopicValid(topic) {
      PairsAfterAdd(st.cache, topic, listener);
      BoundedAfter(st.cache, topic, listener);
      assert Invariant(GetProxy(st));
    }
  }

  lemma UnregisterKeepsInvariant(st: State, topic: Topic, listener: Listener)
    requires Invariant(st)
    ensures Invariant(Unregister(st, topic, listener).st)
  {
    if IsTopicValid(topic) {
      PairsAfterRemove(st.cache, topic, listener);
      BoundedAfter(st.cache, topic, listener);
      assert Invariant(GetProxy(st));
    }
  }

  lemma StepKeepsInvariant(st: State, step: Step)
    requires Invariant(st)
    ensures Invariant(Next(st, step))
  {
    match step
    case DoRegister(t, l) => RegisterKeepsInvariant(st, t, l);
    case DoUnregister(t, l) => UnregisterKeepsInvariant(st, t, l);
    case _ =>
  }

  lemma {:induction false} RunKeepsInvariant(st: State, steps: seq<Step>)
    requires Invariant(st)
    ensures Invariant(Run(st, steps))
    decreases |steps|
  {
    if steps != [] {
      StepKeepsInvariant(st, steps[0]);
      RunKeepsInvariant(Next(st, steps[0]), steps[1..]);
    }
  }

  /** In every run, from a completed restore to the next crash every cached pair is
      registered at the service, the two sets are equal unless a registration was refused
      for its size since the restart, and no topic ever caches more than 256 listeners. */
  lemma RestoredUntilCrash(steps: seq<Step>)
    ensures var st := Run(INITIAL_STATE, steps);
      && (st.restored ==> Pairs(st.cache) <= st.registered)
      && (st.restored && !st.refused ==> Pairs(st.cache) == st.registered)
      && (forall t :: t in st.cache ==> |st.cache[t]| <= MAX_LISTENER_SIZE)
  {
    assert Pairs(map[]) == {};
    RunKeepsInvariant(INITIAL_STATE, steps);
  }

  /** `restored` does mean that: it becomes true only by a start notification handled while
      the service can be reached, and false only by a crash. */
  lemma RestoredIsHistory(st: State, step: Step)
    ensures !st.restored && Next(st, step).restored ==> step == SeeAdded && Reaches(GetProxy(st))
    ensures st.restored && !Next(st, step).restored ==> step == DoCrash
    ensures step == SeeAdded && Reaches(GetProxy(st)) ==> Next(st, step).restored
  {
  }

  /** The result that a start notification gives, whose other half, the engines' callbacks, was
      answered as given: it says nothing about the publisher listeners. */
  predicate ReportsSuccess(st: State, callbackAnswers: seq<int>) {
    && GetProxy(st).proxy != NoProxy
    && (forall i :: 0 <= i < |callbackAnswers| ==> callbackAnswers[i] == DH_FWK_SUCCESS)
  }

  ghost predicate AllRegistered(st: State) {
    Pairs(st.cache) <= st.registered
  }

  /** In every run a start notification leaves all cached pairs registered exactly when nothing
      is cached, or the service is up and the proxy is either dropped or of this life. */
  lemma RestoreNeedsFreshProxy(steps: seq<Step>)
    ensures var st := Run(INITIAL_STATE, steps);
      AllRegistered(OnAdd(st)) <==>
        Pairs(st.cache) == {} || (st.up && (st.proxy == NoProxy || st.proxy.life == st.life))
  {
    assert Pairs(map[]) == {};
    RunKeepsInvariant(INITIAL_STATE, steps);
  }

  /** So a reported success is true, in every run, exactly when nothing is cached, or there was
      no proxy yet, or it is one of the running service. */
  lemma SuccessIsTrue(steps: seq<Step>, callbackAnswers: seq<int>)
    requires ReportsSuccess(Run(INITIAL_STATE, steps), callbackAnswers)
    ensures var st := Run(INITIAL_STATE, steps);
      AllRegistered(OnAdd(st)) <==>
        Pairs(st.cache) == {} || st.proxy == NoProxy || (st.up && st.proxy.life == st.life)
  {
    RestoreNeedsFreshProxy(steps);
  }

  /** It can be false: the service crashed and came back before the stop was noticed. */
  lemma FalseSuccess()
    ensures exists steps :: var st := Run(INITIAL_STATE, steps);
      ReportsSuccess(st, []) && !AllRegistered(OnAdd(st)) && OnAdd(st).registered == {}
  {
    var started := Next(INITIAL_STATE, DoRestart);
    var registered := Next(started, DoRegister(1, 7));
    var st := Next(Next(registered, DoCrash), DoRestart);
    assert registered.cache == map[1 := {7}];
    assert (1, 7) in Pairs(st.cache);
    RunFour(INITIAL_STATE, DoRestart, DoRegister(1, 7), DoCrash, DoRestart);
  }

  lemma RunFour(st: State, a: Step, b: Step, c: Step, d: Step)
    ensures Run(st, [a, b, c, d]) == Next(Next(Next(Next(st, a), b), c), d)
  {
    var s1 := Next(st, a);
    var s2 := Next(s1, b);
    var s3 := Next(s2, c);
    assert [a, b, c, d][1..] == [b, c, d] && [b, c, d][1..] == [c, d] && [c, d][1..] == [d] && [d][1..] == [];
    assert Run(s3, [d]) == Next(s3, d);
    assert Run(s2, [c, d]) == Run(s3, [d]);
    assert Run(s1, [b, c, d]) == Run(s2, [c, d]);
  }

  /** The proxy, if there is one, is of the running service. */
  predicate IsFresh(st: State) {
    st.proxy == NoProxy || (st.up && st.proxy.life == st.life)
  }

  lemma {:induction false} FreshUntilCrash(st: State, steps: seq<Step>)
    requires IsFresh(st) && DoCrash !in steps
    ensures IsFresh(Run(st, steps))
    decreases |steps|
  {
    if steps != [] {
      FreshUntilCrash(Next(st, steps[0]), steps[1..]);
    }
  }

  /** A crash whose stop is noticed is repaired: whatever the clients do until the service is up
      again, and before its start is noticed, then every cached pair is registered. */
  lemma CrashIsRepaired(before: seq<Step>, after: seq<Step>)
    requires DoCrash !in after && Run(OnRemove(Crash(Run(INITIAL_STATE, before))), after).up
    ensures var st := Run(OnRemove(Crash(Run(INITIAL_STATE, before))), after);
      AllRegistered(OnAdd(st)) && OnAdd(st).restored
  {
    FreshUntilCrash(OnRemove(Crash(Run(INITIAL_STATE, before))), after);
  }

  // ----- what the calls of a run leave in the cache and at the service

  lemma {:induction false} RunOneMore(st: State, steps: seq<Step>, last: Step)
    ensures Run(st, steps + [last]) == Next(Run(st, steps), last)
    decreases |steps|
  {
    if steps == [] {
      assert steps + [last] == [last] && [last][1..] == [];
    } else {
      assert (steps + [last])[1..] == steps[1..] + [last];
      RunOneMore(Next(st, steps[0]), steps[1..], last);
    }
  }

  lemma RunPrefix(st: State, steps: seq<Step>, k: nat)
    requires k < |steps|
    ensures Run(st, steps[..k + 1]) == Next(Run(st, steps[..k]), steps[k])
  {
    assert steps[..k + 1] == steps[..k] + [steps[k]];
    RunOneMore(st, steps[..k], steps[k]);
  }

  /** A call reaches the service: it is up, and the proxy is either still to be obtained or of
      this life. */
  predicate CanCall(st: State) {
    st.up && (st.proxy == NoProxy || st.proxy.life == st.life)
  }

  /** A registration gets as far as the cache: with the service, or while there is none and no
      proxy of it. */
  predicate Tries(st: State, topic: Topic) {
    IsTopicValid(topic) && (CanCall(st) || (!st.up && st.proxy == NoProxy))
  }

  /** The step caches the pair. */
  predicate Caches(st: State, step: Step, topic: Topic, listener: Listener) {
    step == DoRegister(topic, listener) && Tries(st, topic) && |Cached(st.cache, topic)| < 256
  }

  predicate Forgets(step: Step, topic: Topic, listener: Listener) {
    step == DoUnregister(topic, listener) && IsTopicValid(topic)
  }

  /** The step registers the pair at the service. */
  predicate Enters(st: State, step: Step, topic: Topic, listener: Listener) {
    && CanCall(st)
    && ((step == DoRegister(topic, listener) && IsTopicValid(topic)) ||
        (step == SeeAdded && (topic, listener) in Pairs(st.cache)))
  }

  predicate Leaves(st: State, step: Step, topic: Topic, listener: Listener) {
    step == DoCrash || (Forgets(step, topic, listener) && CanCall(st))
  }

  lemma AddAccepts(cache: Cache, topic: Topic, listener: Listener)
    requires Bounded(cache)
    ensures AddToCache(cache, topic, listener).1 <==> |Cached(cache, topic)| < MAX_LISTENER_SIZE
  {
    FewTopics(cache.Keys);
  }

  lemma KeepCache(st: State, topic: Topic, listener: Listener)
    ensures Keep(st, topic, listener).st.cache == AddToCache(st.cache, topic, listener).0
  {
  }

  lemma RegisterTriesCache(st: State, topic: Topic, listener: Listener)
    ensures Register(st, topic, listener).st.cache ==
      if Tries(st, topic) then AddToCache(st.cache, topic, listener).0 else st.cache
  {
    if Tries(st, topic) {
      var st1 := GetProxy(st);
      KeepCache(st1, topic, listener);
      KeepCache(st1.(registered := st1.registered + {(topic, listener)}), topic, listener);
    }
  }

  lemma RegisterTriesResult(st: State, topic: Topic, listener: Listener)
    ensures Register(st, topic, listener).ret == DH_FWK_SUCCESS <==>
      Tries(st, topic) && AddToCache(st.cache, topic, listener).1
  {
  }

  /** A registration succeeds exactly if it caches the pair, */
  lemma RegisterSucceeds(st: State, topic: Topic, listener: Listener)
    requires Bounded(st.cache)
    ensures Register(st, topic, listener).ret == DH_FWK_SUCCESS <==>
      Caches(st, DoRegister(topic, listener), topic, listener)
  {
    RegisterTriesResult(st, topic, listener);
    AddAccepts(st.cache, topic, listener);
  }

  /** which then is in the cache; */
  lemma RegisterPairs(st: State, topic: Topic, listener: Listener)
    requires Bounded(st.cache)
    ensures var pairs := Pairs(Register(st, topic, listener).st.cache);
      if Caches(st, DoRegister(topic, listener), topic, listener) then pairs == Pairs(st.cache) + {(topic, listener)}
      else pairs == Pairs(st.cache)
  {
    RegisterTriesCache(st, topic, listener);
    AddAccepts(st.cache, topic, listener);
    PairsAfterAdd(st.cache, topic, listener);
  }

  /** and the service has it exactly if the call reaches it. */
  lemma RegisterAtService(st: State, topic: Topic, listener: Listener)
    ensures var registered := Register(st, topic, listener).st.registered;
      if IsTopicValid(topic) && CanCall(st) then registered == st.registered + {(topic, listener)}
      else registered == st.registered
  {
  }

  lemma UnregisterEffect(st: State, topic: Topic, listener: Listener)
    ensures var st', pair := Unregister(st, topic, listener).st, (topic, listener);
      && Pairs(st'.cache) == (if IsTopicValid(topic) then Pairs(st.cache) - {pair} else Pairs(st.cache))
      && st'.registered ==
           (if IsTopicValid(topic) && CanCall(st) then st.registered - {pair} else st.registered)
  {
    PairsAfterRemove(st.cache, topic, listener);
  }

  lemma OtherStepsKeepCache(st: State, step: Step)
    requires !step.DoRegister? && !step.DoUnregister?
    ensures Next(st, step).cache == st.cache
  {
  }

  lemma CacheStep(st: State, step: Step, topic: Topic, listener: Listener)
    requires Bounded(st.cache)
    ensures (topic, listener) in Pairs(Next(st, step).cache) <==>
      Caches(st, step, topic, listener) || ((topic, listener) in Pairs(st.cache) && !Forgets(step, topic, listener))
  {
    if step.DoRegister? {
      RegisterPairs(st, step.topic, step.listener);
    } else if step.DoUnregister? {
      UnregisterEffect(st, step.topic, step.listener);
    } else {
      OtherStepsKeepCache(st, step);
    }
  }

  lemma ServiceStep(st: State, step: Step, topic: Topic, listener: Listener)
    ensures (topic, listener) in Next(st, step).registered <==>
      || Enters(st, step, topic, listener)
      || ((topic, listener) in st.registered && !Leaves(st, step, topic, listener))
  {
    if step.DoRegister? {
      RegisterAtService(st, step.topic, step.listener);
    } else if step.DoUnregister? {
      UnregisterEffect(st, step.topic, step.listener);
    }
  }

  ghost function CacheTrace(steps: seq<Step>, topic: Topic, listener: Listener): (trace: seq<bool>)
    ensures |trace| == |steps|
  {
    seq(|steps|, i requires 0 <= i < |steps| => Caches(Run(INITIAL_STATE, steps[..i]), steps[i], topic, listener))
  }

  ghost function ForgetTrace(steps: seq<Step>, topic: Topic, listener: Listener): (trace: seq<bool>)
    ensures |trace| == |steps|
  {
    seq(|steps|, i requires 0 <= i < |steps| => Forgets(steps[i], topic, listener))
  }

  ghost function EnterTrace(steps: seq<Step>, topic: Topic, listener: Listener): (trace: seq<bool>)
    ensures |trace| == |steps|
  {
    seq(|steps|, i requires 0 <= i < |steps| => Enters(Run(INITIAL_STATE, steps[..i]), steps[i], topic, listener))
  }

  ghost function LeaveTrace(steps: seq<Step>, topic: Topic, listener: Listener): (trace: seq<bool>)
    ensures |trace| == |steps|
  {
    seq(|steps|, i requires 0 <= i < |steps| => Leaves(Run(INITIAL_STATE, steps[..i]), steps[i], topic, listener))
  }

  /** At every point of every run a pair is cached exactly if some registration cached it and the
      listener was not unregistered since. */
  lemma CacheHistory(steps: seq<Step>, topic: Topic, listener: Listener, n: nat)
    requires n <= |steps|
    ensures (topic, listener) in Pairs(Run(INITIAL_STATE, steps[..n]).cache) <==>
      HasLastEntry(CacheTrace(steps, topic, listener), ForgetTrace(steps, topic, listener), n)
  {
    var inside := seq(|steps| + 1, i requires 0 <= i <= |steps| =>
      (topic, listener) in Pairs(Run(INITIAL_STATE, steps[..i]).cache));
    var enters, leaves := CacheTrace(steps, topic, listener), ForgetTrace(steps, topic, listener);
    assert steps[..0] == [] && Pairs(map[]) == {};
    forall k | 0 <= k < |steps| ensures inside[k + 1] == (enters[k] || (inside[k] && !leaves[k])) {
      RunKeepsInvariant(INITIAL_STATE, steps[..k]);
      RunPrefix(INITIAL_STATE, steps, k);
      CacheStep(Run(INITIAL_STATE, steps[..k]), steps[k], topic, listener);
    }
    HistoryDecides(inside, enters, leaves, n);
  }

  /** And it is registered exactly if a call registered it, or a restore while it was cached, and
      neither an unregistration that reached the service nor a crash came since. */
  lemma ServiceHistory(steps: seq<Step>, topic: Topic, listener: Listener, n: nat)
    requires n <= |steps|
    ensures (topic, listener) in Run(INITIAL_STATE, steps[..n]).registered <==>
      HasLastEntry(EnterTrace(steps, topic, listener), LeaveTrace(steps, topic, listener), n)
  {
    var inside := seq(|steps| + 1, i requires 0 <= i <= |steps| =>
      (topic, listener) in Run(INITIAL_STATE, steps[..i]).registered);
    var enters, leaves := EnterTrace(steps, topic, listener), LeaveTrace(steps, topic, listener);
    assert steps[..0] == [] && Pairs(map[]) == {};
    forall k | 0 <= k < |steps| ensures inside[k + 1] == (enters[k] || (inside[k] && !leaves[k])) {
      RunKeepsInvariant(INITIAL_STATE, steps[..k]);
      RunPrefix(INITIAL_STATE, steps, k);
      ServiceStep(Run(INITIAL_STATE, steps[..k]), steps[k], topic, listener);
    }
    HistoryDecides(inside, enters, leaves, n);
  }

  lemma {:induction false} OutStaysOut(st: State, steps: seq<Step>, topic: Topic, listener: Listener)
    requires Invariant(st) && (topic, listener) !in Pairs(st.cache) && DoRegister(topic, listener) !in steps
    ensures (topic, listener) !in Pairs(Run(st, steps).cache)
    ensures (topic, listener) !in st.registered || DoCrash in steps ==> (topic, listener) !in Run(st, steps).registered
    decreases |steps|
  {
    if steps != [] {
      CacheStep(st, steps[0], topic, listener);
      ServiceStep(st, steps[0], topic, listener);
      StepKeepsInvariant(st, steps[0]);
      OutStaysOut(Next(st, steps[0]), steps[1..], topic, listener);
    }
  }

  /** In every run, from an unregistration of a valid topic to the next registration of the pair,
      the pair is not cached, so that no restore brings it back; and it is not registered if the
      call reached the service, or once the service has crashed. */
  lemma UnregisteredStaysOut(before: seq<Step>, after: seq<Step>, topic: Topic, listener: Listener)
    requires IsTopicValid(topic) && DoRegister(topic, listener) !in after
    ensures var st := Run(INITIAL_STATE, before);
      var end := Run(Unregister(st, topic, listener).st, after);
      && (topic, listener) !in Pairs(end.cache)
      && (CanCall(st) || DoCrash in after ==> (topic, listener) !in end.registered)
  {
    var st := Run(INITIAL_STATE, before);
    assert Pairs(map[]) == {};
    RunKeepsInvariant(INITIAL_STATE, before);
    UnregisterKeepsInvariant(st, topic, listener);
    CacheStep(st, DoUnregister(topic, listener), topic, listener);
    ServiceStep(st, DoUnregister(topic, listener), topic, listener);
    OutStaysOut(Unregister(st, topic, listener).st, after, topic, listener);
  }

  /** The topics in use never reach the limit on topics, so only the number of listeners of
      one topic can make the cache refuse a listener. */
  lemma OnlyListenersAreLimited(steps: seq<Step>, topic: Topic, listener: Listener)
    requires IsTopicValid(topic)
    ensures var cache := Run(INITIAL_STATE, steps).cache;
      AddToCache(cache, topic, listener).1 <==> |Cached(cache, topic)| < MAX_LISTENER_SIZE
  {
    assert Pairs(map[]) == {};
    RunKeepsInvariant(INITIAL_STATE, steps);
    var cache := Run(INITIAL_STATE, steps).cache;
    FewTopics(cache.Keys);
  }

  lemma FewTopics(topics: set<Topic>)
    requires forall t :: t in topics ==> IsTopicValid(t)
    ensures |topics| < MAX_TOPIC_SIZE
  {
    var valid := {1, 2, 3, 4, 5, 6, 7, 8};
    forall t | t in topics ensures t in valid {
      assert TOPIC_MIN < t < TOPIC_MAX;
    }
    SubsetSize(topics, valid);
  }

  lemma {:induction false} SubsetSize(a: set<Topic>, b: set<Topic>)
    requires a <= b
    ensures |a| <= |b|
  {
    assert a + (b - a) == b;
  }
}

/** The manager in the form of the source, with the service it talks to. */
module DHFWKSAManagers {
  import opened Errno
  import opened Collections
  import opened ListenerCache

  class DistributedHardwareService {
    var life: nat
    var up: bool
    var registered: set<(Topic, Listener)>

    constructor ()
      ensures life == 0 && !up && registered == {}
    {
      life, up, registered := 0, false, {};
    }

    /** A call through a proxy of the given life. */
    method RegisterPublisherListener(proxyLife: nat, topic: Topic, listener: Listener) returns (ret: int)
      modifies this`registered
      ensures ret == if up && proxyLife == life then DH_FWK_SUCCESS else ERR_DH_FWK_SERVICE_IPC_SEND_REQUEST_FAIL
      ensures registered == old(registered) + (if up && proxyLife == life then {(topic, listener)} else {})
    {
      if !up || proxyLife != life {
        return ERR_DH_FWK_SERVICE_IPC_SEND_REQUEST_FAIL;
      }
      registered := registered + {(topic, listener)};
      return DH_FWK_SUCCESS;
    }

    method UnregisterPublisherListener(proxyLife: nat, topic: Topic, listener: Listener) returns (ret: int)
      modifies this`registered
      ensures ret == if up && proxyLife == life then DH_FWK_SUCCESS else ERR_DH_FWK_SERVICE_IPC_SEND_REQUEST_FAIL
      ensures registered == old(registered) - (if up && proxyLife == life then {(topic, listener)} else {})
    {
      if !up || proxyLife != life {
        return ERR_DH_FWK_SERVICE_IPC_SEND_REQUEST_FAIL;
      }
      registered := registered - {(topic, listener)};
      return DH_FWK_SUCCESS;
    }
  }

  /** The second restore loop, over the answers to the engines' callback registrations. */
  method RestoreCallbacks(answers: seq<int>, before: int) returns (ret: int)
    ensures ret == DH_FWK_SUCCESS <==>
      before == DH_FWK_SUCCESS && forall i :: 0 <= i < |answers| ==> answers[i] == DH_FWK_SUCCESS
    ensures ret == before || ret in answers
  {
    ret := before;
    for i := 0 to |answers|
      invariant ret == DH_FWK_SUCCESS <==>
        before == DH_FWK_SUCCESS && forall j :: 0 <= j < i ==> answers[j] == DH_FWK_SUCCESS
      invariant ret == before || ret in answers
    {
      if answers[i] != DH_FWK_SUCCESS {
        ret := answers[i];
      }
    }
  }

  class DHFWKSAManager {
    const service: DistributedHardwareService
    var dhfwkProxy: Proxy
    var publisherListenersCache: Cache
    ghost var restored: bool
    ghost var refused: bool

    ghost function Value(): State
      reads this, service
    {
      State(publisherListenersCache, dhfwkProxy, service.life, service.up, service.registered, restored, refused)
    }

    constructor (service: DistributedHardwareService)
      requires service.life == 0 && !service.up && service.registered == {}
      ensures Value() == INITIAL_STATE && this.service == service
    {
      this.service := service;
      dhfwkProxy, publisherListenersCache := NoProxy, map[];
      restored, refused := false, false;
    }

    method GetDHFWKProxy() returns (proxy: Proxy)
      modifies this`dhfwkProxy
      ensures Value() == GetProxy(old(Value())) && proxy == dhfwkProxy
    {
      if dhfwkProxy == NoProxy {
        if !service.up {
          return NoProxy;
        }
        dhfwkProxy := ProxyOf(service.life);
      }
      return dhfwkProxy;
    }

    /** A lookup by `operator[]`. */
    method Lookup(topic: Topic) returns (listeners: set<Listener>)
      modifies this`publisherListenersCache
      ensures listeners == Cached(old(publisherListenersCache), topic)
      ensures publisherListenersCache == old(publisherListenersCache)[topic := listeners]
    {
      if topic !in publisherListenersCache {
        publisherListenersCache := publisherListenersCache[topic := {}];
      }
      listeners := publisherListenersCache[topic];
    }

    method AddPublisherListenerToCache(topic: Topic, listener: Listener) returns (ret: int)
      modifies this`publisherListenersCache
      ensures (publisherListenersCache, ret == DH_FWK_SUCCESS)
           == AddToCache(old(publisherListenersCache), topic, listener)
      ensures ret == DH_FWK_SUCCESS || ret == ERR_DH_FWK_PUBLISH_LISTENER_OVER_SIZE
    {
      if |publisherListenersCache| >= MAX_TOPIC_SIZE {
        return ERR_DH_FWK_PUBLISH_LISTENER_OVER_SIZE;
      }
      var listeners := Lookup(topic);
      if |listeners| >= MAX_LISTENER_SIZE {
        return ERR_DH_FWK_PUBLISH_LISTENER_OVER_SIZE;
      }
      publisherListenersCache := publisherListenersCache[topic := listeners + {listener}];
      assert publisherListenersCache == old(publisherListenersCache)[topic := listeners + {listener}];
      return DH_FWK_SUCCESS;
    }

    /** The kit's registration. */
    method RegisterPublisherListener(topic: Topic, listener: Listener) returns (ret: int)
      modifies this, service
      ensures Done(Value(), ret) == Register(old(Value()), topic, listener)
    {
      if !IsTopicValid(topic) {
        return ERR_DH_FWK_PARA_INVALID;
      }
      var proxy := GetDHFWKProxy();
      if proxy != NoProxy {
        ret := service.RegisterPublisherListener(proxy.life, topic, listener);
        if ret == DH_FWK_SUCCESS {
          ret := AddPublisherListenerToCache(topic, listener);
          refused := refused || ret != DH_FWK_SUCCESS;
        }
      } else {
        ret := AddPublisherListenerToCache(topic, listener);
      }
    }

    /** The kit's removal of a registration. */
    method UnregisterPublisherListener(topic: Topic, listener: Listener) returns (ret: int)
      modifies this, service
      ensures Done(Value(), ret) == Unregister(old(Value()), topic, listener)
    {
      if !IsTopicValid(topic) {
        return ERR_DH_FWK_PARA_INVALID;
      }
      ret := DH_FWK_SUCCESS;
      var proxy := GetDHFWKProxy();
      if proxy != NoProxy {
        ret := service.UnregisterPublisherListener(proxy.life, topic, listener);
      }
      ghost var cache := publisherListenersCache;
      var listeners := Lookup(topic);
      publisherListenersCache := publisherListenersCache[topic := listeners - {listener}];
      assert publisherListenersCache == cache[topic := listeners - {listener}];
    }

    method OnRemoveSystemAbility()
      modifies this
      ensures Value() == OnRemove(old(Value()))
    {
      dhfwkProxy := NoProxy;
    }

    /** Registers every cached pair again, topic by topic, then the engines' callbacks, whose
        answers are given. The result reports only on the callbacks: a publisher listener
        that could not be registered leaves it unchanged. */
    method RestoreListener(callbackAnswers: seq<int>) returns (ret: int)
      modifies this, service
      ensures Value() == OnAdd(old(Value()))
      ensures ret == DH_FWK_SUCCESS <==> ReportsSuccess(old(Value()), callbackAnswers)
    {
      var proxy := GetDHFWKProxy();
      if proxy == NoProxy {
        return ERR_DH_FWK_POINTER_IS_NULL;
      }
      ret := RestorePublishers(proxy.life);
      restored := restored || (service.up && proxy.life == service.life);
      ret := RestoreCallbacks(callbackAnswers, ret);
    }

    /** The first restore loop, over the cached topics. */
    method RestorePublishers(proxyLife: nat) returns (ret: int)
      modifies service`registered
      ensures service.registered == old(service.registered)
        + (if service.up && proxyLife == service.life then Pairs(publisherListenersCache) else {})
      ensures ret == DH_FWK_SUCCESS
    {
      ret := DH_FWK_SUCCESS;
      var cache := publisherListenersCache;
      PairsOutsideNone(cache);
      var topics := cache.Keys;
      while topics != {}
        invariant topics <= cache.Keys && ret == DH_FWK_SUCCESS
        invariant service.registered == old(service.registered)
          + (if service.up && proxyLife == service.life then PairsOutside(cache, topics) else {})
        decreases |topics|
      {
        ghost var some := SomeElement(topics);
        var topic :| topic in topics;
        PairsOutsideStep(cache, topics, topic);
        ret := RestoreTopic(proxyLife, topic, cache[topic], ret);
        topics := topics - {topic};
      }
    }

    /** The inner loop, over the listeners of one topic. */
    method RestoreTopic(proxyLife: nat, topic: Topic, listeners: set<Listener>, before: int) returns (ret: int)
      modifies service`registered
      ensures service.registered == old(service.registered)
        + (if service.up && proxyLife == service.life then TopicPairs(topic, listeners) else {})
      ensures before == DH_FWK_SUCCESS ==> ret == DH_FWK_SUCCESS
    {
      ret := before;
      var left := listeners;
      while left != {}
        invariant left <= listeners
        invariant before == DH_FWK_SUCCESS ==> ret == DH_FWK_SUCCESS
        invariant service.registered == old(service.registered)
          + (if service.up && proxyLife == service.life then TopicPairs(topic, listeners - left) else {})
        decreases |left|
      {
        ghost var some := SomeElement(left);
        var l :| l in left;
        TopicPairsStep(topic, listeners, left, l);
        var innerRet := service.RegisterPublisherListener(proxyLife, topic, l);
        if ret != DH_FWK_SUCCESS {
          ret := innerRet;
        }
        left := left - {l};
      }
    }
  }

  /** The cached pairs whose topic is not in `topics`. */
  ghost function PairsOutside(cache: Cache, topics: set<Topic>): set<(Topic, Listener)> {
    set t, l | t in cache && t !in topics && l in cache[t] :: (t, l)
  }

  ghost function TopicPairs(topic: Topic, listeners: set<Listener>): set<(Topic, Listener)> {
    set l | l in listeners :: (topic, l)
  }

  lemma TopicPairsStep(topic: Topic, listeners: set<Listener>, left: set<Listener>, l: Listener)
    requires l in left && left <= listeners
    ensures TopicPairs(topic, listeners - (left - {l})) == TopicPairs(topic, listeners - left) + {(topic, l)}
  {
  }

  lemma PairsOutsideNone(cache: Cache)
    ensures PairsOutside(cache, {}) == Pairs(cache) && PairsOutside(cache, cache.Keys) == {}
  {
  }

  lemma PairsOutsideStep(cache: Cache, topics: set<Topic>, topic: Topic)
    requires topic in topics && topic in cache
    ensures PairsOutside(cache, topics - {topic})
         == PairsOutside(cache, topics) + TopicPairs(topic, cache[topic])
  {
  }
}
