/**
 * The bounded blocking queue under every interleaving of its threads. A critical section, from
 * taking the mutex to releasing it or going to sleep, is one step; `close` signals outside of it.
 */
module BlockingQueue {
  import opened Types

  /** Where a thread stands: outside, before its critical section, asleep, or awakened to try again. */
  datatype Thread<T> =
    | Outside
    | WantsPush(value: T) | SleepsPush(value: T) | WakesPush(value: T)
    | WantsPop | SleepsPop | WakesPop
    | WantsClose | ClosedSignalsBoth | ClosedSignalsProducers

  /** `accepted`, `popped`, `refused` and `emptyHanded` record what the calls returned. */
  datatype State<T> = State(
    queue: seq<T>, closed: bool, threads: map<nat, Thread<T>>,
    accepted: seq<T>, popped: seq<T>, refused: nat, emptyHanded: nat)

  datatype Action<T> =
    | CallPush(t: nat, value: T) | CallPop(t: nat) | CallClose(t: nat)
    | TryPush(t: nat, wakes: Option<nat>) | TryPop(t: nat, wakes: Option<nat>)
    | SetClosed(t: nat) | SignalConsumers(t: nat) | SignalProducers(t: nat)
    | Spurious(t: nat)

  // ---- the steps ----------------------------------------------------------------------------

  ghost predicate Sleeper<T>(s: State<T>, t: nat, consumer: bool) {
    t in s.threads && if consumer then s.threads[t].SleepsPop? else s.threads[t].SleepsPush?
  }

  /** `notify_one` wakes some sleeper, if there is one. */
  ghost predicate MayWake<T>(s: State<T>, wakes: Option<nat>, consumer: bool) {
    match wakes
    case Some(w) => Sleeper(s, w, consumer)
    case None => forall w :: !Sleeper(s, w, consumer)
  }

  function Woken<T>(th: Thread<T>): Thread<T> {
    match th
    case SleepsPush(v) => WakesPush(v)
    case SleepsPop => WakesPop
    case _ => th
  }

  function At<T>(threads: map<nat, Thread<T>>, t: nat): Thread<T> {
    if t in threads then threads[t] else Outside
  }

  function WakeOne<T>(threads: map<nat, Thread<T>>, wakes: Option<nat>): map<nat, Thread<T>> {
    if wakes.Some? then threads[wakes.value := Woken(At(threads, wakes.value))] else threads
  }

  function WakeAll<T>(threads: map<nat, Thread<T>>, consumer: bool): map<nat, Thread<T>> {
    map t | t in threads :: if threads[t].SleepsPop? == consumer then Woken(threads[t]) else threads[t]
  }

  ghost predicate Enabled<T>(s: State<T>, a: Action<T>, capacity: nat) {
    match a
    case CallPush(t, _) => At(s.threads, t).Outside?
    case CallPop(t) => At(s.threads, t).Outside?
    case CallClose(t) => At(s.threads, t).Outside?
    case TryPush(t, wakes) =>
      && (At(s.threads, t).WantsPush? || At(s.threads, t).WakesPush?)
      && (!s.closed && |s.queue| < capacity ==> MayWake(s, wakes, true))
    case TryPop(t, wakes) =>
      && (At(s.threads, t).WantsPop? || At(s.threads, t).WakesPop?)
      && (s.queue != [] ==> MayWake(s, wakes, false))
    case SetClosed(t) => At(s.threads, t).WantsClose?
    case SignalConsumers(t) => At(s.threads, t).ClosedSignalsBoth?
    case SignalProducers(t) => At(s.threads, t).ClosedSignalsProducers?
    case Spurious(t) => At(s.threads, t).SleepsPush? || At(s.threads, t).SleepsPop?
  }

  ghost function Apply<T>(s: State<T>, a: Action<T>, capacity: nat): State<T>
    requires Enabled(s, a, capacity)
  {
    match a
    case CallPush(t, v) =>
      if capacity == 0 then s.(refused := s.refused + 1)
      else s.(threads := s.threads[t := WantsPush(v)])
    case CallPop(t) => s.(threads := s.threads[t := WantsPop])
    case CallClose(t) => s.(threads := s.threads[t := WantsClose])
    case TryPush(t, wakes) =>
      var v := At(s.threads, t).value;
      if s.closed then s.(threads := s.threads[t := Outside], refused := s.refused + 1)
      else if |s.queue| < capacity then
        s.(queue := s.queue + [v], accepted := s.accepted + [v], threads := WakeOne(s.threads, wakes)[t := Outside])
      else s.(threads := s.threads[t := SleepsPush(v)])
    case TryPop(t, wakes) =>
      if s.queue != [] then
        s.(queue := s.queue[1..], popped := s.popped + [s.queue[0]], threads := WakeOne(s.threads, wakes)[t := Outside])
      else if s.closed then s.(threads := s.threads[t := Outside], emptyHanded := s.emptyHanded + 1)
      else s.(threads := s.threads[t := SleepsPop])
    case SetClosed(t) => s.(closed := true, threads := s.threads[t := ClosedSignalsBoth])
    case SignalConsumers(t) => s.(threads := WakeAll(s.threads, true)[t := ClosedSignalsProducers])
    case SignalProducers(t) => s.(threads := WakeAll(s.threads, false)[t := Outside])
    case Spurious(t) => s.(threads := WakeOne(s.threads, Some(t)))
  }

  function Fresh<T>(): State<T> {
    State([], false, map[], [], [], 0, 0)
  }

  // ---- counting threads ---------------------------------------------------------------------

  /** Roles that matter to wakeups: on one side awake or asleep, or about to signal it for good. */
  datatype Role = Awake(consumer: bool) | Asleep(consumer: bool) | Signals(consumer: bool)

  predicate Plays<T>(th: Thread<T>, role: Role) {
    match role
    case Awake(c) => if c then th.WakesPop? else th.WakesPush?
    case Asleep(c) => if c then th.SleepsPop? else th.SleepsPush?
    case Signals(c) => th.ClosedSignalsBoth? || (!c && th.ClosedSignalsProducers?)
  }

  ghost function Those<T>(threads: map<nat, Thread<T>>, role: Role): set<nat> {
    set t | t in threads && Plays(threads[t], role)
  }

  ghost function Count<T>(threads: map<nat, Thread<T>>, role: Role): nat {
    |Those(threads, role)|
  }

  /** What the side waits for: items for consumers, free places for producers. */
  function Wanted<T>(s: State<T>, capacity: nat, consumer: bool): int {
    if consumer then |s.queue| else capacity - |s.queue|
  }

  // ---- the invariant ------------------------------------------------------------------------

  /** While open, a sleeping thread means that enough awakened ones are on their way. */
  ghost predicate NoLostWakeup<T>(s: State<T>, capacity: nat, consumer: bool) {
    !s.closed && Count(s.threads, Asleep(consumer)) > 0 ==>
      Count(s.threads, Awake(consumer)) >= Wanted(s, capacity, consumer)
  }

  /** Once closed, a sleeping thread means that a signal to all is still to come. */
  ghost predicate NoForgotten<T>(s: State<T>, consumer: bool) {
    s.closed && Count(s.threads, Asleep(consumer)) > 0 ==> Count(s.threads, Signals(consumer)) > 0
  }

  ghost predicate SignalsOnlyClosed<T>(s: State<T>) {
    !s.closed ==> Count(s.threads, Signals(true)) == 0 && Count(s.threads, Signals(false)) == 0
  }

  ghost predicate Inv<T>(s: State<T>, capacity: nat) {
    && s.popped + s.queue == s.accepted
    && |s.queue| <= capacity
    && NoLostWakeup(s, capacity, true) && NoLostWakeup(s, capacity, false)
    && NoForgotten(s, true) && NoForgotten(s, false)
    && SignalsOnlyClosed(s)
  }

  lemma FreshInv<T>(capacity: nat)
    ensures Inv(Fresh<T>(), capacity)
  {
    var none: map<nat, Thread<T>> := map[];
    assert forall role :: Those(none, role) == {};
  }

  function Part<T>(th: Thread<T>, role: Role): int {
    if Plays(th, role) then 1 else 0
  }

  lemma OutsidePlaysNothing<T>(role: Role)
    ensures !Plays<T>(Outside, role)
  {
  }

  lemma OthersStay<T>(threads: map<nat, Thread<T>>, t: nat, th: Thread<T>, role: Role)
    ensures Those(threads[t := th], role) - {t} == Those(threads, role) - {t}
    ensures t in Those(threads[t := th], role) <==> Plays(th, role)
    ensures t in Those(threads, role) <==> Plays(At(threads, t), role)
  {
    OutsidePlaysNothing<T>(role);
    hide Plays;
  }

  /** One thread moves: the count of a role changes by that thread's part in it. */
  lemma Moves<T>(threads: map<nat, Thread<T>>, t: nat, th: Thread<T>, role: Role)
    ensures Count(threads[t := th], role) == Count(threads, role) - Part(At(threads, t), role) + Part(th, role)
    ensures Plays(At(threads, t), role) ==> Count(threads, role) > 0
  {
    OthersStay(threads, t, th, role);
    hide Plays, Those;
    WithoutOne(Those(threads, role), t);
    WithoutOne(Those(threads[t := th], role), t);
  }

  lemma WithoutOne(a: set<nat>, t: nat)
    ensures |a - {t}| == |a| - if t in a then 1 else 0
  {
    if t in a {
      assert a == (a - {t}) + {t};
    } else {
      assert a == a - {t};
    }
  }

  lemma NoneAsleep<T>(s: State<T>, consumer: bool)
    requires forall w :: !Sleeper(s, w, consumer)
    ensures Count(s.threads, Asleep(consumer)) == 0
  {
    forall w: nat ensures w !in Those(s.threads, Asleep(consumer)) {
      assert !Sleeper(s, w, consumer);
    }
    assert Those(s.threads, Asleep(consumer)) == {};
  }

  /** A signal to one side wakes all its sleepers, and nothing else. */
  lemma AllWoken<T>(threads: map<nat, Thread<T>>, side: bool, consumer: bool)
    ensures var now := WakeAll(threads, side);
            && Count(now, Asleep(consumer)) == (if consumer == side then 0 else Count(threads, Asleep(consumer)))
            && Count(now, Signals(consumer)) == Count(threads, Signals(consumer))
  {
    var now := WakeAll(threads, side);
    if consumer == side {
      assert Those(now, Asleep(consumer)) == {};
    } else {
      assert Those(now, Asleep(consumer)) == Those(threads, Asleep(consumer));
    }
    assert Those(now, Signals(consumer)) == Those(threads, Signals(consumer));
  }

  // ---- every step keeps it ------------------------------------------------------------------

  /** One thread moves: every count that the invariant names. */
  lemma MovesAll<T>(threads: map<nat, Thread<T>>, t: nat, th: Thread<T>, consumer: bool)
    ensures var now := threads[t := th];
            var was := At(threads, t);
            && Count(now, Awake(consumer))
               == Count(threads, Awake(consumer)) - Part(was, Awake(consumer)) + Part(th, Awake(consumer))
            && Count(now, Asleep(consumer))
               == Count(threads, Asleep(consumer)) - Part(was, Asleep(consumer)) + Part(th, Asleep(consumer))
            && Count(now, Signals(consumer))
               == Count(threads, Signals(consumer)) - Part(was, Signals(consumer)) + Part(th, Signals(consumer))
            && (Plays(was, Signals(consumer)) ==> Count(threads, Signals(consumer)) > 0)
            && (Plays(was, Asleep(consumer)) ==> Count(threads, Asleep(consumer)) > 0)
  {
    hide Count, Part, Plays;
    Moves(threads, t, th, Awake(consumer));
    Moves(threads, t, th, Asleep(consumer));
    Moves(threads, t, th, Signals(consumer));
  }

  lemma CallStep<T>(s: State<T>, a: Action<T>, capacity: nat)
    requires Inv(s, capacity) && Enabled(s, a, capacity)
    requires a.CallPush? || a.CallPop? || a.CallClose?
    ensures Inv(Apply(s, a, capacity), capacity)
  {
    hide Count;
    var th := match a case CallPush(_, v) => WantsPush(v) case CallPop(_) => WantsPop case _ => WantsClose;
    MovesAll(s.threads, a.t, th, true);
    MovesAll(s.threads, a.t, th, false);
  }

  /** Waking one sleeper of a side: none was asleep, or one more is awake. */
  lemma WakeCounts<T>(s: State<T>, wakes: Option<nat>, consumer: bool)
    requires MayWake(s, wakes, consumer)
    ensures var now := WakeOne(s.threads, wakes);
            var woken := if wakes.Some? then 1 else 0;
            && Count(now, Awake(consumer)) == Count(s.threads, Awake(consumer)) + woken
            && Count(now, Asleep(consumer)) == Count(s.threads, Asleep(consumer)) - woken
            && (woken == 0 ==> Count(s.threads, Asleep(consumer)) == 0)
            && Count(now, Awake(!consumer)) == Count(s.threads, Awake(!consumer))
            && Count(now, Asleep(!consumer)) == Count(s.threads, Asleep(!consumer))
            && Count(now, Signals(true)) == Count(s.threads, Signals(true))
            && Count(now, Signals(false)) == Count(s.threads, Signals(false))
  {
    hide Count;
    match wakes
    case None => NoneAsleep(s, consumer);
    case Some(w) =>
      var th := Woken(At(s.threads, w));
      assert Sleeper(s, w, consumer);
      MovesAll(s.threads, w, th, consumer);
      MovesAll(s.threads, w, th, !consumer);
  }

  /** A successful try: one sleeper of the other side is woken, and the thread leaves. */
  lemma TryCounts<T>(s: State<T>, t: nat, wakes: Option<nat>, consumer: bool)
    requires MayWake(s, wakes, consumer)
    requires var th := At(s.threads, t);
             if consumer then th.WantsPush? || th.WakesPush? else th.WantsPop? || th.WakesPop?
    ensures var now := WakeOne(s.threads, wakes)[t := Outside];
            && (Count(s.threads, Asleep(consumer)) > 0 ==>
                Count(now, Awake(consumer)) >= Count(s.threads, Awake(consumer)) + 1)
            && Count(now, Asleep(consumer)) <= Count(s.threads, Asleep(consumer))
            && Count(now, Awake(!consumer)) >= Count(s.threads, Awake(!consumer)) - 1
            && Count(now, Asleep(!consumer)) == Count(s.threads, Asleep(!consumer))
            && Count(now, Signals(true)) == Count(s.threads, Signals(true))
            && Count(now, Signals(false)) == Count(s.threads, Signals(false))
  {
    var mid := WakeOne(s.threads, wakes);
    WakeCounts(s, wakes, consumer);
    assert At(mid, t) == At(s.threads, t);
    hide Count, WakeOne, MayWake;
    MovesAll(mid, t, Outside, consumer);
    MovesAll(mid, t, Outside, !consumer);
  }

  /** A push that goes in: one sleeping consumer, if any, is on its way to the new item. */
  lemma PushStep<T>(s: State<T>, t: nat, wakes: Option<nat>, capacity: nat)
    requires Inv(s, capacity) && Enabled(s, TryPush(t, wakes), capacity) && !s.closed && |s.queue| < capacity
    ensures Inv(Apply(s, TryPush(t, wakes), capacity), capacity)
  {
    TryCounts(s, t, wakes, true);
    hide Count, WakeOne, MayWake;
    assert (s.popped + s.queue) + [At(s.threads, t).value] == s.popped + (s.queue + [At(s.threads, t).value]);
  }

  lemma PopStep<T>(s: State<T>, t: nat, wakes: Option<nat>, capacity: nat)
    requires Inv(s, capacity) && Enabled(s, TryPop(t, wakes), capacity) && s.queue != []
    ensures Inv(Apply(s, TryPop(t, wakes), capacity), capacity)
  {
    TryCounts(s, t, wakes, false);
    hide Count, WakeOne, MayWake;
    assert s.queue == [s.queue[0]] + s.queue[1..];
    assert (s.popped + [s.queue[0]]) + s.queue[1..] == s.popped + s.queue;
  }

  /** A try that finds no room or no item: back to sleep, or out if closed. */
  lemma OtherTries<T>(s: State<T>, a: Action<T>, capacity: nat)
    requires Inv(s, capacity) && Enabled(s, a, capacity)
    requires (a.TryPush? && (s.closed || |s.queue| >= capacity)) || (a.TryPop? && s.queue == [])
    ensures Inv(Apply(s, a, capacity), capacity)
  {
    var th := At(Apply(s, a, capacity).threads, a.t);
    hide Count, WakeOne, MayWake;
    MovesAll(s.threads, a.t, th, true);
    MovesAll(s.threads, a.t, th, false);
  }

  lemma CloseStep<T>(s: State<T>, a: Action<T>, capacity: nat)
    requires Inv(s, capacity) && Enabled(s, a, capacity)
    requires a.SetClosed? || a.SignalConsumers? || a.SignalProducers?
    ensures Inv(Apply(s, a, capacity), capacity)
  {
    var mid := if a.SetClosed? then s.threads else WakeAll(s.threads, a.SignalConsumers?);
    AllWoken(s.threads, a.SignalConsumers?, true);
    AllWoken(s.threads, a.SignalConsumers?, false);
    var th :=
      if a.SetClosed? then ClosedSignalsBoth else if a.SignalConsumers? then ClosedSignalsProducers else Outside;
    assert At(mid, a.t) == At(s.threads, a.t);
    hide Count, WakeAll;
    MovesAll(mid, a.t, th, true);
    MovesAll(mid, a.t, th, false);
  }

  lemma SpuriousStep<T>(s: State<T>, t: nat, capacity: nat)
    requires Inv(s, capacity) && Enabled(s, Spurious(t), capacity)
    ensures Inv(Apply(s, Spurious(t), capacity), capacity)
  {
    hide Count;
    var consumer := s.threads[t].SleepsPop?;
    assert Sleeper(s, t, consumer);
    WakeCounts(s, Some(t), consumer);
  }

  /** Whatever a thread does next, FIFO order, the bound and the wakeups hold. */
  lemma StepInv<T>(s: State<T>, a: Action<T>, capacity: nat)
    requires Inv(s, capacity) && Enabled(s, a, capacity)
    ensures Inv(Apply(s, a, capacity), capacity)
  {
    match a
    case CallPush(_, _) => CallStep(s, a, capacity);
    case CallPop(_) => CallStep(s, a, capacity);
    case CallClose(_) => CallStep(s, a, capacity);
    case TryPush(t, wakes) =>
      if !s.closed && |s.queue| < capacity { PushStep(s, t, wakes, capacity); } else { OtherTries(s, a, capacity); }
    case TryPop(t, wakes) =>
      if s.queue != [] { PopStep(s, t, wakes, capacity); } else { OtherTries(s, a, capacity); }
    case SetClosed(_) => CloseStep(s, a, capacity);
    case SignalConsumers(_) => CloseStep(s, a, capacity);
    case SignalProducers(_) => CloseStep(s, a, capacity);
    case Spurious(t) => SpuriousStep(s, t, capacity);
  }

  /** A run: from the fresh queue, every action enabled where it happens. */
  ghost predicate Trace<T>(states: seq<State<T>>, actions: seq<Action<T>>, capacity: nat) {
    && |states| == |actions| + 1 && states[0] == Fresh()
    && forall i :: 0 <= i < |actions| ==>
       Enabled(states[i], actions[i], capacity) && states[i + 1] == Apply(states[i], actions[i], capacity)
  }

  /** In every state of every interleaving the invariant holds. */
  lemma {:induction false} TraceInv<T>(states: seq<State<T>>, actions: seq<Action<T>>, capacity: nat, i: nat)
    requires Trace(states, actions, capacity) && i < |states|
    ensures Inv(states[i], capacity)
  {
    if i == 0 {
      FreshInv<T>(capacity);
    } else {
      TraceInv(states, actions, capacity, i - 1);
      StepInv(states[i - 1], actions[i - 1], capacity);
    }
  }

  /** After the close nothing goes in, and what is popped later was accepted before. */
  lemma {:induction false} NothingAfterClose<T>(states: seq<State<T>>, actions: seq<Action<T>>, capacity: nat, i: nat,
                                                j: nat)
    requires Trace(states, actions, capacity) && i <= j < |states| && states[i].closed
    ensures states[j].closed && states[j].accepted == states[i].accepted
    ensures states[i].popped <= states[j].popped <= states[i].accepted
    decreases j
  {
    TraceInv(states, actions, capacity, j);
    if i < j {
      NothingAfterClose(states, actions, capacity, i, j - 1);
      assert Enabled(states[j - 1], actions[j - 1], capacity);
      assert states[j] == Apply(states[j - 1], actions[j - 1], capacity);
    }
  }

  /** What calls return: refusals and empty hands happen only for their reasons, and pops are first in, first out. */
  lemma Returns<T>(s: State<T>, a: Action<T>, capacity: nat)
    requires Inv(s, capacity) && Enabled(s, a, capacity)
    ensures var s' := Apply(s, a, capacity);
            && (s'.refused > s.refused ==> s.closed || capacity == 0)
            && (s'.emptyHanded > s.emptyHanded ==> s.closed && s.queue == [] && s.popped == s.accepted)
            && (s'.popped != s.popped ==> |s.popped| < |s.accepted| && s'.popped == s.accepted[..|s.popped| + 1])
            && (s'.accepted != s.accepted ==> !s.closed && |s.queue| < capacity)
  {
    if a.TryPop? && s.queue != [] {
      assert s.accepted[|s.popped|] == s.queue[0];
    }
  }

  /** No thread can move but by a spurious wakeup or a new call. */
  ghost predicate Stuck<T>(s: State<T>) {
    forall t :: t in s.threads ==> s.threads[t].Outside? || s.threads[t].SleepsPop? || s.threads[t].SleepsPush?
  }

  lemma CountNone<T>(threads: map<nat, Thread<T>>, role: Role)
    requires forall t :: t in threads ==> !Plays(threads[t], role)
    ensures Count(threads, role) == 0
  {
    assert Those(threads, role) == {};
  }

  /**
   * When everybody sleeps, they sleep for a reason: the queue is open, consumers wait because it is
   * empty, producers because it is full; so with room for anything not both sides sleep.
   */
  lemma SleepForAReason<T>(s: State<T>, t: nat, capacity: nat)
    requires Inv(s, capacity) && Stuck(s)
    ensures At(s.threads, t).SleepsPop? ==> !s.closed && s.queue == []
    ensures At(s.threads, t).SleepsPush? ==> !s.closed && |s.queue| == capacity
  {
    CountNone(s.threads, Awake(true));
    CountNone(s.threads, Awake(false));
    CountNone(s.threads, Signals(true));
    CountNone(s.threads, Signals(false));
    hide Count;
    Moves(s.threads, t, Outside, Asleep(true));
    Moves(s.threads, t, Outside, Asleep(false));
  }
}
