// The promise-queue mutex of client_app/src/lib/mutex/mutex.ts.
//
// One call of lock() is one Task. A call that finds the mutex taken parks its
// resolver; unlock() resolves the oldest parked call but leaves isLocked set, and
// the resolved call goes on only when the event loop gets to it. The class below
// is the source's object; World adds what the event loop knows: which calls own
// the mutex, which have been woken but have not gone on yet, and in which order
// calls were made and served. All interleavings of the three events are covered.
module PromiseMutex {
  import opened RouterTypes

  type Task = nat

  datatype Lock = Lock(isLocked: bool, queue: seq<Task>)

  function Entered(m: Lock, t: Task): Lock {
    if m.isLocked then m.(queue := m.queue + [t]) else m.(isLocked := true)
  }

  function Left(m: Lock): Lock {
    if m.queue != [] then m.(queue := m.queue[1..]) else m.(isLocked := false)
  }

  class Mutex {
    var isLocked: bool
    var queue: seq<Task>

    constructor ()
      ensures State() == Lock(false, [])
    {
      isLocked, queue := false, [];
    }

    function State(): Lock
      reads this
    {
      Lock(isLocked, queue)
    }

    /** lock() up to its await: either the caller has the mutex, or it is parked. */
    method Enter(t: Task) returns (parked: bool)
      modifies this
      ensures State() == Entered(old(State()), t)
      ensures parked == old(isLocked)
    {
      parked := isLocked;
      if isLocked {
        queue := queue + [t];
        return;
      }
      isLocked := true;
    }

    /** lock() after its await. */
    method GoOn()
      modifies this
      ensures State() == old(State()).(isLocked := true)
    {
      isLocked := true;
    }

    /** unlock(); the result is the call whose promise it resolves. */
    method Unlock() returns (woken: Option<Task>)
      modifies this
      ensures State() == Left(old(State()))
      ensures woken == if old(queue) == [] then None else Some(old(queue)[0])
    {
      woken := None;
      if |queue| > 0 {
        woken := Some(queue[0]);
        queue := queue[1..];
      } else {
        isLocked := false;
      }
    }
  }

  // ---- All interleavings ----

  datatype Event = Call(task: Task) | Unlock(task: Task) | Resume(task: Task)

  // `called` and `served` list the calls in the order they were made and given the
  // mutex; a woken call counts as served although it has not gone on yet.
  datatype World = World(lock: Lock, woken: set<Task>, holders: set<Task>, called: seq<Task>, served: seq<Task>)

  const INITIAL := World(Lock(false, []), {}, {}, [], [])

  function Owners(w: World): set<Task> {
    w.woken + w.holders
  }

  // Callers unlock only what they hold, and each call of lock() is a new task.
  predicate Enabled(w: World, e: Event) {
    match e
    case Call(t) => t !in w.called
    case Unlock(t) => t in w.holders
    case Resume(t) => t in w.woken
  }

  function Next(w: World, e: Event): World {
    match e
    case Call(t) =>
      var w' := w.(lock := Entered(w.lock, t), called := w.called + [t]);
      if w.lock.isLocked then w' else w'.(holders := w.holders + {t}, served := w.served + [t])
    case Unlock(t) =>
      var w' := w.(lock := Left(w.lock), holders := w.holders - {t});
      if w.lock.queue == [] then w'
      else w'.(woken := w.woken + {w.lock.queue[0]}, served := w.served + [w.lock.queue[0]])
    case Resume(t) =>
      w.(lock := w.lock.(isLocked := true), woken := w.woken - {t}, holders := w.holders + {t})
  }

  predicate Legal(w: World, es: seq<Event>)
    decreases |es|
  {
    es == [] || (Enabled(w, es[0]) && Legal(Next(w, es[0]), es[1..]))
  }

  function After(w: World, es: seq<Event>): World
    requires Legal(w, es)
    decreases |es|
  {
    if es == [] then w else After(Next(w, es[0]), es[1..])
  }

  function Unlocks(es: seq<Event>): nat {
    if es == [] then 0 else (if es[0].Unlock? then 1 else 0) + Unlocks(es[1..])
  }

  function Calls(es: seq<Event>): seq<Task> {
    if es == [] then [] else (if es[0].Call? then [es[0].task] else []) + Calls(es[1..])
  }

  predicate Distinct(s: seq<Task>) {
    forall i, j :: 0 <= i < j < |s| ==> s[i] != s[j]
  }

  // What every step keeps. The only possible owner is the last call served, the
  // flag says whether there is one, and the calls made are those served followed by
  // those parked, in order. `unlocks` counts the unlocks so far.
  predicate Inv(w: World, unlocks: nat) {
    && Distinct(w.called)
    && w.called == w.served + w.lock.queue
    && w.woken !! w.holders
    && (w.lock.isLocked ==> |w.served| == unlocks + 1 && Owners(w) == {w.served[unlocks]})
    && (!w.lock.isLocked ==> |w.served| == unlocks && Owners(w) == {} && w.lock.queue == [])
  }

  lemma StepKeeps(w: World, e: Event, unlocks: nat)
    requires Inv(w, unlocks) && Enabled(w, e)
    ensures Inv(Next(w, e), unlocks + Unlocks([e]))
  {
    var w' := Next(w, e);
    assert [e][1..] == [];
    if e.Unlock? || e.Resume? {
      assert e.task in Owners(w);
    }
    if e.Unlock? && w.lock.queue != [] {
      assert w.lock.queue == [w.lock.queue[0]] + w.lock.queue[1..];
      assert w'.called == w'.served + w'.lock.queue;
      assert w.called[|w.served|] == w.lock.queue[0] && w.called[unlocks] == w.served[unlocks];
    }
  }

  lemma {:induction false} RunKeeps(w: World, es: seq<Event>, unlocks: nat)
    requires Inv(w, unlocks) && Legal(w, es)
    ensures Inv(After(w, es), unlocks + Unlocks(es))
    decreases |es|
  {
    if es != [] {
      StepKeeps(w, es[0], unlocks);
      var step := Unlocks([es[0]]);
      assert Unlocks(es) == step + Unlocks(es[1..]) by {
        assert [es[0]][1..] == [];
      }
      RunKeeps(Next(w, es[0]), es[1..], unlocks + step);
    }
  }

  lemma {:induction false} CallsAreLogged(w: World, es: seq<Event>)
    requires Legal(w, es)
    ensures After(w, es).called == w.called + Calls(es)
    decreases |es|
  {
    if es == [] {
      assert w.called + [] == w.called;
    } else {
      var first := if es[0].Call? then [es[0].task] else [];
      assert Next(w, es[0]).called == w.called + first;
      CallsAreLogged(Next(w, es[0]), es[1..]);
      assert w.called + first + Calls(es[1..]) == w.called + (first + Calls(es[1..]));
    }
  }

  /** Mutual exclusion, an exact flag, and no parked call without an owner, after every run. */
  lemma AtMostOneOwner(es: seq<Event>)
    requires Legal(INITIAL, es)
    ensures var w := After(INITIAL, es);
            && |Owners(w)| <= 1
            && w.woken !! w.holders
            && (!w.lock.isLocked <==> Owners(w) == {})
            && (w.lock.queue != [] ==> Owners(w) != {})
  {
    RunKeeps(INITIAL, es, 0);
    var w := After(INITIAL, es);
    if w.lock.isLocked {
      assert w.served[Unlocks(es)] in Owners(w);
    }
  }

  /** Hand-off is first come, first served: those served, then those parked, in calling order. */
  lemma ServedInCallingOrder(es: seq<Event>)
    requires Legal(INITIAL, es)
    ensures var w := After(INITIAL, es);
            && w.served + w.lock.queue == Calls(es)
            && |w.served| == Unlocks(es) + |Owners(w)|
            && (forall t <- Owners(w) :: w.served != [] && t == w.served[|w.served| - 1])
  {
    RunKeeps(INITIAL, es, 0);
    CallsAreLogged(INITIAL, es);
    assert INITIAL.called + Calls(es) == Calls(es);
  }

  // Where the call made p-th stands, by its number alone.
  lemma StandingByNumber(w: World, unlocks: nat, p: nat)
    requires Inv(w, unlocks) && p < |w.called|
    ensures w.called[p] in Owners(w) <==> p == unlocks && w.lock.isLocked
    ensures p >= |w.served| ==> w.called[p] == w.lock.queue[p - |w.served|]
    ensures p < |w.served| ==> w.called[p] !in w.lock.queue
  {
    var t := w.called[p];
    if w.lock.isLocked {
      assert w.served[unlocks] == w.called[unlocks];
    }
    forall j | 0 <= j < |w.lock.queue| && p < |w.served|
      ensures w.lock.queue[j] != t
    {
      assert w.lock.queue[j] == w.called[|w.served| + j];
    }
  }

  /**
    * A call parked at position k moves up one place at each unlock, owns the mutex after
    * exactly k + 1 of them and keeps it until the next, whatever else happens in between.
    */
  lemma WaiterOwnsAfterItsTurn(es: seq<Event>, k: nat, later: seq<Event>)
    requires Legal(INITIAL, es) && k < |After(INITIAL, es).lock.queue|
    requires Legal(After(INITIAL, es), later)
    ensures var t := After(INITIAL, es).lock.queue[k];
            var w := After(After(INITIAL, es), later);
            var n := Unlocks(later);
            && (n <= k ==> k - n < |w.lock.queue| && w.lock.queue[k - n] == t)
            && (n <= k ==> t !in Owners(w))
            && (n == k + 1 ==> Owners(w) == {t})
            && (n > k + 1 ==> t !in Owners(w) && t !in w.lock.queue)
  {
    var u := Unlocks(es);
    RunKeeps(INITIAL, es, 0);
    var before := After(INITIAL, es);
    RunKeeps(before, later, u);
    CallsAreLogged(before, later);
    var w := After(before, later);
    var n := Unlocks(later);
    var t := before.lock.queue[k];
    assert before.called[u + 1 + k] == t;
    assert w.called[u + 1 + k] == t;
    StandingByNumber(w, u + n, u + 1 + k);
  }

  /**
    * Unlocking only what one holds is needed: when anyone else unlocks a held mutex with
    * nobody parked, the next call of lock() becomes a second owner.
    */
  lemma StrayUnlockAdmitsTwo(w: World, unlocks: nat, t: Task)
    requires Inv(w, unlocks) && w.lock.isLocked && w.lock.queue == [] && t !in w.called
    ensures |Owners(Next(w.(lock := Left(w.lock)), Call(t)))| == 2
  {
    var owner := w.served[unlocks];
    assert owner == w.called[unlocks];
    assert Owners(Next(w.(lock := Left(w.lock)), Call(t))) == {owner, t};
  }
}
