/** `src/hooks/useDebounce.ts`: a debounced callback.

    The hook keeps one timer. Calling the returned function cancels the timer
    that is still pending, if any, and schedules `fn(...args)` after the delay;
    unmounting cancels the pending timer. Time is not modelled: the timer
    elapsing is the event `Fire`, and a timer that has been cancelled or has
    already fired never fires again. */
module Debounce {
  import opened Wrappers

  /** The arguments of the scheduled call, if a timer is pending, and the
      calls of `fn` made so far, oldest first. */
  datatype State<A> = State(pending: Option<A>, invoked: seq<A>)

  datatype Event<A> = Call(args: A) | Fire | Unmount

  function Initial<A>(): State<A> {
    State(None, [])
  }

  /** The effect of one event on the hook. */
  function Step<A>(s: State<A>, e: Event<A>): (r: State<A>)
    ensures e.Call? ==> r == State(Some(e.args), s.invoked)
    ensures e.Unmount? ==> r == State(None, s.invoked)
    ensures e.Fire? && s.pending.Some? ==> r == State(None, s.invoked + [s.pending.value])
    ensures e.Fire? && s.pending.None? ==> r == s
  {
    match e
    case Call(a) => State(Some(a), s.invoked)
    case Fire =>
      (match s.pending
       case Some(a) => State(None, s.invoked + [a])
       case None => s)
    case Unmount => State(None, s.invoked)
  }

  function Run<A>(s: State<A>, es: seq<Event<A>>): State<A>
    decreases |es|
  {
    if es == [] then s else Step(Run(s, es[..|es| - 1]), es[|es| - 1])
  }

  /** The debounced function together with its hook state. */
  class Debouncer<A> {
    var pending: Option<A>
    var invoked: seq<A>

    function Current(): State<A>
      reads this
    {
      State(pending, invoked)
    }

    /** The first render: no timer yet and no call of `fn`. */
    constructor ()
      ensures Current() == Initial()
    {
      pending := None;
      invoked := [];
    }

    /** The returned function: clear the pending timer, schedule a new one. */
    method Call(a: A)
      modifies this
      ensures Current() == Step(old(Current()), Event.Call(a))
    {
      pending := Some(a);
    }

    /** The delay has elapsed: the scheduled `fn(...args)` runs. */
    method Fire()
      modifies this
      ensures Current() == Step(old(Current()), Event.Fire)
    {
      if pending.Some? {
        invoked := invoked + [pending.value];
        pending := None;
      }
    }

    /** The effect cleanup on unmount clears the pending timer. */
    method Unmount()
      modifies this
      ensures Current() == Step(old(Current()), Event.Unmount)
    {
      pending := None;
    }
  }

  // ---------------------------------------------------------------------

  function Calls<A>(args: seq<A>): (es: seq<Event<A>>)
    ensures |es| == |args|
    ensures forall i :: 0 <= i < |args| ==> es[i] == Event.Call(args[i])
  {
    seq(|args|, i requires 0 <= i < |args| => Event.Call(args[i]))
  }

  function CallCount<A>(es: seq<Event<A>>): nat
    decreases |es|
  {
    if es == [] then 0 else CallCount(es[..|es| - 1]) + (if es[|es| - 1].Call? then 1 else 0)
  }

  function FireCount<A>(es: seq<Event<A>>): nat
    decreases |es|
  {
    if es == [] then 0 else FireCount(es[..|es| - 1]) + (if es[|es| - 1].Fire? then 1 else 0)
  }

  /** The arguments passed by the `Call` events of `es`. */
  function CalledWith<A>(es: seq<Event<A>>): set<A>
    decreases |es|
  {
    if es == [] then {}
    else CalledWith(es[..|es| - 1]) + (if es[|es| - 1].Call? then {es[|es| - 1].args} else {})
  }

  /** A burst of calls leaves only the last one pending and invokes nothing. */
  lemma {:induction false} BurstKeepsLast<A>(s: State<A>, args: seq<A>)
    requires |args| > 0
    ensures Run(s, Calls(args)) == State(Some(args[|args| - 1]), s.invoked)
    decreases |args|
  {
    var es := Calls(args);
    var n := |args|;
    if n > 1 {
      BurstKeepsLast(s, args[..n - 1]);
      assert es[..n - 1] == Calls(args[..n - 1]);
    } else {
      assert es[..0] == [];
    }
  }

  /** Debouncing: after a burst of calls, the timer fires `fn` once, with the
      arguments of the last call only. */
  lemma LastCallWins<A>(s: State<A>, args: seq<A>)
    requires |args| > 0
    ensures Run(s, Calls(args) + [Fire]) == State(None, s.invoked + [args[|args| - 1]])
  {
    var es := Calls(args) + [Fire];
    assert es[..|es| - 1] == Calls(args);
    BurstKeepsLast(s, args);
  }

  /** Unmounting cancels the pending call: a later timer event invokes nothing. */
  lemma UnmountCancels<A>(s: State<A>)
    ensures Step(Step(s, Unmount), Fire).invoked == s.invoked
    ensures Step(Step(s, Unmount), Fire).pending == None
  {
  }

  /** No unmount guard: a call after unmount still schedules `fn`. */
  lemma CallAfterUnmount<A>(s: State<A>, a: A)
    ensures Run(s, [Unmount, Event.Call(a), Fire]).invoked == s.invoked + [a]
  {
    var es: seq<Event<A>> := [Unmount, Event.Call(a), Fire];
    assert es[..2][..1] == [Unmount];
    assert es[..2][..1][..0] == [];
    assert es[..2] == [Unmount, Event.Call(a)];
    var one: seq<Event<A>> := [Unmount];
    assert one[..0] == [];
    assert Run(s, one[..0]) == s;
    var s1 := Run(s, one);
    assert s1 == Step(s, Unmount) == State(None, s.invoked);
    var s2 := Run(s, es[..2]);
    assert s2 == Step(s1, Event.Call(a)) == State(Some(a), s.invoked);
    assert Run(s, es) == Step(s2, Fire);
  }

  /** The history only grows, and `fn` runs at most once per timer event and
      at most once per call (plus the call already pending at the start). */
  lemma {:induction false} InvocationsBounded<A>(s: State<A>, es: seq<Event<A>>)
    ensures s.invoked <= Run(s, es).invoked
    ensures |Run(s, es).invoked| <= |s.invoked| + FireCount(es)
    ensures |Run(s, es).invoked| + (if Run(s, es).pending.Some? then 1 else 0)
         <= |s.invoked| + (if s.pending.Some? then 1 else 0) + CallCount(es)
    decreases |es|
  {
    if es != [] {
      InvocationsBounded(s, es[..|es| - 1]);
    }
  }

  /** Every argument `fn` received was passed by some call (or was already
      pending at the start). */
  lemma {:induction false} InvokedWereCalled<A>(s: State<A>, es: seq<Event<A>>)
    ensures forall i :: |s.invoked| <= i < |Run(s, es).invoked| ==>
      Run(s, es).invoked[i] in CalledWith(es) || Some(Run(s, es).invoked[i]) == s.pending
    ensures Run(s, es).pending.Some? ==>
      Run(s, es).pending.value in CalledWith(es) || Run(s, es).pending == s.pending
    decreases |es|
  {
    if es != [] {
      InvocationsBounded(s, es[..|es| - 1]);
      InvokedWereCalled(s, es[..|es| - 1]);
    }
  }

  /** From the first render, `fn` never runs more often than it was called. */
  lemma FromInitial<A>(es: seq<Event<A>>)
    ensures |Run(Initial(), es).invoked| <= CallCount(es)
    ensures forall i :: 0 <= i < |Run(Initial(), es).invoked| ==> Run(Initial(), es).invoked[i] in CalledWith(es)
  {
    InvocationsBounded(Initial(), es);
    InvokedWereCalled(Initial(), es);
  }

  /** The class follows the event semantics: a burst of two calls and a timer. */
  method Example()
  {
    var d := new Debouncer<int>();
    d.Call(1);
    d.Call(2);
    d.Fire();
    d.Fire();
    assert d.invoked == [2];
  }
}
