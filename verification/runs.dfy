/** Runs of a state machine: a list of actions, each of which must be possible where it is taken. */
module Runs {
  import opened Wrappers

  /** The state after a list of actions, or None if one of them is not possible. */
  function Exec<S, A>(next: (S, A) -> Option<S>, s: S, actions: seq<A>): Option<S> {
    if actions == [] then Some(s) else
      var last := |actions| - 1;
      var before := Exec(next, s, actions[..last]);
      if before.Some? then next(before.value, actions[last]) else None
  }

  /** One action more. */
  lemma {:induction false} Extend<S, A>(next: (S, A) -> Option<S>, s: S, actions: seq<A>, a: A)
    ensures Exec(next, s, actions + [a]) == if Exec(next, s, actions).Some? then next(Exec(next, s, actions).value, a)
      else None
  {
    assert (actions + [a])[..|actions|] == actions;
  }

  /** The same, with the longer list and its end. */
  lemma {:induction false} Then<S, A>(next: (S, A) -> Option<S>, start: S, actions: seq<A>, a: A, mid: S)
    returns (more: seq<A>, after: S)
    requires Exec(next, start, actions) == Some(mid) && next(mid, a).Some?
    ensures next(mid, a) == Some(after) && more == actions + [a] && Exec(next, start, more) == Some(after)
  {
    Extend(next, start, actions, a);
    more, after := actions + [a], next(mid, a).value;
  }

  /** A run goes on where another one ended. */
  lemma {:induction false} Join<S, A>(next: (S, A) -> Option<S>, s: S, first: seq<A>, second: seq<A>)
    ensures Exec(next, s, first + second)
      == if Exec(next, s, first).Some? then Exec(next, Exec(next, s, first).value, second) else None
  {
    if second == [] { assert first + second == first; }
    else {
      var last := |second| - 1;
      assert (first + second)[..|first + second| - 1] == first + second[..last];
      Join(next, s, first, second[..last]);
    }
  }

  /** What the actions of a list say, in order, where they say something; for instance the steps of one call. */
  function Collect<A, B>(say: A -> Option<B>, actions: seq<A>): seq<B> {
    if actions == [] then [] else
      var last := say(actions[|actions| - 1]);
      Collect(say, actions[..|actions| - 1]) + if last.Some? then [last.value] else []
  }

  lemma {:induction false} CollectNext<A, B>(say: A -> Option<B>, actions: seq<A>, a: A)
    ensures Collect(say, actions + [a]) == Collect(say, actions) + if say(a).Some? then [say(a).value] else []
  {
    assert (actions + [a])[..|actions|] == actions;
  }

  /** A run went on from one list to another, and in between the actions said just this. */
  ghost predicate Went<A, B>(say: A -> Option<B>, before: seq<A>, after: seq<A>, said: seq<B>) {
    before <= after && Collect(say, after) == Collect(say, before) + said
  }

  lemma {:induction false} Further<A,
      B>(say: A -> Option<B>, a: seq<A>, b: seq<A>, c: seq<A>, first: seq<B>, second: seq<B>, all: seq<B>)
    requires Went(say, a, b, first) && Went(say, b, c, second) && all == first + second
    ensures Went(say, a, c, all)
  {
  }

  lemma {:induction false} WentNowhere<A, B>(say: A -> Option<B>, a: seq<A>)
    ensures Went(say, a, a, [])
  {
  }

  lemma {:induction false} WentOne<A, B>(say: A -> Option<B>, before: seq<A>, a: A)
    ensures Went(say, before, before + [a], if say(a).Some? then [say(a).value] else [])
  {
    CollectNext(say, before, a);
  }
}
