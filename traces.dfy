/** Ordered, fallible side effects with early exit.

    Every layer of the driver is a fixed list of effects (pin drives, waits,
    bus writes) carried out in order, where each fallible effect is followed
    by `?`: the first failure aborts the operation and is returned unchanged.
    A plan of effects is run against an environment given as an oracle
    `fails`: the effect issued at position `n` of the whole trace fails
    exactly when it is fallible and `fails(n)` holds. A failing effect is
    still issued (the pin or the bus was asked), and nothing after it is. */
module Traces {

  /** The effects issued when `plan` is run from trace position `n`. */
  function Run<E>(fallible: E -> bool, fails: nat -> bool, n: nat, plan: seq<E>): (issued: seq<E>)
    ensures issued <= plan
    ensures plan != [] ==> issued != [] && issued[0] == plan[0]
    decreases |plan|
  {
    if plan == [] then []
    else if fallible(plan[0]) && fails(n) then [plan[0]]
    else [plan[0]] + Run(fallible, fails, n + 1, plan[1..])
  }

  /** Whether every effect of `plan`, run from trace position `n`, succeeds. */
  predicate Succeeds<E>(fallible: E -> bool, fails: nat -> bool, n: nat, plan: seq<E>)
    decreases |plan|
  {
    plan == [] || (!(fallible(plan[0]) && fails(n)) && Succeeds(fallible, fails, n + 1, plan[1..]))
  }

  /** A step that took the trace from `before` to `after` and reported `ok`
      carried out `plan` with early exit. */
  ghost predicate Performed<E>(fallible: E -> bool, fails: nat -> bool,
                               before: seq<E>, after: seq<E>, ok: bool, plan: seq<E>)
  {
    && after == before + Run(fallible, fails, |before|, plan)
    && (ok <==> Succeeds(fallible, fails, |before|, plan))
  }

  /** A concatenation succeeds exactly when its first part does and the
      second part then does too. */
  lemma {:induction false} SucceedsAppend<E>(fallible: E -> bool, fails: nat -> bool, n: nat, a: seq<E>, b: seq<E>)
    ensures Succeeds(fallible, fails, n, a + b) <==>
            Succeeds(fallible, fails, n, a) && Succeeds(fallible, fails, n + |a|, b)
    decreases |a|
  {
    if a == [] {
      assert a + b == b;
    } else {
      assert (a + b)[1..] == a[1..] + b;
      SucceedsAppend(fallible, fails, n + 1, a[1..], b);
    }
  }

  /** Running two plans one after the other is running their concatenation:
      the second starts only if the first succeeded. */
  lemma {:induction false} RunAppend<E>(fallible: E -> bool, fails: nat -> bool, n: nat, a: seq<E>, b: seq<E>)
    ensures Run(fallible, fails, n, a + b) ==
            if Succeeds(fallible, fails, n, a) then a + Run(fallible, fails, n + |a|, b)
            else Run(fallible, fails, n, a)
    decreases |a|
  {
    if a == [] {
      assert a + b == b;
    } else {
      var ab := a + b;
      assert ab[0] == a[0];
      assert ab[1..] == a[1..] + b;
      if !(fallible(a[0]) && fails(n)) {
        RunAppend(fallible, fails, n + 1, a[1..], b);
        var tail := Run(fallible, fails, n + 1, a[1..] + b);
        assert Run(fallible, fails, n, ab) == [a[0]] + tail;
        if Succeeds(fallible, fails, n + 1, a[1..]) {
          assert tail == a[1..] + Run(fallible, fails, n + |a|, b);
          assert [a[0]] + (a[1..] + Run(fallible, fails, n + |a|, b)) == a + Run(fallible, fails, n + |a|, b);
        }
      }
    }
  }

  /** A plan that succeeds is issued in full. */
  lemma {:induction false} RunSucceeds<E>(fallible: E -> bool, fails: nat -> bool, n: nat, plan: seq<E>)
    requires Succeeds(fallible, fails, n, plan)
    ensures Run(fallible, fails, n, plan) == plan
    decreases |plan|
  {
    if plan != [] {
      RunSucceeds(fallible, fails, n + 1, plan[1..]);
      assert [plan[0]] + plan[1..] == plan;
    }
  }

  /** A plan that fails stops at its first failing effect `k`: that effect
      is the last one issued, every effect before it succeeded, and nothing
      after it is issued. */
  lemma {:induction false} RunStopsAtFirstFailure<E>(fallible: E -> bool, fails: nat -> bool, n: nat, plan: seq<E>)
    returns (k: nat)
    requires !Succeeds(fallible, fails, n, plan)
    ensures k < |plan|
    ensures Run(fallible, fails, n, plan) == plan[..k + 1]
    ensures fallible(plan[k]) && fails(n + k)
    ensures Succeeds(fallible, fails, n, plan[..k])
    decreases |plan|
  {
    if fallible(plan[0]) && fails(n) {
      k := 0;
      assert plan[..1] == [plan[0]];
      assert plan[..0] == [];
    } else {
      var j := RunStopsAtFirstFailure(fallible, fails, n + 1, plan[1..]);
      FailureAfterSuccess(fallible, fails, n, plan, j);
      k := j + 1;
    }
  }

  /** The inductive step of `RunStopsAtFirstFailure`: a first effect that
      succeeds moves the first failure of the rest one place along. */
  lemma FailureAfterSuccess<E>(fallible: E -> bool, fails: nat -> bool, n: nat, plan: seq<E>, k: nat)
    requires plan != [] && !(fallible(plan[0]) && fails(n))
    requires k + 1 < |plan|
    requires Run(fallible, fails, n + 1, plan[1..]) == plan[1..][..k + 1]
    requires fallible(plan[k + 1]) && fails(n + 1 + k)
    requires Succeeds(fallible, fails, n + 1, plan[1..][..k])
    ensures Run(fallible, fails, n, plan) == plan[..k + 2]
    ensures Succeeds(fallible, fails, n, plan[..k + 1])
  {
    assert plan[..k + 2] == [plan[0]] + plan[1..][..k + 1];
    assert plan[..k + 1][1..] == plan[1..][..k];
  }

  /** Sequential composition: a step that succeeded followed by another step
      performs the concatenation of their plans. */
  lemma {:induction false} PerformedThen<E>(fallible: E -> bool, fails: nat -> bool,
                         t0: seq<E>, t1: seq<E>, t2: seq<E>, p: seq<E>, q: seq<E>, ok: bool)
    requires Performed(fallible, fails, t0, t1, true, p)
    requires Performed(fallible, fails, t1, t2, ok, q)
    ensures Performed(fallible, fails, t0, t2, ok, p + q)
  {
    RunSucceeds(fallible, fails, |t0|, p);
    RunAppend(fallible, fails, |t0|, p, q);
    SucceedsAppend(fallible, fails, |t0|, p, q);
    AppendAssoc(t0, p, Run(fallible, fails, |t1|, q));
  }

  lemma AppendAssoc<E>(a: seq<E>, b: seq<E>, c: seq<E>)
    ensures (a + b) + c == a + (b + c)
  {
  }

  /** Early exit: once a step has failed, whatever the plan goes on with is
      never issued. */
  lemma {:induction false} PerformedAbort<E>(fallible: E -> bool, fails: nat -> bool,
                          t0: seq<E>, t1: seq<E>, p: seq<E>, rest: seq<E>)
    requires Performed(fallible, fails, t0, t1, false, p)
    ensures Performed(fallible, fails, t0, t1, false, p + rest)
  {
    RunAppend(fallible, fails, |t0|, p, rest);
    SucceedsAppend(fallible, fails, |t0|, p, rest);
  }

  /** Early exit, stated for the whole plan: once a step that performed a
      prefix of the plan has failed, the plan has been performed. */
  lemma PerformedAbortPrefix<E>(fallible: E -> bool, fails: nat -> bool,
                                t0: seq<E>, t1: seq<E>, p: seq<E>, plan: seq<E>)
    requires Performed(fallible, fails, t0, t1, false, p)
    requires p <= plan
    ensures Performed(fallible, fails, t0, t1, false, plan)
  {
    PerformedAbort(fallible, fails, t0, t1, p, plan[|p|..]);
    assert p + plan[|p|..] == plan;
  }

  /** Nothing planned, nothing issued. */
  lemma PerformedNothing<E>(fallible: E -> bool, fails: nat -> bool, t0: seq<E>)
    ensures Performed(fallible, fails, t0, t0, true, [])
  {
  }

  /** Step-by-step execution of a plan: after its first `k` effects
      succeeded, issuing effect `k` performs the first `k + 1`, and if that
      effect failed, or was the last, the whole plan has been performed. */
  lemma {:induction false} PerformedNext<E>(fallible: E -> bool, fails: nat -> bool,
                         t0: seq<E>, t1: seq<E>, t2: seq<E>, plan: seq<E>, k: nat, ok: bool)
    requires k < |plan|
    requires Performed(fallible, fails, t0, t1, true, plan[..k])
    requires Performed(fallible, fails, t1, t2, ok, [plan[k]])
    ensures Performed(fallible, fails, t0, t2, ok, plan[..k + 1])
    ensures !ok || k + 1 == |plan| ==> Performed(fallible, fails, t0, t2, ok, plan)
  {
    assert plan[..k + 1] == plan[..k] + [plan[k]];
    PerformedThen(fallible, fails, t0, t1, t2, plan[..k], [plan[k]], ok);
    if !ok {
      PerformedAbort(fallible, fails, t0, t2, plan[..k + 1], plan[k + 1..]);
      assert plan[..k + 1] + plan[k + 1..] == plan;
    }
    if k + 1 == |plan| {
      assert plan[..k + 1] == plan;
    }
  }

  /** A step made of a single effect. */
  lemma {:induction false} PerformedOne<E>(fallible: E -> bool, fails: nat -> bool, t0: seq<E>, e: E)
    ensures Run(fallible, fails, |t0|, [e]) == [e]
    ensures Succeeds(fallible, fails, |t0|, [e]) <==> !(fallible(e) && fails(|t0|))
  {
    assert [e][1..] == [];
  }
}
