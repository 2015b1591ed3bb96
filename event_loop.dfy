/**
 * Repeated steps of a state machine, independent of what one step does:
 * the state after `n` steps, what an observer sees after each of them, and
 * how both split and carry an invariant.
 */
module EventLoop {

  /** The state after `n` steps of `f` from `x`. */
  function Iterate<T>(f: T -> T, x: T, n: nat): T
    decreases n
  {
    if n == 0 then x else Iterate(f, f(x), n - 1)
  }

  /** What `obs` shows after each of `n` steps of `f` from `x`. */
  function Observe<T, O>(f: T -> T, obs: T -> O, x: T, n: nat): (r: seq<O>)
    ensures |r| == n
    decreases n
  {
    if n == 0 then [] else [obs(f(x))] + Observe(f, obs, f(x), n - 1)
  }

  /** `a` steps and then `b` more are `a + b` steps. */
  lemma {:induction false} IterateAdd<T>(f: T -> T, x: T, a: nat, b: nat)
    ensures Iterate(f, x, a + b) == Iterate(f, Iterate(f, x, a), b)
    decreases a
  {
    if a > 0 {
      IterateAdd(f, f(x), a - 1, b);
      assert (a - 1) + b == a + b - 1;
    }
  }

  /** The observations of `a + b` steps are those of the first `a` followed by those of the next `b`. */
  lemma {:induction false} ObserveAdd<T, O>(f: T -> T, obs: T -> O, x: T, a: nat, b: nat)
    ensures Observe(f, obs, x, a + b) == Observe(f, obs, x, a) + Observe(f, obs, Iterate(f, x, a), b)
    decreases a
  {
    if a > 0 {
      ObserveAdd(f, obs, f(x), a - 1, b);
      assert (a - 1) + b == a + b - 1;
      assert Observe(f, obs, x, a + b) == [obs(f(x))] + Observe(f, obs, f(x), (a - 1) + b);
    }
  }

  /** A property every step keeps holds after any number of steps. */
  lemma {:induction false} IterateKeeps<T>(f: T -> T, p: T -> bool, x: T, n: nat)
    requires p(x)
    requires forall y :: p(y) ==> p(f(y))
    ensures p(Iterate(f, x, n))
    decreases n
  {
    if n > 0 {
      IterateKeeps(f, p, f(x), n - 1);
    }
  }

  /** `s` written `k` times in a row. */
  function Repeat<O>(s: seq<O>, k: nat): (r: seq<O>)
    ensures |r| == |s| * k
  {
    if k == 0 then [] else s + Repeat(s, k - 1)
  }

  /**
   * A machine that, from every state of some kind, shows `s` in `n` steps
   * and comes back to a state of that kind shows `s` for ever.
   */
  lemma {:induction false} ObservePeriodic<T, O>(f: T -> T, obs: T -> O, p: T -> bool, x: T, n: nat, s: seq<O>, k: nat)
    requires p(x)
    requires forall y :: p(y) ==> p(Iterate(f, y, n)) && Observe(f, obs, y, n) == s
    ensures Observe(f, obs, x, n * k) == Repeat(s, k)
    decreases k
  {
    if k > 0 {
      ObservePeriodic(f, obs, p, Iterate(f, x, n), n, s, k - 1);
      ObserveAdd(f, obs, x, n, n * (k - 1));
      assert n * k == n + n * (k - 1);
    }
  }
}
