/** Shared vocabulary: optional columns, instants, and finite sums over sets of keys. */
module Domain {

  datatype Option<+T> = None | Some(value: T)

  /** An instant or a duration, in whole time units. */
  type Time = int

  /** The statuses of Stripe's subscription.status; anything else is kept as text. */
  datatype SubscriptionStatus =
    | Incomplete | IncompleteExpired | Trialing | Active
    | PastDue | Canceled | Unpaid | Paused
    | Unrecognised(text: string)
  {
    predicate Valid() { !Unrecognised? }
  }

  /** SQL's COALESCE of an optional new value and the stored one. */
  function Coalesce<T>(given: Option<T>, stored: T): T {
    if given.Some? then given.value else stored
  }

  /** COALESCE when the stored column is itself nullable. */
  function CoalesceNullable<T>(given: Option<T>, stored: Option<T>): Option<T> {
    if given.Some? then given else stored
  }

  function Get<V>(m: map<string, V>, k: string): Option<V> {
    if k in m then Some(m[k]) else None
  }

  // ------------------------------------------------------------------ sums

  /** The sum of f over a finite set. */
  ghost function Sum<K(!new)>(s: set<K>, f: K -> int): int {
    if s == {} then 0 else
      var x :| x in s;
      f(x) + Sum(s - {x}, f)
  }

  /** Any member may be taken out first. */
  lemma {:induction false} SumRemove<K(!new)>(s: set<K>, f: K -> int, x: K)
    requires x in s
    ensures Sum(s, f) == f(x) + Sum(s - {x}, f)
  {
    var y :| y in s && Sum(s, f) == f(y) + Sum(s - {y}, f);
    if y != x {
      SumRemove(s - {y}, f, x);
      SumRemove(s - {x}, f, y);
      assert s - {y} - {x} == s - {x} - {y};
    }
  }

  /** A pointwise smaller function has a smaller sum, strictly if anywhere strict. */
  lemma {:induction false} SumMonotone<K(!new)>(s: set<K>, f: K -> int, g: K -> int)
    requires forall x :: x in s ==> f(x) <= g(x)
    ensures Sum(s, f) <= Sum(s, g)
    ensures (exists x :: x in s && f(x) < g(x)) ==> Sum(s, f) < Sum(s, g)
  {
    if s != {} {
      var x :| x in s;
      if y :| y in s && f(y) < g(y) {
        x := y;
      }
      SumRemove(s, f, x);
      SumRemove(s, g, x);
      SumMonotone(s - {x}, f, g);
    }
  }

  /** Functions that agree on the set have the same sum. */
  lemma SumCongruence<K(!new)>(s: set<K>, f: K -> int, g: K -> int)
    requires forall x :: x in s ==> f(x) == g(x)
    ensures Sum(s, f) == Sum(s, g)
  {
    SumMonotone(s, f, g);
    SumMonotone(s, g, f);
  }

  lemma MulMonotone(k: nat, a: int, b: int)
    requires a <= b
    ensures k * a <= k * b
  {}
}
