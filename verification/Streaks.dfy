/** Counting what happens in a row: some steps count, some break the streak and some do
    neither. */
module Streaks {

  datatype Mark = Counts | Breaks | Skips

  /** The length of the streak that ends before step `k`. */
  function Streak(ms: seq<Mark>, k: nat): nat
    requires k <= |ms|
  {
    if k == 0 then 0
    else
      match ms[k - 1]
      case Counts => Streak(ms, k - 1) + 1
      case Breaks => 0
      case Skips => Streak(ms, k - 1)
  }

  function CountBetween(ms: seq<Mark>, a: nat, k: nat): nat
    requires k <= |ms|
    decreases k
  {
    if k <= a then 0 else CountBetween(ms, a, k - 1) + if ms[k - 1] == Counts then 1 else 0
  }

  ghost predicate Unbroken(ms: seq<Mark>, a: nat, k: nat)
    requires k <= |ms|
  {
    forall j | a <= j < k :: ms[j] != Breaks
  }

  lemma {:induction false} StreakStart(ms: seq<Mark>, k: nat) returns (a: nat)
    requires k <= |ms|
    ensures a <= k && Unbroken(ms, a, k) && CountBetween(ms, a, k) == Streak(ms, k)
  {
    if k == 0 || ms[k - 1] == Breaks {
      a := k;
    } else {
      a := StreakStart(ms, k - 1);
    }
  }

  lemma {:induction false} UnbrokenIsWithinTheStreak(ms: seq<Mark>, a: nat, k: nat)
    requires a <= k <= |ms| && Unbroken(ms, a, k)
    ensures CountBetween(ms, a, k) <= Streak(ms, k)
  {
    if a < k {
      UnbrokenIsWithinTheStreak(ms, a, k - 1);
    }
  }

  /** The streak has reached `n` exactly when some unbroken stretch up to now holds `n`
      counting steps. */
  lemma StreakReaches(ms: seq<Mark>, k: nat, n: nat)
    requires k <= |ms|
    ensures Streak(ms, k) >= n <==> exists a: nat | a <= k :: Unbroken(ms, a, k) && CountBetween(ms, a, k) >= n
  {
    var start := StreakStart(ms, k);
    forall a: nat | a <= k && Unbroken(ms, a, k)
      ensures CountBetween(ms, a, k) <= Streak(ms, k)
    {
      UnbrokenIsWithinTheStreak(ms, a, k);
    }
  }
}
