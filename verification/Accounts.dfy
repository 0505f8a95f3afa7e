/** Counting runs of an order and summing the quota units charged to a worker. */
module Accounts {
  import opened Lifecycle
  import opened Tables

  /** How many of the first `n` runs belong to order `o`. */
  function RunsOf(runs: seq<Run>, n: nat, o: nat): nat
    requires n <= |runs|
  {
    if n == 0 then 0 else RunsOf(runs, n - 1, o) + (if runs[n - 1].order == o then 1 else 0)
  }

  lemma {:induction false} RunsOfAgree(xs: seq<Run>, ys: seq<Run>, n: nat, o: nat)
    requires n <= |xs| && n <= |ys|
    requires forall i :: 0 <= i < n ==> xs[i].order == ys[i].order
    ensures RunsOf(xs, n, o) == RunsOf(ys, n, o)
  {
    if n > 0 {
      RunsOfAgree(xs, ys, n - 1, o);
    }
  }

  lemma {:induction false} RunsOfGrows(runs: seq<Run>, m: nat, n: nat, o: nat)
    requires m <= n <= |runs|
    ensures RunsOf(runs, m, o) <= RunsOf(runs, n, o)
  {
    if m < n {
      RunsOfGrows(runs, m, n - 1, o);
    }
  }

  predicate Charges(run: Run, w: string) {
    run.worker == w && (run.quotaState == Reserved || run.quotaState == Consumed)
  }

  function Charge(run: Run, w: string): nat {
    if Charges(run, w) then run.route.reserved else 0
  }

  /** Units held by reserved or consumed runs of `w`, from run `from` on, among the first `n`. */
  function Charged(runs: seq<Run>, from: nat, n: nat, w: string): nat
    requires n <= |runs|
  {
    if n <= from then 0 else Charged(runs, from, n - 1, w) + Charge(runs[n - 1], w)
  }

  lemma {:induction false} ChargedAgree(xs: seq<Run>, ys: seq<Run>, from: nat, n: nat, w: string)
    requires n <= |xs| && n <= |ys|
    requires forall i :: from <= i < n ==> Charge(xs[i], w) == Charge(ys[i], w)
    ensures Charged(xs, from, n, w) == Charged(ys, from, n, w)
  {
    if n > from {
      ChargedAgree(xs, ys, from, n - 1, w);
    }
  }

  /** Replacing one run moves the total by the difference of its charges. */
  lemma {:induction false} ChargedUpdate(runs: seq<Run>, from: nat, n: nat, w: string, i: nat, run: Run)
    requires n <= |runs| && from <= i < n
    ensures Charged(runs[i := run], from, n, w) == Charged(runs, from, n, w) - Charge(runs[i], w) + Charge(run, w)
  {
    if i < n - 1 {
      ChargedUpdate(runs, from, n - 1, w, i, run);
    } else {
      ChargedAgree(runs[i := run], runs, from, n - 1, w);
    }
  }

  lemma {:induction false} ChargedCovers(runs: seq<Run>, from: nat, n: nat, w: string, i: nat)
    requires n <= |runs| && from <= i < n
    ensures Charge(runs[i], w) <= Charged(runs, from, n, w)
  {
    if i < n - 1 {
      ChargedCovers(runs, from, n - 1, w, i);
    }
  }

  /** Units still reserved for runs of `w` that have not started. */
  function Outstanding(runs: seq<Run>, n: nat, w: string): nat
    requires n <= |runs|
  {
    if n == 0 then 0
    else Outstanding(runs, n - 1, w)
         + (if runs[n - 1].worker == w && runs[n - 1].quotaState == Reserved then runs[n - 1].route.reserved else 0)
  }

  lemma {:induction false} OutstandingIsCharged(runs: seq<Run>, from: nat, n: nat, w: string)
    requires n <= |runs|
    requires forall i :: 0 <= i < from && i < n && runs[i].worker == w ==> runs[i].quotaState != Reserved
    ensures Outstanding(runs, n, w) <= Charged(runs, from, n, w)
  {
    if n > 0 {
      OutstandingIsCharged(runs, from, n - 1, w);
    }
  }

  predicate Reserves(run: Run, w: string) {
    run.worker == w && run.quotaState == Reserved
  }

  /** Number of unspent reservations of `w` among the first `n` runs; each of them may
      still have to bump the profile revision. */
  function Reservations(runs: seq<Run>, n: nat, w: string): nat
    requires n <= |runs|
  {
    if n == 0 then 0 else Reservations(runs, n - 1, w) + (if Reserves(runs[n - 1], w) then 1 else 0)
  }

  lemma {:induction false} ReservationsShrink(xs: seq<Run>, ys: seq<Run>, n: nat, w: string)
    requires n <= |xs| && n <= |ys|
    requires forall i :: 0 <= i < n && Reserves(ys[i], w) ==> Reserves(xs[i], w)
    ensures Reservations(ys, n, w) <= Reservations(xs, n, w)
  {
    if n > 0 {
      ReservationsShrink(xs, ys, n - 1, w);
    }
  }

  /** Dropping a reservation lowers the number. */
  lemma {:induction false} ReservationsDrop(xs: seq<Run>, ys: seq<Run>, n: nat, w: string, r: nat)
    requires r < n <= |xs| && n <= |ys|
    requires forall i :: 0 <= i < n && Reserves(ys[i], w) ==> Reserves(xs[i], w)
    requires Reserves(xs[r], w) && !Reserves(ys[r], w)
    ensures Reservations(ys, n, w) < Reservations(xs, n, w)
  {
    if r < n - 1 {
      ReservationsDrop(xs, ys, n - 1, w, r);
    } else {
      ReservationsShrink(xs, ys, n - 1, w);
    }
  }

  lemma {:induction false} NoReservations(runs: seq<Run>, n: nat, w: string)
    requires n <= |runs| && forall i :: 0 <= i < n ==> !Reserves(runs[i], w)
    ensures Reservations(runs, n, w) == 0
  {
    if n > 0 {
      NoReservations(runs, n - 1, w);
    }
  }

  lemma {:induction false} SomeReservation(runs: seq<Run>, n: nat, w: string, r: nat)
    requires r < n <= |runs| && Reserves(runs[r], w)
    ensures Reservations(runs, n, w) >= 1
  {
    if r < n - 1 {
      SomeReservation(runs, n - 1, w, r);
    }
  }
}
