/**
 The request limiter of the HTTP server: a burst of sixty requests, refilled by one a second,
 as a generic cell rate algorithm. The state is the time at which the next cell is due if
 requests keep coming at that rate; times are milliseconds. A burst is read in the most
 admitting way, sixty cells ahead of the one due.
 */
module RequestLimiter {
  const RATE_LIMIT_PER_MINUTE: nat := 60
  const CELL_MS: nat := 60_000 / RATE_LIMIT_PER_MINUTE
  const BURST_MS: nat := RATE_LIMIT_PER_MINUTE * CELL_MS

  predicate Admits(due: nat, now: nat) {
    due <= now + BURST_MS
  }

  function AfterCheck(due: nat, now: nat): nat {
    if !Admits(due, now) then due else (if due < now then now else due) + CELL_MS
  }

  class Limiter {
    var due: nat

    constructor (start: nat)
      ensures due == start
    {
      due := start;
    }

    method Check(now: nat) returns (admitted: bool)
      modifies this
      ensures admitted <==> Admits(old(due), now)
      ensures due == AfterCheck(old(due), now)
    {
      if due > now + BURST_MS {
        return false;
      }
      if due < now {
        due := now;
      }
      due := due + CELL_MS;
      return true;
    }
  }

  // ---------- How many requests get through ----------

  function Admitted(due: nat, checks: seq<nat>): nat
    decreases checks
  {
    if checks == [] then 0
    else (if Admits(due, checks[0]) then 1 else 0) + Admitted(AfterCheck(due, checks[0]), checks[1..])
  }

  function DueAtEnd(due: nat, checks: seq<nat>): nat
    decreases checks
  {
    if checks == [] then due else DueAtEnd(AfterCheck(due, checks[0]), checks[1..])
  }

  predicate Ordered(checks: seq<nat>, from: nat, to: nat) {
    && (forall i :: 0 <= i < |checks| ==> from <= checks[i] <= to)
    && (forall i, j :: 0 <= i < j < |checks| ==> checks[i] <= checks[j])
  }

  // Every admitted request pushes the next cell out by a second, starting no earlier than now.
  lemma {:induction false} DueGrows(due: nat, checks: seq<nat>, from: nat, to: nat)
    requires Ordered(checks, from, to)
    ensures var n := Admitted(due, checks);
            && DueAtEnd(due, checks) >= due + n * CELL_MS
            && (n > 0 ==> from + n * CELL_MS <= DueAtEnd(due, checks))
    ensures due <= to + BURST_MS + CELL_MS ==> DueAtEnd(due, checks) <= to + BURST_MS + CELL_MS
    decreases checks
  {
    if checks == [] {
    } else {
      var next := AfterCheck(due, checks[0]);
      assert Ordered(checks[1..], from, to);
      DueGrows(next, checks[1..], from, to);
      if Admitted(next, checks[1..]) == 0 {
        NoneAdmitted(next, checks[1..]);
      }
    }
  }

  lemma {:induction false} NoneAdmitted(due: nat, checks: seq<nat>)
    requires Admitted(due, checks) == 0
    ensures DueAtEnd(due, checks) == due
    decreases checks
  {
    if checks == [] {
    } else {
      NoneAdmitted(AfterCheck(due, checks[0]), checks[1..]);
    }
  }

  // In any stretch of time, however requests come, at most one a second and 61 more get through.
  lemma AdmittedInWindow(due: nat, checks: seq<nat>, from: nat, to: nat)
    requires Ordered(checks, from, to) && from <= to && due <= from + BURST_MS + CELL_MS
    ensures Admitted(due, checks) <= (to - from) / CELL_MS + RATE_LIMIT_PER_MINUTE + 1
  {
    DueGrows(due, checks, from, to);
  }
}
