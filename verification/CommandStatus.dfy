/** The command lifecycle of status.py: a forward chain of five states, four terminal
    ones, and two of those reachable from anywhere. */
module CommandStatus {

  datatype Status =
    | PENDING | VALIDATED | ISSUED | DELIVERED | EXECUTING
    | COMPLETED | FAILED | CANCELLED | TIMED_OUT

  const STATUS_ORDER: seq<Status> := [PENDING, VALIDATED, ISSUED, DELIVERED, EXECUTING]
  const ABORTS: set<Status> := {CANCELLED, TIMED_OUT}
  const TERMINAL: set<Status> := {COMPLETED, FAILED, CANCELLED, TIMED_OUT}

  /** Position in the forward order, which must contain s. */
  function IndexOf(s: Status): (i: nat)
    requires s in STATUS_ORDER
    ensures i < |STATUS_ORDER| && STATUS_ORDER[i] == s
  {
    if s == PENDING then 0 else if s == VALIDATED then 1 else if s == ISSUED then 2
    else if s == DELIVERED then 3 else 4
  }

  predicate IsValidTransition(frm: Status, to: Status) {
    if frm == to then false
    else if frm in TERMINAL then false
    else if to in TERMINAL then
      if to in ABORTS then true else frm == EXECUTING && (to == COMPLETED || to == FAILED)
    else if frm !in STATUS_ORDER || to !in STATUS_ORDER then false
    else IndexOf(to) == IndexOf(frm) + 1
  }

  /** How far along a status is; terminal states are the end. */
  function Rank(s: Status): nat {
    if s in STATUS_ORDER then IndexOf(s) else |STATUS_ORDER|
  }

  /** Every allowed move goes forward, so the machine cannot cycle. */
  lemma MovesForward(frm: Status, to: Status)
    requires IsValidTransition(frm, to)
    ensures Rank(frm) < Rank(to)
  {
  }

  /** Terminal states are exactly those with no way out. */
  lemma TerminalIff(s: Status)
    ensures s in TERMINAL <==> forall to :: !IsValidTransition(s, to)
  {
    if s !in TERMINAL { assert IsValidTransition(s, CANCELLED); }
  }

  /** The moves, one by one: on along the chain, to an abort from anywhere on it, and to an
      end only from execution. */
  lemma MovesAre(frm: Status, to: Status)
    ensures IsValidTransition(frm, to) <==>
      || (frm == PENDING && to == VALIDATED) || (frm == VALIDATED && to == ISSUED)
      || (frm == ISSUED && to == DELIVERED) || (frm == DELIVERED && to == EXECUTING)
      || (frm == EXECUTING && (to == COMPLETED || to == FAILED))
      || (frm in {PENDING, VALIDATED, ISSUED, DELIVERED, EXECUTING} && (to == CANCELLED || to == TIMED_OUT))
  {
  }

  /** Consecutive statuses of a lifecycle are allowed moves. */
  ghost predicate Chain(path: seq<Status>) {
    forall i :: 0 <= i < |path| - 1 ==> IsValidTransition(path[i], path[i + 1])
  }

  lemma {:induction false} ChainRises(path: seq<Status>, i: nat)
    requires Chain(path) && i < |path|
    ensures Rank(path[i]) >= i
  {
    if i > 0 {
      ChainRises(path, i - 1);
      MovesForward(path[i - 1], path[i]);
    }
  }

  /** The bound is reached: a command can go the whole way. */
  lemma LongestChain()
    ensures Chain([PENDING, VALIDATED, ISSUED, DELIVERED, EXECUTING, COMPLETED])
  {
  }

  /** No lifecycle has more than six entries. */
  lemma ChainShort(path: seq<Status>)
    requires Chain(path)
    ensures |path| <= 6
  {
    if path != [] { ChainRises(path, |path| - 1); }
  }
}
