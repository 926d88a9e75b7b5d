/** The command dispatcher of dispatcher.py: issue with idempotency keys, idempotent
    acks, the lifecycle history, and the commands still owed to the device. The class
    mutates its dictionaries as the Python does; each method is proved equal to a step
    of `State`, about which the laws are stated. */
module Dispatcher {
  import opened Wrappers
  import opened Sequences
  import opened CommandStatus

  /** A command; an empty key stands for Python's None, which the code treats alike.
      Times are integers. */
  datatype Command = Command(id: string, sessionId: string, kind: string, expiresAt: int, key: string)

  datatype Signed = Signed(command: Command, signature: seq<int>)

  /** One history entry; the first has no predecessor. */
  datatype StatusTransition = StatusTransition(from: Option<Status>, to: Status, at: int)

  datatype Outcome = Moved | UnknownCommand | InvalidTransition

  /** `order` is the insertion order of the signed-command dictionary. */
  datatype State = State(
    order: seq<string>, signed: map<string, Signed>, idem: map<string, string>,
    acked: set<string>, status: map<string, Status>, history: map<string, seq<StatusTransition>>)

  const Empty := State([], map[], map[], {}, map[], map[])

  predicate Expired(c: Command, now: int) { now >= c.expiresAt }

  // ---- Steps ----

  /** The unacked command already holding this command's key. */
  function HeldBy(s: State, key: string): Option<string> {
    if key != "" && key in s.idem && s.idem[key] !in s.acked && s.idem[key] in s.signed
    then Some(s.idem[key]) else None
  }

  predicate Absorbed(s: State, c: Command) { HeldBy(s, c.key).Some? || c.id in s.signed }

  /** The state after issuing `c`, with the signature a signer made for it. */
  function Issued(s: State, c: Command, signature: seq<int>, now: int): State {
    if Absorbed(s, c) then s
    else State(
      s.order + [c.id],
      s.signed[c.id := Signed(c, signature)],
      if c.key != "" then s.idem[c.key := c.id] else s.idem,
      s.acked,
      s.status[c.id := PENDING],
      s.history[c.id := [StatusTransition(None, PENDING, now)]])
  }

  /** The signed command that issuing `c` returns. */
  function Returned(s: State, c: Command, signature: seq<int>): Signed {
    if HeldBy(s, c.key).Some? then s.signed[HeldBy(s, c.key).value]
    else if c.id in s.signed then s.signed[c.id]
    else Signed(c, signature)
  }

  function Acked(s: State, id: string): State { s.(acked := s.acked + {id}) }

  function TransitionOutcome(s: State, id: string, to: Status): Outcome {
    if id !in s.status then UnknownCommand
    else if IsValidTransition(s.status[id], to) then Moved else InvalidTransition
  }

  function Transitioned(s: State, id: string, to: Status, at: int): State {
    if TransitionOutcome(s, id, to) != Moved || id !in s.history then s
    else s.(status := s.status[id := to],
            history := s.history[id := s.history[id] + [StatusTransition(Some(s.status[id]), to, at)]])
  }

  function FindByKey(s: State, key: string): Option<string> {
    if key == "" || key !in s.idem || s.idem[key] in s.acked then None else Some(s.idem[key])
  }

  predicate Owed(s: State, now: int, id: string) {
    id in s.signed && id !in s.acked && !Expired(s.signed[id].command, now)
  }

  /** Unacked, unexpired commands among the first n issued, in issue order. */
  function PendingUpTo(s: State, now: int, n: nat): seq<Signed>
    requires n <= |s.order|
  {
    if n == 0 then []
    else PendingUpTo(s, now, n - 1) + if Owed(s, now, s.order[n - 1]) then [s.signed[s.order[n - 1]]] else []
  }

  function Pending(s: State, now: int): seq<Signed> { PendingUpTo(s, now, |s.order|) }

  // ---- What every step keeps ----

  function Path(h: seq<StatusTransition>): seq<Status> { seq(|h|, i requires 0 <= i < |h| => h[i].to) }

  /** A history that starts at PENDING, is chained by allowed moves, and ends at `s`. */
  ghost predicate Lifecycle(h: seq<StatusTransition>, s: Status) {
    && h != [] && h[0].from == None && h[0].to == PENDING
    && (forall i :: 1 <= i < |h| ==> h[i].from == Some(h[i - 1].to))
    && Chain(Path(h)) && h[|h| - 1].to == s
  }

  ghost predicate Distinct(xs: seq<string>) {
    forall i, j :: 0 <= i < j < |xs| ==> xs[i] != xs[j]
  }

  ghost predicate Tables(s: State) {
    && Distinct(s.order)
    && s.signed.Keys == s.status.Keys == s.history.Keys == (set id | id in s.order)
    && Named(s.signed)
  }

  ghost predicate Named(signed: map<string, Signed>) {
    forall id :: id in signed ==> signed[id].command.id == id
  }

  /** Every unacked command with a key is the one its key points to: at most one per key. */
  ghost predicate Keys(s: State) {
    && (forall k :: k in s.idem ==> k != "" && s.idem[k] in s.signed && s.signed[s.idem[k]].command.key == k)
    && forall id :: id in s.signed && id !in s.acked && s.signed[id].command.key != "" ==>
         s.signed[id].command.key in s.idem && s.idem[s.signed[id].command.key] == id
  }

  ghost predicate Histories(s: State) {
    s.status.Keys == s.history.Keys && forall id :: id in s.history ==> Lifecycle(s.history[id], s.status[id])
  }

  ghost predicate Invariant(s: State) { Tables(s) && Keys(s) && Histories(s) }

  lemma OrderGrows(order: seq<string>, id: string)
    requires Distinct(order) && id !in (set x | x in order)
    ensures Distinct(order + [id])
    ensures (set x | x in order + [id]) == (set x | x in order) + {id}
  {
    assert id !in order;
  }

  lemma TablesGrow(s: State, t: State, id: string, x: Signed, st: Status, h: seq<StatusTransition>)
    requires Tables(s) && id !in s.signed && x.command.id == id && t.order == s.order + [id]
    requires t.signed == s.signed[id := x] && t.status == s.status[id := st] && t.history == s.history[id := h]
    ensures Tables(t)
  {
    hide Distinct;
    assert id !in s.signed.Keys;
    OrderGrows(s.order, id);
    KeysGrow(s.signed, id, x);
    KeysGrow(s.status, id, st);
    KeysGrow(s.history, id, h);
    assert Named(t.signed);
    hide Named;
    assert t.signed.Keys == (set i | i in t.order);
  }

  lemma IssueKeepsTables(s: State, c: Command, signature: seq<int>, now: int)
    requires Tables(s)
    ensures Tables(Issued(s, c, signature, now))
  {
    hide Tables;
    if !Absorbed(s, c) {
      TablesGrow(s, Issued(s, c, signature, now), c.id, Signed(c, signature), PENDING,
                 [StatusTransition(None, PENDING, now)]);
    }
  }

  lemma IssueKeepsKeys(s: State, c: Command, signature: seq<int>, now: int)
    requires Keys(s)
    ensures Keys(Issued(s, c, signature, now))
  {
  }

  lemma IssueKeepsHistories(s: State, c: Command, signature: seq<int>, now: int)
    requires Histories(s)
    ensures Histories(Issued(s, c, signature, now))
  {
    if !Absorbed(s, c) {
      var h := [StatusTransition(None, PENDING, now)];
      assert Lifecycle(h, PENDING);
      hide Lifecycle;
    }
  }

  lemma IssueKeeps(s: State, c: Command, signature: seq<int>, now: int)
    requires Invariant(s)
    ensures Invariant(Issued(s, c, signature, now))
  {
    IssueKeepsTables(s, c, signature, now);
    IssueKeepsKeys(s, c, signature, now);
    IssueKeepsHistories(s, c, signature, now);
  }

  lemma LifecycleGrows(h: seq<StatusTransition>, frm: Status, to: Status, at: int)
    requires Lifecycle(h, frm) && IsValidTransition(frm, to)
    ensures Lifecycle(h + [StatusTransition(Some(frm), to, at)], to)
  {
    hide IsValidTransition;
    assert Path(h + [StatusTransition(Some(frm), to, at)]) == Path(h) + [to];
  }

  lemma HistoriesPut(s: State, t: State, id: string, h: seq<StatusTransition>, to: Status)
    requires Histories(s) && id in s.history && Lifecycle(h, to)
    requires t.status == s.status[id := to] && t.history == s.history[id := h]
    ensures Histories(t)
  {
    hide Lifecycle;
  }

  lemma TransitionKeepsHistories(s: State, id: string, to: Status, at: int)
    requires Histories(s)
    ensures Histories(Transitioned(s, id, to, at))
  {
    hide Lifecycle, IsValidTransition;
    if TransitionOutcome(s, id, to) == Moved {
      LifecycleGrows(s.history[id], s.status[id], to, at);
      HistoriesPut(s, Transitioned(s, id, to, at), id,
                   s.history[id] + [StatusTransition(Some(s.status[id]), to, at)], to);
    }
  }

  lemma TransitionKeepsTables(s: State, id: string, to: Status, at: int)
    requires Tables(s)
    ensures Tables(Transitioned(s, id, to, at))
  {
    hide IsValidTransition, Distinct;
    var t := Transitioned(s, id, to, at);
    assert t.status.Keys == s.status.Keys && t.history.Keys == s.history.Keys;
  }

  lemma TransitionKeeps(s: State, id: string, to: Status, at: int)
    requires Invariant(s)
    ensures Invariant(Transitioned(s, id, to, at))
  {
    TransitionKeepsHistories(s, id, to, at);
    TransitionKeepsTables(s, id, to, at);
    KeysSame(s, Transitioned(s, id, to, at));
  }

  lemma KeysSame(s: State, t: State)
    requires Keys(s) && s.signed == t.signed && s.idem == t.idem && s.acked == t.acked
    ensures Keys(t)
  {
  }

  lemma TablesAgree(s: State)
    requires Invariant(s)
    ensures s.status.Keys == s.history.Keys
    ensures forall i :: 0 <= i < |s.order| ==> s.order[i] in s.signed
  {
    forall i | 0 <= i < |s.order| ensures s.order[i] in s.signed { assert s.order[i] in (set id | id in s.order); }
  }

  // ---- Runs ----

  datatype Op =
    | Issue(c: Command, signature: seq<int>, now: int)
    | Ack(id: string)
    | Move(id: string, to: Status, at: int)

  function Step(s: State, op: Op): State {
    match op
    case Issue(c, signature, now) => Issued(s, c, signature, now)
    case Ack(id) => Acked(s, id)
    case Move(id, to, at) => Transitioned(s, id, to, at)
  }

  function Run(s: State, ops: seq<Op>): State {
    if ops == [] then s else Step(Run(s, ops[..|ops| - 1]), ops[|ops| - 1])
  }

  lemma {:induction false} AlwaysInvariant(ops: seq<Op>)
    ensures Invariant(Run(Empty, ops))
  {
    if ops != [] {
      AlwaysInvariant(ops[..|ops| - 1]);
      StepKeeps(Run(Empty, ops[..|ops| - 1]), ops[|ops| - 1]);
    }
  }

  /** In every run at most one unacked command holds an idempotency key. */
  lemma OneUnackedPerKey(ops: seq<Op>, a: string, b: string)
    requires var s := Run(Empty, ops);
      a in s.signed && b in s.signed && a !in s.acked && b !in s.acked
      && s.signed[a].command.key == s.signed[b].command.key != ""
    ensures a == b
  {
    AlwaysInvariant(ops);
  }

  /** In every run each history starts at PENDING, moves only as allowed, ends at the
      current status and has at most six entries. */
  lemma HistoriesSound(ops: seq<Op>, id: string)
    ensures var s := Run(Empty, ops);
      id in s.status ==> id in s.history && Lifecycle(s.history[id], s.status[id]) && |s.history[id]| <= 6
  {
    AlwaysInvariant(ops);
    var s := Run(Empty, ops);
    if id in s.history { ChainShort(Path(s.history[id])); }
  }

  /** The lookup answers what an issue would do: a key found is one whose issue returns
      that command and creates nothing; for a key not found, issuing creates a command
      unless its id is already taken. */
  lemma {:induction false} FindPredictsIssue(ops: seq<Op>, c: Command, signature: seq<int>, now: int)
    ensures var s := Run(Empty, ops);
      match FindByKey(s, c.key)
      case Some(id) =>
        id in s.signed && Returned(s, c, signature) == s.signed[id] && Issued(s, c, signature, now) == s
      case None => (Issued(s, c, signature, now) == s <==> c.id in s.signed)
  {
    AlwaysInvariant(ops);
  }

  /** What is pending is exactly what is owed, in issue order and once each. */
  lemma {:induction false} PendingIs(s: State, now: int, n: nat, x: Signed)
    requires Tables(s) && n <= |s.order|
    ensures x in PendingUpTo(s, now, n) <==>
      exists i :: 0 <= i < n && Owed(s, now, s.order[i]) && s.signed[s.order[i]] == x
    ensures |PendingUpTo(s, now, n)| <= n
  {
    if n > 0 { PendingIs(s, now, n - 1, x); }
  }

  lemma {:induction false} StaysAcked(s: State, ops: seq<Op>, id: string)
    requires id in s.acked
    ensures id in Run(s, ops).acked
  {
    if ops != [] { StaysAcked(s, ops[..|ops| - 1], id); }
  }

  lemma {:induction false} RunSplits(s: State, xs: seq<Op>, ys: seq<Op>)
    ensures Run(s, xs + ys) == Run(Run(s, xs), ys)
  {
    if ys == [] {
      assert xs + ys == xs;
    } else {
      assert (xs + ys)[..|xs + ys| - 1] == xs + ys[..|ys| - 1];
      RunSplits(s, xs, ys[..|ys| - 1]);
    }
  }

  /** An acked command never reappears, whatever follows and even if it was acked before
      it was issued; an unacked, unexpired one is always on offer. */
  lemma PendingLaw(before: seq<Op>, after: seq<Op>, id: string, now: int)
    ensures var s := Run(Empty, before + [Ack(id)] + after);
      forall x :: x in Pending(s, now) ==> x.command.id != id
    ensures var s := Run(Empty, before);
      id in s.signed && id !in s.acked && now < s.signed[id].command.expiresAt ==> s.signed[id] in Pending(s, now)
  {
    var s := Run(Empty, before + [Ack(id)] + after);
    RunSplits(Empty, before + [Ack(id)], after);
    assert (before + [Ack(id)])[..|before|] == before;
    StaysAcked(Run(Empty, before + [Ack(id)]), after, id);
    AlwaysInvariant(before + [Ack(id)] + after);
    forall x | x in Pending(s, now) ensures x.command.id != id {
      PendingIs(s, now, |s.order|, x);
    }
    var t := Run(Empty, before);
    AlwaysInvariant(before);
    if id in t.signed { PendingIs(t, now, |t.order|, t.signed[id]); assert id in t.order; }
  }

  // ---- What a run amounts to ----

  /** Where these operations leave a command that stands at `st`: each move that is allowed
      from where it then stands is made, and nothing else moves it. */
  function Settled(st: Status, ops: seq<Op>, id: string): Status {
    if ops == [] then st
    else
      var before, op := Settled(st, ops[..|ops| - 1], id), ops[|ops| - 1];
      if op.Move? && op.id == id && IsValidTransition(before, op.to) then op.to else before
  }

  /** The moves made by one operation on a command that stands at `st`. */
  function OneMove(st: Status, op: Op, id: string): seq<StatusTransition> {
    if op.Move? && op.id == id && IsValidTransition(st, op.to) then [StatusTransition(Some(st), op.to, op.at)] else []
  }

  /** The moves made on the way, with their times. */
  function Moves(st: Status, ops: seq<Op>, id: string): seq<StatusTransition> {
    if ops == [] then []
    else
      var before, op := Settled(st, ops[..|ops| - 1], id), ops[|ops| - 1];
      Moves(st, ops[..|ops| - 1], id) + OneMove(before, op, id)
  }

  /** Once a command is issued, its entry and its place never change; its status is where
      the moves leave it, and its history is the moves made, appended. */
  lemma {:induction false} CommandRuns(s: State, ops: seq<Op>, id: string)
    requires Invariant(s) && id in s.signed
    ensures var t := Run(s, ops);
      && Invariant(t) && s.order <= t.order
      && id in t.signed && t.signed[id] == s.signed[id]
      && id in s.status && id in t.status && t.status[id] == Settled(s.status[id], ops, id)
      && id in s.history && id in t.history && t.history[id] == s.history[id] + Moves(s.status[id], ops, id)
  {
    EntriesAgree(s, id);
    hide *;
    if ops == [] {
      NothingRun(s, s.status[id], id);
      NothingAround(s.history[id]);
    } else {
      var n := |ops| - 1;
      CommandRuns(s, ops[..n], id);
      RunUnfolds(s, s.status[id], ops, id);
      var m := Run(s, ops[..n]);
      StepMoves(m, ops[n], id);
      Associates(s.history[id], Moves(s.status[id], ops[..n], id), StepHistory(m, ops[n], id));
      HistoryIs(m, ops[n], id);
    }
  }

  lemma NothingRun(s: State, st: Status, id: string)
    ensures Run(s, []) == s && Settled(st, [], id) == st && Moves(st, [], id) == []
  {
  }

  lemma RunUnfolds(s: State, st: Status, ops: seq<Op>, id: string)
    requires ops != []
    ensures var n := |ops| - 1;
      var before := Settled(st, ops[..n], id);
      && Run(s, ops) == Step(Run(s, ops[..n]), ops[n])
      && Settled(st, ops, id) == (if OneMove(before, ops[n], id) != [] then ops[n].to else before)
      && Moves(st, ops, id) == Moves(st, ops[..n], id) + OneMove(before, ops[n], id)
  {
    hide Step, IsValidTransition;
  }

  lemma HistoryIs(s: State, op: Op, id: string)
    requires id in s.status
    ensures StepHistory(s, op, id) == OneMove(s.status[id], op, id)
    ensures OneMove(s.status[id], op, id) != [] ==> op.Move?
  {
    hide IsValidTransition;
  }

  function StepHistory(s: State, op: Op, id: string): seq<StatusTransition>
    requires id in s.status
  {
    OneMove(s.status[id], op, id)
  }

  lemma StepMoves(s: State, op: Op, id: string)
    requires Invariant(s) && id in s.signed
    ensures id in s.status && id in s.history
    ensures var t := Step(s, op);
      && Invariant(t) && s.order <= t.order
      && id in t.signed && t.signed[id] == s.signed[id]
      && id in t.status && id in t.history && t.history[id] == s.history[id] + StepHistory(s, op, id)
      && t.status[id] == if StepHistory(s, op, id) == [] then s.status[id] else op.to
  {
    hide Invariant, IsValidTransition, StepHistory, Issued, Transitioned;
    EntriesAgree(s, id);
    StepKeeps(s, op);
    match op
    case Issue(c, signature, now) => OthersIssued(s, c, signature, now, id);
    case Ack(i) => NoHistory(s, op, id);
    case Move(i, to, at) => MoveMade(s, i, to, at, id);
  }

  lemma NoHistory(s: State, op: Op, id: string)
    requires id in s.status && id in s.history && !op.Move?
    ensures StepHistory(s, op, id) == [] && s.history[id] + [] == s.history[id]
  {
  }

  lemma OthersIssued(s: State, c: Command, signature: seq<int>, now: int, id: string)
    requires id in s.signed && id in s.status && id in s.history
    ensures var t := Issued(s, c, signature, now);
      && s.order <= t.order && id in t.signed && t.signed[id] == s.signed[id]
      && id in t.status && id in t.history && t.status[id] == s.status[id]
      && t.history[id] == s.history[id] + StepHistory(s, Issue(c, signature, now), id)
      && StepHistory(s, Issue(c, signature, now), id) == []
  {
    NothingAround(s.history[id]);
    hide HeldBy;
  }

  lemma MoveMade(s: State, i: string, to: Status, at: int, id: string)
    requires id in s.signed && id in s.status && s.status.Keys == s.history.Keys
    ensures var t, more := Transitioned(s, i, to, at), StepHistory(s, Move(i, to, at), id);
      && t.order == s.order && t.signed == s.signed
      && id in t.status && id in t.history && id in s.history && t.history[id] == s.history[id] + more
      && t.status[id] == if more == [] then s.status[id] else to
  {
    hide IsValidTransition;
    assert id in s.history.Keys;
    NothingAround(s.history[id]);
  }

  lemma EntriesAgree(s: State, id: string)
    requires Invariant(s) && id in s.signed
    ensures id in s.status && id in s.history && s.status.Keys == s.history.Keys == s.signed.Keys
  {
    assert id in s.signed.Keys;
    hide Lifecycle, Distinct;
  }

  lemma StepKeeps(s: State, op: Op)
    requires Invariant(s)
    ensures Invariant(Step(s, op))
  {
    hide Lifecycle, IsValidTransition, Distinct;
    match op
    case Issue(c, signature, now) => IssueKeeps(s, c, signature, now);
    case Ack(i) =>
    case Move(i, to, at) => TransitionKeeps(s, i, to, at);
  }

  /** What issuing returns is the table's entry afterwards. Unless the key is held or the id
      taken, that is the new command with its own signature, last in the order, pending,
      with a history of that one entry; otherwise nothing changes. */
  lemma IssueIs(ops: seq<Op>, c: Command, signature: seq<int>, now: int)
    ensures var s := Run(Empty, ops);
      var t, r := Issued(s, c, signature, now), Returned(s, c, signature);
      var held := c.key != "" && exists id :: id in s.signed && id !in s.acked && s.signed[id].command.key == c.key;
      && r.command.id in t.signed && t.signed[r.command.id] == r
      && (held ==> r.command.key == c.key && r.command.id !in s.acked)
      && (held || c.id in s.signed ==> t == s)
      && (!held && c.id in s.signed ==> r == s.signed[c.id])
      && (!held && c.id !in s.signed ==>
            && r == Signed(c, signature) && t.order == s.order + [c.id] && t.acked == s.acked
            && t.status == s.status[c.id := PENDING]
            && t.history == s.history[c.id := [StatusTransition(None, PENDING, now)]])
  {
    var s := Run(Empty, ops);
    AlwaysInvariant(ops);
    KeysMean(s, c.key);
    hide Run, Lifecycle, Distinct;
  }

  lemma KeysMean(s: State, key: string)
    requires Invariant(s)
    ensures match HeldBy(s, key)
      case Some(id) => key != "" && id in s.signed && id !in s.acked && s.signed[id].command.key == key
                       && s.signed[id].command.id == id
      case None => key == "" || forall id :: id in s.signed && id !in s.acked ==> s.signed[id].command.key != key
    ensures FindByKey(s, key) == HeldBy(s, key)
  {
  }

  /** In every run a transition of a command never issued is unknown, and of an issued one
      it is made exactly when allowed from where the command stands. */
  lemma OutcomeIs(ops: seq<Op>, id: string, to: Status, at: int)
    ensures var s := Run(Empty, ops);
      && (TransitionOutcome(s, id, to) == UnknownCommand <==> id !in s.signed)
      && (TransitionOutcome(s, id, to) == Moved <==> id in s.status && IsValidTransition(s.status[id], to))
      && (TransitionOutcome(s, id, to) != Moved ==> Transitioned(s, id, to, at) == s)
  {
    AlwaysInvariant(ops);
    var s := Run(Empty, ops);
    hide Run, IsValidTransition, Distinct, Lifecycle;
    assert id in s.status.Keys <==> id in s.signed.Keys;
  }

  /** The lookup finds the unacked command that holds the key, if there is one. */
  lemma FindIs(ops: seq<Op>, key: string)
    ensures var s := Run(Empty, ops);
      match FindByKey(s, key)
      case Some(id) => key != "" && id in s.signed && id !in s.acked && s.signed[id].command.key == key
      case None => key == "" || forall id :: id in s.signed && id !in s.acked ==> s.signed[id].command.key != key
  {
    AlwaysInvariant(ops);
    KeysMean(Run(Empty, ops), key);
  }

  /** These are the commands owed among the first n issued, in order, issued at `at`. */
  ghost predicate OwedAt(s: State, now: int, n: nat, ps: seq<Signed>, at: seq<nat>)
    requires n <= |s.order|
  {
    && |at| == |ps| && (forall j, k :: 0 <= j < k < |at| ==> at[j] < at[k])
    && (forall k :: 0 <= k < |at| ==>
          at[k] < n && s.order[at[k]] in s.signed && ps[k] == s.signed[s.order[at[k]]])
    && forall i :: 0 <= i < n ==>
         (i in at <==>
            && s.order[i] in s.signed && s.order[i] !in s.acked
            && now < s.signed[s.order[i]].command.expiresAt)
  }

  lemma OwedMore(s: State, now: int, n: nat, ps: seq<Signed>, at: seq<nat>) returns (more: seq<nat>)
    requires n < |s.order| && OwedAt(s, now, n, ps, at)
    ensures OwedAt(s, now, n + 1, ps + if Owed(s, now, s.order[n]) then [s.signed[s.order[n]]] else [], more)
  {
    if Owed(s, now, s.order[n]) {
      more := at + [n];
      assert forall i :: i in more <==> i in at || i == n;
    } else {
      more := at;
      assert n !in at;
      NothingAround(ps);
    }
  }

  lemma {:induction false} AlwaysOwedAt(s: State, now: int, n: nat) returns (at: seq<nat>)
    requires n <= |s.order|
    ensures OwedAt(s, now, n, PendingUpTo(s, now, n), at)
  {
    if n == 0 {
      at := [];
    } else {
      at := AlwaysOwedAt(s, now, n - 1);
      PendingNext(s, now, n - 1);
      hide *;
      at := OwedMore(s, now, n - 1, PendingUpTo(s, now, n - 1), at);
    }
  }

  lemma PendingNext(s: State, now: int, n: nat)
    requires n < |s.order|
    ensures PendingUpTo(s, now, n + 1) ==
      PendingUpTo(s, now, n) + if Owed(s, now, s.order[n]) then [s.signed[s.order[n]]] else []
  {
  }

  /** The commands on offer are those issued, neither acked nor expired, in the order they
      were issued. */
  lemma PendingInOrder(s: State, now: int) returns (at: seq<nat>)
    ensures var ps := Pending(s, now);
      && |at| == |ps| && (forall j, k :: 0 <= j < k < |at| ==> at[j] < at[k])
      && (forall k :: 0 <= k < |at| ==>
            at[k] < |s.order| && s.order[at[k]] in s.signed && ps[k] == s.signed[s.order[at[k]]])
      && forall i :: 0 <= i < |s.order| ==>
           (i in at <==>
              && s.order[i] in s.signed && s.order[i] !in s.acked
              && now < s.signed[s.order[i]].command.expiresAt)
  {
    at := AlwaysOwedAt(s, now, |s.order|);
    hide PendingUpTo;
  }

  // ---- The dispatcher object ----

  class CommandDispatcher {
    var order: seq<string>
    var signed: map<string, Signed>
    var idem: map<string, string>
    var acked: set<string>
    var status: map<string, Status>
    var history: map<string, seq<StatusTransition>>

    ghost function Now(): State
      reads this
    {
      State(order, signed, idem, acked, status, history)
    }

    constructor ()
      ensures Now() == Empty && Invariant(Now())
    {
      order, signed, idem, acked, status, history := [], map[], map[], {}, map[], map[];
    }

    method Issue(c: Command, signature: seq<int>, now: int) returns (r: Signed)
      requires Invariant(Now())
      modifies this
      ensures Invariant(Now()) && Now() == Issued(old(Now()), c, signature, now)
      ensures r == Returned(old(Now()), c, signature)
    {
      hide Invariant;
      IssueKeeps(Now(), c, signature, now);
      if c.key != "" && c.key in idem {
        var existingId := idem[c.key];
        if existingId !in acked {
          if existingId in signed {
            return signed[existingId];
          }
        }
      }
      if c.id in signed {
        return signed[c.id];
      }
      r := Signed(c, signature);
      signed := signed[c.id := r];
      order := order + [c.id];
      if c.key != "" {
        idem := idem[c.key := c.id];
      }
      status := status[c.id := PENDING];
      history := history[c.id := [StatusTransition(None, PENDING, now)]];
    }

    method FindByIdempotencyKey(key: string) returns (r: Option<string>)
      ensures r == FindByKey(Now(), key)
    {
      if key == "" {
        return None;
      }
      if key !in idem || idem[key] in acked {
        return None;
      }
      return Some(idem[key]);
    }

    method Ack(id: string)
      requires Invariant(Now())
      modifies `acked
      ensures Invariant(Now()) && Now() == Acked(old(Now()), id)
    {
      acked := acked + {id};
    }

    /** A refused transition leaves everything as it was. */
    method Transition(id: string, to: Status, at: int) returns (r: Outcome)
      requires Invariant(Now())
      modifies `status, `history
      ensures Invariant(Now()) && r == TransitionOutcome(old(Now()), id, to)
      ensures Now() == Transitioned(old(Now()), id, to, at)
    {
      hide Invariant, IsValidTransition;
      TransitionKeeps(Now(), id, to, at);
      TablesAgree(Now());
      if id !in status {
        return UnknownCommand;
      }
      var frm := status[id];
      if !IsValidTransition(frm, to) {
        return InvalidTransition;
      }
      status := status[id := to];
      history := history[id := history[id] + [StatusTransition(Some(frm), to, at)]];
      return Moved;
    }

    method PendingCommands(now: int) returns (r: seq<Signed>)
      requires Invariant(Now())
      ensures r == Pending(Now(), now)
    {
      r := [];
      hide Invariant;
      TablesAgree(Now());
      for i := 0 to |order|
        invariant r == PendingUpTo(Now(), now, i)
      {
        var id := order[i];
        if id !in acked && !Expired(signed[id].command, now) {
          r := r + [signed[id]];
        }
      }
    }
  }
}
