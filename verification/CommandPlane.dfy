/** The command protocol end to end: the server's dispatcher behind the gateway, a relay
    that may lose, duplicate and reorder messages both ways, and the device. Any
    interleaving of the events below is a run. */
module CommandPlane {
  import opened Wrappers
  import opened Sequences
  import S = CommandStatus
  import D = Dispatcher
  import C = Commands

  /** `ops` and `deliveries` are everything the dispatcher and the device went through;
      the two bags are the messages in flight. */
  datatype Plane = Plane(
    session: Option<string>, ops: seq<D.Op>, deliveries: seq<C.Delivery>,
    toDevice: multiset<string>, toServer: multiset<string>)
  {
    function Server(): D.State { D.Run(D.Empty, ops) }
    function Device(): C.Device { C.Run(C.Fresh, deliveries) }
  }

  const Start := Plane(None, [], [], multiset{}, multiset{})

  datatype Event =
    | Issue(c: D.Command, signature: seq<int>, at: int)
    | Move(id: string, to: S.Status, at: int)
    | Hello(session: string, now: int)
    | Bye
    | Deliver(id: string, room: bool)
    | AckArrives(id: string, now: int)
    | Garbage
    | LoseCommand(id: string) | LoseAck(id: string)
    | CopyCommand(id: string) | CopyAck(id: string)

  /** _pending_commands: what is owed to the live session or to any. */
  function ForSession(pending: seq<D.Signed>, session: string): seq<D.Signed> {
    if pending == [] then []
    else
      var x := pending[|pending| - 1];
      ForSession(pending[..|pending| - 1], session) +
      if x.command.sessionId == "" || x.command.sessionId == session then [x] else []
  }

  function Ids(xs: seq<D.Signed>): seq<string> { seq(|xs|, i requires 0 <= i < |xs| => xs[i].command.id) }

  /** The commands a hello or an ack sends out, put in flight. */
  function Offer(p: Plane, now: int): Plane {
    if p.session.None? then p
    else p.(toDevice := p.toDevice + multiset(Ids(ForSession(D.Pending(p.Server(), now), p.session.value))))
  }

  predicate Enabled(p: Plane, e: Event) {
    match e
    case Deliver(id, _) => id in p.toDevice
    case LoseCommand(id) => id in p.toDevice
    case CopyCommand(id) => id in p.toDevice
    case AckArrives(id, _) => id in p.toServer
    case LoseAck(id) => id in p.toServer
    case CopyAck(id) => id in p.toServer
    case _ => true
  }

  function Step(p: Plane, e: Event): Plane {
    if !Enabled(p, e) then p
    else
      match e
      case Issue(c, signature, at) => p.(ops := p.ops + [D.Issue(c, signature, at)])
      case Move(id, to, at) => p.(ops := p.ops + [D.Move(id, to, at)])
      case Hello(session, now) => Offer(p.(session := Some(session)), now)
      case Bye => p.(session := None)
      case Deliver(id, room) =>
        var q := p.(deliveries := p.deliveries + [C.Verified(id, room)], toDevice := p.toDevice - multiset{id});
        if |q.Device().acked| > |p.Device().acked| then q.(toServer := q.toServer + multiset{id}) else q
      case Garbage => p.(deliveries := p.deliveries + [C.Rejected])
      case AckArrives(id, now) =>
        Offer(p.(ops := p.ops + [D.Ack(id)], toServer := p.toServer - multiset{id}), now)
      case LoseCommand(id) => p.(toDevice := p.toDevice - multiset{id})
      case LoseAck(id) => p.(toServer := p.toServer - multiset{id})
      case CopyCommand(id) => p.(toDevice := p.toDevice + multiset{id})
      case CopyAck(id) => p.(toServer := p.toServer + multiset{id})
  }

  function Run(es: seq<Event>): Plane {
    if es == [] then Start else Step(Run(es[..|es| - 1]), es[|es| - 1])
  }

  /** Command ids are 1 to 63 characters, as the server's generated ids are. */
  ghost predicate NormalIds(es: seq<Event>) {
    forall i :: 0 <= i < |es| && es[i].Issue? ==> C.Normal(es[i].c.id)
  }

  // ---- What every run keeps ----

  ghost predicate Invariant(p: Plane) {
    && ServerKnows(p.Server(), p.toDevice, p.deliveries)
    && DeviceKnows(p.Device(), p.Server(), p.toServer)
  }

  /** Whatever is under way to the device, or has reached it, was issued. */
  ghost predicate ServerKnows(s: D.State, toDevice: multiset<string>, deliveries: seq<C.Delivery>) {
    && (forall id :: id in s.signed ==> C.Normal(id))
    && (forall id :: id in toDevice ==> id in s.signed)
    && (forall i :: 0 <= i < |deliveries| ==> deliveries[i].Verified? ==> deliveries[i].id in s.signed)
  }

  /** Whatever is under way to the server as an ack, or has been taken by it, was acked
      by the device. */
  ghost predicate DeviceKnows(d: C.Device, s: D.State, toServer: multiset<string>) {
    && (forall id :: id in toServer ==> id in d.acked)
    && (forall id :: id in s.acked ==> id in d.acked)
  }

  lemma ServerStep(ops: seq<D.Op>, op: D.Op)
    ensures D.Run(D.Empty, ops + [op]) == D.Step(D.Run(D.Empty, ops), op)
  {
    assert (ops + [op])[..|ops|] == ops;
  }

  lemma DeviceStep(ms: seq<C.Delivery>, m: C.Delivery)
    ensures C.Run(C.Fresh, ms + [m]) == C.Step(C.Run(C.Fresh, ms), m)
  {
    assert (ms + [m])[..|ms|] == ms;
  }

  lemma {:induction false} ForSessionSelects(pending: seq<D.Signed>, session: string, x: D.Signed)
    ensures x in ForSession(pending, session) <==>
      x in pending && (x.command.sessionId == "" || x.command.sessionId == session)
  {
    if pending != [] {
      ForSessionSelects(pending[..|pending| - 1], session, x);
      assert x in pending <==> x in pending[..|pending| - 1] || x == pending[|pending| - 1];
    }
  }

  lemma OfferedWasIssued(ops: seq<D.Op>, session: string, now: int, id: string)
    requires id in Ids(ForSession(D.Pending(D.Run(D.Empty, ops), now), session))
    ensures id in D.Run(D.Empty, ops).signed
  {
    var s := D.Run(D.Empty, ops);
    D.AlwaysInvariant(ops);
    hide D.Run;
    var out := ForSession(D.Pending(s, now), session);
    var i :| 0 <= i < |out| && Ids(out)[i] == id;
    ForSessionSelects(D.Pending(s, now), session, out[i]);
    D.PendingIs(s, now, |s.order|, out[i]);
  }

  lemma OfferIssued(p: Plane, now: int)
    requires Invariant(p)
    ensures Invariant(Offer(p, now))
  {
    if p.session.Some? {
      forall id | id in Offer(p, now).toDevice ensures id in p.Server().signed {
        if id !in p.toDevice { OfferedWasIssued(p.ops, p.session.value, now, id); }
      }
    }
    hide D.Run, C.Run, D.Pending;
  }

  lemma ServerMoves(s: D.State, op: D.Op)
    ensures s.signed.Keys <= D.Step(s, op).signed.Keys <= s.signed.Keys + if op.Issue? then {op.c.id} else {}
    ensures D.Step(s, op).acked == s.acked + if op.Ack? then {op.id} else {}
  {
    hide D.Absorbed, S.IsValidTransition;
  }

  lemma OpKeeps(p: Plane, op: D.Op, toServer: multiset<string>)
    requires Invariant(p) && toServer <= p.toServer
    requires op.Issue? ==> C.Normal(op.c.id)
    requires op.Ack? ==> op.id in p.toServer
    ensures Invariant(p.(ops := p.ops + [op], toServer := toServer))
  {
    var s, t := p.Server(), p.(ops := p.ops + [op], toServer := toServer).Server();
    ServerStep(p.ops, op);
    ServerMoves(s, op);
    assert p.(ops := p.ops + [op], toServer := toServer).Device() == p.Device();
    hide D.Step, D.Run;
    OpKeepsServer(s, t, p.toDevice, p.deliveries);
    OpKeepsDevice(p.Device(), s, t, p.toServer, toServer);
  }

  lemma OpKeepsServer(s: D.State, t: D.State, toDevice: multiset<string>, deliveries: seq<C.Delivery>)
    requires ServerKnows(s, toDevice, deliveries) && s.signed.Keys <= t.signed.Keys
    requires forall id :: id in t.signed && id !in s.signed ==> C.Normal(id)
    ensures ServerKnows(t, toDevice, deliveries)
  {
    assert forall id :: id in s.signed ==> id in s.signed.Keys && id in t.signed.Keys;
  }

  lemma OpKeepsDevice(d: C.Device, s: D.State, t: D.State, bag: multiset<string>, less: multiset<string>)
    requires DeviceKnows(d, s, bag) && less <= bag
    requires forall id :: id in t.acked ==> id in s.acked || id in bag
    ensures DeviceKnows(d, t, less)
  {
    forall id | id in less ensures id in bag { assert less[id] <= bag[id]; }
  }

  lemma DeviceMoves(d: C.Device, m: C.Delivery)
    ensures var e := C.Step(d, m);
      e.acked == d.acked || (m.Verified? && e.acked == d.acked + [m.id])
  {
  }

  lemma DeliveryKeeps(p: Plane, m: C.Delivery)
    requires Invariant(p) && (m.Verified? ==> m.id in p.Server().signed)
    ensures ServerKnows(p.Server(), p.toDevice, p.deliveries + [m])
    ensures var e := C.Run(C.Fresh, p.deliveries + [m]);
      DeviceKnows(e, p.Server(), p.toServer)
      && (|e.acked| > |p.Device().acked| ==> m.Verified? && m.id in e.acked)
  {
    hide C.Step, C.Run, D.Run;
    DeviceStep(p.deliveries, m);
    DeviceMoves(p.Device(), m);
  }

  lemma BagsKeep(p: Plane, toDevice: multiset<string>, toServer: multiset<string>)
    requires Invariant(p)
    requires forall id :: id in toDevice ==> id in p.toDevice
    requires forall id :: id in toServer ==> id in p.toServer
    ensures Invariant(p.(toDevice := toDevice, toServer := toServer))
  {
    hide C.Run, D.Run;
    var q := p.(toDevice := toDevice, toServer := toServer);
    assert q.Server() == p.Server() && q.Device() == p.Device();
  }

  lemma DeliverKeeps(p: Plane, id: string, room: bool)
    requires Invariant(p) && id in p.toDevice
    ensures Invariant(Step(p, Deliver(id, room)))
  {
    var m := C.Verified(id, room);
    DeliveryKeeps(p, m);
    var q := p.(deliveries := p.deliveries + [m], toDevice := p.toDevice - multiset{id});
    hide C.Run, D.Run, D.Pending;
    assert q.Server() == p.Server() && q.Device() == C.Run(C.Fresh, p.deliveries + [m]);
  }

  lemma StepKeeps(p: Plane, e: Event)
    requires Invariant(p) && Enabled(p, e)
    requires e.Issue? ==> C.Normal(e.c.id)
    ensures Invariant(Step(p, e))
  {
    hide Invariant, C.Run, D.Run, Offer;
    match e
    case Issue(c, signature, at) => OpKeeps(p, D.Issue(c, signature, at), p.toServer);
    case Move(id, to, at) => OpKeeps(p, D.Move(id, to, at), p.toServer);
    case Hello(session, now) => SessionKeeps(p, Some(session)); OfferIssued(p.(session := Some(session)), now);
    case Bye => SessionKeeps(p, None);
    case Deliver(id, room) => DeliverKeeps(p, id, room);
    case Garbage => GarbageKeeps(p);
    case AckArrives(id, now) =>
      OpKeeps(p, D.Ack(id), p.toServer - multiset{id});
      OfferIssued(p.(ops := p.ops + [D.Ack(id)], toServer := p.toServer - multiset{id}), now);
    case LoseCommand(id) => BagsKeep(p, p.toDevice - multiset{id}, p.toServer);
    case LoseAck(id) => BagsKeep(p, p.toDevice, p.toServer - multiset{id});
    case CopyCommand(id) => BagsKeep(p, p.toDevice + multiset{id}, p.toServer);
    case CopyAck(id) => BagsKeep(p, p.toDevice, p.toServer + multiset{id});
  }

  lemma SessionKeeps(p: Plane, session: Option<string>)
    requires Invariant(p)
    ensures Invariant(p.(session := session))
  {
    hide C.Run, D.Run;
    var q := p.(session := session);
    assert q.Server() == p.Server() && q.Device() == p.Device();
  }

  lemma GarbageKeeps(p: Plane)
    requires Invariant(p)
    ensures Invariant(p.(deliveries := p.deliveries + [C.Rejected]))
  {
    DeliveryKeeps(p, C.Rejected);
    hide C.Run, D.Run;
    var q := p.(deliveries := p.deliveries + [C.Rejected]);
    assert q.Server() == p.Server() && q.Device() == C.Run(C.Fresh, q.deliveries);
  }

  lemma {:induction false} AlwaysInvariant(es: seq<Event>)
    requires NormalIds(es)
    ensures Invariant(Run(es))
  {
    if es != [] {
      var n := |es| - 1;
      AlwaysInvariant(es[..n]);
      if Enabled(Run(es[..n]), es[n]) { StepKeeps(Run(es[..n]), es[n]); }
    }
  }

  /** Safety of every run, whatever the relay does: the device executes only issued
      commands and re-executes one only after sixteen others; a command the server holds
      acked was remembered by the device, and was enqueued if the executor had room for
      every new id; and a command the device has not acked, issued and unexpired, is
      still among those the server will offer. */
  lemma CommandsAreSafe(es: seq<Event>, now: int) returns (at: seq<nat>)
    requires NormalIds(es)
    ensures var s, d := Run(es).Server(), Run(es).Device();
      && (forall id :: id in d.log ==> id in s.signed)
      && C.PicksFrom(d.enqueued, at, d.log)
      && (forall i, j :: 0 <= i < j < |at| && d.enqueued[i] == d.enqueued[j] ==> at[j] - at[i] > C.CMD_DEDUPE_N)
      && (forall id :: id in s.acked ==> id in d.log)
      && (C.RoomForNew(Run(es).deliveries) ==> forall id :: id in s.acked ==> id in d.enqueued)
      && (forall id :: id in s.signed && id !in d.acked && now < s.signed[id].command.expiresAt ==>
            s.signed[id] in D.Pending(s, now))
  {
    AlwaysInvariant(es);
    var p := Run(es);
    var s, d := p.Server(), p.Device();
    assert C.AllNormal(p.deliveries);
    at := C.ExecutionsAreSpaced(p.deliveries);
    LogIsDelivered(p.deliveries);
    if C.RoomForNew(p.deliveries) { C.AckedWasEnqueued(p.deliveries); }
    forall id | id in s.signed && id !in d.acked && now < s.signed[id].command.expiresAt
      ensures s.signed[id] in D.Pending(s, now)
    {
      D.PendingLaw(p.ops, [], id, now);
    }
  }

  lemma {:induction false} LogIsDelivered(ms: seq<C.Delivery>)
    ensures forall id :: id in C.Run(C.Fresh, ms).log ==> exists i :: 0 <= i < |ms| && ms[i].Verified? && ms[i].id == id
  {
    if ms != [] {
      var n := |ms| - 1;
      LogIsDelivered(ms[..n]);
      forall id | id in C.Run(C.Fresh, ms).log
        ensures exists i :: 0 <= i < |ms| && ms[i].Verified? && ms[i].id == id
      {
        if id in C.Run(C.Fresh, ms[..n]).log {
          var i :| 0 <= i < n && ms[..n][i].Verified? && ms[..n][i].id == id;
          assert ms[i].id == id;
        } else {
          assert ms[n].Verified? && ms[n].id == id;
        }
      }
    }
  }

  lemma OwedIsPending(ops: seq<D.Op>, now: int, id: string)
    requires D.Owed(D.Run(D.Empty, ops), now, id)
    ensures var s := D.Run(D.Empty, ops); s.signed[id] in D.Pending(s, now) && s.signed[id].command.id == id
  {
    var s := D.Run(D.Empty, ops);
    D.AlwaysInvariant(ops);
    hide D.Run;
    assert id in (set i | i in s.order);
    D.PendingIs(s, now, |s.order|, s.signed[id]);
  }

  /** In every run a hello offers every command owed to its session or to any. */
  lemma HelloOffers(es: seq<Event>, session: string, now: int, id: string)
    requires D.Owed(Run(es).Server(), now, id)
    requires Run(es).Server().signed[id].command.sessionId in {"", session}
    ensures id in Step(Run(es), Hello(session, now)).toDevice
  {
    var p := Run(es);
    var s := p.Server();
    OwedIsPending(p.ops, now, id);
    hide D.Run, Run, D.Pending;
    var out := ForSession(D.Pending(s, now), session);
    ForSessionSelects(D.Pending(s, now), session, s.signed[id]);
    var k :| 0 <= k < |out| && out[k] == s.signed[id];
    assert Ids(out)[k] == id;
    assert id in multiset(Ids(out));
    assert p.(session := Some(session)).Server() == s;
  }

  // ---- A command gets through ----

  /** What a delivery puts in flight: an ack, exactly when the device sent one. */
  lemma DeliveryAnswers(p: Plane, id: string, room: bool)
    requires id in p.toDevice
    ensures var q := Step(p, Deliver(id, room));
      var acks := room || C.Seen(p.Device().log, id);
      && q.toServer == (if acks then p.toServer + multiset{id} else p.toServer)
      && q.Device().acked == (if acks then p.Device().acked + [id] else p.Device().acked)
      && (room && !C.Seen(p.Device().log, id) ==> id in q.Device().enqueued)
      && q.toDevice == p.toDevice - multiset{id} && q.ops == p.ops && q.session == p.session
  {
    DeviceStep(p.deliveries, C.Verified(id, room));
    C.DeliveryIs(p.Device(), C.Verified(id, room));
    hide C.Step, C.Run, C.Seen;
  }

  /** An ack that arrives takes the command off the offer for good, and only that one. */
  lemma AckSettles(p: Plane, id: string, now: int)
    requires id in p.toServer
    ensures var q := Step(p, AckArrives(id, now));
      && q.Server() == p.Server().(acked := p.Server().acked + {id}) && q.toServer == p.toServer - multiset{id}
      && q.Device() == p.Device()
  {
    ServerStep(p.ops, D.Ack(id));
    hide D.Run, C.Run, D.Pending;
  }

  /** If nothing is lost, one round is enough: from any run, a command owed to a session
      and new to the device is offered by a hello, enqueued if there is room, acked, and
      never offered again. */
  lemma OneRoundIsEnough(es: seq<Event>, session: string, now: int, id: string)
    requires D.Owed(Run(es).Server(), now, id) && !C.Seen(Run(es).Device().log, id)
    requires Run(es).Server().signed[id].command.sessionId in {"", session}
    ensures var round := [Hello(session, now), Deliver(id, true), AckArrives(id, now)];
      var q := Run(es + round);
      && id in q.Device().enqueued && id in q.Device().acked && id in q.Server().acked
      && forall later, x :: x in D.Pending(q.Server(), later) ==> x.command.id != id
  {
    hide D.Run, C.Run, Step, D.Pending, Run, C.Seen;
    var p := Run(es);
    HelloOffers(es, session, now, id);
    var p1 := Step(p, Hello(session, now));
    HelloKeepsBoth(p, session, now);
    DeliveryAnswers(p1, id, true);
    var p2 := Step(p1, Deliver(id, true));
    AckSettles(p2, id, now);
    ThreeMore(es, Hello(session, now), Deliver(id, true), AckArrives(id, now));
    var q := Step(p2, AckArrives(id, now));
    forall later ensures forall x :: x in D.Pending(q.Server(), later) ==> x.command.id != id {
      AckedNotPending(q.ops, id, later);
    }
  }

  lemma AckedNotPending(ops: seq<D.Op>, id: string, now: int)
    requires id in D.Run(D.Empty, ops).acked
    ensures forall x :: x in D.Pending(D.Run(D.Empty, ops), now) ==> x.command.id != id
  {
    var s := D.Run(D.Empty, ops);
    D.AlwaysInvariant(ops);
    hide D.Run;
    forall x | x in D.Pending(s, now) ensures x.command.id != id { D.PendingIs(s, now, |s.order|, x); }
  }

  lemma HelloKeepsBoth(p: Plane, session: string, now: int)
    ensures var q := Step(p, Hello(session, now)); q.Server() == p.Server() && q.Device() == p.Device()
  {
    hide D.Run, C.Run, D.Pending;
  }

  lemma ThreeMore(es: seq<Event>, a: Event, b: Event, c: Event)
    ensures Run(es + [a, b, c]) == Step(Step(Step(Run(es), a), b), c)
  {
    hide Step, Run;
    OneMore(es, a);
    OneMore(es + [a], b);
    OneMore(es + [a] + [b], c);
    assert es + [a] + [b] + [c] == es + [a, b, c];
  }

  lemma OneMore(es: seq<Event>, e: Event)
    ensures Run(es + [e]) == Step(Run(es), e)
  {
    assert (es + [e])[..|es|] == es;
  }

  // ---- What is offered ----

  predicate Fits(x: D.Signed, session: string) { x.command.sessionId == "" || x.command.sessionId == session }

  /** How often these ids name this one. */
  function Count(ids: seq<string>, id: string): nat { multiset(ids)[id] }

  lemma CountMore(ids: seq<string>, more: seq<string>, id: string)
    ensures Count(ids + more, id) == Count(ids, id) + Count(more, id)
  {
  }

  lemma CountOne(x: string, id: string)
    ensures Count([], id) == 0 && Count([x], id) == if x == id then 1 else 0
  {
  }

  /** A command owed to the session is sent once. */
  predicate Due(s: D.State, now: int, n: nat, session: string, id: string)
    requires n <= |s.order|
  {
    id in s.order[..n] && D.Owed(s, now, id) && Fits(s.signed[id], session)
  }

  lemma {:induction false} OfferedOnce(s: D.State, now: int, n: nat, session: string, id: string)
    requires D.Tables(s) && n <= |s.order|
    ensures Count(Ids(ForSession(D.PendingUpTo(s, now, n), session)), id) ==
      if Due(s, now, n, session, id) then 1 else 0
  {
    hide *;
    if n == 0 {
      NothingOffered(s, now, session, id);
    } else {
      var before := Ids(ForSession(D.PendingUpTo(s, now, n - 1), session));
      OfferedOnce(s, now, n - 1, session, id);
      var more := SentFor(s, now, n - 1, session);
      D.PendingNext(s, now, n - 1);
      SentMore(s, now, n - 1, session);
      CountMore(before, more, id);
      DueMore(s, now, n - 1, session, id);
    }
  }

  lemma NothingOffered(s: D.State, now: int, session: string, id: string)
    ensures Count(Ids(ForSession(D.PendingUpTo(s, now, 0), session)), id) == 0 && !Due(s, now, 0, session, id)
  {
  }

  /** What command n adds to the offer. */
  function SentFor(s: D.State, now: int, n: nat, session: string): seq<string>
    requires n < |s.order|
  {
    if D.Owed(s, now, s.order[n]) && Fits(s.signed[s.order[n]], session) then [s.signed[s.order[n]].command.id] else []
  }

  lemma SentMore(s: D.State, now: int, n: nat, session: string)
    requires n < |s.order|
    ensures Ids(ForSession(D.PendingUpTo(s, now, n + 1), session)) ==
      Ids(ForSession(D.PendingUpTo(s, now, n), session)) + SentFor(s, now, n, session)
  {
    hide D.PendingUpTo, ForSession, Fits;
    D.PendingNext(s, now, n);
    var before := D.PendingUpTo(s, now, n);
    NothingAround(before);
    NothingAround(Ids(ForSession(before, session)));
    if D.Owed(s, now, s.order[n]) { ForSessionMore(before, session, s.signed[s.order[n]]); }
  }

  lemma DueMore(s: D.State, now: int, n: nat, session: string, id: string)
    requires D.Tables(s) && n < |s.order|
    ensures (if Due(s, now, n + 1, session, id) then 1 else 0) ==
      (if Due(s, now, n, session, id) then 1 else 0) + Count(SentFor(s, now, n, session), id)
  {
    var x := s.order[n];
    assert s.order[..n + 1] == s.order[..n] + [x];
    assert x !in s.order[..n];
    if x in s.signed { CountOne(s.signed[x].command.id, id); }
    CountOne(x, id);
    hide Fits, Count;
  }

  lemma ForSessionMore(pending: seq<D.Signed>, session: string, x: D.Signed)
    ensures Ids(ForSession(pending + [x], session)) ==
      Ids(ForSession(pending, session)) + if Fits(x, session) then [x.command.id] else []
  {
    assert (pending + [x])[..|pending|] == pending;
  }

  /** In every run a hello, and an ack that arrives while a session is open, send each
      command owed to that session or to any once, and nothing else. */
  lemma OffersExactly(es: seq<Event>, session: string, now: int, id: string)
    requires Run(es).session == Some(session)
    ensures var p := Run(es);
      Offer(p, now).toDevice[id] == p.toDevice[id] +
        if D.Owed(p.Server(), now, id) && p.Server().signed[id].command.sessionId in {"", session} then 1 else 0
  {
    var p := Run(es);
    hide Run, D.Run;
    D.AlwaysInvariant(p.ops);
    OfferIs(p, session, now, id);
  }

  lemma OfferIs(p: Plane, session: string, now: int, id: string)
    requires p.session == Some(session) && D.Invariant(p.Server())
    ensures Offer(p, now).toDevice[id] == p.toDevice[id] +
        if D.Owed(p.Server(), now, id) && p.Server().signed[id].command.sessionId in {"", session} then 1 else 0
  {
    hide D.Run, D.Distinct, D.Lifecycle;
    var s := p.Server();
    IssuedInOrder(s, id);
    OfferedOnce(s, now, |s.order|, session, id);
    assert s.order[..|s.order|] == s.order;
    assert s.signed.Keys == (set i | i in s.order);
    hide D.PendingUpTo, ForSession, D.Tables;
  }

  lemma IssuedInOrder(s: D.State, id: string)
    requires D.Tables(s)
    ensures id in s.signed ==> id in s.order
  {
    if id in s.signed { assert id in s.signed.Keys; }
  }

  /** An ack that arrives also pulls the remainder: every other command owed to the open
      session or to any is sent. */
  lemma AckOffersRest(es: seq<Event>, session: string, now: int, id: string, other: string)
    requires id in Run(es).toServer && Run(es).session == Some(session)
    requires other != id && D.Owed(Run(es).Server(), now, other)
    requires Run(es).Server().signed[other].command.sessionId in {"", session}
    ensures other in Step(Run(es), AckArrives(id, now)).toDevice
  {
    hide Run;
    var p := Run(es);
    AckOffers(p, id, session, now, other);
  }

  lemma AckOffers(p: Plane, id: string, session: string, now: int, other: string)
    requires id in p.toServer && p.session == Some(session)
    requires other != id && D.Owed(p.Server(), now, other)
    requires p.Server().signed[other].command.sessionId in {"", session}
    ensures other in Step(p, AckArrives(id, now)).toDevice
  {
    hide D.Run, D.Pending, Offer, D.Invariant;
    var q := p.(ops := p.ops + [D.Ack(id)], toServer := p.toServer - multiset{id});
    ServerStep(p.ops, D.Ack(id));
    D.AlwaysInvariant(q.ops);
    OfferIs(q, session, now, other);
  }

  /** What the relay may do with a message under way: lose it or send it twice, and hand the
      device anything that fails verification. */
  lemma RelayMay(p: Plane, id: string)
    ensures id in p.toDevice ==>
      && Step(p, LoseCommand(id)) == p.(toDevice := p.toDevice - multiset{id})
      && Step(p, CopyCommand(id)) == p.(toDevice := p.toDevice + multiset{id})
    ensures id in p.toServer ==>
      && Step(p, LoseAck(id)) == p.(toServer := p.toServer - multiset{id})
      && Step(p, CopyAck(id)) == p.(toServer := p.toServer + multiset{id})
    ensures Step(p, Bye) == p.(session := None)
    ensures Step(p, Garbage) == p.(deliveries := p.deliveries + [C.Rejected])
    ensures Step(p, Garbage).Device() == p.Device()
  {
    hide C.Run, D.Run, Offer, C.Step;
    GarbageIs(p.deliveries);
  }

  lemma GarbageIs(ms: seq<C.Delivery>)
    ensures C.Run(C.Fresh, ms + [C.Rejected]) == C.Run(C.Fresh, ms)
  {
    DeviceStep(ms, C.Rejected);
    hide C.Run;
  }
}
