/** Whole histories of the event timeline: any number of connections opening, speaking,
    saying bye or just dropping, with one live connection per session, and ranges deleted
    in between. */
module Reconnects {
  import opened Wrappers
  import opened EventStore
  import opened Gateway

  /** Connections that have ended stay in `conns` but not in `live`. */
  datatype World = World(store: Store, conns: map<nat, Core>, live: set<nat>)

  const Start := World(Empty, map[], {})

  datatype Event =
    | Connect(k: nat)
    | Hello(k: nat, session: string)
    | Audio(k: nat, ts: seq<Utterance>, replayDone: bool)
    | Bye(k: nat, flush: seq<Utterance>)
    | Disconnect(k: nat, flush: seq<Utterance>)
    | Delete(session: string, first: int, last: int)

  function DeskOf(w: World, k: nat): Desk
    requires k in w.conns
  {
    Desk(w.store, w.conns[k])
  }

  function Put(w: World, k: nat, d: Desk): World { w.(store := d.store, conns := w.conns[k := d.core]) }

  ghost predicate Enabled(w: World, e: Event) {
    match e
    case Connect(k) => k !in w.conns
    case Hello(k, session) =>
      Live(w, k) && forall j :: Live(w, j) && j != k ==> w.conns[j].session != Some(session)
    case Audio(k, _, _) => Live(w, k)
    case Bye(k, _) => Live(w, k)
    case Disconnect(k, _) => Live(w, k)
    case Delete(_, _, _) => true
  }

  ghost predicate Live(w: World, k: nat) { k in w.live && k in w.conns }

  ghost function Step(w: World, e: Event): World {
    if !Enabled(w, e) then w
    else
      match e
      case Connect(k) => w.(conns := w.conns[k := NewCore], live := w.live + {k})
      case Hello(k, session) => Put(w, k, Opened(DeskOf(w, k), session))
      case Audio(k, ts, done) => Put(w, k, Heard(DeskOf(w, k), Lines(ts, done)))
      case Bye(k, flush) => Put(w, k, Closed(Heard(DeskOf(w, k), flush)))
      case Disconnect(k, flush) => Put(w, k, Heard(DeskOf(w, k), flush)).(live := w.live - {k})
      case Delete(session, first, last) => w.(store := Deleted(w.store, session, first, last))
  }

  ghost function Run(es: seq<Event>): World {
    if es == [] then Start else Step(Run(es[..|es| - 1]), es[|es| - 1])
  }

  /** Which session a connection speaks for: none when new, the one it last said hello for,
      none again after a bye; and one that was dropped is out of the world. */
  lemma SpeaksFor(w: World, k: nat, session: string, flush: seq<Utterance>)
    ensures k !in w.conns ==> Live(Step(w, Connect(k)), k) && Step(w, Connect(k)).conns[k].session == None
    ensures Live(w, k) && (forall j :: Live(w, j) && j != k ==> w.conns[j].session != Some(session)) ==>
      Enabled(w, Hello(k, session))
    ensures Enabled(w, Hello(k, session)) ==> Step(w, Hello(k, session)).conns[k].session == Some(session)
    ensures Live(w, k) ==> Step(w, Bye(k, flush)).conns[k].session == None
    ensures !Live(Step(w, Disconnect(k, flush)), k)
  {
    hide EmittedAll, Latest;
  }

  // ---- One timeline ----

  /** Numbers count up by one, each event starts where the one before ended, and everything
      else is the utterance's. */
  lemma {:induction false} LaidChains(session: string, n: nat, t: nat, us: seq<Utterance>)
    ensures var es := Laid(session, n, t, us);
      && |es| == |us|
      && (forall i :: 0 <= i < |es| ==> es[i].seqNo == n + i && es[i].text == us[i].text)
      && (forall i :: 0 <= i < |es| ==> es[i] == CaptureEvent(EventId(session, n + i), session, n + i, us[i].kind,
                                                              us[i].text, us[i].durationMs, es[i].startMs))
      && (es != [] ==> es[0].startMs == t && es[|es| - 1].startMs + es[|es| - 1].durationMs == t + Total(us))
      && forall i :: 0 <= i < |es| - 1 ==> es[i + 1].startMs == es[i].startMs + es[i].durationMs
  {
    if us != [] { LaidChains(session, n, t, us[..|us| - 1]); }
  }

  lemma {:induction false} LaidJoins(session: string, n: nat, t: nat, us: seq<Utterance>, vs: seq<Utterance>)
    ensures Laid(session, n, t, us + vs) == Laid(session, n, t, us) + Laid(session, n + |us|, t + Total(us), vs)
    ensures Total(us + vs) == Total(us) + Total(vs)
  {
    if vs == [] {
      assert us + vs == us;
    } else {
      assert (us + vs)[..|us + vs| - 1] == us + vs[..|vs| - 1];
      LaidJoins(session, n, t, us, vs[..|vs| - 1]);
    }
  }

  // ---- One connection speaking ----

  function ExtractedFrom(es: seq<CaptureEvent>): seq<string> {
    if es == [] then []
    else ExtractedFrom(es[..|es| - 1]) + if es[|es| - 1].kind == TranscriptKind then [es[|es| - 1].sessionId] else []
  }

  /** Transcripts are passed on to extraction, moments are not. */
  lemma ExtractedIs(es: seq<CaptureEvent>, e: CaptureEvent)
    ensures ExtractedFrom([]) == []
    ensures e.kind == TranscriptKind ==> ExtractedFrom(es + [e]) == ExtractedFrom(es) + [e.sessionId]
    ensures e.kind == MomentKind ==> ExtractedFrom(es + [e]) == ExtractedFrom(es)
  {
    assert (es + [e])[..|es|] == es;
  }

  /** Nothing the connection built was turned away as a duplicate. */
  ghost predicate AllStored(c: Core) { c.indexed == c.built && c.extracted == ExtractedFrom(c.built) }

  /** The connection's next event lies after everything stored for its session. */
  ghost predicate Ahead(d: Desk) {
    d.core.session.Some? ==> Before(Rows(d.store, d.core.session.value), d.core.eventSeq, d.core.cumMs)
  }

  lemma EmittedKeeps(d: Desk, u: Utterance)
    requires Sound(d.store) && d.core.session.Some? && Ahead(d) && AllStored(d.core)
    ensures var r, s := Emitted(d, u), d.core.session.value;
      && Sound(r.store) && Ahead(r) && AllStored(r.core)
      && Rows(r.store, s) == Rows(d.store, s) + [EventFor(d.core, u)]
      && forall other :: other != s ==> Rows(r.store, other) == Rows(d.store, other)
  {
    var e := EventFor(d.core, u);
    AppendSucceeds(d.store, e);
    assert (d.core.built + [e])[..|d.core.built|] == d.core.built;
    hide Sound, Before, EventId;
  }

  /** `r` is `d` after these utterances: they follow its rows, and nothing else moved. */
  ghost predicate Grown(d: Desk, r: Desk, us: seq<Utterance>)
    requires d.core.session.Some?
  {
    var s := d.core.session.value;
    && r.core.session == d.core.session
    && r.core.eventSeq == d.core.eventSeq + |us| && r.core.cumMs == d.core.cumMs + Total(us)
    && Rows(r.store, s) == Rows(d.store, s) + Laid(s, d.core.eventSeq, d.core.cumMs, us)
    && forall other :: other != s ==> Rows(r.store, other) == Rows(d.store, other)
  }

  lemma EmittedMoves(d: Desk, u: Utterance)
    requires d.core.session.Some?
    ensures var r := Emitted(d, u);
      r.core.eventSeq == d.core.eventSeq + 1 && r.core.cumMs == d.core.cumMs + u.durationMs
  {
  }

  lemma GrownStep(d: Desk, m: Desk, us: seq<Utterance>, u: Utterance)
    requires Sound(m.store) && d.core.session.Some? && Ahead(m) && AllStored(m.core) && Grown(d, m, us)
    ensures Grown(d, Emitted(m, u), us + [u])
  {
    hide Sound, Ahead, AllStored, EventId, Emitted, Laid, Total, Rows;
    EmittedKeeps(m, u);
    EmittedMoves(m, u);
    LaidOneMore(d.core.session.value, d.core.eventSeq, d.core.cumMs, us, u);
  }

  lemma {:induction false} EmittedAllKeeps(d: Desk, us: seq<Utterance>)
    requires Sound(d.store) && d.core.session.Some? && Ahead(d) && AllStored(d.core)
    ensures var r := EmittedAll(d, us); Sound(r.store) && Ahead(r) && AllStored(r.core) && Grown(d, r, us)
  {
    hide Sound, Ahead, AllStored, EventId, Emitted;
    if us != [] {
      var us', u := us[..|us| - 1], us[|us| - 1];
      EmittedAllKeeps(d, us');
      OneMore(d, us', u);
      assert us' + [u] == us;
      hide EmittedAll, Laid;
      var m := EmittedAll(d, us');
      EmittedKeeps(m, u);
      GrownStep(d, m, us', u);
    }
  }

  lemma OpenedKeeps(d: Desk, session: string)
    requires Sound(d.store)
    ensures Ahead(Opened(d, session))
  {
    var rows := Rows(d.store, session);
    assert Timeline(session, rows);
    LatestIsLast(session, rows);
    forall e | e in rows ensures rows != [] && e.seqNo <= rows[|rows| - 1].seqNo
        && e.startMs + e.durationMs <= rows[|rows| - 1].startMs + rows[|rows| - 1].durationMs
    {
      var i :| 0 <= i < |rows| && rows[i] == e;
    }
  }

  // ---- What every history keeps ----

  ghost predicate Invariant(w: World) {
    && Sound(w.store)
    && (forall k :: k in w.conns ==> AllStored(w.conns[k]))
    && (forall k :: Live(w, k) ==> Ahead(DeskOf(w, k)))
    && OnePerSession(w)
  }

  ghost predicate OnePerSession(w: World) {
    forall j, k :: Live(w, j) && Live(w, k) && j != k && w.conns[j].session.Some? ==>
      w.conns[j].session != w.conns[k].session
  }

  lemma PutKeeps(w: World, k: nat, d: Desk)
    requires Invariant(w) && Live(w, k) && Sound(d.store) && AllStored(d.core) && Ahead(d)
    requires forall j :: Live(w, j) && j != k ==>
      Ahead(Desk(d.store, w.conns[j])) && (d.core.session.Some? ==> w.conns[j].session != d.core.session)
    ensures Invariant(Put(w, k, d))
  {
    hide Sound, AllStored, Ahead;
    var x := Put(w, k, d);
    forall j | Live(x, j) ensures Live(w, j) && DeskOf(x, j) == if j == k then d else Desk(d.store, w.conns[j]) {}
  }

  lemma HeardKeeps(w: World, k: nat, us: seq<Utterance>)
    requires Invariant(w) && Live(w, k)
    ensures Invariant(Put(w, k, Heard(DeskOf(w, k), us)))
  {
    var d := DeskOf(w, k);
    if d.core.session.Some? {
      EmittedAllKeeps(d, us);
      var r := EmittedAll(d, us);
      hide Sound, AllStored, Before, EmittedAll, Laid, Total;
      forall j | Live(w, j) && j != k
        ensures Ahead(Desk(r.store, w.conns[j])) && w.conns[j].session != r.core.session
      {
        assert Ahead(DeskOf(w, j));
      }
      hide Ahead, Grown;
      PutKeeps(w, k, r);
    } else {
      assert Put(w, k, Heard(d, us)) == w;
    }
  }

  lemma HelloKeeps(w: World, k: nat, session: string)
    requires Invariant(w) && Enabled(w, Hello(k, session))
    ensures Invariant(Step(w, Hello(k, session)))
  {
    var d := Opened(DeskOf(w, k), session);
    OpenedKeeps(DeskOf(w, k), session);
    assert d.store == w.store && AllStored(d.core) && d.core.session == Some(session);
    hide Sound, Ahead, AllStored, Opened;
    forall j | Live(w, j) && j != k ensures Ahead(Desk(d.store, w.conns[j])) {
      assert DeskOf(w, j) == Desk(d.store, w.conns[j]);
    }
    PutKeeps(w, k, d);
  }

  lemma DeleteKeepsAhead(d: Desk, session: string, first: int, last: int)
    requires Sound(d.store) && Ahead(d)
    ensures Ahead(d.(store := Deleted(d.store, session, first, last)))
  {
    DeleteKeeps(d.store, session, first, last);
    hide Sound, Deleted;
  }

  lemma PutTwice(w: World, k: nat, d: Desk)
    ensures Put(Put(w, k, d), k, Closed(d)) == Put(w, k, Closed(d))
  {
  }

  lemma StepKeeps(w: World, e: Event)
    requires Invariant(w)
    ensures Invariant(Step(w, e))
  {
    hide Invariant, Heard, Deleted;
    if Enabled(w, e) {
      match e
      case Connect(k) => ConnectKeeps(w, k);
      case Hello(k, session) => HelloKeeps(w, k, session);
      case Audio(k, ts, done) => HeardKeeps(w, k, Lines(ts, done));
      case Bye(k, flush) =>
        HeardKeeps(w, k, flush);
        ByeKeeps(Put(w, k, Heard(DeskOf(w, k), flush)), k);
        PutTwice(w, k, Heard(DeskOf(w, k), flush));
      case Disconnect(k, flush) =>
        HeardKeeps(w, k, flush);
        DropKeeps(Put(w, k, Heard(DeskOf(w, k), flush)), k);
      case Delete(session, first, last) => DeleteStepKeeps(w, session, first, last);
    }
  }

  lemma ConnectKeeps(w: World, k: nat)
    requires Invariant(w) && k !in w.conns
    ensures Invariant(w.(conns := w.conns[k := NewCore], live := w.live + {k}))
  {
    hide Sound, Before;
    var x := w.(conns := w.conns[k := NewCore], live := w.live + {k});
    forall j | Live(x, j) && j != k ensures Live(w, j) && DeskOf(x, j) == DeskOf(w, j) {}
  }

  lemma ByeKeeps(w: World, k: nat)
    requires Invariant(w) && Live(w, k)
    ensures Invariant(Put(w, k, Closed(DeskOf(w, k))))
  {
    var d := Closed(DeskOf(w, k));
    assert AllStored(DeskOf(w, k).core);
    assert Ahead(d);
    forall j | Live(w, j) && j != k ensures Ahead(Desk(d.store, w.conns[j])) {
      assert DeskOf(w, j) == Desk(d.store, w.conns[j]);
    }
    hide Sound, Ahead;
    PutKeeps(w, k, d);
  }

  lemma DropKeeps(w: World, k: nat)
    requires Invariant(w)
    ensures Invariant(w.(live := w.live - {k}))
  {
    hide Sound, Ahead, AllStored;
    var y := w.(live := w.live - {k});
    forall j | Live(y, j) ensures Live(w, j) && DeskOf(y, j) == DeskOf(w, j) {}
  }

  lemma DeleteStepKeeps(w: World, session: string, first: int, last: int)
    requires Invariant(w)
    ensures Invariant(Step(w, Delete(session, first, last)))
  {
    DeleteKeeps(w.store, session, first, last);
    var x := Step(w, Delete(session, first, last));
    assert x == w.(store := Deleted(w.store, session, first, last));
    hide Sound, Deleted, Ahead, Step, AllStored;
    forall j | Live(x, j) ensures Ahead(DeskOf(x, j)) {
      assert Live(w, j);
      DeleteKeepsAhead(DeskOf(w, j), session, first, last);
    }
    assert forall j :: Live(x, j) <==> Live(w, j);
  }

  lemma {:induction false} AlwaysInvariant(es: seq<Event>)
    ensures Invariant(Run(es))
  {
    if es != [] {
      AlwaysInvariant(es[..|es| - 1]);
      StepKeeps(Run(es[..|es| - 1]), es[|es| - 1]);
    }
  }

  /** In every history, deletions included: every event any connection built was stored,
      indexed and passed on; two surviving events with one id are one event; and each
      session's survivors are disjoint in time and ordered by number. */
  lemma NothingIsLostToDuplicates(es: seq<Event>)
    ensures var w := Run(es);
      && (forall k :: k in w.conns ==>
            w.conns[k].indexed == w.conns[k].built && w.conns[k].extracted == ExtractedFrom(w.conns[k].built))
      && (forall a, b, x, y :: x in Rows(w.store, a) && y in Rows(w.store, b) && x.eventId == y.eventId ==>
            a == b && x == y)
      && forall a :: Timeline(a, Rows(w.store, a))
  {
    AlwaysInvariant(es);
    var w := Run(es);
    forall a, b, x, y | x in Rows(w.store, a) && y in Rows(w.store, b) && x.eventId == y.eventId
      ensures a == b && x == y
    {
      IdsUnique(w.store, a, b, x, y);
    }
  }

  lemma IdsUnique(s: Store, a: string, b: string, x: CaptureEvent, y: CaptureEvent)
    requires Sound(s) && x in Rows(s, a) && y in Rows(s, b) && x.eventId == y.eventId
    ensures a == b && x == y
  {
    assert Timeline(a, Rows(s, a)) && Timeline(b, Rows(s, b));
    EventIdInjective(a, x.seqNo, b, y.seqNo);
    hide EventId;
    var i :| 0 <= i < |Rows(s, a)| && Rows(s, a)[i] == x;
    var j :| 0 <= j < |Rows(s, b)| && Rows(s, b)[j] == y;
  }

  // ---- Without deletions, reconnects leave no trace ----

  /** What this step has the gateway record for the session. */
  ghost function SaidBy(w: World, e: Event, session: string): seq<Utterance> {
    if !Enabled(w, e) then []
    else
      match e
      case Audio(k, ts, done) => if w.conns[k].session == Some(session) then Lines(ts, done) else []
      case Bye(k, flush) => if w.conns[k].session == Some(session) then flush else []
      case Disconnect(k, flush) => if w.conns[k].session == Some(session) then flush else []
      case _ => []
  }

  ghost function Said(es: seq<Event>, session: string): seq<Utterance> {
    if es == [] then []
    else Said(es[..|es| - 1], session) + SaidBy(Run(es[..|es| - 1]), es[|es| - 1], session)
  }

  /** What a session says is what its live connection hears on each packet, the moment
      behind it when the packet ends a replay, and what it flushes when it closes. */
  lemma SaidIs(es: seq<Event>, e: Event, session: string)
    ensures var w := Run(es);
      Said(es + [e], session) == Said(es, session) +
        match e
        case Audio(k, ts, done) =>
          if Live(w, k) && w.conns[k].session == Some(session) then (if done then ts + [MOMENT] else ts) else []
        case Bye(k, flush) => if Live(w, k) && w.conns[k].session == Some(session) then flush else []
        case Disconnect(k, flush) => if Live(w, k) && w.conns[k].session == Some(session) then flush else []
        case _ => []
  {
    assert (es + [e])[..|es|] == es;
    hide Run, Said;
    SaidMore(es, e, session);
    match e
    case Audio(k, ts, done) => assert ts + [] == ts;
    case _ =>
  }

  lemma SaidMore(es: seq<Event>, e: Event, session: string)
    ensures Said(es + [e], session) == Said(es, session) + SaidBy(Run(es), e, session)
  {
    assert (es + [e])[..|es|] == es;
    hide SaidBy, Run;
  }

  /** The session's rows are what one unbroken connection would have written, and a live
      connection stands at their end. */
  ghost predicate Unbroken(w: World, session: string, us: seq<Utterance>) {
    && Rows(w.store, session) == Laid(session, 0, 0, us)
    && forall k :: Live(w, k) && w.conns[k].session == Some(session) ==>
         w.conns[k].eventSeq == |us| && w.conns[k].cumMs == Total(us)
  }

  /** `k` moves on to `d`, which stands at the end of the session if it is open on it. */
  lemma PutUnbroken(w: World, k: nat, d: Desk, session: string, us: seq<Utterance>, us': seq<Utterance>)
    requires Live(w, k) && Unbroken(w, session, us)
    requires Rows(d.store, session) == Laid(session, 0, 0, us')
    requires d.core.session == Some(session) ==> d.core.eventSeq == |us'| && d.core.cumMs == Total(us')
    requires us == us' || forall j :: Live(w, j) && j != k ==> w.conns[j].session != Some(session)
    ensures Unbroken(Put(w, k, d), session, us')
  {
    hide Laid, Total;
    var x := Put(w, k, d);
    forall j | Live(x, j) ensures Live(w, j) && x.conns[j] == if j == k then d.core else w.conns[j] {}
  }

  lemma GrownEnds(d: Desk, r: Desk, session: string, us: seq<Utterance>, vs: seq<Utterance>)
    requires d.core.session == Some(session) && Grown(d, r, vs)
    requires Rows(d.store, session) == Laid(session, 0, 0, us) && d.core.eventSeq == |us| && d.core.cumMs == Total(us)
    ensures Rows(r.store, session) == Laid(session, 0, 0, us + vs)
    ensures r.core.eventSeq == |us + vs| && r.core.cumMs == Total(us + vs)
  {
    hide Laid, Total, Rows;
    LaidJoins(session, 0, 0, us, vs);
  }

  lemma HeardOwn(w: World, k: nat, session: string, us: seq<Utterance>, vs: seq<Utterance>)
    requires Invariant(w) && Live(w, k) && Unbroken(w, session, us) && w.conns[k].session == Some(session)
    ensures Unbroken(Put(w, k, Heard(DeskOf(w, k), vs)), session, us + vs)
  {
    hide Sound, AllStored, Before, EmittedAll, Laid, Ahead, Total, Rows, Grown;
    var d := DeskOf(w, k);
    var r := EmittedAll(d, vs);
    EmittedAllKeeps(d, vs);
    GrownEnds(d, r, session, us, vs);
    assert forall j :: Live(w, j) && j != k ==> w.conns[j].session != Some(session);
    assert Heard(d, vs) == r;
    hide Invariant, Heard, DeskOf;
    PutUnbroken(w, k, r, session, us, us + vs);
  }

  lemma HeardOther(w: World, k: nat, session: string, us: seq<Utterance>, vs: seq<Utterance>)
    requires Invariant(w) && Live(w, k) && Unbroken(w, session, us) && w.conns[k].session != Some(session)
    ensures Unbroken(Put(w, k, Heard(DeskOf(w, k), vs)), session, us)
  {
    var d := DeskOf(w, k);
    hide Sound, AllStored, Before, EmittedAll, Laid, Ahead, Total, Rows;
    if d.core.session.Some? { EmittedAllKeeps(d, vs); }
    hide Invariant;
    PutUnbroken(w, k, Heard(d, vs), session, us, us);
  }

  lemma OpenedStore(d: Desk, session: string)
    ensures Opened(d, session).store == d.store
  {
  }

  lemma OpenedAtEnd(d: Desk, session: string, us: seq<Utterance>)
    requires Timeline(session, Rows(d.store, session)) && Rows(d.store, session) == Laid(session, 0, 0, us)
    ensures var c := Opened(d, session).core; c.eventSeq == |us| && c.cumMs == Total(us)
  {
    LaidChains(session, 0, 0, us);
    assert us == [] ==> Total(us) == 0;
    LatestIsLast(session, Rows(d.store, session));
    hide Laid, Timeline, Latest;
  }

  lemma HelloUnbroken(w: World, k: nat, hello: string, session: string, us: seq<Utterance>)
    requires Invariant(w) && Enabled(w, Hello(k, hello)) && Unbroken(w, session, us)
    ensures Unbroken(Step(w, Hello(k, hello)), session, us)
  {
    assert Timeline(session, Rows(w.store, session));
    OpenedAtEnd(DeskOf(w, k), session, us);
    assert hello != session ==> Opened(DeskOf(w, k), hello).core.session != Some(session);
    hide Invariant, Laid, Timeline, Latest, Total, Opened;
    OpenedStore(DeskOf(w, k), hello);
    PutUnbroken(w, k, Opened(DeskOf(w, k), hello), session, us, us);
  }

  lemma HeardUnbroken(w: World, k: nat, session: string, us: seq<Utterance>, vs: seq<Utterance>)
    requires Invariant(w) && Live(w, k) && Unbroken(w, session, us)
    ensures Unbroken(Put(w, k, Heard(DeskOf(w, k), vs)), session,
                     if w.conns[k].session == Some(session) then us + vs else us)
  {
    hide Invariant, Unbroken, Heard;
    if w.conns[k].session == Some(session) {
      HeardOwn(w, k, session, us, vs);
    } else {
      HeardOther(w, k, session, us, vs);
    }
  }

  lemma StepUnbroken(w: World, e: Event, session: string, us: seq<Utterance>)
    requires Invariant(w) && Unbroken(w, session, us) && !(e.Delete? && e.session == session)
    ensures Unbroken(Step(w, e), session, us + SaidBy(w, e, session))
  {
    hide Sound, AllStored, Before, Laid, Ahead, Heard, Opened, Invariant;
    assert us + [] == us;
    if Enabled(w, e) {
      match e
      case Connect(k) => assert forall j :: Live(Step(w, e), j) && j != k ==> Live(w, j);
      case Hello(k, s) => HelloUnbroken(w, k, s, session, us);
      case Audio(k, ts, done) => HeardUnbroken(w, k, session, us, Lines(ts, done));
      case Bye(k, flush) =>
        HeardUnbroken(w, k, session, us, flush);
        PutTwice(w, k, Heard(DeskOf(w, k), flush));
        PutUnbroken(Put(w, k, Heard(DeskOf(w, k), flush)), k, Closed(Heard(DeskOf(w, k), flush)), session,
                    us + SaidBy(w, e, session), us + SaidBy(w, e, session));
      case Disconnect(k, flush) =>
        HeardUnbroken(w, k, session, us, flush);
        var x := Put(w, k, Heard(DeskOf(w, k), flush));
        forall j | Live(Step(w, e), j) ensures Live(x, j) {}
      case Delete(s, first, last) =>
        assert forall j :: Live(Step(w, e), j) ==> Live(w, j);
    }
  }

  /** However often its connection drops and comes back, a session from which nothing was
      deleted reads as if it had been recorded in one go: events numbered 0, 1, 2, ...,
      each starting where the one before ended. */
  lemma {:induction false} ReconnectsInvisible(es: seq<Event>, session: string)
    requires forall i :: 0 <= i < |es| ==> !(es[i].Delete? && es[i].session == session)
    ensures Unbroken(Run(es), session, Said(es, session))
    ensures var rows := Rows(Run(es).store, session);
      && |rows| == |Said(es, session)|
      && (forall i :: 0 <= i < |rows| ==>
            var u := Said(es, session)[i];
            rows[i] == CaptureEvent(EventId(session, i), session, i, u.kind, u.text, u.durationMs, rows[i].startMs))
      && (rows != [] ==> rows[0].startMs == 0)
      && forall i :: 0 <= i < |rows| - 1 ==> rows[i + 1].startMs == rows[i].startMs + rows[i].durationMs
  {
    hide Laid, EventId, Total;
    if es == [] {
      NothingLaid(session);
    } else {
      ReconnectsInvisible(es[..|es| - 1], session);
      AlwaysInvariant(es[..|es| - 1]);
      StepUnbroken(Run(es[..|es| - 1]), es[|es| - 1], session, Said(es[..|es| - 1], session));
    }
    LaidChains(session, 0, 0, Said(es, session));
  }

  lemma NothingLaid(session: string)
    ensures Laid(session, 0, 0, []) == [] && Total([]) == 0
  {
  }

  // ---- What a deletion can do to numbering ----

  /** The number a hello would resume at. */
  function ResumesAt(s: Store, session: string): nat {
    match Latest(Rows(s, session))
    case Some(e) => e.seqNo + 1
    case None => 0
  }

  /** Numbering goes back, and ids already used are issued again, exactly when a deletion
      took the session's newest event. */
  lemma NumberingGoesBackIff(s: Store, session: string, first: int, last: int)
    requires Sound(s) && Rows(s, session) != []
    ensures var newest := Rows(s, session)[|Rows(s, session)| - 1];
      var was, now := ResumesAt(s, session), ResumesAt(Deleted(s, session, first, last), session);
      (now < was <==> InRange(newest, first, last)) && (now == was <==> !InRange(newest, first, last))
  {
    var rows := Rows(s, session);
    var kept := Outside(rows, first, last);
    assert Timeline(session, rows);
    LatestIsLast(session, rows);
    OutsideKeepsTimeline(session, rows, first, last);
    LatestIsLast(session, kept);
    OutsideIs(rows, first, last);
    OutsideStep(rows, first, last);
    hide Sound, Outside, IdsInside, Latest;
    if kept != [] {
      var i :| 0 <= i < |rows| && rows[i] == kept[|kept| - 1];
    }
  }
}
