/** The per-connection session machine of gateway/core.py over the shared event store:
    hello resumes a session's numbering, transcripts and moments become numbered events,
    and bye or a lost link flushes. Connections come and go in any order; the store may
    lose ranges in between. */
module Gateway {
  import opened Wrappers
  import opened Sequences
  import opened EventStore

  /** One thing to record: a transcript, or a button moment of no duration. */
  datatype Utterance = Utterance(kind: Kind, text: string, durationMs: nat)

  datatype TranscriptMsg = TranscriptMsg(sessionId: string, text: string, durationMs: nat)

  /** `built`: every event this connection made, one per message to the phone. `indexed`
      and `extracted`: what it passed on to the session indexes and to the extraction
      queue, which it does only for events the store took. */
  datatype Core = Core(
    session: Option<string>, eventSeq: nat, cumMs: nat,
    built: seq<CaptureEvent>, indexed: seq<CaptureEvent>, extracted: seq<string>)

  const NewCore := Core(None, 0, 0, [], [], [])
  const MOMENT := Utterance(MomentKind, "\U{1F4CD} Moment marked \U{2014} the last minute was saved", 0)

  datatype Desk = Desk(store: Store, core: Core)

  // ---- Steps of one connection ----

  function Opened(d: Desk, session: string): Desk {
    match Latest(Rows(d.store, session))
    case Some(e) =>
      d.(core := d.core.(session := Some(session), eventSeq := e.seqNo + 1, cumMs := e.startMs + e.durationMs))
    case None => d.(core := d.core.(session := Some(session), eventSeq := 0, cumMs := 0))
  }

  function EventFor(c: Core, u: Utterance): CaptureEvent
    requires c.session.Some?
  {
    CaptureEvent(EventId(c.session.value, c.eventSeq), c.session.value, c.eventSeq,
                 u.kind, u.text, u.durationMs, c.cumMs)
  }

  function Taken(c: Core, e: CaptureEvent): Core {
    c.(indexed := c.indexed + [e],
       extracted := c.extracted + if e.kind == TranscriptKind then [e.sessionId] else [])
  }

  function Emitted(d: Desk, u: Utterance): (r: Desk)
    requires d.core.session.Some?
    ensures r.core.session == d.core.session
  {
    var e := EventFor(d.core, u);
    var c := d.core.(eventSeq := d.core.eventSeq + 1, cumMs := d.core.cumMs + u.durationMs,
                     built := d.core.built + [e]);
    Desk(Appended(d.store, e), if e.eventId in d.store.seen then c else Taken(c, e))
  }

  function EmittedAll(d: Desk, us: seq<Utterance>): (r: Desk)
    requires d.core.session.Some?
    ensures r.core.session == d.core.session
  {
    if us == [] then d else Emitted(EmittedAll(d, us[..|us| - 1]), us[|us| - 1])
  }

  /** Nothing is emitted before hello. */
  function Heard(d: Desk, us: seq<Utterance>): Desk { if d.core.session.None? then d else EmittedAll(d, us) }

  function Closed(d: Desk): Desk { d.(core := d.core.(session := None)) }

  function Lines(ts: seq<Utterance>, replayDone: bool): seq<Utterance> { ts + if replayDone then [MOMENT] else [] }

  // ---- What utterances become ----

  function Total(us: seq<Utterance>): nat {
    if us == [] then 0 else Total(us[..|us| - 1]) + us[|us| - 1].durationMs
  }

  /** The events of utterances laid end to end from number n and time t. */
  function Laid(session: string, n: nat, t: nat, us: seq<Utterance>): seq<CaptureEvent> {
    if us == [] then []
    else
      var r, u := us[..|us| - 1], us[|us| - 1];
      Laid(session, n, t, r) +
      [CaptureEvent(EventId(session, n + |r|), session, n + |r|, u.kind, u.text, u.durationMs, t + Total(r))]
  }

  lemma LaidOneMore(session: string, n: nat, t: nat, us: seq<Utterance>, u: Utterance)
    ensures Total(us + [u]) == Total(us) + u.durationMs
    ensures Laid(session, n, t, us + [u]) == Laid(session, n, t, us) +
      [CaptureEvent(EventId(session, n + |us|), session, n + |us|, u.kind, u.text, u.durationMs, t + Total(us))]
  {
    assert (us + [u])[..|us|] == us;
  }

  /** One utterance: an event with the next number, at the time so far, named after session
      and number. A duplicate id is neither stored nor passed on; it is counted all the
      same. Only a transcript goes to extraction. */
  lemma EmittedIs(d: Desk, u: Utterance)
    requires d.core.session.Some?
    ensures var r, session := Emitted(d, u), d.core.session.value;
      var e := CaptureEvent(EventId(session, d.core.eventSeq), session, d.core.eventSeq, u.kind, u.text,
                            u.durationMs, d.core.cumMs);
      var stored := e.eventId !in d.store.seen;
      && r.core.eventSeq == d.core.eventSeq + 1 && r.core.cumMs == d.core.cumMs + u.durationMs
      && r.core.built == d.core.built + [e]
      && r.store == (if stored then Appended(d.store, e) else d.store)
      && r.core.indexed == (if stored then d.core.indexed + [e] else d.core.indexed)
      && r.core.extracted ==
           if stored && u.kind == TranscriptKind then d.core.extracted + [session] else d.core.extracted
  {
    NothingAround(d.core.extracted);
  }

  /** The events built are the utterances laid end to end from where the connection stood. */
  lemma {:induction false} BuiltIs(d: Desk, us: seq<Utterance>)
    requires d.core.session.Some?
    ensures var r := EmittedAll(d, us);
      && r.core.built == d.core.built + Laid(d.core.session.value, d.core.eventSeq, d.core.cumMs, us)
      && r.core.eventSeq == d.core.eventSeq + |us| && r.core.cumMs == d.core.cumMs + Total(us)
  {
    hide *;
    if us == [] {
      NothingBuilt(d);
    } else {
      var us', u := us[..|us| - 1], us[|us| - 1];
      BuiltIs(d, us');
      assert us' + [u] == us;
      OneMore(d, us', u);
      BuildsOne(d, EmittedAll(d, us'), us', u);
    }
  }

  lemma NothingBuilt(d: Desk)
    requires d.core.session.Some?
    ensures EmittedAll(d, []) == d && Total([]) == 0
    ensures forall session, n, t :: d.core.built + Laid(session, n, t, []) == d.core.built
  {
  }

  lemma BuildsOne(d: Desk, m: Desk, us: seq<Utterance>, u: Utterance)
    requires d.core.session.Some? && m.core.session == d.core.session
    requires m.core.built == d.core.built + Laid(d.core.session.value, d.core.eventSeq, d.core.cumMs, us)
    requires m.core.eventSeq == d.core.eventSeq + |us| && m.core.cumMs == d.core.cumMs + Total(us)
    ensures var r := Emitted(m, u);
      && r.core.built == d.core.built + Laid(d.core.session.value, d.core.eventSeq, d.core.cumMs, us + [u])
      && r.core.eventSeq == d.core.eventSeq + |us + [u]| && r.core.cumMs == d.core.cumMs + Total(us + [u])
  {
    hide *;
    LaidOneMore(d.core.session.value, d.core.eventSeq, d.core.cumMs, us, u);
    EmittedIs(m, u);
    var e := EventFor(m.core, u);
    EventIs(m.core, u);
    Associates(d.core.built, Laid(d.core.session.value, d.core.eventSeq, d.core.cumMs, us), [e]);
  }

  lemma EventIs(c: Core, u: Utterance)
    requires c.session.Some?
    ensures EventFor(c, u) == CaptureEvent(EventId(c.session.value, c.eventSeq), c.session.value, c.eventSeq, u.kind,
                                           u.text, u.durationMs, c.cumMs)
  {
  }

  // ---- The connection object ----

  datatype Outcome = Messages(msgs: seq<TranscriptMsg>) | GatewayError

  function MessagesFor(es: seq<CaptureEvent>): seq<TranscriptMsg> {
    seq(|es|, i requires 0 <= i < |es| => TranscriptMsg(es[i].sessionId, es[i].text, es[i].durationMs))
  }

  lemma OneMore(d: Desk, us: seq<Utterance>, u: Utterance)
    requires d.core.session.Some?
    ensures EmittedAll(d, us + [u]) == Emitted(EmittedAll(d, us), u)
  {
    assert (us + [u])[..|us|] == us;
  }

  lemma HeardMoment(d: Desk)
    requires d.core.session.Some?
    ensures Heard(d, [MOMENT]) == Emitted(d, MOMENT)
  {
    OneMore(d, [], MOMENT);
    assert [] + [MOMENT] == [MOMENT];
  }

  /** What a connection has sent since it had built `before` events. */
  ghost predicate Sends(msgs: seq<TranscriptMsg>, before: seq<CaptureEvent>, after: seq<CaptureEvent>) {
    before <= after && msgs == MessagesFor(after[|before|..])
  }

  /** One message for each utterance, in order. */
  ghost predicate Says(msgs: seq<TranscriptMsg>, session: string, us: seq<Utterance>) {
    |msgs| == |us| && forall i :: 0 <= i < |us| ==> msgs[i] == TranscriptMsg(session, us[i].text, us[i].durationMs)
  }

  lemma SendsOneMore(msgs: seq<TranscriptMsg>, before: seq<CaptureEvent>, after: seq<CaptureEvent>, e: CaptureEvent)
    requires Sends(msgs, before, after)
    ensures Sends(msgs + [TranscriptMsg(e.sessionId, e.text, e.durationMs)], before, after + [e])
  {
    assert (after + [e])[|before|..] == after[|before|..] + [e];
  }

  class GatewayCore {
    const store: InMemoryEventStore
    var sessionId: Option<string>
    var eventSeq: nat
    var cumMs: nat
    var indexed: seq<CaptureEvent>
    var extracted: seq<string>
    ghost var built: seq<CaptureEvent>

    ghost function Now(): Desk
      reads this, store
    {
      Desk(store.Now(), Core(sessionId, eventSeq, cumMs, built, indexed, extracted))
    }

    constructor (store: InMemoryEventStore)
      ensures this.store == store && Now() == Desk(store.Now(), NewCore)
    {
      this.store := store;
      sessionId, eventSeq, cumMs := None, 0, 0;
      indexed, extracted, built := [], [], [];
    }

    method OnHello(session: string)
      modifies this
      ensures Now() == Opened(old(Now()), session) && sessionId == Some(session)
    {
      sessionId := Some(session);
      var prior := store.LastEvent(session);
      if prior.Some? {
        eventSeq := prior.value.seqNo + 1;
        cumMs := prior.value.startMs + prior.value.durationMs;
      } else {
        eventSeq, cumMs := 0, 0;
      }
    }

    method Emit(transcripts: seq<Utterance>) returns (msgs: seq<TranscriptMsg>)
      requires sessionId.Some?
      requires forall i :: 0 <= i < |transcripts| ==> transcripts[i].kind == TranscriptKind
      modifies this, store
      ensures Now() == EmittedAll(old(Now()), transcripts)
      ensures Sends(msgs, old(built), built) && Says(msgs, old(sessionId).value, transcripts)
    {
      msgs := [];
      assert transcripts[..0] == [];
      assert Sends(msgs, built, built);
      hide EmittedAll, Emitted, Sends, EventFor;
      for i := 0 to |transcripts|
        invariant sessionId == old(sessionId)
        invariant Now() == EmittedAll(old(Now()), transcripts[..i])
        invariant Sends(msgs, old(built), built) && Says(msgs, old(sessionId).value, transcripts[..i])
      {
        OneMore(old(Now()), transcripts[..i], transcripts[i]);
        assert transcripts[..i + 1] == transcripts[..i] + [transcripts[i]];
        ghost var before := built;
        var msg := EmitOne(transcripts[i]);
        SendsOneMore(msgs, old(built), before, built[|before|]);
        msgs := msgs + [msg];
      }
      assert transcripts[..|transcripts|] == transcripts;
    }

    /** The loop's body. */
    method EmitOne(t: Utterance) returns (msg: TranscriptMsg)
      requires sessionId.Some? && t.kind == TranscriptKind
      modifies this, store
      ensures Now() == Emitted(old(Now()), t) && sessionId == old(sessionId)
      ensures |built| == |old(built)| + 1 && built == old(built) + [built[|old(built)|]]
      ensures var e := built[|old(built)|]; msg == TranscriptMsg(e.sessionId, e.text, e.durationMs)
      ensures msg == TranscriptMsg(old(sessionId).value, t.text, t.durationMs)
    {
      hide EventId;
      var e := CaptureEvent(EventId(sessionId.value, eventSeq), sessionId.value, eventSeq, TranscriptKind,
                            t.text, t.durationMs, cumMs);
      var stored := store.Append(e);
      if stored {
        indexed := indexed + [e];
        extracted := extracted + [sessionId.value];
      }
      eventSeq := eventSeq + 1;
      cumMs := cumMs + t.durationMs;
      built := built + [e];
      return TranscriptMsg(sessionId.value, t.text, t.durationMs);
    }

    method EmitMoment() returns (msgs: seq<TranscriptMsg>)
      modifies this, store
      ensures Now() == Heard(old(Now()), [MOMENT])
      ensures Sends(msgs, old(built), built)
      ensures if old(sessionId).None? then msgs == [] else Says(msgs, old(sessionId).value, [MOMENT])
    {
      if sessionId.None? {
        return [];
      }
      HeardMoment(Now());
      SendsOneMore([], built, built, EventFor(Now().core, MOMENT));
      var e := CaptureEvent(EventId(sessionId.value, eventSeq), sessionId.value, eventSeq, MomentKind,
                            MOMENT.text, 0, cumMs);
      var stored := store.Append(e);
      if stored {
        indexed := indexed + [e];
      }
      eventSeq := eventSeq + 1;
      built := built + [e];
      msgs := [TranscriptMsg(sessionId.value, MOMENT.text, 0)];
    }

    /** `ts` is what the pipeline completes on this packet; `replayDone` says that it is
        the last one of a memory replay. */
    method OnAudio(ts: seq<Utterance>, replayDone: bool) returns (msgs: seq<TranscriptMsg>)
      requires forall i :: 0 <= i < |ts| ==> ts[i].kind == TranscriptKind
      modifies this, store
      ensures Now() == Heard(old(Now()), if replayDone then ts + [MOMENT] else ts)
      ensures Sends(msgs, old(built), built)
      ensures if old(sessionId).None? then msgs == []
              else Says(msgs, old(sessionId).value, if replayDone then ts + [MOMENT] else ts)
    {
      if sessionId.None? {
        return [];
      }
      msgs := Emit(ts);
      if replayDone {
        ghost var middle := Now();
        OneMore(old(Now()), ts, MOMENT);
        var more := EmitMoment();
        HeardMoment(middle);
        SendsOneMore(msgs, old(built), middle.core.built, EventFor(middle.core, MOMENT));
        msgs := msgs + more;
      }
    }

    method OnBye(flush: seq<Utterance>) returns (r: Outcome)
      requires forall i :: 0 <= i < |flush| ==> flush[i].kind == TranscriptKind
      modifies this, store
      ensures r.GatewayError? <==> old(sessionId).None?
      ensures r.Messages? ==> Sends(r.msgs, old(built), built) && Says(r.msgs, old(sessionId).value, flush)
      ensures Now() == Closed(Heard(old(Now()), flush)) && sessionId.None?
    {
      if sessionId.None? {
        return GatewayError;
      }
      var msgs := Emit(flush);
      sessionId := None;
      return Messages(msgs);
    }

    method OnDisconnect(flush: seq<Utterance>)
      requires forall i :: 0 <= i < |flush| ==> flush[i].kind == TranscriptKind
      modifies this, store
      ensures Now() == Heard(old(Now()), flush)
    {
      if sessionId.Some? {
        var _ := Emit(flush);
      }
    }
  }
}
