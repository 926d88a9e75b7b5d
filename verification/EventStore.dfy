/** The in-memory event store of events/store.py: events deduplicated by id and kept per
    session, a newest-event lookup, and the one deletion the log allows. */
module EventStore {
  import opened Wrappers
  import Decimal

  datatype Kind = TranscriptKind | MomentKind

  datatype CaptureEvent = CaptureEvent(
    eventId: string, sessionId: string, seqNo: nat, kind: Kind, text: string, durationMs: nat, startMs: nat)

  datatype Store = Store(seen: set<string>, bySession: map<string, seq<CaptureEvent>>)

  const Empty := Store({}, map[])

  function Rows(s: Store, session: string): seq<CaptureEvent> {
    if session in s.bySession then s.bySession[session] else []
  }

  function Appended(s: Store, e: CaptureEvent): Store {
    if e.eventId in s.seen then s
    else Store(s.seen + {e.eventId}, s.bySession[e.sessionId := Rows(s, e.sessionId) + [e]])
  }

  /** The first of the events with the highest number. */
  function Latest(rows: seq<CaptureEvent>): Option<CaptureEvent> {
    if rows == [] then None
    else
      var last := rows[|rows| - 1];
      match Latest(rows[..|rows| - 1])
      case None => Some(last)
      case Some(e) => Some(if last.seqNo > e.seqNo then last else e)
  }

  predicate InRange(e: CaptureEvent, first: int, last: int) { first <= e.seqNo <= last }

  function Outside(rows: seq<CaptureEvent>, first: int, last: int): seq<CaptureEvent> {
    if rows == [] then []
    else
      Outside(rows[..|rows| - 1], first, last) +
      if InRange(rows[|rows| - 1], first, last) then [] else [rows[|rows| - 1]]
  }

  function IdsInside(rows: seq<CaptureEvent>, first: int, last: int): set<string> {
    if rows == [] then {}
    else
      IdsInside(rows[..|rows| - 1], first, last) +
      if InRange(rows[|rows| - 1], first, last) then {rows[|rows| - 1].eventId} else {}
  }

  function Deleted(s: Store, session: string, first: int, last: int): Store {
    if Rows(s, session) == [] then s
    else Store(s.seen - IdsInside(Rows(s, session), first, last),
               s.bySession[session := Outside(Rows(s, session), first, last)])
  }

  // ---- What the store keeps ----

  function EventId(session: string, n: nat): string { session + ":" + Decimal.Text(n) }

  /** An id names one session and one number, even if sessions contain colons. */
  lemma EventIdInjective(a: string, m: nat, b: string, n: nat)
    ensures EventId(a, m) == EventId(b, n) <==> a == b && m == n
  {
    Decimal.ValueOfText(m);
    Decimal.ValueOfText(n);
    if EventId(a, m) == EventId(b, n) { Decimal.LastFieldInjective(a, b, ':', Decimal.Text(m), Decimal.Text(n)); }
  }

  /** One session's rows: named after session and number, in order of number, and laid
      along the audio timeline without overlap. */
  ghost predicate Timeline(session: string, rows: seq<CaptureEvent>) {
    && (forall i :: 0 <= i < |rows| ==>
         rows[i].sessionId == session && rows[i].eventId == EventId(session, rows[i].seqNo))
    && forall i, j :: 0 <= i < j < |rows| ==>
         rows[i].seqNo < rows[j].seqNo && rows[i].startMs + rows[i].durationMs <= rows[j].startMs
  }

  ghost predicate HasNumber(rows: seq<CaptureEvent>, n: nat) {
    exists e :: e in rows && e.seqNo == n
  }

  /** Every session is a timeline, and the ids seen are those of the surviving rows. */
  ghost predicate Sound(s: Store) { Timelines(s) && IdsAgree(s) }

  ghost predicate Timelines(s: Store) { forall session :: Timeline(session, Rows(s, session)) }

  ghost predicate IdsAgree(s: Store) {
    forall session, n :: EventId(session, n) in s.seen <==> HasNumber(Rows(s, session), n)
  }

  /** Every row lies before number n and time t. */
  ghost predicate Before(rows: seq<CaptureEvent>, n: nat, t: nat) {
    forall e :: e in rows ==> e.seqNo < n && e.startMs + e.durationMs <= t
  }

  lemma TimelineGrows(session: string, rows: seq<CaptureEvent>, e: CaptureEvent)
    requires Timeline(session, rows) && Before(rows, e.seqNo, e.startMs)
    requires e.sessionId == session && e.eventId == EventId(session, e.seqNo)
    ensures Timeline(session, rows + [e])
    ensures Before(rows + [e], e.seqNo + 1, e.startMs + e.durationMs)
    ensures forall n :: HasNumber(rows + [e], n) <==> HasNumber(rows, n) || n == e.seqNo
  {
    hide EventId;
    assert forall i :: 0 <= i < |rows| ==> rows[i] in rows && (rows + [e])[i] == rows[i];
    assert (rows + [e])[|rows|] == e;
    assert forall x :: x in rows + [e] <==> x in rows || x == e;
  }

  lemma NumberIsFree(rows: seq<CaptureEvent>, n: nat, t: nat)
    requires Before(rows, n, t)
    ensures !HasNumber(rows, n)
  {
  }

  lemma AppendIds(s: Store, e: CaptureEvent)
    requires IdsAgree(s) && e.eventId == EventId(e.sessionId, e.seqNo) && e.eventId !in s.seen
    requires forall n ::
      HasNumber(Rows(s, e.sessionId) + [e], n) <==> HasNumber(Rows(s, e.sessionId), n) || n == e.seqNo
    ensures IdsAgree(Appended(s, e))
  {
    var t := Appended(s, e);
    forall session, n ensures EventId(session, n) in t.seen <==> HasNumber(Rows(t, session), n) {
      EventIdInjective(session, n, e.sessionId, e.seqNo);
      hide EventId, HasNumber;
    }
  }

  /** An event numbered past its session's rows is always stored. */
  lemma AppendSucceeds(s: Store, e: CaptureEvent)
    requires Sound(s) && e.eventId == EventId(e.sessionId, e.seqNo)
    requires Before(Rows(s, e.sessionId), e.seqNo, e.startMs)
    ensures e.eventId !in s.seen
    ensures Sound(Appended(s, e))
    ensures Rows(Appended(s, e), e.sessionId) == Rows(s, e.sessionId) + [e]
    ensures forall other :: other != e.sessionId ==> Rows(Appended(s, e), other) == Rows(s, other)
    ensures Before(Rows(Appended(s, e), e.sessionId), e.seqNo + 1, e.startMs + e.durationMs)
  {
    var rows := Rows(s, e.sessionId);
    NumberIsFree(rows, e.seqNo, e.startMs);
    TimelineGrows(e.sessionId, rows, e);
    AppendIds(s, e);
    hide EventId, HasNumber, Before, Timeline, IdsAgree;
    forall session ensures Timeline(session, Rows(Appended(s, e), session)) {
      assert Timeline(session, Rows(s, session));
    }
  }

  lemma {:induction false} OutsideIs(rows: seq<CaptureEvent>, first: int, last: int)
    ensures forall e :: e in Outside(rows, first, last) <==> e in rows && !InRange(e, first, last)
    ensures forall id :: id in IdsInside(rows, first, last) <==>
      exists e :: e in rows && InRange(e, first, last) && e.eventId == id
  {
    if rows != [] {
      var r := rows[..|rows| - 1];
      OutsideIs(r, first, last);
      assert rows == r + [rows[|rows| - 1]];
    }
  }

  lemma {:induction false} OutsideKeepsTimeline(session: string, rows: seq<CaptureEvent>, first: int, last: int)
    requires Timeline(session, rows)
    ensures Timeline(session, Outside(rows, first, last))
  {
    if rows != [] {
      var r, e := rows[..|rows| - 1], rows[|rows| - 1];
      RowsBefore(session, r, e, rows);
      hide Timeline, Outside, EventId;
      OutsideKeepsTimeline(session, r, first, last);
      OutsideBefore(r, first, last, e.seqNo, e.startMs);
      hide Before;
      TimelineGrows(session, Outside(r, first, last), e);
      OutsideStep(rows, first, last);
    } else {
      assert Outside(rows, first, last) == [];
    }
  }

  lemma RowsBefore(session: string, r: seq<CaptureEvent>, e: CaptureEvent, rows: seq<CaptureEvent>)
    requires Timeline(session, rows) && rows == r + [e]
    ensures Timeline(session, r) && Before(r, e.seqNo, e.startMs)
    ensures e.sessionId == session && e.eventId == EventId(session, e.seqNo)
  {
    hide EventId;
    assert forall i :: 0 <= i < |r| ==> rows[i] == r[i];
    assert rows[|r|] == e;
    forall x | x in r ensures x.seqNo < e.seqNo && x.startMs + x.durationMs <= e.startMs {
      var i :| 0 <= i < |r| && r[i] == x;
      assert rows[i] == x;
    }
  }

  lemma OutsideBefore(r: seq<CaptureEvent>, first: int, last: int, n: nat, t: nat)
    requires Before(r, n, t)
    ensures Before(Outside(r, first, last), n, t)
  {
    OutsideIs(r, first, last);
    hide Outside, IdsInside;
  }

  lemma OutsideStep(rows: seq<CaptureEvent>, first: int, last: int)
    requires rows != []
    ensures var r, e := rows[..|rows| - 1], rows[|rows| - 1];
      Outside(rows, first, last) ==
        if InRange(e, first, last) then Outside(r, first, last) else Outside(r, first, last) + [e]
  {
  }

  lemma OutsideNumbers(rows: seq<CaptureEvent>, first: int, last: int, n: nat)
    ensures HasNumber(Outside(rows, first, last), n) <==> HasNumber(rows, n) && !(first <= n <= last)
  {
    OutsideIs(rows, first, last);
    hide Outside, IdsInside;
    if HasNumber(rows, n) {
      var e :| e in rows && e.seqNo == n;
      assert e in Outside(rows, first, last) <==> !InRange(e, first, last);
    }
  }

  lemma IdsInsideAre(session: string, rows: seq<CaptureEvent>, first: int, last: int, other: string, n: nat)
    requires Timeline(session, rows)
    ensures EventId(other, n) in IdsInside(rows, first, last) <==>
      other == session && HasNumber(rows, n) && first <= n <= last
  {
    OutsideIs(rows, first, last);
    hide Outside, IdsInside;
    if EventId(other, n) in IdsInside(rows, first, last) {
      var e :| e in rows && InRange(e, first, last) && e.eventId == EventId(other, n);
      EventIdInjective(session, e.seqNo, other, n);
    }
    hide EventId;
    if other == session && HasNumber(rows, n) && first <= n <= last {
      var e :| e in rows && e.seqNo == n;
      assert InRange(e, first, last) && e.eventId == EventId(other, n);
    }
  }

  lemma DeletedIds(s: Store, session: string, first: int, last: int, other: string, n: nat)
    requires Timeline(session, Rows(s, session)) && IdsAgree(s)
    ensures var t := Deleted(s, session, first, last);
      EventId(other, n) in t.seen <==> HasNumber(Rows(t, other), n)
  {
    assert EventId(other, n) in s.seen <==> HasNumber(Rows(s, other), n);
    OutsideNumbers(Rows(s, session), first, last, n);
    IdsInsideAre(session, Rows(s, session), first, last, other, n);
    hide HasNumber, EventId, Outside, IdsInside, Timeline, IdsAgree;
  }

  /** Deleting a range leaves every session a timeline and every surviving id, and no
      other, taken. */
  lemma DeleteKeeps(s: Store, session: string, first: int, last: int)
    requires Sound(s)
    ensures Sound(Deleted(s, session, first, last))
    ensures forall e :: e in Rows(Deleted(s, session, first, last), session) <==>
              e in Rows(s, session) && !InRange(e, first, last)
    ensures forall other :: other != session ==> Rows(Deleted(s, session, first, last), other) == Rows(s, other)
  {
    OutsideKeepsTimeline(session, Rows(s, session), first, last);
    OutsideIs(Rows(s, session), first, last);
    hide HasNumber, EventId, IdsInside, Outside, Timeline;
    var t := Deleted(s, session, first, last);
    forall other, n ensures EventId(other, n) in t.seen <==> HasNumber(Rows(t, other), n) {
      DeletedIds(s, session, first, last, other, n);
    }
    assert IdsAgree(t);
    hide IdsAgree;
    forall other ensures Timeline(other, Rows(t, other)) {
      assert Timeline(other, Rows(s, other));
    }
  }

  /** On a timeline the newest event is the last row. */
  lemma {:induction false} LatestIsLast(session: string, rows: seq<CaptureEvent>)
    requires Timeline(session, rows)
    ensures Latest(rows) == if rows == [] then None else Some(rows[|rows| - 1])
  {
    if rows != [] {
      LatestIsLast(session, rows[..|rows| - 1]);
    }
  }

  /** On any rows it is the first of those with the highest number. */
  lemma {:induction false} LatestIs(rows: seq<CaptureEvent>) returns (k: int)
    ensures Latest(rows).None? <==> rows == []
    ensures rows != [] ==>
      && 0 <= k < |rows| && Latest(rows) == Some(rows[k])
      && (forall i :: 0 <= i < |rows| ==> rows[i].seqNo <= rows[k].seqNo)
      && forall i :: 0 <= i < k ==> rows[i].seqNo < rows[k].seqNo
  {
    k := -1;
    if rows != [] {
      var n := |rows| - 1;
      k := LatestIs(rows[..n]);
      if n == 0 || rows[n].seqNo > rows[k].seqNo { k := n; }
    }
  }

  /** The id of event 120 of a session. */
  lemma EventIdLooks()
    ensures EventId("walk:7", 120) == "walk:7:120" && EventId("a", 0) == "a:0"
  {
    assert Decimal.Text(120) == "120" by { assert Decimal.Text(12) == "12"; }
  }

  // ---- The store object ----

  class InMemoryEventStore {
    var seen: set<string>
    var bySession: map<string, seq<CaptureEvent>>

    ghost function Now(): Store
      reads this
    {
      Store(seen, bySession)
    }

    constructor ()
      ensures Now() == Empty
    {
      seen, bySession := {}, map[];
    }

    method Append(e: CaptureEvent) returns (stored: bool)
      modifies this
      ensures stored == (e.eventId !in old(seen))
      ensures Now() == Appended(old(Now()), e)
    {
      if e.eventId in seen {
        return false;
      }
      seen := seen + {e.eventId};
      if e.sessionId !in bySession {
        bySession := bySession[e.sessionId := []];
      }
      bySession := bySession[e.sessionId := bySession[e.sessionId] + [e]];
      return true;
    }

    method LastEvent(session: string) returns (r: Option<CaptureEvent>)
      ensures r == Latest(Rows(Now(), session))
    {
      if session !in bySession || bySession[session] == [] {
        return None;
      }
      var rows := bySession[session];
      r := None;
      for i := 0 to |rows|
        invariant r == Latest(rows[..i])
      {
        assert rows[..i + 1][..i] == rows[..i];
        if r.None? || rows[i].seqNo > r.value.seqNo {
          r := Some(rows[i]);
        }
      }
      assert rows[..|rows|] == rows;
    }

    method DeleteRange(session: string, first: int, last: int) returns (removed: nat)
      modifies this
      ensures Now() == Deleted(old(Now()), session, first, last)
      ensures removed + |Rows(Now(), session)| == |Rows(old(Now()), session)|
    {
      if session !in bySession || bySession[session] == [] {
        return 0;
      }
      var rows := bySession[session];
      var keep: seq<CaptureEvent> := [];
      var left := seen;
      for i := 0 to |rows|
        invariant keep == Outside(rows[..i], first, last) && |keep| <= i
        invariant left == seen - IdsInside(rows[..i], first, last)
      {
        assert rows[..i + 1][..i] == rows[..i];
        if InRange(rows[i], first, last) {
          left := left - {rows[i].eventId};
        } else {
          keep := keep + [rows[i]];
        }
      }
      assert rows[..|rows|] == rows;
      removed := |rows| - |keep|;
      seen := left;
      bySession := bySession[session := keep];
    }
  }
}
