/**
 * That the receiver does not let the sender starve: whenever the rule asks for a WINDOW_UPDATE, one is on its way to
 * leave.  And what each event does to the receiver's windows.
 */
module FlowUpdates {
  import opened FlowLedger
  import opened FlowRuns

  /** The rule asks for an update of this window and none is queued. */
  predicate Owed(w: Window, should: Rule) {
    w.queued == 0 && should(w.local, w.recv)
  }

  predicate NoneOwed(r: Receiver, should: Rule) {
    !Owed(r.conn, should) && forall i | i in r.windows :: !Owed(r.windows[i], should)
  }

  /** The peer has not ended a stream, after which it gets no updates. */
  predicate Auto(e: Event) {
    (e.Take? || e.SendUpdate?) ==> e.auto
  }

  lemma ChargedOwesNothing(w: Window, n: nat, should: Rule)
    requires Charged(w, n, true, should).Ok?
    ensures !Owed(Charged(w, n, true, should).value, should)
  {
  }

  lemma ResizedOwesNothing(w: Window, to: nat, before: nat, should: Rule)
    requires Resized(w, to, before, should).Ok?
    ensures !Owed(Resized(w, to, before, should).value, should)
  {
  }

  lemma TakenOwesNothing(l: Link, n: nat, should: Rule)
    requires NoneOwed(l.r, should) && Possible(l, Take(n, true)) && (l.out[0].Ack? ==> l.r.pending != [])
    requires Taken(l, n, true, should).Ok?
    ensures NoneOwed(Taken(l, n, true, should).value.r, should)
  {
    match l.out[0]
    case Data(i, len) =>
      ChargedOwesNothing(l.r.conn, n, should);
      if i in l.r.windows {
        ChargedOwesNothing(l.r.windows[i], n, should);
      }
    case Ack =>
      var vs, r := l.r.pending[0], Acknowledged(l.r, should).value;
      if vs != [] {
        forall i | i in r.windows
          ensures !Owed(r.windows[i], should)
        {
          ResizedOwesNothing(l.r.windows[i], Last(0, vs), l.r.initial, should);
        }
      }
    case Open(i) =>
  }

  lemma NextOwesNothing(l: Link, e: Event, should: Rule)
    requires Sane(l) && Possible(l, e) && NoneOwed(l.r, should) && Auto(e)
    ensures e.Take? && l.out[0].Ack? ==> l.r.pending != []
    ensures Overdrawn(l, e) || Next(l, e, should).Ok?
    ensures NoneOwed(Onward(l, e, should).r, should)
  {
    OnwardSane(l, e, should);
    match e
    case Take(n, auto) => TakenOwesNothing(l, n, should);
    case SendUpdate(i, auto) =>
      if !Overdrawn(l, e) {
        ChargedOwesNothing((if i == CONNECTION then l.r.conn else l.r.windows[i]).(queued := 0), 0, should);
      }
    case _ =>
  }

  /** At the end of every run an update is queued for every window for which the rule asks for one. */
  lemma {:induction false} NeverOwed(l: Link, es: seq<Event>, should: Rule)
    requires Sane(l) && Runs(l, es, should) && NoneOwed(l.r, should) && forall e | e in es :: Auto(e)
    ensures NoneOwed(AfterAll(l, es, should).r, should)
    decreases |es|
  {
    if es != [] {
      OnwardSane(l, es[0], should);
      NextOwesNothing(l, es[0], should);
      NeverOwed(Onward(l, es[0], should), es[1..], should);
    }
  }

  lemma StartOwesNothing(should: Rule)
    ensures NoneOwed(START.r, should)
  {
  }

  lemma NeverOwedFromStart(es: seq<Event>, should: Rule)
    requires (StartBalanced(); Runs(START, es, should)) && forall e | e in es :: Auto(e)
    ensures (StartBalanced(); NoneOwed(AfterAll(START, es, should).r, should))
  {
    StartBalanced();
    StartOwesNothing(should);
    NeverOwed(START, es, should);
  }

  /** An update is queued only when the rule asks for it, and then for all that has come in. */
  lemma OnlyIfAsked(w: Window, n: nat, auto: bool, should: Rule)
    requires Charged(w, n, auto, should).Ok?
    ensures var w' := Charged(w, n, auto, should).value;
            if auto && w.queued == 0 && should(w.local, w.recv + n) then w' == Window(w.local, 0, w.recv + n)
            else w' == Window(w.local, w.recv + n, w.queued)
  {
  }

  /**
   * Bytes of a DATA frame are charged to the connection's window and to that of their stream, if it is there, and to
   * no other: what the two have in all grows by them.
   */
  lemma BytesAreCharged(r: Receiver, i: int, n: nat, auto: bool, should: Rule)
    requires Received(r, i, n, auto, should).Ok?
    ensures var t := Received(r, i, n, auto, should).value;
            && t.conn.recv + t.conn.queued == r.conn.recv + r.conn.queued + n && t.conn.local == r.conn.local
            && t.windows.Keys == r.windows.Keys && t.initial == r.initial && t.pending == r.pending
            && forall j | j in r.windows ::
                 if j == i then
                   && t.windows[j].recv + t.windows[j].queued == r.windows[j].recv + r.windows[j].queued + n
                   && t.windows[j].local == r.windows[j].local
                 else t.windows[j] == r.windows[j]
  {
  }

  /** An acknowledgement moves all windows by the difference of the initial sizes. */
  lemma WindowsAreMoved(r: Receiver, should: Rule)
    requires r.pending != [] && Acknowledged(r, should).Ok?
    ensures var t, to := Acknowledged(r, should).value, Last(r.initial, r.pending[0]);
            && t.initial == to && t.pending == r.pending[1..] && t.conn == r.conn
            && t.windows.Keys == r.windows.Keys
            && forall j | j in r.windows ::
                 && t.windows[j].local == r.windows[j].local + to - r.initial
                 && t.windows[j].recv + t.windows[j].queued == r.windows[j].recv + r.windows[j].queued
  {
  }
}
