/**
 * Why flow control never goes wrong between the two ends: at any time a window of the sender, the bytes on the way
 * and the updates on the way back make up what the receiver's window still admits.  This holds for the connection,
 * and for every stream through all changes of SETTINGS_INITIAL_WINDOW_SIZE.
 */
module FlowSafety {
  import opened FlowLedger

  // ---- what is on the way

  /** The DATA bytes for stream i, or all of them. */
  function Flight(out: seq<Frame>, i: int): nat {
    if out == [] then 0
    else (if out[0].Data? && (i == CONNECTION || out[0].stream == i) then out[0].len else 0) + Flight(out[1..], i)
  }

  function Incs(back: seq<Reply>, i: int): nat {
    if back == [] then 0
    else (if back[0].Update? && back[0].stream == i then back[0].inc else 0) + Incs(back[1..], i)
  }

  function Acks(out: seq<Frame>): nat {
    if out == [] then 0 else (if out[0].Ack? then 1 else 0) + Acks(out[1..])
  }

  function Changes(back: seq<Reply>): seq<seq<nat>> {
    if back == [] then [] else (if back[0].Settings? then [back[0].values] else []) + Changes(back[1..])
  }

  /** How often i is opened by what comes back. */
  function Opens(back: seq<Reply>, i: int): nat {
    if back == [] then 0 else (if back[0] == OpenBack(i) then 1 else 0) + Opens(back[1..], i)
  }

  /** The initial window size once these SETTINGS have taken effect. */
  function Goal(initial: nat, changes: seq<seq<nat>>): nat
    decreases |changes|
  {
    if changes == [] then initial else Goal(Last(initial, changes[0]), changes[1..])
  }

  /** Read in order, with the changes at the acknowledgements, DATA for i stays within the limit in force there. */
  predicate Within(out: seq<Frame>, i: int, got: nat, limit: nat, pending: seq<seq<nat>>) {
    out == [] ||
      match out[0]
      case Data(j, len) =>
        if j == i then got + len <= limit && Within(out[1..], i, got + len, limit, pending)
        else Within(out[1..], i, got, limit, pending)
      case Ack => pending != [] && Within(out[1..], i, got, Last(limit, pending[0]), pending[1..])
      case Open(_) => Within(out[1..], i, got, limit, pending)
  }

  /** i is opened by `out`, once and before its DATA. */
  predicate Unopened(out: seq<Frame>, i: int) {
    && out != []
    && match out[0]
       case Data(j, _) => j != i && Unopened(out[1..], i)
       case Ack => Unopened(out[1..], i)
       case Open(j) => if j == i then Open(i) !in out[1..] else Unopened(out[1..], i)
  }

  predicate Silent(out: seq<Frame>, i: int) {
    forall f | f in out :: f.Ack? || f.stream != i
  }

  predicate SilentBack(back: seq<Reply>, i: int) {
    forall f | f in back :: f.Settings? || f.stream != i
  }

  // ---- the invariant

  /** The connection's ledger. */
  predicate ConnectionOk(l: Link) {
    && l.s.conn >= 0 && l.r.conn.local == INITIAL_WINDOW
    && l.s.conn + Flight(l.out, CONNECTION) + Incs(l.back, CONNECTION) + l.r.conn.queued
       == l.r.conn.local - l.r.conn.recv
  }

  /** Values of SETTINGS_INITIAL_WINDOW_SIZE that nghttp2 agrees to send. */
  predicate Legal(vs: seq<nat>) {
    forall v | v in vs :: v <= MAX_WINDOW
  }

  predicate AllLegal(changes: seq<seq<nat>>) {
    forall vs | vs in changes :: Legal(vs)
  }

  /** Settings are acknowledged in order, and the sender is ahead by those it has not had acknowledged yet. */
  predicate SettingsOk(l: Link) {
    var applied := Acks(l.out) + l.s.acks;
    && applied <= |l.r.pending| && l.r.pending[applied..] == Changes(l.back) + l.r.urgent
    && l.s.initial == Goal(l.r.initial, l.r.pending[..applied]) && l.r.initial <= MAX_WINDOW
    && AllLegal(l.r.pending)
  }

  /** What the receiver has of stream i since its last update, and the update that is queued. */
  function Held(l: Link, i: int): nat {
    if i in l.r.windows then l.r.windows[i].recv + l.r.windows[i].queued else 0
  }

  function Got(l: Link, i: int): nat {
    if i in l.r.windows then l.r.windows[i].recv else 0
  }

  function Total(l: Link, i: int): nat {
    Flight(l.out, i) + Incs(l.back, i) + Held(l, i)
  }

  /** The receiver has stream i, or will when it reads on. */
  predicate Live(l: Link, i: int) {
    i in l.r.windows || Unopened(l.out, i)
  }

  /** The sender's side of stream i: the ledger. */
  predicate SentOk(l: Link, i: int) {
    i in l.s.windows ==>
      && l.s.windows[i] >= l.s.initial - MAX_WINDOW && l.s.windows[i] + Total(l, i) <= l.s.initial
      && (Live(l, i) ==> l.s.windows[i] + Total(l, i) == l.s.initial)
  }

  /** The receiver's side: what is on the way fits. */
  predicate ReceivedOk(l: Link, i: int) {
    && (i in l.r.windows ==> l.r.windows[i].local == l.r.initial)
    && (Live(l, i) ==> Within(l.out, i, Got(l, i), l.r.initial, l.r.pending))
  }

  /** A stream is opened once, from one side. */
  predicate OpenedOk(l: Link, i: int) {
    && (Open(i) in l.out ==> Unopened(l.out, i) && i !in l.r.windows && Incs(l.back, i) == 0 && OpenBack(i) !in l.back)
    && (OpenBack(i) in l.back ==>
          i !in l.s.windows && Total(l, i) == 0 && Open(i) !in l.out && Opens(l.back, i) == 1 && Silent(l.out, i))
    && (i !in l.used ==> i !in l.s.windows && i !in l.r.windows && Silent(l.out, i) && SilentBack(l.back, i))
  }

  predicate StreamOk(l: Link, i: int) {
    SentOk(l, i) && ReceivedOk(l, i) && OpenedOk(l, i)
  }

  ghost predicate Balanced(l: Link) {
    && ConnectionOk(l) && SettingsOk(l) && CONNECTION in l.used
    && CONNECTION !in l.s.windows && CONNECTION !in l.r.windows
    && forall i | i != CONNECTION :: StreamOk(l, i)
  }

  // ---- sequences that grow

  lemma {:induction false} FlightAppend(out: seq<Frame>, f: Frame, i: int)
    ensures Flight(out + [f], i) == Flight(out, i) + if f.Data? && (i == CONNECTION || f.stream == i) then f.len else 0
  {
    if out != [] {
      FlightAppend(out[1..], f, i);
      assert (out + [f])[1..] == out[1..] + [f];
    }
  }

  lemma {:induction false} IncsAppend(back: seq<Reply>, f: Reply, i: int)
    ensures Incs(back + [f], i) == Incs(back, i) + if f.Update? && f.stream == i then f.inc else 0
    ensures Opens(back + [f], i) == Opens(back, i) + if f == OpenBack(i) then 1 else 0
    ensures Changes(back + [f]) == Changes(back) + if f.Settings? then [f.values] else []
  {
    if back != [] {
      IncsAppend(back[1..], f, i);
      assert (back + [f])[1..] == back[1..] + [f];
    } else {
      assert [f][1..] == [];
    }
  }

  lemma {:induction false} AcksAppend(out: seq<Frame>, f: Frame)
    ensures Acks(out + [f]) == Acks(out) + if f.Ack? then 1 else 0
  {
    if out != [] {
      AcksAppend(out[1..], f);
      assert (out + [f])[1..] == out[1..] + [f];
    }
  }

  lemma {:induction false} UnopenedAppend(out: seq<Frame>, f: Frame, i: int)
    requires f != Open(i)
    ensures Unopened(out + [f], i) == Unopened(out, i)
  {
    if out != [] {
      assert (out + [f])[1..] == out[1..] + [f];
      UnopenedAppend(out[1..], f, i);
    } else {
      assert [f][1..] == [];
    }
  }

  lemma {:induction false} OpenAppend(out: seq<Frame>, i: int)
    requires Silent(out, i)
    ensures Unopened(out + [Open(i)], i)
  {
    if out != [] {
      assert (out + [Open(i)])[1..] == out[1..] + [Open(i)];
      assert out[0] in out;
      OpenAppend(out[1..], i);
    }
  }

  lemma {:induction false} UnopenedHasOpen(out: seq<Frame>, i: int)
    requires Unopened(out, i)
    ensures Open(i) in out
  {
    if out[0] != Open(i) {
      UnopenedHasOpen(out[1..], i);
    }
  }

  lemma {:induction false} GoalAppend(initial: nat, changes: seq<seq<nat>>, vs: seq<nat>)
    ensures Goal(initial, changes + [vs]) == Last(Goal(initial, changes), vs)
    decreases |changes|
  {
    if changes != [] {
      assert (changes + [vs])[1..] == changes[1..] + [vs];
      GoalAppend(Last(initial, changes[0]), changes[1..], vs);
    } else {
      assert [vs][1..] == [];
    }
  }

  lemma {:induction false} GoalBounded(initial: nat, changes: seq<seq<nat>>)
    requires initial <= MAX_WINDOW && AllLegal(changes)
    ensures Goal(initial, changes) <= MAX_WINDOW
    decreases |changes|
  {
    if changes != [] {
      assert Legal(changes[0]) && (changes[0] != [] ==> changes[0][|changes[0]| - 1] in changes[0]);
      assert forall vs | vs in changes[1..] :: vs in changes;
      GoalBounded(Last(initial, changes[0]), changes[1..]);
    }
  }

  // ---- how much fits

  /** One more frame: if it is DATA for i, it must fit the limit that all acknowledgements before it leave. */
  lemma {:induction false} WithinAppend(out: seq<Frame>, f: Frame, i: int, got: nat, limit: nat, pending: seq<seq<nat>>)
    requires Within(out, i, got, limit, pending) && i != CONNECTION
    requires Acks(out) + (if f.Ack? then 1 else 0) <= |pending|
    requires f.Data? && f.stream == i ==> got + Flight(out, i) + f.len <= Goal(limit, pending[..Acks(out)])
    ensures Within(out + [f], i, got, limit, pending)
    decreases |out|
  {
    if out == [] {
      assert pending[..0] == [] && [f][1..] == [];
    } else {
      assert (out + [f])[1..] == out[1..] + [f];
      match out[0]
      case Data(j, len) => WithinAppend(out[1..], f, i, if j == i then got + len else got, limit, pending);
      case Ack =>
        assert pending[..Acks(out)][1..] == pending[1..][..Acks(out[1..])];
        WithinAppend(out[1..], f, i, got, Last(limit, pending[0]), pending[1..]);
      case Open(_) => WithinAppend(out[1..], f, i, got, limit, pending);
    }
  }

  /** Having less is no harm. */
  lemma {:induction false} WithinLess(out: seq<Frame>, i: int, got: nat, less: nat, limit: nat, pending: seq<seq<nat>>)
    requires Within(out, i, got, limit, pending) && less <= got
    ensures Within(out, i, less, limit, pending)
    decreases |out|
  {
    if out != [] {
      match out[0]
      case Data(j, len) =>
        if j == i {
          WithinLess(out[1..], i, got + len, less + len, limit, pending);
        } else {
          WithinLess(out[1..], i, got, less, limit, pending);
        }
      case Ack => WithinLess(out[1..], i, got, less, Last(limit, pending[0]), pending[1..]);
      case Open(_) => WithinLess(out[1..], i, got, less, limit, pending);
    }
  }

  /** Settings that are not acknowledged in `out` do not matter to it. */
  lemma {:induction false} WithinMore(out: seq<Frame>, i: int, got: nat, limit: nat, pending: seq<seq<nat>>,
                                      vs: seq<nat>)
    requires Within(out, i, got, limit, pending)
    ensures Within(out, i, got, limit, pending + [vs])
    decreases |out|
  {
    if out != [] {
      match out[0]
      case Data(j, len) => WithinMore(out[1..], i, if j == i then got + len else got, limit, pending, vs);
      case Ack =>
        assert (pending + [vs])[1..] == pending[1..] + [vs];
        WithinMore(out[1..], i, got, Last(limit, pending[0]), pending[1..], vs);
      case Open(_) => WithinMore(out[1..], i, got, limit, pending, vs);
    }
  }

  lemma {:induction false} WithinSilent(out: seq<Frame>, i: int, limit: nat, pending: seq<seq<nat>>)
    requires Silent(out, i) && Acks(out) <= |pending|
    ensures Within(out, i, 0, limit, pending) && (i != CONNECTION ==> Flight(out, i) == 0)
    decreases |out|
  {
    if out != [] {
      assert out[0] in out;
      match out[0]
      case Ack => WithinSilent(out[1..], i, Last(limit, pending[0]), pending[1..]);
      case _ => WithinSilent(out[1..], i, limit, pending);
    }
  }

  lemma {:induction false} SilentBackIncs(back: seq<Reply>, i: int)
    requires SilentBack(back, i)
    ensures Incs(back, i) == 0 && Opens(back, i) == 0
  {
    if back != [] {
      assert back[0] in back;
      SilentBackIncs(back[1..], i);
    }
  }

  lemma {:induction false} OpensIn(back: seq<Reply>, i: int)
    ensures OpenBack(i) in back <==> Opens(back, i) > 0
  {
    if back != [] {
      OpensIn(back[1..], i);
    }
  }
}
