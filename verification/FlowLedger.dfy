/**
 * The two ends of one direction of flow control (section 6.9 of RFC 7540): a sender of DATA and its receiver,
 * which returns WINDOW_UPDATEs by itself and changes SETTINGS_INITIAL_WINDOW_SIZE when it likes.  Each operation
 * of nghttp2 is a function; it yields Failed where the code raises FLOW_CONTROL_ERROR.
 */
module FlowLedger {
  /** `NGHTTP2_MAX_WINDOW_SIZE` */
  const MAX_WINDOW: nat := 0x7fff_ffff
  const MIN_WINDOW: int := -0x8000_0000
  /** `NGHTTP2_INITIAL_WINDOW_SIZE` and `NGHTTP2_INITIAL_CONNECTION_WINDOW_SIZE` */
  const INITIAL_WINDOW: nat := 65535
  /** Stream 0 stands for the connection. */
  const CONNECTION: int := 0

  datatype Result<T> = Ok(value: T) | Failed

  /** `update_initial_window_size` */
  function Shifted(window: int, to: int, before: int): Result<int> {
    var w := window + to - before;
    if w < MIN_WINDOW || w > MAX_WINDOW then Failed else Ok(w)
  }

  // ---- the sender

  /** `acks` counts the acknowledgements in the urgent queue; `windows` are the streams' `remote_window_size`. */
  datatype Sender = Sender(conn: int, initial: nat, acks: nat, windows: map<int, int>)

  /** The connection's window and that of stream i after a DATA frame (`session_after_frame_sent1`). */
  function Spent(s: Sender, i: int, len: nat): Sender
    requires i in s.windows
  {
    s.(conn := s.conn - len, windows := s.windows[i := s.windows[i] - len])
  }

  /** What `nghttp2_session_next_data_read` allows: both windows are positive and the frame fits them. */
  predicate Conforms(s: Sender, i: int, len: nat) {
    i in s.windows && s.windows[i] > 0 && s.conn > 0 && len <= s.windows[i] && len <= s.conn
  }

  /** `nghttp2_session_on_window_update_received` */
  function Increased(s: Sender, i: int, inc: nat): Result<Sender> {
    if i == CONNECTION then
      if MAX_WINDOW - inc < s.conn then Failed else Ok(s.(conn := s.conn + inc))
    else if i !in s.windows then Ok(s)
    else if MAX_WINDOW - inc < s.windows[i] then Failed
    else Ok(s.(windows := s.windows[i := s.windows[i] + inc]))
  }

  /** `session_update_remote_initial_window_size` and the entry's store that follows it. */
  function Reset(s: Sender, v: nat): Result<Sender> {
    if v > MAX_WINDOW then Failed
    else if exists i | i in s.windows :: Shifted(s.windows[i], v, s.initial) == Failed then Failed
    else Ok(s.(initial := v, windows := map i | i in s.windows :: s.windows[i] + v - s.initial))
  }

  /** The entries of one SETTINGS frame, in order. */
  function ResetAll(s: Sender, vs: seq<nat>): Result<Sender>
    decreases |vs|
  {
    if vs == [] then Ok(s) else match Reset(s, vs[0]) case Failed => Failed case Ok(t) => ResetAll(t, vs[1..])
  }

  /** `nghttp2_session_on_settings_received`: the acknowledgement goes to the urgent queue. */
  function Accepted(s: Sender, vs: seq<nat>): Result<Sender> {
    match ResetAll(s, vs) case Failed => Failed case Ok(t) => Ok(t.(acks := t.acks + 1))
  }

  // ---- the receiver

  /** A receive window: its size, what came in since the last update, and the update that is queued (0: none). */
  datatype Window = Window(local: int, recv: nat, queued: nat)

  /** `nghttp2_should_send_window_update`, any rule that never asks for an empty update. */
  type Rule = should: (int, nat) -> bool | forall l :: !should(l, 0) witness (l, n) => n > 0

  /** `pending`: SETTINGS not acknowledged yet; `urgent`: those of them that have not left yet. */
  datatype Receiver = Receiver(conn: Window, initial: nat, pending: seq<seq<nat>>, urgent: seq<seq<nat>>,
                               windows: map<int, Window>)

  /** An update is queued if none is and the rule says so. */
  function Updated(w: Window, auto: bool, should: Rule): Window {
    if auto && w.queued == 0 && should(w.local, w.recv) then w.(recv := 0, queued := w.recv) else w
  }

  /** `adjust_recv_window_size`, and the update that may follow it. */
  function Charged(w: Window, n: nat, auto: bool, should: Rule): Result<Window> {
    if w.recv > w.local - n || w.recv > MAX_WINDOW - n then Failed
    else Ok(Updated(w.(recv := w.recv + n), auto, should))
  }

  /** n bytes of a DATA frame, padding included, on stream i; `auto` is false for the last of a stream. */
  function Received(r: Receiver, i: int, n: nat, auto: bool, should: Rule): Result<Receiver> {
    match Charged(r.conn, n, true, should)
    case Failed => Failed
    case Ok(c) =>
      if i !in r.windows then Ok(r.(conn := c))
      else match Charged(r.windows[i], n, auto, should)
           case Failed => Failed
           case Ok(w) => Ok(r.(conn := c, windows := r.windows[i := w]))
  }

  function Last(initial: nat, vs: seq<nat>): nat {
    if vs == [] then initial else vs[|vs| - 1]
  }

  /** `update_local_initial_window_size_func` */
  function Resized(w: Window, to: nat, before: nat, should: Rule): Result<Window> {
    match Shifted(w.local, to, before)
    case Failed => Failed
    case Ok(local) => Ok(Updated(w.(local := local), true, should))
  }

  /** `nghttp2_session_update_local_settings`, when the oldest SETTINGS are acknowledged. */
  function Acknowledged(r: Receiver, should: Rule): Result<Receiver>
    requires r.pending != []
  {
    var vs := r.pending[0];
    var r1 := r.(pending := r.pending[1..]);
    if vs == [] then Ok(r1)
    else if exists i | i in r.windows :: Resized(r.windows[i], Last(0, vs), r.initial, should) == Failed then Failed
    else Ok(r1.(initial := Last(0, vs),
                windows := map i | i in r.windows :: Resized(r.windows[i], Last(0, vs), r.initial, should).value))
  }

  // ---- the connection

  /** What the sender sends that matters here, and what comes back; HEADERS open streams in both directions. */
  datatype Frame = Data(stream: int, len: nat) | Ack | Open(stream: int)
  datatype Reply = Update(stream: int, inc: nat) | Settings(values: seq<nat>) | OpenBack(stream: int)

  /** `used` are the stream ids that were ever in use. */
  datatype Link = Link(s: Sender, r: Receiver, out: seq<Frame>, back: seq<Reply>, used: set<int>)

  datatype Event =
    | SendData(i: int, len: nat)
    | SendAck
    | SendOpen(i: int)
    | DropSent(i: int)
    | Take(n: nat, auto: bool)
    | Submit(values: seq<nat>)
    | SendSettings
    | SendUpdate(i: int, auto: bool)
    | OpenStream(i: int)
    | DropReceived(i: int)
    | TakeReply

  /** What can happen: frames leave in the order of nghttp2's queues, so acknowledgements before HEADERS and DATA. */
  predicate Possible(l: Link, e: Event) {
    match e
    case SendData(i, len) => l.s.acks == 0 && Conforms(l.s, i, len)
    case SendAck => l.s.acks > 0
    case SendOpen(i) => l.s.acks == 0 && i !in l.used
    case DropSent(i) => true
    case Take(n, _) => l.out != [] && (l.out[0].Data? ==> n <= l.out[0].len)
    case Submit(vs) => forall v | v in vs :: v <= MAX_WINDOW
    case SendSettings => l.r.urgent != []
    case SendUpdate(i, _) => if i == CONNECTION then l.r.conn.queued > 0
      else i in l.r.windows && l.r.windows[i].queued > 0
    case OpenStream(i) => i !in l.used
    case DropReceived(i) => true
    case TakeReply => l.back != []
  }

  /** The receiver takes n bytes of the first frame, or the frame if it is not DATA. */
  function Taken(l: Link, n: nat, auto: bool, should: Rule): Result<Link>
    requires l.out != [] && (l.out[0].Data? ==> n <= l.out[0].len) && (l.out[0].Ack? ==> l.r.pending != [])
  {
    var rest := l.out[1..];
    match l.out[0]
    case Data(i, len) =>
      var left := if n == len then rest else [Data(i, len - n)] + rest;
      (match Received(l.r, i, n, auto, should) case Failed => Failed case Ok(r) => Ok(l.(r := r, out := left)))
    case Ack => (match Acknowledged(l.r, should) case Failed => Failed case Ok(r) => Ok(l.(r := r, out := rest)))
    case Open(i) =>
      Ok(l.(r := l.r.(windows := l.r.windows[i := Window(l.r.initial, 0, 0)]), out := rest))
  }

  /** The sender takes the first frame that came back. */
  function Answered(l: Link): Result<Link>
    requires l.back != []
  {
    var l1 := l.(back := l.back[1..]);
    match l.back[0]
    case Update(i, inc) => (match Increased(l.s, i, inc) case Failed => Failed case Ok(s) => Ok(l1.(s := s)))
    case Settings(vs) => (match Accepted(l.s, vs) case Failed => Failed case Ok(s) => Ok(l1.(s := s)))
    case OpenBack(i) => Ok(l1.(s := l.s.(windows := l.s.windows[i := l.s.initial])))
  }

  /**
   * A queued update leaves.  What has come in meanwhile is charged again, with no bytes, and may make the next
   * update (`session_after_frame_sent1`); not so (`auto` is false) once the peer has ended the stream.
   */
  function UpdateSent(l: Link, i: int, auto: bool, should: Rule): Result<Link>
    requires i == CONNECTION || i in l.r.windows
  {
    var w := if i == CONNECTION then l.r.conn else l.r.windows[i];
    match if auto then Charged(w.(queued := 0), 0, true, should) else Ok(w.(queued := 0))
    case Failed => Failed
    case Ok(w') =>
      var r := if i == CONNECTION then l.r.(conn := w') else l.r.(windows := l.r.windows[i := w']);
      Ok(l.(r := r, back := l.back + [Update(i, w.queued)]))
  }

  /**
   * The update of stream i has left and charging it again has failed: `nghttp2_session_add_rst_stream` makes it a
   * closing stream, which takes part in flow control no more.  The sender drops it, too, once it reads RST_STREAM;
   * what it sends until then is charged to the connection only.
   */
  function StreamReset(l: Link, i: int): Link
    requires i in l.r.windows
  {
    l.(r := l.r.(windows := l.r.windows - {i}), back := l.back + [Update(i, l.r.windows[i].queued)])
  }

  function Next(l: Link, e: Event, should: Rule): Result<Link>
    requires Possible(l, e) && (e.Take? && l.out[0].Ack? ==> l.r.pending != [])
  {
    match e
    case SendData(i, len) => Ok(l.(s := Spent(l.s, i, len), out := l.out + [Data(i, len)]))
    case SendAck => Ok(l.(s := l.s.(acks := l.s.acks - 1), out := l.out + [Ack]))
    case SendOpen(i) =>
      Ok(l.(s := l.s.(windows := l.s.windows[i := l.s.initial]), out := l.out + [Open(i)], used := l.used + {i}))
    case DropSent(i) => Ok(l.(s := l.s.(windows := l.s.windows - {i})))
    case Take(n, auto) => Taken(l, n, auto, should)
    case Submit(vs) => Ok(l.(r := l.r.(pending := l.r.pending + [vs], urgent := l.r.urgent + [vs])))
    case SendSettings =>
      Ok(l.(r := l.r.(urgent := l.r.urgent[1..]), back := l.back + [Settings(l.r.urgent[0])]))
    case SendUpdate(i, auto) => UpdateSent(l, i, auto, should)
    case OpenStream(i) =>
      Ok(l.(r := l.r.(windows := l.r.windows[i := Window(l.r.initial, 0, 0)]), back := l.back + [OpenBack(i)],
            used := l.used + {i}))
    case DropReceived(i) => Ok(l.(r := l.r.(windows := l.r.windows - {i})))
    case TakeReply => Answered(l)
  }

  /** The connection as it starts. */
  const START: Link :=
    Link(Sender(INITIAL_WINDOW, INITIAL_WINDOW, 0, map[]),
         Receiver(Window(INITIAL_WINDOW, 0, 0), INITIAL_WINDOW, [], [], map[]), [], [], {CONNECTION})
}
