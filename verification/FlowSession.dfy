/**
 * Flow control in place: the fields of `nghttp2_session` and of its streams, and the loops over all streams, proved
 * to do what FlowSender and FlowLedger describe.
 */
module FlowSession {
  import opened Bytes
  import opened FlowLedger
  import opened FlowSender

  /** The fields of `nghttp2_stream` that flow control works on: sending in `out`, receiving in `win`. */
  class Stream {
    const id: int
    var out: Out
    var win: Window

    constructor (id: int, out: Out, win: Window)
      ensures this.id == id && this.out == out && this.win == win
    {
      this.id, this.out, this.win := id, out, win;
    }
  }

  type Windows = map<int, Window>

  class Session {
    const streams: map<int, Stream>
    ghost const all: set<Stream>
    const should: Rule
    // sending
    var remoteWindow: int
    var remoteInitial: nat
    var packed: Option<Packed>
    // receiving
    var local: Window
    var localInitial: nat

    constructor (streams: map<int, Stream>, ghost all: set<Stream>, should: Rule)
      ensures this.streams == streams && this.all == all && this.should == should
      ensures remoteWindow == INITIAL_WINDOW && remoteInitial == INITIAL_WINDOW && packed == None
      ensures local == Window(INITIAL_WINDOW, 0, 0) && localInitial == INITIAL_WINDOW
    {
      this.streams, this.all, this.should := streams, all, should;
      remoteWindow, remoteInitial, packed := INITIAL_WINDOW, INITIAL_WINDOW, None;
      local, localInitial := Window(INITIAL_WINDOW, 0, 0), INITIAL_WINDOW;
    }

    /** The objects stand under their ids. */
    ghost predicate Named()
    {
      forall i | i in streams :: streams[i].id == i && streams[i] in all
    }

    ghost predicate OutsShown(m: map<int, Out>)
      requires Named()
      reads all`out
    {
      m.Keys == streams.Keys && forall i | i in streams :: streams[i].out == m[i]
    }

    /** The sending fields hold s. */
    ghost predicate Sending(s: Sends)
      reads this, all`out
    {
      && Named() && remoteWindow == s.conn && remoteInitial == s.initial && packed == s.packed
      && OutsShown(s.streams)
    }

    /** The receiving fields hold m. */
    ghost predicate WindowsShown(m: Windows)
      requires Named()
      reads all`win
    {
      m.Keys == streams.Keys && forall i | i in streams :: streams[i].win == m[i]
    }

    // ---- sending

    /** `session_resume_deferred_stream_item` for flow control, when the window has opened. */
    method Wake(stream: Stream)
      modifies stream`out
      ensures stream.out == Woken(old(stream.out))
    {
      if stream.out.window > 0 && stream.out.item && stream.out.flow {
        stream.out := stream.out.(flow := false);
      }
    }

    /** `nghttp2_session_on_window_update_received`; false is a connection error. */
    method OnWindowUpdate(i: int, inc: nat, ghost s: Sends) returns (ok: bool)
      requires Sending(s) && CONNECTION !in streams
      modifies this`remoteWindow, all`out
      ensures ok == FlowSender.Updated(s, i, inc).Ok?
      ensures ok ==> Sending(FlowSender.Updated(s, i, inc).value)
    {
      if i == CONNECTION {
        if MAX_WINDOW - inc < remoteWindow {
          return false;
        }
        remoteWindow := remoteWindow + inc;
      } else if i in streams {
        var stream := streams[i];
        if MAX_WINDOW - inc < stream.out.window {
          stream.out := stream.out.(closing := true);
        } else {
          stream.out := stream.out.(window := stream.out.window + inc);
          Wake(stream);
        }
      }
      ok := true;
    }

    /** `update_remote_initial_window_size_func` */
    method MoveWindow(stream: Stream, to: nat)
      requires stream in all
      modifies stream`out
      ensures stream.out == Moved(old(stream.out), to, remoteInitial)
    {
      var w := stream.out.window + to - remoteInitial;
      if w < MIN_WINDOW || w > MAX_WINDOW {
        stream.out := stream.out.(closing := true);
        return;
      }
      stream.out := stream.out.(window := w);
      Wake(stream);
    }

    /** `session_update_remote_initial_window_size`, and the store after it. */
    method UpdateRemoteInitial(v: nat, ghost s: Sends)
      requires Sending(s)
      modifies this`remoteInitial, all`out
      ensures Sending(FlowSender.Reset(s, v))
    {
      var rest := streams.Keys;
      ghost var goal := FlowSender.Reset(s, v).streams;
      while rest != {}
        invariant rest <= streams.Keys && remoteInitial == s.initial
        invariant forall i | i in streams :: streams[i].out == if i in rest then s.streams[i] else goal[i]
        decreases rest
      {
        assert (forall i :: i !in rest) ==> rest == {};
        var i :| i in rest;
        MoveWindow(streams[i], v);
        rest := rest - {i};
      }
      remoteInitial := v;
    }

    /** The DATA case of `session_prep_frame`, with a frame of this length. */
    method PrepareData(i: int, len: nat, ghost s: Sends)
      requires Sending(s) && FlowSender.Possible(s, Pack(i, len))
      modifies this`packed, all`out
      ensures Sending(Prepared(s, i, len))
    {
      var stream := streams[i];
      if stream.out.closing {
        stream.out := stream.out.(item := false, flow := false, user := false);
      } else if NextDataRead(stream) == 0 {
        stream.out := stream.out.(flow := true);
      } else {
        packed := Some(Packed(i, len));
      }
    }

    /** `nghttp2_session_next_data_read`, without the limits on frames, which are never 0. */
    function NextDataRead(stream: Stream): (n: nat)
      requires remoteWindow > 0
      reads this`remoteWindow, stream`out
      ensures n == 0 <==> stream.out.window <= 0
    {
      var least := if stream.out.window < remoteWindow then stream.out.window else remoteWindow;
      if least > 0 then least else 0
    }

    /** The DATA case of `session_after_frame_sent1`. */
    method AfterDataSent(eof: bool, ghost s: Sends)
      requires Sending(s) && packed.Some?
      modifies this`remoteWindow, this`packed, all`out
      ensures Sending(FlowSender.Charged(s, eof))
    {
      var i, len := packed.value.i, packed.value.len;
      remoteWindow := remoteWindow - len;
      packed := None;
      if i in streams {
        var stream := streams[i];
        stream.out := stream.out.(window := stream.out.window - len);
        if eof {
          stream.out := stream.out.(item := false, flow := false, user := false);
        }
      }
    }

    // ---- receiving

    /** `adjust_recv_window_size` and the update that may follow it, on the connection or on a stream. */
    method AdjustRecvWindow(w: Window, delta: nat, auto: bool) returns (ok: bool, w': Window)
      ensures ok == FlowLedger.Charged(w, delta, auto, should).Ok?
      ensures ok ==> w' == FlowLedger.Charged(w, delta, auto, should).value
    {
      if w.recv > w.local - delta || w.recv > MAX_WINDOW - delta {
        return false, w;
      }
      w' := w.(recv := w.recv + delta);
      if auto && w'.queued == 0 && should(w'.local, w'.recv) {
        w' := w'.(queued := w'.recv, recv := 0);
      }
      ok := true;
    }

    /** Bytes of a DATA frame, charged to the connection and then to the stream; false is FLOW_CONTROL_ERROR. */
    method Receive(i: int, n: nat, auto: bool, ghost r: Receiver) returns (ok: bool)
      requires Named() && local == r.conn && WindowsShown(r.windows)
      modifies this`local, all`win
      ensures ok == Received(r, i, n, auto, should).Ok?
      ensures ok ==> local == Received(r, i, n, auto, should).value.conn
      ensures ok ==> WindowsShown(Received(r, i, n, auto, should).value.windows)
    {
      var w;
      ok, w := AdjustRecvWindow(local, n, true);
      if !ok {
        return;
      }
      local := w;
      if i in streams {
        ok, w := AdjustRecvWindow(streams[i].win, n, auto);
        if ok {
          streams[i].win := w;
        }
      }
    }

    /**
     * The WINDOW_UPDATE case of `session_after_frame_sent1`: what came in meanwhile is charged again, with no bytes.
     * False is FLOW_CONTROL_ERROR, on a stream the case that FlowLedger.StreamReset goes on from.
     */
    method AfterUpdateSent(i: int, auto: bool, ghost l: Link) returns (ok: bool)
      requires Named() && local == l.r.conn && WindowsShown(l.r.windows) && (i == CONNECTION || i in streams)
      modifies this`local, all`win
      ensures ok == UpdateSent(l, i, auto, should).Ok?
      ensures ok ==> local == UpdateSent(l, i, auto, should).value.r.conn
      ensures ok ==> WindowsShown(UpdateSent(l, i, auto, should).value.r.windows)
    {
      var w := (if i == CONNECTION then local else streams[i].win).(queued := 0);
      ok := true;
      if auto {
        ok, w := AdjustRecvWindow(w, 0, true);
      }
      if !ok {
        return;
      }
      if i == CONNECTION {
        local := w;
      } else {
        streams[i].win := w;
      }
    }

    /** `update_local_initial_window_size_func` */
    method ResizeWindow(stream: Stream, to: nat) returns (ok: bool)
      requires stream in all
      modifies stream`win
      ensures ok == Resized(old(stream.win), to, localInitial, should).Ok?
      ensures ok ==> stream.win == Resized(old(stream.win), to, localInitial, should).value
    {
      var w := stream.win.local + to - localInitial;
      if w < MIN_WINDOW || w > MAX_WINDOW {
        return false;
      }
      stream.win := stream.win.(local := w);
      if stream.win.queued == 0 && should(stream.win.local, stream.win.recv) {
        stream.win := stream.win.(queued := stream.win.recv, recv := 0);
      }
      ok := true;
    }

    /** `session_update_local_initial_window_size`, and the store after it, when the peer has acknowledged v. */
    method UpdateLocalInitial(v: nat, ghost m: Windows) returns (ok: bool)
      requires Named() && WindowsShown(m)
      modifies this`localInitial, all`win
      ensures ok == (forall i | i in m :: Resized(m[i], v, old(localInitial), should).Ok?)
      ensures ok ==> localInitial == v
      ensures ok ==> WindowsShown(map i | i in m :: Resized(m[i], v, old(localInitial), should).value)
    {
      var rest := streams.Keys;
      ok := true;
      while rest != {}
        invariant rest <= streams.Keys && localInitial == old(localInitial)
        invariant ok == (forall i | i in m && i !in rest :: Resized(m[i], v, localInitial, should).Ok?)
        invariant forall i | i in streams :: i in rest ==> streams[i].win == m[i]
        invariant ok ==> forall i | i in streams :: i !in rest ==>
                    streams[i].win == Resized(m[i], v, localInitial, should).value
        decreases rest
      {
        assert (forall i :: i !in rest) ==> rest == {};
        var i :| i in rest;
        var good := ResizeWindow(streams[i], v);
        ok := ok && good;
        rest := rest - {i};
      }
      if ok {
        localInitial := v;
      }
    }
  }
}
