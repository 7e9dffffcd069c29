/** The RFC 9218 scheduler in place: eight queues of stream objects, proved to do what UrgencySched describes. */
module UrgencySession {
  import Q = DepQueue
  import opened UrgencySched

  /** The fields of `nghttp2_stream` that the scheduler works on. */
  class StreamObject {
    const id: int
    var s: Stream

    constructor (id: int, s: Stream)
      ensures this.id == id && this.s == s
    {
      this.id, this.s := id, s;
    }
  }

  class Session {
    const streams: map<int, StreamObject>
    ghost const all: set<StreamObject>
    const server: bool
    // the content of the priority queue of each urgency
    const obData: array<set<int>>

    constructor (streams: map<int, StreamObject>, ghost all: set<StreamObject>, server: bool)
      ensures this.streams == streams && this.all == all && this.server == server
      ensures fresh(obData) && obData[..] == seq(LEVELS, _ => {})
    {
      this.streams, this.all, this.server := streams, all, server;
      obData := new set<int>[LEVELS](_ => {});
    }

    ghost predicate Named()
    {
      NONE !in streams && forall i | i in streams :: streams[i].id == i && streams[i] in all
    }

    ghost predicate FieldsShown(m: Streams)
      requires Named()
      reads all
    {
      m.Keys == streams.Keys && forall i | i in streams :: streams[i].s == m[i]
    }

    /** The objects hold s. */
    ghost predicate Shown(s: Sched)
      reads all, obData
    {
      Named() && FieldsShown(s.streams) && obData[..] == s.queues && obData.Length == LEVELS
    }

    ghost predicate Known(x: StreamObject) {
      x.id in streams && streams[x.id] == x
    }

    /** `nghttp2_pq_top` of the queue of urgency u. */
    method PqTop(u: nat, ghost s: Sched) returns (top: StreamObject?)
      requires Shown(s) && u < LEVELS && forall x | x in s.queues[u] :: x in s.streams
      ensures top != null ==> Known(top)
      ensures Top(s.streams, s.queues[u], if top == null then NONE else top.id)
    {
      top := null;
      var rest := obData[u];
      while rest != {}
        invariant rest <= obData[u] && (top != null ==> Known(top)) && (top == null ==> rest == obData[u])
        invariant top != null ==> top.id in obData[u] - rest
        invariant top != null && Ordered(s.streams, obData[u]) ==>
                    forall y | y in obData[u] - rest && y != top.id :: Less(s.streams[top.id], s.streams[y])
        decreases rest
      {
        ghost var some := Q.Member(rest);
        var i :| i in rest;
        var x := streams[i];
        if top == null || Less(x.s, top.s) {
          top := x;
        }
        rest := rest - {i};
      }
    }

    /** `session_ob_data_push` */
    method ObDataPush(x: StreamObject, ghost s: Sched) returns (ghost top: int)
      requires Shown(s) && Known(x) && x.s.urgency < LEVELS && forall j | j in QueueOf(s, x.id) :: j in s.streams
      modifies x, obData
      ensures Top(s.streams, QueueOf(s, x.id), top) && (top == NONE || top in s.streams)
      ensures Shown(Push(s, x.id, top))
    {
      var urgency := x.s.urgency;
      var head := PqTop(urgency, s);
      top := if head == null then NONE else head.id;
      var cycle := if head == null then 0 else head.s.cycle;
      if x.s.inc {
        cycle := cycle + x.s.writelen;
      }
      x.s := x.s.(cycle := cycle % TWO64, queued := true);
      obData[urgency] := obData[urgency] + {x.id};
    }

    /** `session_ob_data_remove` */
    method ObDataRemove(x: StreamObject, ghost s: Sched)
      requires Shown(s) && Known(x) && x.s.urgency < LEVELS
      modifies x, obData
      ensures Shown(Pull(s, x.id))
    {
      obData[x.s.urgency] := obData[x.s.urgency] - {x.id};
      x.s := x.s.(queued := false);
    }

    method StoreItem(x: StreamObject, item: bool, deferred: set<Q.Cause>, ghost s: Sched)
      requires Shown(s) && Known(x)
      modifies x
      ensures Shown(WithItem(s, x.id, item, deferred))
    {
      x.s := x.s.(item := item, deferred := deferred);
    }

    /** `session_attach_stream_item` */
    method AttachItem(x: StreamObject, ghost s: Sched) returns (ghost e: Event)
      requires Shown(s) && Right(s) && Known(x) && !x.s.item && x.s.deferred == {}
      modifies x, obData
      ensures e.Attach? && e.i == x.id && Possible(s, e) && Shown(Next(s, e, server))
    {
      assert Placed(s, x.id);
      StoreItem(x, true, {}, s);
      ghost var s1 := WithItem(s, x.id, true, {});
      ghost var top := ObDataPush(x, s1);
      SameTop(s1, s, x.id, top);
      e := Attach(x.id, top);
    }

    /** `session_detach_stream_item` */
    method DetachItem(x: StreamObject, ghost s: Sched)
      requires Shown(s) && Right(s) && Known(x)
      modifies x, obData
      ensures Possible(s, Detach(x.id)) && Shown(Next(s, Detach(x.id), server))
    {
      StoreItem(x, false, {}, s);
      if x.s.queued {
        ObDataRemove(x, WithItem(s, x.id, false, {}));
      }
    }

    /** `session_defer_stream_item` */
    method DeferItem(x: StreamObject, why: set<Q.Cause>, ghost s: Sched)
      requires Shown(s) && Right(s) && Known(x) && x.s.item && why != {}
      modifies x, obData
      ensures Possible(s, Defer(x.id, why)) && Shown(Next(s, Defer(x.id, why), server))
    {
      var deferred := x.s.deferred + why;
      StoreItem(x, true, deferred, s);
      if x.s.queued {
        ObDataRemove(x, WithItem(s, x.id, true, deferred));
      }
    }

    /** `session_resume_deferred_stream_item`, for an item that is deferred */
    method ResumeItem(x: StreamObject, why: set<Q.Cause>, ghost s: Sched) returns (ghost e: Event)
      requires Shown(s) && Right(s) && Known(x) && x.s.item && x.s.deferred != {}
      modifies x, obData
      ensures e.Resume? && e.i == x.id && e.why == why && Possible(s, e) && Shown(Next(s, e, server))
    {
      assert Placed(s, x.id);
      var deferred := x.s.deferred - why;
      ghost var s1 := WithItem(s, x.id, true, deferred);
      ghost var top := SomeTop(s, s.queues[x.s.urgency]);
      StoreItem(x, true, deferred, s);
      if deferred == {} {
        top := ObDataPush(x, s1);
        SameTop(s1, s, x.id, top);
      }
      e := Resume(x.id, why, top);
    }

    /** `session_sched_get_next_outbound_item`: a stream to pick, null if no queue holds one. */
    method SchedNext(ghost s: Sched) returns (found: StreamObject?)
      requires Shown(s) && Right(s)
      ensures found != null ==> Known(found) && Picked(s, found.id)
      ensures found == null <==> forall i | i in s.streams :: !s.streams[i].Ready()
    {
      NoneReady(s);
      var u := 0;
      while u < LEVELS
        invariant 0 <= u <= LEVELS && forall v | 0 <= v < u :: s.queues[v] == {}
      {
        found := PqTop(u, s);
        if found != null {
          return;
        }
        u := u + 1;
      }
      found := null;
    }

    /** `session_sched_empty` */
    method SchedEmpty(ghost s: Sched) returns (empty: bool)
      requires Shown(s) && Right(s)
      ensures empty <==> forall i | i in s.streams :: !s.streams[i].Ready()
    {
      NoneReady(s);
      var u := 0;
      while u < LEVELS
        invariant 0 <= u <= LEVELS && forall v | 0 <= v < u :: s.queues[v] == {}
      {
        if obData[u] != {} {
          return false;
        }
        u := u + 1;
      }
      empty := true;
    }

    /** The removal, the new turn and the insertion of `session_sched_reschedule_stream`. */
    method Requeue(x: StreamObject, bytes: nat, ghost s: Sched)
      requires Shown(s) && Known(x) && x.s.urgency < LEVELS && x.id in s.queues[x.s.urgency]
      modifies x, obData
      ensures Shown(s.(streams :=
                      s.streams[x.id := s.streams[x.id].(cycle := (s.streams[x.id].cycle + bytes) % TWO64)]))
    {
      obData[x.s.urgency] := obData[x.s.urgency] - {x.id};
      x.s := x.s.(cycle := (x.s.cycle + bytes) % TWO64);
      obData[x.s.urgency] := obData[x.s.urgency] + {x.id};
      assert s.queues[x.s.urgency] - {x.id} + {x.id} == s.queues[x.s.urgency];
      assert obData[..] == s.queues;
    }

    /** `session_reschedule_stream`, for a stream just picked that has a frame of this many bytes packed */
    method Reschedule(x: StreamObject, bytes: nat, ghost s: Sched)
      requires Shown(s) && Right(s) && Known(x) && Picked(s, x.id) && bytes <= MAX_GAP
      modifies x, obData
      ensures Possible(s, Sent(x.id, bytes)) && Shown(Next(s, Sent(x.id, bytes), server))
    {
      PickedIn(s, x.id);
      RescheduleIn(x, bytes, s, Rescheduled(s, x.id, bytes, server));
    }

    method RescheduleIn(x: StreamObject, bytes: nat, ghost s: Sched, ghost s': Sched)
      requires Shown(s) && Known(x) && x.s.urgency < LEVELS && x.id in s.queues[x.s.urgency]
      requires s' == Rescheduled(s, x.id, bytes, server)
      modifies x, obData
      ensures Shown(s')
    {
      x.s := x.s.(writelen := bytes);
      if !server || !x.s.inc || |obData[x.s.urgency]| == 1 {
        return;
      }
      Requeue(x, bytes, s.(streams := s.streams[x.id := s.streams[x.id].(writelen := bytes)]));
    }

    method StorePriority(x: StreamObject, urgency: nat, inc: bool, ghost s: Sched)
      requires Shown(s) && Known(x)
      modifies x
      ensures Shown(s.(streams := s.streams[x.id := s.streams[x.id].(urgency := urgency, inc := inc)]))
    {
      x.s := x.s.(urgency := urgency, inc := inc);
    }

    /** The queued case of `session_update_stream_priority`. */
    method MoveQueue(x: StreamObject, urgency: nat, inc: bool, ghost s: Sched) returns (ghost top: int)
      requires Shown(s) && Right(s) && Known(x) && urgency < LEVELS && x.s.queued
      modifies x, obData
      ensures top == NONE || top in s.streams
      ensures x.id in s.streams && s.streams[x.id].urgency < |s.queues|
      ensures Top(s.streams, if s.streams[x.id].urgency == urgency then s.queues[urgency] - {x.id}
                  else s.queues[urgency], top)
      ensures var s1 := Pull(s, x.id);
              Shown(Push(s1.(streams := s1.streams[x.id := s1.streams[x.id].(urgency := urgency, inc := inc)])
                         , x.id, top))
    {
      assert Placed(s, x.id);
      ghost var xs := if x.s.urgency == urgency then s.queues[urgency] - {x.id} else s.queues[urgency];
      ghost var s1 := Pull(s, x.id);
      ghost var s2 := s1.(streams := s1.streams[x.id := s1.streams[x.id].(urgency := urgency, inc := inc)]);
      ObDataRemove(x, s);
      StorePriority(x, urgency, inc, s1);
      assert QueueOf(s2, x.id) == xs;
      top := ObDataPush(x, s2);
      PulledTop(s2, s, x.id, xs, top);
    }

    /** `session_update_stream_priority` */
    method UpdatePriority(x: StreamObject, urgency: nat, inc: bool, ghost s: Sched) returns (ghost e: Event)
      requires Shown(s) && Right(s) && Known(x) && urgency < LEVELS
      modifies x, obData
      ensures e.Prioritize? && e.i == x.id && e.urgency == urgency && e.inc == inc
      ensures Possible(s, e) && Shown(Next(s, e, server))
    {
      ghost var top := SomeTop(s, if x.s.urgency == urgency then s.queues[urgency] - {x.id} else s.queues[urgency]);
      if x.s.urgency != urgency || x.s.inc != inc {
        if x.s.queued {
          top := MoveQueue(x, urgency, inc, s);
        } else {
          StorePriority(x, urgency, inc, s);
        }
      }
      e := Prioritize(x.id, urgency, inc, top);
    }
  }

  /** Every ordered queue that is not empty has a first stream. */
  lemma SomeTop(s: Sched, xs: set<int>) returns (top: int)
    requires Right(s) && exists u | 0 <= u < LEVELS :: xs <= s.queues[u]
    ensures Top(s.streams, xs, top)
  {
    var u :| 0 <= u < LEVELS && xs <= s.queues[u];
    QueuesOrdered(s, u);
    top := NONE;
    var rest := xs;
    while rest != {}
      invariant rest <= xs && (top == NONE <==> rest == xs)
      invariant rest != xs ==> top in xs - rest && top in s.streams
      invariant rest != xs ==> forall y | y in xs - rest && y != top :: Less(s.streams[top], s.streams[y])
      decreases rest
    {
      var i := Q.Member(rest);
      if rest == xs || Less(s.streams[i], s.streams[top]) {
        top := i;
      }
      rest := rest - {i};
    }
  }
}
