/**
 * The dependency tree in place: stream objects linked by pointers, with the queues and the clock fields that the
 * tree operations keep up to date.  Ghost maps hold what the objects store, in the terms of DepLinks, DepQueue and
 * DepWeights; every operation is proved to do to them what those modules describe.
 */
module DepTree {
  import opened DepForest
  import opened DepLinks
  import opened DepQueue
  import opened DepWeights
  import opened DepOperations

  /** The fields of `nghttp2_stream` that belong to the tree. */
  class Stream {
    const id: int
    var depPrev: Stream?
    var depNext: Stream?
    var sibPrev: Stream?
    var sibNext: Stream?
    var weight: int
    var sumDepWeight: int
    // the fields that say what the stream has to send, and when it is its turn
    var sched: Queue

    /** `nghttp2_stream_init` */
    constructor (id: int, weight: int)
      ensures this.id == id && this.weight == weight && sumDepWeight == 0
      ensures depPrev == null && depNext == null && sibPrev == null && sibNext == null
      ensures sched == IDLE
    {
      this.id, this.weight, sumDepWeight := id, weight, 0;
      depPrev, depNext, sibPrev, sibNext := null, null, null, null;
      sched := IDLE;
    }
  }

  const IDLE := Queue(false, {}, false, {}, 0, 0, 0, 0, 0, 0)

  function IdOf(s: Stream?): int {
    if s == null then NONE else s.id
  }

  /** The streams at hand, under their ids; the root has id 0. */
  class DepTree {
    const streams: map<int, Stream>
    ghost const all: set<Stream>

    constructor (streams: map<int, Stream>, ghost all: set<Stream>)
      ensures this.streams == streams && this.all == all
    {
      this.streams, this.all := streams, all;
    }

    function Ptr(i: int): Stream?
    {
      if i in streams then streams[i] else null
    }

    ghost predicate Known(s: Stream?)
    {
      s == null || (s.id in streams && streams[s.id] == s)
    }

    /** The objects stand under their ids. */
    ghost predicate Named()
    {
      NONE !in streams && forall i | i in streams :: streams[i].id == i && streams[i] in all
    }

    ghost predicate LinksShown(l: LinkMap)
      requires Named()
      reads all`depPrev, all`depNext, all`sibPrev, all`sibNext
    {
      && l.Keys == streams.Keys
      && forall i | i in streams ::
           && streams[i].depPrev == Ptr(l[i].depPrev) && streams[i].depNext == Ptr(l[i].depNext)
           && streams[i].sibPrev == Ptr(l[i].sibPrev) && streams[i].sibNext == Ptr(l[i].sibNext)
    }

    ghost predicate WeightsShown(w: Weights, sums: Sums)
      requires Named()
      reads all`weight, all`sumDepWeight
    {
      && w.Keys == streams.Keys == sums.Keys
      && forall i | i in streams :: streams[i].weight == w[i] && streams[i].sumDepWeight == sums[i]
    }

    ghost predicate QueuesShown(q: QueueMap)
      requires Named()
      reads all`sched
    {
      q.Keys == streams.Keys && forall i | i in streams :: streams[i].sched == q[i]
    }

    ghost predicate Shown(f: Forest)
      reads all
    {
      Named() && LinksShown(f.l) && WeightsShown(f.w, f.sums) && QueuesShown(f.q)
    }

    /** The objects store f, and its parents, which are those of the links, can be climbed. */
    ghost predicate Climbable(f: Forest, rank: Ranks)
      reads all
    {
      Shown(f) && Up(f.l) == f.u && Sized(f.u, rank, f.w, f.q)
    }

    /** The objects store the forest f, and it is sound. */
    ghost predicate Valid(f: Forest, rank: Ranks)
      reads all
    {
      Shown(f) && Sound(f, rank)
    }

    // ---- pointers

    method SetDepPrev(s: Stream, p: Stream?, ghost l: LinkMap)
      requires Named() && LinksShown(l) && Known(s) && Known(p)
      modifies s`depPrev
      ensures LinksShown(l[s.id := l[s.id].(depPrev := IdOf(p))])
    {
      s.depPrev := p;
    }

    method SetDepNext(p: Stream, s: Stream?, ghost l: LinkMap)
      requires Named() && LinksShown(l) && Known(s) && Known(p)
      modifies p`depNext
      ensures LinksShown(l[p.id := l[p.id].(depNext := IdOf(s))])
    {
      p.depNext := s;
    }

    method SetSibNext(a: Stream, b: Stream?, ghost l: LinkMap)
      requires Named() && LinksShown(l) && Known(a) && Known(b)
      modifies a`sibNext
      ensures LinksShown(l[a.id := l[a.id].(sibNext := IdOf(b))])
    {
      a.sibNext := b;
    }

    method SetSibPrev(b: Stream, a: Stream?, ghost l: LinkMap)
      requires Named() && LinksShown(l) && Known(a) && Known(b)
      modifies b`sibPrev
      ensures LinksShown(l[b.id := l[b.id].(sibPrev := IdOf(a))])
    {
      b.sibPrev := a;
    }

    /** `link_dep` */
    method LinkChild(p: Stream, s: Stream?, ghost l: LinkMap)
      requires Named() && LinksShown(l) && Known(p) && Known(s)
      modifies p`depNext, if s == null then {} else {s}`depPrev
      ensures LinksShown(LinkDep(l, p.id, IdOf(s)))
    {
      SetDepNext(p, s, l);
      if s != null {
        SetDepPrev(s, p, l[p.id := l[p.id].(depNext := s.id)]);
      }
    }

    /** `link_sib` */
    method LinkSibling(a: Stream, b: Stream?, ghost l: LinkMap)
      requires Named() && LinksShown(l) && Known(a) && Known(b)
      modifies a`sibNext, if b == null then {} else {b}`sibPrev
      ensures LinksShown(LinkSib(l, a.id, IdOf(b)))
    {
      SetSibNext(a, b, l);
      if b != null {
        SetSibPrev(b, a, l[a.id := l[a.id].(sibNext := b.id)]);
      }
    }

    // ---- queues

    /** `stream_next_cycle` */
    method TakeTurn(stream: Stream, lastCycle: nat, ghost w: Weights, ghost sums: Sums, ghost q: QueueMap)
      requires Named() && QueuesShown(q) && WeightsShown(w, sums) && WeightsOk(w) && Known(stream)
      modifies stream`sched
      ensures QueuesShown(q[stream.id := NextCycle(q[stream.id], w[stream.id], lastCycle)])
    {
      var penalty := stream.sched.writelen * MAX_WEIGHT + stream.sched.penalty;
      stream.sched := stream.sched.(
        cycle := (lastCycle + penalty / stream.weight) % TWO64,
        penalty := penalty % stream.weight);
    }

    /** `nghttp2_pq_push` */
    method PqPush(dep: Stream, stream: Stream, ghost q: QueueMap)
      requires Named() && QueuesShown(q) && Known(dep) && Known(stream)
      modifies dep`sched
      ensures QueuesShown(q[dep.id := q[dep.id].(obq := q[dep.id].obq + {stream.id})])
    {
      dep.sched := dep.sched.(obq := dep.sched.obq + {stream.id});
    }

    /** `nghttp2_pq_remove` */
    method PqRemove(dep: Stream, stream: Stream, ghost q: QueueMap)
      requires Named() && QueuesShown(q) && Known(dep) && Known(stream)
      modifies dep`sched
      ensures QueuesShown(q[dep.id := q[dep.id].(obq := q[dep.id].obq - {stream.id})])
    {
      dep.sched := dep.sched.(obq := dep.sched.obq - {stream.id});
    }

    /** `stream->seq = dep_stream->descendant_next_seq++` */
    method TakeSeq(dep: Stream, stream: Stream, ghost q: QueueMap)
      requires Named() && QueuesShown(q) && Known(dep) && Known(stream)
      modifies dep`sched, stream`sched
      ensures QueuesShown(Sequenced(q, dep.id, stream.id))
    {
      stream.sched := stream.sched.(seqNo := dep.sched.nextSeq);
      dep.sched := dep.sched.(nextSeq := (dep.sched.nextSeq + 1) % TWO64);
    }

    /** What the loop of `stream_obq_push` does to one stream. */
    method PushInto(dep: Stream, stream: Stream, ghost w: Weights, ghost sums: Sums, ghost q: QueueMap)
      requires Named() && QueuesShown(q) && WeightsShown(w, sums) && WeightsOk(w) && Known(dep) && Known(stream)
      modifies stream`sched, dep`sched
      ensures QueuesShown(Enqueue(w, q, dep.id, stream.id))
    {
      ghost var s, p := stream.id, dep.id;
      TakeTurn(stream, dep.sched.lastCycle, w, sums, q);
      ghost var q1 := q[s := NextCycle(q[s], w[s], q[p].lastCycle)];
      TakeSeq(dep, stream, q1);
      ghost var q2 := Sequenced(q1, p, s);
      PqPush(dep, stream, q2);
      stream.sched := stream.sched.(queued := true);
    }

    /** A round of the loop of `stream_obq_push`; goal is what the loop is to make of the queues. */
    method PushRound(p: Stream, s: Stream, ghost f: Forest, ghost rank: Ranks, ghost goal: QueueMap)
      returns (above: Stream?, ghost g: Forest)
      requires Climbable(f, rank) && Known(p) && Known(s) && !s.sched.queued
      requires Pushing(f.u, rank, f.w, f.q, p.id, s.id, goal)
      modifies p`sched, s`sched
      ensures Shown(g) && g == f.(q := g.q) && Known(above) && Pushing(f.u, rank, f.w, g.q, IdOf(above), p.id, goal)
      ensures Height(rank, IdOf(above)) < Height(rank, p.id)
    {
      PushStep(f.u, rank, f.w, f.q, p.id, s.id, goal);
      PushInto(p, s, f.w, f.sums, f.q);
      above, g := p.depPrev, f.(q := Enqueue(f.w, f.q, p.id, s.id));
    }

    /** `stream_obq_push` */
    method ObqPush(dep: Stream?, stream: Stream, ghost f: Forest, ghost rank: Ranks) returns (ghost g: Forest)
      requires Climbable(f, rank) && Known(dep) && Known(stream)
      modifies all`sched
      ensures Shown(g) && g == f.(q := PushUp(f.u, rank, f.w, f.q, IdOf(dep), stream.id))
    {
      ghost var goal := PushUp(f.u, rank, f.w, f.q, IdOf(dep), stream.id);
      var p: Stream?, s: Stream := dep, stream;
      g := f;
      while p != null && !s.sched.queued
        invariant Known(p) && Known(s) && Shown(g) && g == f.(q := g.q)
        invariant Pushing(f.u, rank, f.w, g.q, IdOf(p), s.id, goal)
        decreases Height(rank, IdOf(p))
      {
        var above;
        above, g := PushRound(p, s, g, rank, goal);
        s, p := p, above;
      }
    }

    /** What the loop of `stream_obq_remove` does to one stream; done when it ends the loop. */
    method PullFrom(p: Stream, s: Stream, ghost q: QueueMap) returns (done: bool)
      requires Named() && QueuesShown(q) && Known(p) && Known(s) && q[s.id].queued
      modifies p`sched, s`sched
      ensures QueuesShown(Dequeue(q, p.id, s.id)) && done == Dequeue(q, p.id, s.id)[p.id].Busy()
    {
      PqRemove(p, s, q);
      assert s.sched.queued;
      s.sched := s.sched.(queued := false, cycle := 0, penalty := 0, lastCycle := 0, writelen := 0);
      done := p.sched.Busy();
    }

    /** A round of the loop of `stream_obq_remove`. */
    method PullRound(p: Stream, s: Stream, ghost f: Forest, ghost rank: Ranks, ghost goal: QueueMap)
      returns (done: bool, above: Stream?, ghost g: Forest)
      requires Climbable(f, rank) && Known(p) && Known(s) && Pulling(f.u, rank, f.q, p.id, s.id, goal)
      modifies p`sched, s`sched
      ensures Shown(g) && g == f.(q := g.q) && Known(above)
      ensures if done || above == null then g.q == goal
              else Pulling(f.u, rank, g.q, above.id, p.id, goal) && Height(rank, above.id) < Height(rank, p.id)
    {
      PullStep(f.u, rank, f.q, p.id, s.id, goal);
      done := PullFrom(p, s, f.q);
      above, g := p.depPrev, f.(q := Dequeue(f.q, p.id, s.id));
    }

    /** `stream_obq_remove` */
    method ObqRemove(stream: Stream, ghost f: Forest, ghost rank: Ranks) returns (ghost g: Forest)
      requires Climbable(f, rank) && Known(stream) && MayLeave(f, rank, stream.id)
      modifies all`sched
      ensures Shown(g) && g == f.(q := CutQueue(f.u, rank, f.q, stream.id))
    {
      var s: Stream, p: Stream? := stream, stream.depPrev;
      g := f;
      if !stream.sched.queued {
        return;
      }
      ghost var goal := PullUp(f.u, rank, f.q, f.u[stream.id], stream.id);
      while p != null
        invariant Known(p) && Known(s) && Shown(g) && g == f.(q := g.q)
        invariant if p == null then g.q == goal else Pulling(f.u, rank, g.q, p.id, s.id, goal)
        decreases Height(rank, IdOf(p))
      {
        var done, above;
        done, above, g := PullRound(p, s, g, rank, goal);
        if done {
          return;
        }
        s, p := p, above;
      }
    }

    method LeaveQueue(src: Stream, stream: Stream, ghost q: QueueMap)
      requires Named() && QueuesShown(q) && Known(src) && Known(stream)
      modifies src`sched, stream`sched
      ensures QueuesShown(Leave(q, src.id, stream.id))
    {
      PqRemove(src, stream, q);
      stream.sched := stream.sched.(queued := false);
    }

    method StepLeave(src: Stream, stream: Stream, ghost f: Forest) returns (ghost g: Forest)
      requires Shown(f) && Known(src) && Known(stream)
      modifies src`sched, stream`sched
      ensures Shown(g) && g == f.(q := Leave(f.q, src.id, stream.id))
    {
      LeaveQueue(src, stream, f.q);
      g := f.(q := Leave(f.q, src.id, stream.id));
    }

    /** `stream_obq_move` */
    method ObqMove(dest: Stream, src: Stream, stream: Stream, ghost f: Forest, ghost rank: Ranks)
      returns (ghost g: Forest)
      requires Climbable(f, rank) && Known(dest) && Known(src) && Known(stream)
      modifies all`sched
      ensures Shown(g) && g == f.(q := MoveTo(f.u, rank, f.w, f.q, dest.id, src.id, stream.id))
    {
      g := f;
      if !stream.sched.queued {
        return;
      }
      g := StepLeave(src, stream, g);
      g := ObqPush(dest, stream, g, rank);
    }

    // ---- links and sums, as steps that take the model of what is stored and give the new one

    /** The neighbours of a stream that is to go are linked past it. */
    method LinkPast(stream: Stream, ghost l: LinkMap)
      requires Named() && LinksShown(l) && Known(stream) && Guarded(l, stream.id)
      modifies all`depPrev, all`depNext, all`sibPrev, all`sibNext
      ensures LinksShown(Bypass(l, stream.id))
    {
      var next := stream.sibNext;
      if stream.sibPrev != null {
        LinkSibling(stream.sibPrev, next, l);
      } else {
        LinkChild(stream.depPrev, next, l);
        if next != null {
          SetSibPrev(next, null, LinkDep(l, stream.depPrev.id, next.id));
        }
      }
    }

    method StepPast(stream: Stream, ghost f: Forest) returns (ghost g: Forest)
      requires Shown(f) && Known(stream) && Guarded(f.l, stream.id)
      modifies all`depPrev, all`depNext, all`sibPrev, all`sibNext
      ensures Shown(g) && g == f.(l := Bypass(f.l, stream.id))
    {
      LinkPast(stream, f.l);
      g := f.(l := Bypass(f.l, stream.id));
    }

    method StepSubtract(dep: Stream, stream: Stream, ghost f: Forest) returns (ghost g: Forest)
      requires Shown(f) && Known(dep) && Known(stream)
      modifies dep`sumDepWeight
      ensures Shown(g) && g == f.(sums := CutSums(f.w, f.sums, dep.id, stream.id))
    {
      dep.sumDepWeight := dep.sumDepWeight - stream.weight;
      g := f.(sums := CutSums(f.w, f.sums, dep.id, stream.id));
    }

    method ClearLinks(s: Stream, ghost l: LinkMap)
      requires Named() && LinksShown(l) && Known(s)
      modifies s`depPrev, s`sibPrev, s`sibNext
      ensures LinksShown(l[s.id := Links(NONE, l[s.id].depNext, NONE, NONE)])
    {
      s.sibPrev, s.sibNext, s.depPrev := null, null, null;
    }

    method StepClear(stream: Stream, ghost f: Forest) returns (ghost g: Forest)
      requires Shown(f) && Known(stream)
      modifies stream`depPrev, stream`sibPrev, stream`sibNext
      ensures Shown(g) && g == f.(l := f.l[stream.id := Links(NONE, f.l[stream.id].depNext, NONE, NONE)])
    {
      ClearLinks(stream, f.l);
      g := f.(l := f.l[stream.id := Links(NONE, f.l[stream.id].depNext, NONE, NONE)]);
    }

    /** `insert_link_dep`, or `link_dep` for the first child */
    method StepFirst(dep: Stream, stream: Stream, ghost f: Forest) returns (ghost g: Forest)
      requires Shown(f) && Known(dep) && Known(stream) && (dep.depNext != null ==> f.l[dep.id].depNext in f.l)
      requires f.l[dep.id].depNext == NONE || f.l[dep.id].depNext in f.l
      modifies all`depPrev, all`depNext, all`sibPrev, all`sibNext
      ensures Shown(g) && g == f.(l := AddLinks(f.l, dep.id, stream.id))
    {
      LinkFirst(dep, stream, f.l);
      g := f.(l := AddLinks(f.l, dep.id, stream.id));
    }

    method LinkFirst(dep: Stream, stream: Stream, ghost l: LinkMap)
      requires Named() && LinksShown(l) && Known(dep) && Known(stream)
      requires l[dep.id].depNext == NONE || l[dep.id].depNext in l
      modifies all`depPrev, all`depNext, all`sibPrev, all`sibNext
      ensures LinksShown(AddLinks(l, dep.id, stream.id))
    {
      if dep.depNext == null {
        LinkChild(dep, stream, l);
      } else {
        var first := dep.depNext;
        LinkSibling(stream, first, l);
        LinkChild(dep, stream, LinkSib(l, stream.id, first.id));
      }
    }

    method StepAddWeight(dep: Stream, stream: Stream, ghost f: Forest) returns (ghost g: Forest)
      requires Shown(f) && Known(dep) && Known(stream)
      modifies dep`sumDepWeight
      ensures Shown(g) && g == f.(sums := AddSums(f.w, f.sums, dep.id, stream.id))
    {
      dep.sumDepWeight := dep.sumDepWeight + stream.weight;
      g := f.(sums := AddSums(f.w, f.sums, dep.id, stream.id));
    }

    /** s becomes the first child of dep. */
    method StepBelow(dep: Stream, stream: Stream, ghost f: Forest) returns (ghost g: Forest)
      requires Shown(f) && Known(dep) && Known(stream) && AddReady(f, dep.id, stream.id)
      modifies dep`sumDepWeight, all`depPrev, all`depNext, all`sibPrev, all`sibNext
      ensures Shown(g) && g == Add(f, dep.id, stream.id)
    {
      g := StepAddWeight(dep, stream, f);
      g := StepFirst(dep, stream, g);
      g := g.(u := AddUp(f.u, dep.id, stream.id), kids := AddKids(f.kids, dep.id, stream.id));
    }

    /** stream is linked past and its weight taken off its parent's sum. */
    method StepOut(stream: Stream, ghost f: Forest, ghost p: int) returns (ghost g: Forest)
      requires Shown(f) && Known(stream) && Guarded(f.l, stream.id) && f.l[stream.id].depPrev == p
      modifies all`depPrev, all`depNext, all`sibPrev, all`sibNext,
               all`sumDepWeight
      ensures Shown(g) && g == f.(l := Bypass(f.l, stream.id), sums := CutSums(f.w, f.sums, p, stream.id))
    {
      var depPrev := stream.depPrev;
      g := StepPast(stream, f);
      g := StepSubtract(depPrev, stream, g);
    }

    // ---- the operations: each stores what DepOperations says

    /** `nghttp2_stream_dep_add` */
    method DepAdd(dep: Stream, stream: Stream, ghost f: Forest) returns (ghost g: Forest)
      requires Shown(f) && Known(dep) && Known(stream) && AddReady(f, dep.id, stream.id)
      modifies all
      ensures Shown(g) && g == Add(f, dep.id, stream.id)
    {
      g := StepBelow(dep, stream, f);
    }

    /** `nghttp2_stream_dep_add_subtree` */
    method DepAddSubtree(dep: Stream, stream: Stream, ghost f: Forest, ghost r: Ranks) returns (ghost g: Forest)
      requires Shown(f) && Known(dep) && Known(stream) && AddSubtreeReady(f, r, dep.id, stream.id)
      modifies all
      ensures Shown(g) && g == AddSubtree(f, r, dep.id, stream.id)
    {
      g := StepBelow(dep, stream, f);
      if stream.sched.Busy() {
        g := ObqPush(dep, stream, g, r);
      }
    }

    /** `nghttp2_stream_dep_remove_subtree`; j is stream's place among its siblings. */
    method DepRemoveSubtree(stream: Stream, ghost f: Forest, ghost rank: Ranks, ghost j: nat) returns (ghost g: Forest)
      requires Shown(f) && Known(stream) && CutReady(f, rank, stream.id, j)
      modifies all
      ensures Shown(g) && g == Cut(f, rank, stream.id, j)
    {
      g := StepOut(stream, f, f.u[stream.id]);
      if stream.sched.queued {
        g := ObqRemove(stream, g, rank);
      }
      g := StepClear(stream, g);
      g := g.(u := CutUp(f.u, stream.id), kids := CutKids(f.kids, f.u[stream.id], j));
    }

    // ---- taking over children

    method StepReparent(si: Stream, dest: Stream, ghost f: Forest) returns (ghost g: Forest)
      requires Shown(f) && Known(si) && Known(dest)
      modifies si`depPrev
      ensures Shown(g) && g == Reparented(f, si.id, dest.id)
    {
      SetDepPrev(si, dest, f.l);
      g := Reparented(f, si.id, dest.id);
    }

    method StepMove(si: Stream, dest: Stream, src: Stream, ghost g: Forest, ghost rank: Ranks)
      returns (next: Stream?, ghost h: Forest)
      requires Shown(g) && Known(si) && Known(dest) && Known(src) && ChildCanMove(g, rank, dest.id, src.id, si.id)
      requires g.l[si.id].sibNext == NONE || g.l[si.id].sibNext in g.l
      modifies si`depPrev, all`sched
      ensures Shown(h) && h == MovedChild(g, rank, dest.id, src.id, si.id)
      ensures Known(next) && IdOf(next) == g.l[si.id].sibNext
    {
      h := StepReparent(si, dest, g);
      h := ObqMove(dest, src, si, h, rank);
      next := si.sibNext;
    }

    /** A round of the loop over the children. */
    method MoveRound(si: Stream, dest: Stream, src: Stream, ghost f: Forest, ghost rank: Ranks, ghost ks: seq<int>,
        ghost k: nat, ghost g: Forest) returns (next: Stream?, ghost h: Forest)
      requires Shown(g) && Known(si) && Known(dest) && Known(src)
      requires MovesLeft(f, rank, ks, dest.id, src.id, k, si.id, g)
      modifies all`depPrev, all`sched
      ensures Shown(h) && Known(next) && MovesLeft(f, rank, ks, dest.id, src.id, k + 1, IdOf(next), h)
    {
      MovingStep(f, rank, ks, dest.id, src.id, k, si.id, g);
      next, h := StepMove(si, dest, src, g, rank);
    }

    /** The loop of `nghttp2_stream_dep_insert` and of `nghttp2_stream_dep_insert_subtree`. */
    method MoveChildren(dest: Stream, src: Stream, first: Stream?, ghost f: Forest, ghost rank: Ranks,
                        ghost ks: seq<int>)
      returns (ghost g: Forest)
      requires Shown(f) && Known(dest) && Known(src) && Known(first)
      requires CanMove(f, rank, ks, dest.id, src.id) && IdOf(first) == At(ks, 0)
      modifies all`depPrev, all`sched
      ensures Shown(g) && g == Moving(f, rank, ks, dest.id, src.id) && Climbable(g, rank)
    {
      g := f;
      MovesStart(f, rank, ks, dest.id, src.id);
      var si := first;
      ghost var k := 0;
      while si != null
        invariant Known(si) && Shown(g) && MovesLeft(f, rank, ks, dest.id, src.id, k, IdOf(si), g)
        decreases |ks| - k
      {
        si, g := MoveRound(si, dest, src, f, rank, ks, k, g);
        k := k + 1;
      }
      MovesDone(f, rank, ks, dest.id, src.id, k, g);
    }

    /** `stream_last_sib` */
    method LastSib(stream: Stream, ghost l: LinkMap, ghost ks: seq<int>) returns (last: Stream)
      requires Named() && LinksShown(l) && Known(stream) && ks != [] && ks[0] == stream.id && NONE !in ks
      requires forall j | 0 <= j < |ks| :: ks[j] in l && l[ks[j]].sibNext == At(ks, j + 1)
      ensures Known(last) && last.id == Last(ks)
    {
      last := stream;
      ghost var k := 0;
      while last.sibNext != null
        invariant Known(last) && 0 <= k < |ks| && last.id == ks[k]
        decreases |ks| - k
      {
        last := last.sibNext;
        k := k + 1;
      }
    }

    method SetSum(s: Stream, sum: int, ghost w: Weights, ghost sums: Sums)
      requires Named() && WeightsShown(w, sums) && Known(s)
      modifies s`sumDepWeight
      ensures WeightsShown(w, sums[s.id := sum])
    {
      s.sumDepWeight := sum;
    }

    method TakeSum(dep: Stream, stream: Stream, own: int, ghost w: Weights, ghost sums: Sums)
      requires Named() && WeightsShown(w, sums) && Known(dep) && Known(stream) && dep != stream
      requires own == sums[stream.id]
      modifies dep`sumDepWeight, stream`sumDepWeight
      ensures WeightsShown(w, InsertSums(w, sums, dep.id, stream.id))
    {
      SetSum(stream, own + dep.sumDepWeight, w, sums);
      SetSum(dep, stream.weight, w, sums[stream.id := own + sums[dep.id]]);
    }

    /** stream's sum takes up that of dep, whose only child it is going to be. */
    method StepSums(dep: Stream, stream: Stream, own: int, ghost f: Forest) returns (ghost g: Forest)
      requires Shown(f) && Known(dep) && Known(stream) && dep != stream && own == f.sums[stream.id]
      modifies dep`sumDepWeight, stream`sumDepWeight
      ensures Shown(g) && g == f.(sums := InsertSums(f.w, f.sums, dep.id, stream.id))
    {
      TakeSum(dep, stream, own, f.w, f.sums);
      g := f.(sums := InsertSums(f.w, f.sums, dep.id, stream.id));
    }

    /** `stream->dep_next = dep_stream->dep_next` */
    method StepAdopt(dep: Stream, stream: Stream, ghost f: Forest, ghost first: int) returns (ghost g: Forest)
      requires Shown(f) && Known(dep) && Known(stream)
      requires f.l[dep.id].depNext == first && first in f.l
      modifies stream`depNext
      ensures Shown(g) && g == f.(l := f.l[stream.id := f.l[stream.id].(depNext := first)])
    {
      SetDepNext(stream, dep.depNext, f.l);
      g := f.(l := f.l[stream.id := f.l[stream.id].(depNext := first)]);
    }

    method StepChild(dep: Stream, stream: Stream, ghost f: Forest) returns (ghost g: Forest)
      requires Shown(f) && Known(dep) && Known(stream)
      modifies dep`depNext, stream`depPrev
      ensures Shown(g) && g == f.(l := LinkDep(f.l, dep.id, stream.id))
    {
      LinkChild(dep, stream, f.l);
      g := f.(l := LinkDep(f.l, dep.id, stream.id));
    }

    /** `if (stream_subtree_active(stream)) stream_obq_push(dep_stream, stream)` */
    method StepPush(dep: Stream, stream: Stream, ghost f: Forest, ghost r: Ranks) returns (ghost g: Forest)
      requires Climbable(f, r) && Known(dep) && Known(stream)
      modifies all`sched
      ensures Shown(g) && g == Pushed(f, r, dep.id, stream.id)
    {
      g := f;
      if stream.sched.Busy() {
        g := ObqPush(dep, stream, g, r);
      }
    }

    /** The loop over dep's children and the push of stream that follows it. */
    method MoveAndPush(dep: Stream, stream: Stream, first: Stream?, ghost f: Forest, ghost r: Ranks, ghost ks: seq<int>)
      returns (ghost g: Forest)
      requires Shown(f) && Known(dep) && Known(stream) && Known(first)
      requires CanMove(f, r, ks, stream.id, dep.id) && IdOf(first) == At(ks, 0)
      modifies all`depPrev, all`sched
      ensures Shown(g) && g == MovedAndPushed(f, r, ks, dep.id, stream.id)
    {
      g := MoveChildren(stream, dep, first, f, r, ks);
      g := StepPush(dep, stream, g, r);
    }

    /** The part of `nghttp2_stream_dep_insert` for a parent that has children. */
    method TakeChildren(dep: Stream, stream: Stream, ghost f: Forest, ghost r: Ranks, ghost ks: seq<int>)
      returns (ghost g: Forest)
      requires Shown(f) && Known(dep) && Known(stream) && CanMove(f, r, ks, stream.id, dep.id)
      requires ks != [] && f.l[dep.id].depNext == ks[0] && dep.id !in ks
      modifies all`depPrev, all`sched, stream`depNext
      ensures Shown(g) && g == ChildrenTaken(f, r, ks, dep.id, stream.id)
    {
      assert stream in all;
      TakeAssembled(f, r, ks, dep.id, stream.id);
      g := MoveAndPush(dep, stream, dep.depNext, f, r, ks);
      g := StepAdopt(dep, stream, g, ks[0]);
    }

    method TakeAnyChildren(dep: Stream, stream: Stream, ghost f: Forest, ghost r: Ranks, ghost ks: seq<int>)
      returns (ghost g: Forest)
      requires Shown(f) && Known(dep) && Known(stream) && CanTake(f, r, ks, dep.id, stream.id)
      modifies all`depPrev, all`sched, stream`depNext
      ensures Shown(g) && g == ChildrenTaken(f, r, ks, dep.id, stream.id)
    {
      if dep.depNext != null {
        g := TakeChildren(dep, stream, f, r, ks);
      } else {
        NoneTaken(f, r, ks, dep.id, stream.id);
        g := f;
      }
    }

    method StepOnlyChild(dep: Stream, stream: Stream, ghost f: Forest, ghost h: Forest) returns (ghost g: Forest)
      requires Shown(h) && Known(dep) && Known(stream) && dep.id in f.kids && stream.id in f.kids
      modifies all`depNext, all`depPrev
      ensures dep.id in h.l && stream.id in h.l && Shown(g) && g == OnlyChild(f, h, dep.id, stream.id)
    {
      assert dep in all && stream in all;
      g := StepChild(dep, stream, h);
      g := OnlyChild(f, h, dep.id, stream.id);
    }

    /** The children of dep below stream, and stream as its only child. */
    method TakeAndLink(dep: Stream, stream: Stream, ghost f: Forest, ghost f1: Forest, ghost r: Ranks,
                       ghost ks: seq<int>, ghost h: Forest)
      returns (ghost g: Forest)
      requires Shown(f1) && Known(dep) && Known(stream) && CanTake(f1, r, ks, dep.id, stream.id)
      requires f1.q.Keys == f1.u.Keys && dep.id in f.kids && stream.id in f.kids
      requires var m := ChildrenTaken(f1, r, ks, dep.id, stream.id);
               dep.id in m.l && stream.id in m.l && h == OnlyChild(f, m, dep.id, stream.id)
      modifies all
      ensures Shown(g) && g == h
    {
      assert dep in all && stream in all;
      g := TakeAnyChildren(dep, stream, f1, r, ks);
      g := StepOnlyChild(dep, stream, f, g);
    }

    /** `nghttp2_stream_dep_insert` */
    method DepInsert(dep: Stream, stream: Stream, ghost f: Forest, ghost r: Ranks) returns (ghost g: Forest)
      requires Shown(f) && Known(dep) && Known(stream) && InsertReady(f, r, dep.id, stream.id)
      modifies all
      ensures Shown(g) && g == Insert(f, r, dep.id, stream.id)
    {
      assert dep in all && stream in all;
      ghost var p, s := dep.id, stream.id;
      g := StepSums(dep, stream, 0, f);
      InsertAssembled(f, r, p, s, g);
      g := TakeAndLink(dep, stream, f, g, r, f.kids[p], Insert(f, r, p, s));
    }

    /** The pointer writes of `nghttp2_stream_dep_insert_subtree` before its loop. */
    method JoinLists(dep: Stream, stream: Stream, ghost l: LinkMap, ghost own: seq<int>, ghost ks: seq<int>)
      requires Named() && LinksShown(l) && Known(dep) && Known(stream) && dep != stream
      requires Chained(l, own) && Chained(l, ks) && l[dep.id].depNext == At(ks, 0) && l[stream.id].depNext == At(own, 0)
      requires (forall k | k in ks :: k in l) && (own != [] ==> Last(own) in l)
      modifies all`depPrev, all`depNext, all`sibPrev, all`sibNext
      ensures LinksShown(Joined(l, dep.id, stream.id, own, ks))
    {
      var depNext := dep.depNext;
      LinkChild(dep, stream, l);
      if depNext != null {
        ghost var l1 := LinkDep(l, dep.id, stream.id);
        if stream.depNext != null {
          var lastSib := LastSib(stream.depNext, l1, own);
          LinkSibling(lastSib, depNext, l1);
        } else {
          LinkChild(stream, depNext, l1);
        }
      }
    }

    method StepJoin(dep: Stream, stream: Stream, ghost f: Forest) returns (ghost g: Forest)
      requires Shown(f) && Known(dep) && Known(stream) && TakeReady(f, dep.id, stream.id)
      requires Chained(f.l, f.kids[dep.id]) && Chained(f.l, f.kids[stream.id])
      modifies all`sumDepWeight, all`depPrev, all`depNext, all`sibPrev, all`sibNext
      ensures Shown(g) && g == SubtreeJoined(f, dep.id, stream.id)
    {
      g := StepSums(dep, stream, stream.sumDepWeight, f);
      assert f.kids[stream.id] != [] ==> Last(f.kids[stream.id]) in f.kids[stream.id];
      JoinLists(dep, stream, f.l, f.kids[stream.id], f.kids[dep.id]);
      g := SubtreeJoined(f, dep.id, stream.id);
    }

    /** `nghttp2_stream_dep_insert_subtree` */
    method DepInsertSubtree(dep: Stream, stream: Stream, ghost f: Forest, ghost r: Ranks) returns (ghost g: Forest)
      requires Shown(f) && Known(dep) && Known(stream) && InsertSubtreeReady(f, r, dep.id, stream.id)
      modifies all
      ensures Shown(g) && g == InsertSubtree(f, r, dep.id, stream.id)
    {
      var depNext := dep.depNext;
      g := StepJoin(dep, stream, f);
      JoinedCanMove(f, r, dep.id, stream.id, g);
      g := MoveAndPush(dep, stream, depNext, g, r, f.kids[dep.id]);
      SubtreeAssembled(f, r, dep.id, stream.id);
      g := g.(kids := InsertKids(f.kids, dep.id, stream.id));
    }

    // ---- taking a stream out

    method StepShare(si: Stream, own: int, sum: int, ghost f: Forest) returns (ghost g: Forest)
      requires Shown(f) && Known(si) && sum > 0
      modifies si`weight
      ensures Shown(g) && g == f.(w := f.w[si.id := Share(own, f.w[si.id], sum)])
    {
      si.weight := Share(own, si.weight, sum);
      g := f.(w := f.w[si.id := Share(own, f.w[si.id], sum)]);
    }

    method ShareChild(si: Stream, stream: Stream, p: Stream, ghost g: Forest, ghost rank: Ranks)
      returns (next: Stream?, ghost h: Forest)
      requires Shown(g) && Known(si) && Known(stream) && Known(p)
      requires ChildCanShare(g, rank, p.id, stream.id, si.id, stream.weight, stream.sumDepWeight)
      requires g.l[si.id].sibNext == NONE || g.l[si.id].sibNext in g.l
      modifies si`weight, all`sched
      ensures Shown(h) && h == SharedChild(g, rank, p.id, stream.id, si.id, old(stream.weight), stream.sumDepWeight)
      ensures Known(next) && IdOf(next) == g.l[si.id].sibNext
    {
      h := StepShare(si, stream.weight, stream.sumDepWeight, g);
      h := ObqMove(p, stream, si, h, rank);
      next := si.sibNext;
    }

    /** A round of the loop of `nghttp2_stream_dep_remove`. */
    method ShareRound(si: Stream, stream: Stream, p: Stream, delta: int, ghost f: Forest, ghost rank: Ranks,
        ghost w': Weights, ghost ks: seq<int>, ghost k: nat, ghost g: Forest)
      returns (next: Stream?, sum: int, ghost h: Forest)
      requires Shown(g) && Known(si) && Known(stream) && Known(p) && stream.id !in ks
      requires SharesLeft(f, rank, w', ks, p.id, stream.id, k, si.id, g, delta) && g.sums == f.sums
      modifies all`weight, all`sched
      ensures Shown(h) && Known(next) && h.sums == f.sums
      ensures SharesLeft(f, rank, w', ks, p.id, stream.id, k + 1, IdOf(next), h, sum)
    {
      SharingStep(f, rank, w', ks, p.id, stream.id, k, si.id, g, delta);
      SharedAt(f.w, ks[..k], f.w[stream.id], f.sums[stream.id], stream.id);
      next, h := ShareChild(si, stream, p, g, rank);
      sum := delta + si.weight;
    }

    /** The loop of `nghttp2_stream_dep_remove`; delta is `sum_dep_weight_delta`. */
    method ShareChildren(stream: Stream, p: Stream, ghost f: Forest, ghost rank: Ranks, ghost w': Weights,
                         ghost ks: seq<int>)
      returns (delta: int, ghost g: Forest)
      requires Shown(f) && Known(stream) && Known(p) && CanShare(f, rank, w', ks, p.id, stream.id)
      requires f.l[stream.id].depNext == At(ks, 0) && stream.id !in ks
      modifies all`weight, all`sched
      ensures Shown(g) && g == Sharing(f, rank, w', ks, p.id, stream.id)
      ensures g.w == w' && delta == Total(w', ks) - f.w[stream.id]
    {
      delta, g := -stream.weight, f;
      SharesStart(f, rank, w', ks, p.id, stream.id);
      var si := stream.depNext;
      ghost var k := 0;
      while si != null
        invariant Known(si) && Shown(g) && g.sums == f.sums
        invariant SharesLeft(f, rank, w', ks, p.id, stream.id, k, IdOf(si), g, delta)
        decreases |ks| - k
      {
        si, delta, g := ShareRound(si, stream, p, delta, f, rank, w', ks, k, g);
        k := k + 1;
      }
      SharesDone(f, rank, w', ks, p.id, stream.id, k, g, delta);
    }

    /** `set_dep_prev` */
    method SetDepPrevs(first: Stream, dep: Stream, ghost l: LinkMap, ghost ks: seq<int>)
      requires Named() && LinksShown(l) && Known(first) && Known(dep) && ks != [] && ks[0] == first.id && Chained(l, ks)
      modifies all`depPrev
      ensures (forall k | k in ks :: k in l) && LinksShown(Reparent(l, ks, dep.id))
    {
      var s: Stream? := first;
      ghost var k, now := 0, l;
      assert ks[..0] == [];
      while s != null
        invariant Known(s) && 0 <= k <= |ks| && IdOf(s) == At(ks, k) && LinksShown(now)
        invariant now == Reparent(l, ks[..k], dep.id)
        decreases |ks| - k
      {
        ReparentOneMore(l, ks, k, dep.id);
        SetDepPrev(s, dep, now);
        now := now[s.id := now[s.id].(depPrev := dep.id)];
        s := s.sibNext;
        k := k + 1;
      }
      assert ks[..k] == ks;
    }

    /** first follows what came before stream. */
    method LinkHead(stream: Stream, first: Stream, ghost l: LinkMap)
      requires Named() && LinksShown(l) && Known(stream) && Known(first) && Guarded(l, stream.id)
      modifies all`depPrev, all`depNext, all`sibPrev, all`sibNext
      ensures LinksShown(Headed(l, stream.id, first.id))
    {
      if stream.sibPrev != null {
        LinkSibling(stream.sibPrev, first, l);
      } else {
        LinkChild(stream.depPrev, first, l);
      }
    }

    /** `unlink_sib` or `unlink_dep`, for a stream with the children cs */
    method LinkChildrenUp(stream: Stream, ghost l: LinkMap, ghost cs: seq<int>)
      requires Named() && LinksShown(l) && Known(stream) && Guarded(l, stream.id) && Chained(l, cs)
      requires cs != [] && l[stream.id].depNext == cs[0] && l[stream.id].sibPrev !in cs
      modifies all`depPrev, all`depNext, all`sibPrev, all`sibNext
      ensures (forall k | k in cs :: k in l) && LinksShown(Promote(l, stream.id, cs))
    {
      var first, next, dep := stream.depNext, stream.sibNext, stream.depPrev;
      ghost var l1 := Headed(l, stream.id, cs[0]);
      LinkHead(stream, first, l);
      SetDepPrevs(first, dep, l1, cs);
      ReparentedChain(l1, cs, dep.id);
      LinkBehind(first, next, Reparent(l1, cs, dep.id), cs);
    }

    /** A sibling behind the last of these. */
    method LinkBehind(first: Stream, next: Stream?, ghost l: LinkMap, ghost cs: seq<int>)
      requires Named() && LinksShown(l) && Known(first) && Known(next) && cs != [] && cs[0] == first.id && NONE !in cs
      requires forall j | 0 <= j < |cs| :: cs[j] in l && l[cs[j]].sibNext == At(cs, j + 1)
      modifies all`sibPrev, all`sibNext
      ensures Last(cs) in l && LinksShown(if next == null then l else LinkSib(l, Last(cs), next.id))
    {
      if next != null {
        var last := LastSib(first, l, cs);
        LinkSibling(last, next, l);
      }
    }

    method StepSumUp(dep: Stream, delta: int, ghost f: Forest) returns (ghost g: Forest)
      requires Shown(f) && Known(dep)
      modifies dep`sumDepWeight
      ensures Shown(g) && g == SummedUp(f, dep.id, delta)
    {
      SetSum(dep, dep.sumDepWeight + delta, f.w, f.sums);
      g := SummedUp(f, dep.id, delta);
    }

    method UnlinkStream(stream: Stream, ghost l: LinkMap, ghost cs: seq<int>)
      requires Named() && LinksShown(l) && Known(stream) && Guarded(l, stream.id) && Chained(l, cs)
      requires l[stream.id].depNext == At(cs, 0) && l[stream.id].sibPrev !in cs
      modifies all`depPrev, all`depNext, all`sibPrev, all`sibNext
      ensures (forall k | k in cs :: k in l) && LinksShown(Unlink(l, stream.id, cs))
    {
      if stream.depNext != null {
        LinkChildrenUp(stream, l, cs);
      } else {
        LinkPast(stream, l);
      }
    }

    method StepUnlink(stream: Stream, ghost f: Forest, ghost cs: seq<int>) returns (ghost g: Forest)
      requires Shown(f) && Known(stream) && Guarded(f.l, stream.id) && Chained(f.l, cs)
      requires f.l[stream.id].depNext == At(cs, 0) && f.l[stream.id].sibPrev !in cs
      modifies all`depPrev, all`depNext, all`sibPrev, all`sibNext
      ensures (forall k | k in cs :: k in f.l) && Shown(g) && g == Unlinked(f, stream.id, cs)
    {
      UnlinkStream(stream, f.l, cs);
      g := Unlinked(f, stream.id, cs);
    }

    method ClearAll(s: Stream, ghost l: LinkMap)
      requires Named() && LinksShown(l) && Known(s)
      modifies s`depPrev, s`depNext, s`sibPrev, s`sibNext
      ensures LinksShown(l[s.id := UNLINKED])
    {
      s.depPrev, s.depNext, s.sibPrev, s.sibNext := null, null, null, null;
    }

    method StepBare(stream: Stream, ghost f: Forest) returns (ghost g: Forest)
      requires Shown(f) && Known(stream)
      modifies stream`sumDepWeight, stream`depPrev, stream`depNext, stream`sibPrev, stream`sibNext
      ensures Shown(g) && g == Bare(f, stream.id)
    {
      SetSum(stream, 0, f.w, f.sums);
      ClearAll(stream, f.l);
      g := Bare(f, stream.id);
    }

    /** The loop, and the change of the parent's sum it adds up to. */
    method ShareUp(stream: Stream, p: Stream, ghost f: Forest, ghost rank: Ranks, ghost w': Weights, ghost ks: seq<int>)
      returns (delta: int, ghost g: Forest)
      requires Shown(f) && Known(stream) && Known(p) && CanShare(f, rank, w', ks, p.id, stream.id)
      requires f.l[stream.id].depNext == At(ks, 0) && stream.id !in ks
      modifies all`weight, all`sumDepWeight, all`sched
      ensures delta == Total(w', ks) - f.w[stream.id]
      ensures Shown(g) && g == SummedUp(Sharing(f, rank, w', ks, p.id, stream.id), p.id, delta)
    {
      delta, g := ShareChildren(stream, p, f, rank, w', ks);
      g := StepSumUp(p, delta, g);
    }

    /** `if (stream->queued) stream_obq_remove(stream)` */
    method StepOutOfQueues(stream: Stream, ghost f: Forest, ghost rank: Ranks) returns (ghost g: Forest)
      requires Shown(f) && Known(stream) && MayLeave(f, rank, stream.id) && f.u == Up(f.l)
      modifies all`sched
      ensures Shown(g) && g == Left(f, rank, stream.id)
    {
      g := f;
      if stream.sched.queued {
        g := ObqRemove(stream, g, rank);
      }
    }

    /** The weights, sums and queues of `nghttp2_stream_dep_remove`. */
    method ShareOut(stream: Stream, p: Stream, ghost f: Forest, ghost rank: Ranks, ghost w': Weights,
                    ghost ks: seq<int>)
      returns (ghost g: Forest)
      requires Shown(f) && Known(stream) && Known(p) && CanShareOut(f, rank, w', ks, p.id, stream.id)
      requires f.l[stream.id].depNext == At(ks, 0) && stream.id !in ks
      modifies all`weight, all`sumDepWeight, all`sched
      ensures Shown(g) && g == SharedOut(f, rank, w', ks, p.id, stream.id)
    {
      var delta;
      delta, g := ShareUp(stream, p, f, rank, w', ks);
      SharedOutLeaves(f, rank, w', ks, p.id, stream.id, g, delta);
      g := StepOutOfQueues(stream, g, rank);
    }

    /** `nghttp2_stream_dep_remove`; j is stream's place among its siblings. */
    method DepRemove(stream: Stream, ghost f: Forest, ghost rank: Ranks, ghost j: nat) returns (ghost g: Forest)
      requires Shown(f) && Known(stream) && RemoveReady(f, rank, stream.id, j)
      modifies all
      ensures Shown(g) && g == Remove(f, rank, stream.id, j)
    {
      assert stream in all;
      ghost var s, p := stream.id, f.u[stream.id];
      g := ShareOut(stream, stream.depPrev, f, rank, RemoveWeights(f.w, f.sums, f.kids[s], s), f.kids[s]);
      g := StepUnlink(stream, g, f.kids[s]);
      g := StepBare(stream, g);
      g := g.(u := RemoveUp(f.u, s), kids := RemoveKids(f.kids, p, s, j));
    }
  }
}
