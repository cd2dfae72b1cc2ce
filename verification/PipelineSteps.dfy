/** Each step of a worker, a verifier or the network keeps the pipeline's invariant. */
module PipelineSteps {
  import opened Counting
  import opened Assembly
  import opened SchedulerModel
  import opened SchedulerInvariant
  import opened SchedulerRuns
  import opened Pipeline
  import opened PipelineInvariant

  // ---------------------------------------------------------------- workers

  /** Only worker w and the masks changed, and masks only grew. */
  ghost predicate OnlyWorker(s: Sys, r: Sys, w: nat) {
    && |r.asm| == |s.asm| && |r.pcs| == |s.pcs| && |r.queues| == |s.queues|
    && r.sched == s.sched && r.delivered == s.delivered && r.passes == s.passes && r.fails == s.fails
    && r.verifiers == s.verifiers && r.results == s.results && r.bytesDone == s.bytesDone && r.task == s.task
    && (forall x :: 0 <= x < |s.pcs| && x != w ==> r.pcs[x] == s.pcs[x])
    && (forall x :: 0 <= x < |s.queues| && x != w ==> r.queues[x] == s.queues[x])
    && (forall c :: 0 <= c < |s.asm| ==> s.asm[c].marked <= r.asm[c].marked && |r.asm[c].mem| == |s.asm[c].mem|)
  }

  lemma OtherWorkersOk(cfg: Config, s: Sys, r: Sys, w: nat)
    requires PipeInv(cfg, s) && w < cfg.workers && OnlyWorker(s, r, w) && WorkerOk(cfg, r, w)
    ensures forall x :: 0 <= x < cfg.workers ==> WorkerOk(cfg, r, x)
  {
    forall x | 0 <= x < cfg.workers ensures WorkerOk(cfg, r, x) {
      assert WorkerOk(cfg, s, x);
      if x != w {
        forall i | 0 <= i < |r.queues[x]| ensures PieceKnown(cfg, r, x, r.queues[x][i]) {
          assert PieceKnown(cfg, s, x, s.queues[x][i]);
        }
      }
    }
  }

  lemma TakeKeeps(cfg: Config, s: Sys, w: nat)
    requires PipeInv(cfg, s) && CanTake(cfg, s, w)
    ensures PipeInv(cfg, DoTake(cfg, s, w))
  {
    var r := DoTake(cfg, s, w);
    assert WorkerOk(cfg, s, w);
    assert PieceKnown(cfg, s, w, s.queues[w][0]);
    forall i | 0 <= i < |r.queues[w]| ensures PieceKnown(cfg, r, w, r.queues[w][i]) {
      assert PieceKnown(cfg, s, w, s.queues[w][i + 1]);
    }
    OtherWorkersOk(cfg, s, r, w);
    forall c | 0 <= c < |cfg.lens| ensures ChunkOk(cfg, r, c) {
      assert ChunkOk(cfg, s, c);
      CountIfUpdate(s.pcs, w, r.pcs[w], IsFirst(c));
      CountIfUpdate(s.pcs, w, r.pcs[w], IsLast(c));
    }
  }

  lemma CopyKeeps(cfg: Config, s: Sys, w: nat)
    requires PipeInv(cfg, s) && CanCopy(s, w)
    ensures PipeInv(cfg, DoCopy(s, w))
  {
    var r := DoCopy(s, w);
    assert WorkerOk(cfg, s, w);
    OtherWorkersOk(cfg, s, r, w);
    forall c | 0 <= c < |cfg.lens| ensures ChunkOk(cfg, r, c) {
      assert ChunkOk(cfg, s, c);
      CountIfUpdate(s.pcs, w, r.pcs[w], IsFirst(c));
      CountIfUpdate(s.pcs, w, r.pcs[w], IsLast(c));
    }
  }

  lemma MarkChunkOk(cfg: Config, s: Sys, w: nat, c: nat)
    requires PipeInv(cfg, s) && CanMark(s, w) && c < |cfg.lens|
    ensures ChunkOk(cfg, DoMark(s, w), c)
  {
    var p, r := s.pcs[w].piece, DoMark(s, w);
    assert ChunkOk(cfg, s, c) && WorkerOk(cfg, s, w);
    SlotOfPiece(cfg, p);
    CountIfUpdate(s.pcs, w, r.pcs[w], IsFirst(c));
    CountIfUpdate(s.pcs, w, r.pcs[w], IsLast(c));
    if p.chunk == c {
      if SlotOf(p) in s.asm[c].marked {
        assert r.asm[c].marked == s.asm[c].marked;
      } else {
        assert |r.asm[c].marked| == |s.asm[c].marked| + 1;
      }
    }
  }

  lemma MarkKeeps(cfg: Config, s: Sys, w: nat)
    requires PipeInv(cfg, s) && CanMark(s, w)
    ensures PipeInv(cfg, DoMark(s, w))
  {
    var r := DoMark(s, w);
    assert WorkerOk(cfg, s, w);
    OtherWorkersOk(cfg, s, r, w);
    forall c | 0 <= c < |cfg.lens| ensures ChunkOk(cfg, r, c) { MarkChunkOk(cfg, s, w, c); }
  }

  lemma CountDownChunkOk(cfg: Config, s: Sys, w: nat, c: nat)
    requires PipeInv(cfg, s) && CanCountDown(s, w) && c < |cfg.lens|
    ensures ChunkOk(cfg, DoCountDown(s, w), c)
  {
    var p, r := s.pcs[w].piece, DoCountDown(s, w);
    assert ChunkOk(cfg, s, c) && WorkerOk(cfg, s, w);
    CountIfUpdate(s.pcs, w, r.pcs[w], IsFirst(c));
    CountIfUpdate(s.pcs, w, r.pcs[w], IsLast(c));
    if p.chunk == c {
      CountIfSome(s.pcs, w, IsFirst(c));
      FullWhenCounted(s.asm[c].marked, SlotCount(cfg, c));
    }
  }

  lemma CountDownKeeps(cfg: Config, s: Sys, w: nat)
    requires PipeInv(cfg, s) && CanCountDown(s, w)
    ensures PipeInv(cfg, DoCountDown(s, w))
  {
    var r := DoCountDown(s, w);
    assert WorkerOk(cfg, s, w);
    OtherWorkersOk(cfg, s, r, w);
    forall c | 0 <= c < |cfg.lens| ensures ChunkOk(cfg, r, c) { CountDownChunkOk(cfg, s, w, c); }
  }

  lemma ReportKeeps(cfg: Config, s: Sys, w: nat)
    requires PipeInv(cfg, s) && CanReport(s, w)
    ensures PipeInv(cfg, DoReport(s, w))
  {
    var p, r := s.pcs[w].piece, DoReport(s, w);
    assert WorkerOk(cfg, s, w);
    OtherWorkersOk(cfg, s, r, w);
    forall c | 0 <= c < |cfg.lens| ensures ChunkOk(cfg, r, c) {
      assert ChunkOk(cfg, s, c);
      CountIfUpdate(s.pcs, w, r.pcs[w], IsFirst(c));
      CountIfUpdate(s.pcs, w, r.pcs[w], IsLast(c));
      CountIfPush(s.verifyQ, Completion(p.chunk, p.peer), IsQueued(c));
    }
  }

  // ---------------------------------------------------------------- verifiers

  lemma SameWorkersOk(cfg: Config, s: Sys, r: Sys)
    requires PipeInv(cfg, s)
    requires r.pcs == s.pcs && r.queues == s.queues && r.asm == s.asm && r.delivered == s.delivered
    ensures forall x :: 0 <= x < cfg.workers ==> WorkerOk(cfg, r, x)
  {
    forall x | 0 <= x < cfg.workers ensures WorkerOk(cfg, r, x) {
      assert WorkerOk(cfg, s, x);
      forall i | 0 <= i < |r.queues[x]| ensures PieceKnown(cfg, r, x, r.queues[x][i]) {
        assert PieceKnown(cfg, s, x, s.queues[x][i]);
      }
    }
  }

  lemma FetchKeeps(cfg: Config, s: Sys, v: nat)
    requires PipeInv(cfg, s) && CanFetch(s, v)
    ensures PipeInv(cfg, DoFetch(s, v))
  {
    var r := DoFetch(s, v);
    SameWorkersOk(cfg, s, r);
    forall c | 0 <= c < |cfg.lens| ensures ChunkOk(cfg, r, c) {
      assert ChunkOk(cfg, s, c);
      assert CountIf(s.verifyQ, IsQueued(c)) ==
             (if IsQueued(c)(s.verifyQ[0]) then 1 else 0) + CountIf(r.verifyQ, IsQueued(c));
      CountIfUpdate(s.verifiers, v, r.verifiers[v], IsReading(c));
    }
  }

  lemma ReadKeeps(cfg: Config, s: Sys, v: nat)
    requires PipeInv(cfg, s) && CanRead(s, v)
    ensures PipeInv(cfg, DoRead(s, v))
  {
    var r := DoRead(s, v);
    SameWorkersOk(cfg, s, r);
    forall c | 0 <= c < |cfg.lens| ensures ChunkOk(cfg, r, c) {
      assert ChunkOk(cfg, s, c);
      CountIfUpdate(s.verifiers, v, r.verifiers[v], IsReading(c));
    }
  }

  lemma PostKeeps(cfg: Config, s: Sys, v: nat)
    requires PipeInv(cfg, s) && CanPost(cfg, s, v)
    ensures PipeInv(cfg, DoPost(cfg, s, v))
  {
    var r := DoPost(cfg, s, v);
    SameWorkersOk(cfg, s, r);
    forall c | 0 <= c < |cfg.lens| ensures ChunkOk(cfg, r, c) {
      assert ChunkOk(cfg, s, c);
      CountIfUpdate(s.verifiers, v, r.verifiers[v], IsReading(c));
      CountIfPush(s.results, r.results[|s.results|], IsResult(c));
    }
  }

  // ---------------------------------------------------------------- the network

  lemma AskedForStays(a: seq<Effect>, b: seq<Effect>, c: nat)
    requires a <= b && AskedFor(a, c)
    ensures AskedFor(b, c)
  {
    var i :| 0 <= i < |a| && a[i].Request? && a[i].chunk == c;
    assert b[i] == a[i];
  }

  /** Nobody asks for a COMPLETE chunk. */
  lemma NotNewlyAskedFor(s: State, r: State, c: nat)
    requires CallsJustified(s, r) && c < |s.chunks| && s.chunks[c] == Complete && !AskedFor(s.effects, c)
    ensures !AskedFor(r.effects, c)
  {
    forall i | 0 <= i < |r.effects| ensures !(r.effects[i].Request? && r.effects[i].chunk == c) {
      if i < |s.effects| { assert s.effects[i] == r.effects[i]; } else { assert Justified(s, r.effects[i]); }
    }
  }

  lemma SchedulerMoves(cfg: Config, s: Sys, sched: State)
    requires Shape(cfg, s) && SchedOk(cfg, s)
    requires Inv(sched) && NetFrame(s.sched, sched)
    ensures SchedOk(cfg, s.(sched := sched))
  {
    UnfinishedSame(s.sched.chunks, sched.chunks);
    forall i | 0 <= i < |sched.effects| ensures EffectOk(cfg, sched.effects[i]) {
      if i < |s.sched.effects| {
        assert sched.effects[i] == s.sched.effects[i];
      } else {
        assert Justified(s.sched, sched.effects[i]);
        if sched.effects[i].Request? {
          SlotStartsInside(cfg.lens[sched.effects[i].chunk], SUB_BLOCK_SIZE, SubOf(sched.effects[i].begin));
        }
      }
    }
  }

  lemma DoneBytesSame(a: seq<ChunkState>, b: seq<ChunkState>, lens: seq<nat>)
    requires |a| == |b| == |lens|
    requires forall c :: 0 <= c < |a| ==> (a[c] == Complete <==> b[c] == Complete)
    ensures DoneBytes(a, lens) == DoneBytes(b, lens)
  {
    if a != [] { DoneBytesSame(a[1..], b[1..], lens[1..]); }
  }

  lemma ChunkLawMoves(cfg: Config, s: Sys, sched: State, c: nat)
    requires c < |s.sched.chunks| && c < |s.asm| && c < |s.passes| && c < |s.fails| && ChunkLaw(cfg, s, c)
    requires NetFrame(s.sched, sched)
    ensures ChunkLaw(cfg, s.(sched := sched), c)
  {
    if sched.chunks[c] == Complete && !AskedFor(s.sched.effects, c) { NotNewlyAskedFor(s.sched, sched, c); }
    if AskedFor(s.sched.effects, c) { AskedForStays(s.sched.effects, sched.effects, c); }
  }

  /** Whatever the scheduler does on a network event keeps the invariant. */
  lemma NetKeeps(cfg: Config, s: Sys, sched: State)
    requires PipeInv(cfg, s) && Inv(sched) && NetFrame(s.sched, sched)
    ensures PipeInv(cfg, s.(sched := sched))
  {
    var r := s.(sched := sched);
    SchedulerMoves(cfg, s, sched);
    SameWorkersOk(cfg, s, r);
    DoneBytesSame(s.sched.chunks, sched.chunks, cfg.lens);
    forall p | p in r.delivered ensures PieceOk(cfg, p) && AskedFor(sched.effects, p.chunk) {
      AskedForStays(s.sched.effects, sched.effects, p.chunk);
    }
    forall c | 0 <= c < |cfg.lens| ensures ChunkOk(cfg, r, c) {
      assert ChunkOk(cfg, s, c);
      ChunkLawMoves(cfg, s, sched, c);
    }
  }

  /** Handing a piece to its worker. */
  lemma EnqueueKeeps(cfg: Config, s: Sys, p: Piece)
    requires PipeInv(cfg, s) && CanDeliver(cfg, s, p)
    ensures var w := Route(cfg, p.chunk, SlotOf(p));
            PipeInv(cfg, s.(queues := s.queues[w := s.queues[w] + [p]], delivered := s.delivered + [p]))
  {
    var w := Route(cfg, p.chunk, SlotOf(p));
    var r := s.(queues := s.queues[w := s.queues[w] + [p]], delivered := s.delivered + [p]);
    var e := Request(p.peer, p.chunk, p.begin);
    var i :| 0 <= i < |s.sched.effects| && s.sched.effects[i] == e;
    assert EffectOk(cfg, s.sched.effects[i]);
    assert AskedFor(s.sched.effects, p.chunk) && PieceOk(cfg, p);
    forall q | q in r.delivered ensures PieceOk(cfg, q) && AskedFor(s.sched.effects, q.chunk) {
      assert q in s.delivered || q == p;
    }
    forall x | 0 <= x < cfg.workers ensures WorkerOk(cfg, r, x) {
      assert WorkerOk(cfg, s, x);
      forall j | 0 <= j < |r.queues[x]| ensures PieceKnown(cfg, r, x, r.queues[x][j]) {
        if j < |s.queues[x]| { assert PieceKnown(cfg, s, x, s.queues[x][j]); }
      }
    }
    forall c | 0 <= c < |cfg.lens| ensures ChunkOk(cfg, r, c) { assert ChunkOk(cfg, s, c); }
  }

  lemma DeliverKeeps(cfg: Config, s: Sys, p: Piece, now: nat)
    requires PipeInv(cfg, s) && CanDeliver(cfg, s, p)
    ensures PipeInv(cfg, DoDeliver(cfg, s, p, now))
  {
    EnqueueKeeps(cfg, s, p);
    var w := Route(cfg, p.chunk, SlotOf(p));
    var s1 := s.(queues := s.queues[w := s.queues[w] + [p]], delivered := s.delivered + [p]);
    OnPieceKeeps(s.sched, p.peer, p.chunk, p.begin, now);
    NetKeeps(cfg, s1, OnPiece(s.sched, p.peer, p.chunk, p.begin, now));
  }
}
