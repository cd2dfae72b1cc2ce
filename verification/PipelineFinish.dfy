/** A download whose peers serve the published file can always still be finished, unless some chunk can
    never be put together. */
module PipelineFinish {
  import opened Counting
  import opened Assembly
  import opened SchedulerModel
  import opened SchedulerInvariant
  import opened SchedulerRuns
  import opened SchedulerEvents
  import SchedulerFlags
  import opened SchedulerProgress
  import opened Pipeline
  import opened PipelineInvariant
  import opened PipelineRuns
  import opened ServedPieces
  import opened PipelineArrival
  import opened PipelineDrain

  // ---------------------------------------------------------------- everybody leaves

  lemma {:induction false} Disconnect(w: World, s: Sys) returns (r: Sys)
    requires Fine(w, s)
    ensures PipelineDrain.Leads(w, s, r) && Fine(w, r) && r == s.(sched := r.sched) && r.sched.peers == []
    decreases |s.sched.peers|
  {
    r := s;
    Stay(w, s);
    if s.sched.peers != [] {
      var slot := s.sched.peers[0].slotId;
      assert FindSlot(s.sched.peers, slot) == Some(0);
      var m := Onward(w, s, Net(PeerRemoved(slot)));
      LeadsFine(w, s, m);
      r := Disconnect(w, m);
      Then(w, s, m, r);
    }
  }

  // ---------------------------------------------------------------- a tick with nothing to settle

  lemma IdleSettle(w: World, s: Sys, now: nat) returns (r: Sys)
    requires Fine(w, s) && s.results == []
    ensures PipelineDrain.Leads(w, s, r) && Fine(w, r)
    ensures r == s.(sched := Tick(s.sched, now), task := r.task)
    ensures s.task == TaskDownloading ==> r.task == TaskDownloading || r.task == TaskComplete
  {
    TickNeverBlocked(w.cfg, s, now, false);
    r := Onward(w, s, Settle(now, false));
    LeadsFine(w, s, r);
  }

  /** A tick that settles whatever verdicts are waiting. */
  lemma Cleared(w: World, s: Sys) returns (r: Sys)
    requires Fine(w, s) && s.sched.peers == [] && s.task == TaskDownloading
    ensures PipelineDrain.Leads(w, s, r) && Fine(w, r) && (r.task == TaskComplete || Alone(r))
  {
    TickNeverBlocked(w.cfg, s, 0, false);
    r := Onward(w, s, Settle(0, false));
    LeadsFine(w, s, r);
    SettleBringsNobody(w.cfg, s, 0, false);
  }

  lemma SettleBringsNobody(cfg: Config, s: Sys, now: nat, trackerDead: bool)
    requires PipeInv(cfg, s) && CanSettle(cfg, s) && forall i :: 0 <= i < |s.results| ==> s.results[i].passed
    ensures |DoSettle(cfg, s, now, trackerDead).sched.peers| == |s.sched.peers|
  {
    TickKeeps(s.sched, now);
    var start := Settlement(Tick(s.sched, now), [], s.bytesDone, s.passes, s.fails);
    PassesStay(cfg, start, s.results, 0, 0);
    var d := SettleFrom(cfg, start, s.results, 0);
    if d.passed != [] { SchedulerFlags.CompletionFlights(d.sched, d.passed, 0, 0); }
  }

  lemma NetLeads(w: World, s: Sys, e: Event, after: State) returns (r: Sys)
    requires Fine(w, s) && NetEvent(e) && !e.PieceArrived? && !e.Ticked? && Enabled(s.sched, e)
    requires after == Apply(s.sched, e)
    ensures PipelineDrain.Leads(w, s, r) && Fine(w, r) && r == s.(sched := after)
  {
    r := Onward(w, s, Net(e));
    LeadsFine(w, s, r);
  }

  // ---------------------------------------------------------------- one visit after another

  /** Nobody is connected, and no verdict waits for the tick. */
  ghost predicate Alone(s: Sys) { s.sched.peers == [] && s.results == [] && s.task == TaskDownloading }

  /** Sub-blocks of an unfinished chunk that are marked, and nobody there to carry them, are done. */
  lemma MarkedIsDone(s: State, now: nat)
    requires Inv(s) && s.peers == []
    ensures forall c, sub :: 0 <= c < |s.chunks| && s.chunks[c] != Complete && 0 <= sub < |s.req[c]| ==>
              s.req[c][sub] ==> s.done[c][sub]
    ensures RequestedAt(s, now)
  {
    assert forall c, sub :: !Carried(s.peers, c, sub);
  }

  lemma NotDoneYet(s: State, c: nat)
    requires Accounted(s) && c < |s.chunks| && s.chunks[c] != Complete
    ensures s.phase != Done
  {
    UnfinishedZero(s.chunks);
  }

  lemma SourceConnects(w: World, s: Sys) returns (r: Sys)
    requires Fine(w, s) && Alone(s)
    ensures PipelineDrain.Leads(w, s, r) && Fine(w, r) && r == s.(sched := r.sched)
    ensures SameBoard(s.sched, r.sched) && LoneSource(r.sched) && r.sched.peers[0].slotId == 0
  {
    var s1, s2, s3 := SourceJoins(s.sched, 0);
    var m := NetLeads(w, s, PeerAdded(0, 0), s1);
    var n := NetLeads(w, m, ChokeChange(0, false), s2);
    r := NetLeads(w, n, Bitfield(0, seq(|s.sched.chunks|, _ => true), 0), s3);
    Then(w, s, m, n);
    Then(w, s, n, r);
  }

  /** The answer to a request that was sent. */
  lemma Answered(w: World, s: Sys, c: nat, begin: nat, after: State) returns (r: Sys)
    requires Fine(w, s) && Request(0, c, begin) in s.sched.effects && after == OnPiece(s.sched, 0, c, begin, 0)
    ensures PipelineDrain.Leads(w, s, r) && Fine(w, r)
    ensures r == s.(sched := after, queues := r.queues, delivered := r.delivered)
  {
    assert EffectOk(w.cfg, Request(0, c, begin));
    assert Placed(w, c);
    var data := Serve(w.file, w.offsets[c], begin);
    ServedPieceIsHonest(w.cfg, w.content, w.file, w.offsets[c], c, begin, 0);
    r := Onward(w, s, Deliver(0, c, begin, data, 0));
    LeadsFine(w, s, r);
  }

  /** The tick asks, the peer answers and leaves; unless the tick found the download complete. */
  lemma VisitRuns(w: World, s: Sys, c: nat, begin: nat, s1: State, s2: State, s3: State) returns (r: Sys)
    requires Fine(w, s) && s.results == [] && s.task == TaskDownloading
    requires s1 == Tick(s.sched, 0) && Request(0, c, begin) in s1.effects && Wf(s1)
    requires s2 == OnPiece(s1, 0, c, begin, 0) && |s2.peers| == 1 && s2.peers[0].slotId == 0 && s3 == WithoutPeer(s2, 0)
    ensures PipelineDrain.Leads(w, s, r) && Fine(w, r)
    ensures r.task == TaskComplete || (r.task == TaskDownloading && r.results == [] && r.sched == s3)
  {
    r := IdleSettle(w, s, 0);
    if r.task == TaskDownloading {
      var n := r;
      r := AnsweredAndGone(w, n, c, begin, s2, s3);
      Then(w, s, n, r);
    }
  }

  lemma AnsweredAndGone(w: World, s: Sys, c: nat, begin: nat, s2: State, s3: State) returns (r: Sys)
    requires Fine(w, s) && Request(0, c, begin) in s.sched.effects && s2 == OnPiece(s.sched, 0, c, begin, 0)
    requires |s2.peers| == 1 && s2.peers[0].slotId == 0 && s3 == WithoutPeer(s2, 0)
    ensures PipelineDrain.Leads(w, s, r) && Fine(w, r)
    ensures r.task == s.task && r.results == s.results && r.sched == s3
  {
    var m := Answered(w, s, c, begin, s2);
    assert Apply(s2, PeerRemoved(0)) == s3;
    r := NetLeads(w, m, PeerRemoved(0), s3);
    Then(w, s, m, r);
  }

  lemma OneVisit(w: World, s: Sys, c: nat, sub: nat) returns (r: Sys)
    requires Fine(w, s) && Alone(s) && c < |s.sched.chunks| && s.sched.chunks[c] != Complete
    requires sub < Total(s.sched, c) && !s.sched.req[c][sub]
    ensures PipelineDrain.Leads(w, s, r) && Fine(w, r)
    ensures r.task == TaskComplete || (Alone(r) && Clear(r.sched) < Clear(s.sched))
  {
    var m := SourceConnects(w, s);
    var c', begin, s1, s2, s3 := PlanVisit(s.sched, m.sched, c, sub);
    r := VisitRuns(w, m, c', begin, s1, s2, s3);
    Then(w, s, m, r);
  }

  lemma PlanVisit(s: State, m: State, c: nat, sub: nat) returns (c': nat, begin: nat, s1: State, s2: State, s3: State)
    requires Inv(s) && Accounted(s) && s.peers == [] && Inv(m) && SameBoard(s, m) && LoneSource(m)
    requires m.peers[0].slotId == 0
    requires c < |s.chunks| && s.chunks[c] != Complete && sub < Total(s, c) && !s.req[c][sub]
    ensures Wf(s1) && s1 == Tick(m, 0) && Request(0, c', begin) in s1.effects && s2 == OnPiece(s1, 0, c', begin, 0)
    ensures |s2.peers| == 1 && s2.peers[0].slotId == 0 && s3 == WithoutPeer(s2, 0) && s3.peers == []
    ensures Clear(s3) < Clear(s)
  {
    MarkedIsDone(s, 0);
    NotDoneYet(s, c);
    var sub';
    c', sub', s1, s2, s3 := Visit(m, 0, c, sub);
    begin := BeginOf(sub');
    assert Clear(m) == Clear(s);
  }

  /** Every sub-block of every unfinished chunk is marked as requested. */
  ghost predicate AllAsked(s: State)
    requires Wf(s)
  {
    forall c, sub :: 0 <= c < |s.chunks| && s.chunks[c] != Complete && 0 <= sub < Total(s, c) ==> s.req[c][sub]
  }

  lemma {:induction false} Visits(w: World, s: Sys) returns (r: Sys)
    requires Fine(w, s) && Alone(s)
    ensures PipelineDrain.Leads(w, s, r) && Fine(w, r)
    ensures r.task == TaskComplete || (Alone(r) && AllAsked(r.sched))
    decreases Clear(s.sched)
  {
    r := s;
    Stay(w, s);
    if !AllAsked(s.sched) {
      var c, sub :| 0 <= c < |s.sched.chunks| && s.sched.chunks[c] != Complete
        && 0 <= sub < Total(s.sched, c) && !s.sched.req[c][sub];
      var m := OneVisit(w, s, c, sub);
      r := m;
      if m.task != TaskComplete {
        r := Visits(w, m);
        Then(w, s, m, r);
      }
    }
  }

  // ---------------------------------------------------------------- everything arrived

  lemma ArrivedIsMarked(w: World, s: Sys, c: nat, slot: nat)
    requires Fine(w, s) && Quiet(s) && c < |w.cfg.lens| && slot < SlotCount(w.cfg, c)
    requires Arrived(s.delivered, c, slot) && !Ragged(w.cfg, w.file, w.offsets, c)
    ensures slot in s.asm[c].marked
  {
    var i :| 0 <= i < |s.delivered| && s.delivered[i].chunk == c && SlotOf(s.delivered[i]) == slot;
    var p := s.delivered[i];
    assert p in s.delivered && PieceOk(w.cfg, p) && Placed(w, c);
    SlotOfPiece(w.cfg, p);
    ServedFits(w.file, w.offsets[c], w.cfg.lens[c], slot);
    assert InHand(w.cfg, s, p);
  }

  lemma AllMarked(w: World, s: Sys, c: nat)
    requires Fine(w, s) && Quiet(s) && s.sched.peers == [] && AllAsked(s.sched)
    requires c < |w.cfg.lens| && s.sched.chunks[c] != Complete && !Ragged(w.cfg, w.file, w.offsets, c)
    ensures s.asm[c].marked == AllSlots(SlotCount(w.cfg, c))
  {
    MarkedIsDone(s.sched, 0);
    forall slot | 0 <= slot < SlotCount(w.cfg, c) ensures slot in s.asm[c].marked {
      ArrivedIsMarked(w, s, c, slot);
    }
    assert ChunkOk(w.cfg, s, c);
  }

  /** A fully marked chunk at rest has its verdict waiting. */
  lemma VerdictWaits(cfg: Config, s: Sys, c: nat)
    requires PipeInv(cfg, s) && Quiet(s) && c < |cfg.lens| && s.sched.chunks[c] != Complete && s.fails[c] == 0
    requires s.asm[c].marked == AllSlots(SlotCount(cfg, c))
    ensures exists i :: 0 <= i < |s.results| && s.results[i].chunk == c
  {
    assert ChunkOk(cfg, s, c);
    CountIfNone(s.pcs, IsFirst(c));
    CountIfNone(s.pcs, IsLast(c));
    CountIfNone(s.verifiers, IsReading(c));
    FullWhenCounted(s.asm[c].marked, SlotCount(cfg, c));
    if forall i :: 0 <= i < |s.results| ==> s.results[i].chunk != c { CountIfNone(s.results, IsResult(c)); }
  }

  // ---------------------------------------------------------------- the last tick

  lemma {:induction false} AllMeansAllBytes(chunks: seq<ChunkState>, lens: seq<nat>)
    requires |chunks| == |lens| && forall c :: 0 <= c < |chunks| ==> chunks[c] == Complete
    ensures DoneBytes(chunks, lens) == Sum(lens)
  {
    if chunks != [] { AllMeansAllBytes(chunks[1..], lens[1..]); }
  }

  /** With everything marked the next tick completes the download. */
  lemma LastTick(w: World, s: Sys) returns (r: Sys)
    requires Fine(w, s) && Quiet(s) && s.sched.peers == [] && AllAsked(s.sched) && s.task == TaskDownloading
    requires forall c :: 0 <= c < |w.cfg.lens| && s.sched.chunks[c] != Complete ==> !Ragged(w.cfg, w.file, w.offsets, c)
    ensures PipelineDrain.Leads(w, s, r) && r.task == TaskComplete
  {
    TickNeverBlocked(w.cfg, s, 0, false);
    r := Onward(w, s, Settle(0, false));
    LeadsFine(w, s, r);
    forall c | 0 <= c < |w.cfg.lens| ensures r.sched.chunks[c] == Complete { LastTickOf(w, s, c); }
    AllMeansAllBytes(r.sched.chunks, w.cfg.lens);
  }

  lemma LastTickOf(w: World, s: Sys, c: nat)
    requires Fine(w, s) && Quiet(s) && s.sched.peers == [] && AllAsked(s.sched) && c < |w.cfg.lens|
    requires s.sched.chunks[c] != Complete ==> !Ragged(w.cfg, w.file, w.offsets, c)
    requires CanSettle(w.cfg, s) && PipeInv(w.cfg, DoSettle(w.cfg, s, 0, false))
    ensures DoSettle(w.cfg, s, 0, false).sched.chunks[c] == Complete
  {
    if s.sched.chunks[c] != Complete {
      AllMarked(w, s, c);
      VerdictWaits(w.cfg, s, c);
    }
    SettlesGood(w.cfg, s, 0, false, c);
  }

  ghost predicate CanFinish(w: World, s: Sys) {
    exists r :: PipelineDrain.Leads(w, s, r) && r.task == TaskComplete
  }

  lemma FinishedLater(w: World, s: Sys, m: Sys)
    requires PipelineDrain.Leads(w, s, m) && CanFinish(w, m)
    ensures CanFinish(w, s)
  {
    var r :| PipelineDrain.Leads(w, m, r) && r.task == TaskComplete;
    Then(w, s, m, r);
  }

  /** Ragged chunks, if there are any, were on disk. */
  ghost predicate Assemblable(w: World) {
    forall c :: 0 <= c < |w.cfg.lens| && Ragged(w.cfg, w.file, w.offsets, c) ==> c in w.cfg.restored
  }

  lemma AloneCanFinish(w: World, s: Sys)
    requires Fine(w, s) && Alone(s) && Assemblable(w)
    ensures CanFinish(w, s)
  {
    var m := Visits(w, s);
    if m.task == TaskComplete {
      Stay(w, m);
    } else {
      var n := Drain(w, m);
      var r := LastTick(w, n);
      Then(w, m, n, r);
    }
    FinishedLater(w, s, m);
  }

  /** From every state of a served run in which the download has not been given up. */
  lemma AnywhereCanFinish(w: World, s: Sys)
    requires Fine(w, s) && s.task != TaskWaiting && Assemblable(w)
    ensures CanFinish(w, s)
  {
    if s.task == TaskComplete {
      Stay(w, s);
    } else {
      var a := Disconnect(w, s);
      var b := Drain(w, a);
      var c := Cleared(w, b);
      Then(w, s, a, b);
      Then(w, s, b, c);
      if c.task == TaskComplete { Stay(w, c); } else { AloneCanFinish(w, c); }
      FinishedLater(w, s, c);
    }
  }

  lemma RaggedCannotFinish(w: World, s: Sys, localSpeed: nat, order: seq<nat>, bits: seq<bool>, steps: seq<Step>,
                           r: Sys, c: nat)
    requires Started(w.cfg, s, localSpeed, order, bits) && Runs(w, s, steps, r)
    requires Ragged(w.cfg, w.file, w.offsets, c) && !bits[c]
    ensures !CanFinish(w, r)
  {
    forall t | PipelineDrain.Leads(w, r, t) ensures t.task != TaskComplete {
      var more :| Runs(w, r, more, t);
      RunsOn(w, s, steps, r, more, t);
      RaggedChunkNeverCompletes(w.cfg, w.file, w.offsets, s, localSpeed, order, bits, steps + more, t, c);
    }
  }

  /** In every state that a download reaches from its start with peers that serve the published file,
      and that has not been given up: some further run of such peers completes it, if and only if every
      chunk that was not on disk is a whole number of sub-blocks or ends where the file ends. */
  lemma DownloadCanFinishIff(w: World, s: Sys, localSpeed: nat, order: seq<nat>, bits: seq<bool>, steps: seq<Step>,
                             r: Sys)
    requires WorldOk(w) && Started(w.cfg, s, localSpeed, order, bits) && |s.verifiers| > 0
    requires forall c :: 0 <= c < |w.cfg.lens| && bits[c] ==> s.asm[c].mem == w.content[c]
    requires Runs(w, s, steps, r) && r.task != TaskWaiting
    ensures CanFinish(w, r) <==> Assemblable(w)
  {
    if Assemblable(w) {
      StartFine(w, s, localSpeed, order, bits);
      RunFine(w, s, steps, r);
      AnywhereCanFinish(w, r);
    } else {
      var c :| 0 <= c < |w.cfg.lens| && Ragged(w.cfg, w.file, w.offsets, c) && c !in w.cfg.restored;
      RaggedCannotFinish(w, s, localSpeed, order, bits, steps, r, c);
    }
  }
}
