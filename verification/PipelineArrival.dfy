/** Nothing that arrived gets lost: a sub-block the scheduler takes for done was delivered, and a
    delivered piece that fits is waiting for its worker, being copied, or marked. */
module PipelineArrival {
  import opened SchedulerModel
  import opened SchedulerInvariant
  import opened SchedulerRuns
  import opened SchedulerEvents
  import opened Pipeline
  import opened PipelineInvariant

  ghost predicate Arrived(log: seq<Piece>, c: nat, sub: nat) {
    exists i :: 0 <= i < |log| && log[i].chunk == c && SlotOf(log[i]) == sub
  }

  ghost predicate DoneArrived(done: seq<seq<bool>>, log: seq<Piece>) {
    forall c, sub :: 0 <= c < |done| && 0 <= sub < |done[c]| && done[c][sub] ==> Arrived(log, c, sub)
  }

  /** Whatever is done now was done before. */
  ghost predicate NoNewlyDone(before: seq<seq<bool>>, after: seq<seq<bool>>) {
    && |after| == |before|
    && (forall c :: 0 <= c < |before| ==> |after[c]| == |before[c]|)
    && (forall c, sub :: 0 <= c < |before| && 0 <= sub < |before[c]| && after[c][sub] ==> before[c][sub])
  }

  lemma ArrivedStays(done: seq<seq<bool>>, after: seq<seq<bool>>, log: seq<Piece>)
    requires DoneArrived(done, log) && NoNewlyDone(done, after)
    ensures DoneArrived(after, log)
  {
  }

  // ---------------------------------------------------------------- what events do to the done bits

  lemma NetDone(s: State, e: Event)
    requires Inv(s) && Enabled(s, e) && NetEvent(e) && !e.PieceArrived? && !e.Ticked?
    ensures Apply(s, e).done == s.done
  {
    if e.Bitfield? {
      BitfieldDone(s, e.slot, e.bits, e.now);
    } else if e.Have? {
      HaveDone(s, e.slot, e.chunk, e.now);
    }
  }

  lemma BitfieldDone(s: State, slot: nat, bits: seq<bool>, now: nat)
    requires Inv(s)
    ensures OnBitfield(s, slot, bits, now).done == s.done
  {
    var found := FindSlot(s.peers, slot);
    if found.Some? {
      BitfieldUpdateKeeps(s, found.value, bits, AddBits(s.availability, bits));
      RebalancedDone(NoteBitfield(s, found.value, bits), slot, found.value, now, 16);
    }
  }

  lemma HaveDone(s: State, slot: nat, c: nat, now: nat)
    requires Inv(s)
    ensures OnHave(s, slot, c, now).done == s.done
  {
    var found := FindSlot(s.peers, slot);
    if found.Some? && c < |s.peers[found.value].bitfield| {
      NoteHaveKeeps(s, found.value, c);
      RebalancedDone(NoteHave(s, found.value, c), slot, found.value, now, 8);
    }
  }

  lemma RebalancedDone(s: State, slot: nat, p: nat, now: nat, moves: nat)
    requires Inv(s) && p < |s.peers|
    ensures |CheckInterest(s, slot).peers| == |s.peers| && Wf(CheckInterest(s, slot))
    ensures Rebalance(CheckInterest(s, slot), p, now, moves).done == s.done
  {
    CheckInterestKeeps(s, slot);
    RebalanceKeeps(CheckInterest(s, slot), p, now, moves);
  }

  /** A piece from a peer makes its own sub-block done and no other. */
  lemma PieceDone(s: State, slot: nat, c: nat, begin: nat, now: nat, log: seq<Piece>, p: Piece)
    requires Inv(s) && DoneArrived(s.done, log) && p.chunk == c && p.begin == begin
    ensures DoneArrived(OnPiece(s, slot, c, begin, now).done, log + [p])
  {
    var found := FindSlot(s.peers, slot);
    LogGrows(s.done, log, p);
    if found.Some? && s.peers[found.value].pending != 0 {
      var l := Landed(s, found.value, c, begin);
      LandedKeeps(s, found.value, c, begin);
      LandedDone(s, found.value, c, begin, log, p);
      ScheduleForPeerKeeps(l, found.value, now);
    }
  }

  lemma LogGrows(done: seq<seq<bool>>, log: seq<Piece>, p: Piece)
    requires DoneArrived(done, log)
    ensures DoneArrived(done, log + [p])
  {
    forall c, sub | 0 <= c < |done| && 0 <= sub < |done[c]| && done[c][sub] ensures Arrived(log + [p], c, sub) {
      var i :| 0 <= i < |log| && log[i].chunk == c && SlotOf(log[i]) == sub;
      assert (log + [p])[i] == log[i];
    }
  }

  lemma LandedDone(s: State, q: nat, c: nat, begin: nat, log: seq<Piece>, p: Piece)
    requires Wf(s) && q < |s.peers| && DoneArrived(s.done, log + [p]) && p.chunk == c && p.begin == begin
    ensures DoneArrived(Landed(s, q, c, begin).done, log + [p])
  {
    assert (log + [p])[|log|] == p;
    assert Arrived(log + [p], c, SubOf(begin));
  }

  lemma {:induction false} CancelDone(s: State, c: nat, winner: nat, p: nat)
    requires Wf(s) && p <= |s.peers|
    ensures CancelFrom(s, c, winner, p).done == s.done
    decreases |s.peers| - p
  {
    if p < |s.peers| { CancelDone(CancelAt(s, c, winner, p), c, winner, p + 1); }
  }

  lemma {:induction false} CompletionsDone(s: State, msgs: seq<Completion>, k: nat)
    requires Wf(s) && k <= |msgs| && forall i :: 0 <= i < |msgs| ==> msgs[i].chunk < |s.chunks|
    ensures CompleteFrom(s, msgs, k).done == s.done
    decreases |msgs| - k
  {
    if k < |msgs| {
      CancelDone(Finished(s, msgs[k].chunk), msgs[k].chunk, msgs[k].winner, 0);
      CompletionsDone(CompleteOne(s, msgs[k]), msgs, k + 1);
    }
  }

  lemma {:induction false} ResultsDone(cfg: Config, d: Settlement, results: seq<VerifyResult>, k: nat)
    requires SettlementOk(cfg, d) && ResultsInRange(cfg, results) && k <= |results|
    ensures NoNewlyDone(d.sched.done, SettleFrom(cfg, d, results, k).sched.done)
    decreases |results| - k
  {
    if k < |results| { ResultsDone(cfg, SettleOne(cfg, d, results[k]), results, k + 1); }
  }

  lemma SettleDone(cfg: Config, s: Sys, now: nat, trackerDead: bool)
    requires CanSettle(cfg, s)
    ensures NoNewlyDone(s.sched.done, DoSettle(cfg, s, now, trackerDead).sched.done)
  {
    TickKeeps(s.sched, now);
    var start := Settlement(Tick(s.sched, now), [], s.bytesDone, s.passes, s.fails);
    ResultsDone(cfg, start, s.results, 0);
    var d := SettleFrom(cfg, start, s.results, 0);
    if d.passed != [] { CompletionsDone(d.sched, d.passed, 0); }
  }

  lemma StepDone(cfg: Config, s: Sys, step: Step)
    requires PipeInv(cfg, s) && CanDo(cfg, s, step) && DoneArrived(s.sched.done, s.delivered)
    ensures DoneArrived(Do(cfg, s, step).sched.done, Do(cfg, s, step).delivered)
  {
    if step.Net? {
      NetDone(s.sched, step.event);
    } else if step.Deliver? {
      var p := Piece(step.chunk, step.begin, step.data, step.peer);
      PieceDone(s.sched, step.peer, step.chunk, step.begin, step.now, s.delivered, p);
    } else if step.Settle? {
      SettleDone(cfg, s, step.now, step.trackerDead);
      ArrivedStays(s.sched.done, Do(cfg, s, step).sched.done, s.delivered);
    }
  }

  // ---------------------------------------------------------------- what becomes of a piece

  /** A piece that fits is queued or being copied at its worker, or its slot is marked. */
  ghost predicate InHand(cfg: Config, s: Sys, p: Piece)
    requires Shape(cfg, s) && p.chunk < |cfg.lens|
  {
    var w := Route(cfg, p.chunk, SlotOf(p));
    Fits(cfg, p) ==>
      p in s.queues[w] || (s.pcs[w].Copying? && s.pcs[w].piece == p) || SlotOf(p) in s.asm[p.chunk].marked
  }

  ghost predicate NothingDropped(cfg: Config, s: Sys)
    requires Shape(cfg, s)
  {
    forall p | p in s.delivered :: p.chunk < |cfg.lens| ==> InHand(cfg, s, p)
  }

  lemma TakeInHand(cfg: Config, s: Sys, w: nat, p: Piece)
    requires Shape(cfg, s) && CanTake(cfg, s, w) && p.chunk < |cfg.lens| && InHand(cfg, s, p)
    ensures InHand(cfg, DoTake(cfg, s, w), p)
  {
    var q := s.queues[w];
    assert q == [q[0]] + q[1..];
  }

  lemma StepInHand(cfg: Config, s: Sys, step: Step, p: Piece)
    requires Shape(cfg, s) && CanDo(cfg, s, step) && Shape(cfg, Do(cfg, s, step))
    requires p.chunk < |cfg.lens| && InHand(cfg, s, p)
    ensures InHand(cfg, Do(cfg, s, step), p)
  {
    if step.Take? { TakeInHand(cfg, s, step.w, p); }
  }

  lemma StepDropsNothing(cfg: Config, s: Sys, step: Step)
    requires Shape(cfg, s) && CanDo(cfg, s, step) && Shape(cfg, Do(cfg, s, step)) && NothingDropped(cfg, s)
    ensures NothingDropped(cfg, Do(cfg, s, step))
  {
    var r := Do(cfg, s, step);
    forall p | p in r.delivered && p.chunk < |cfg.lens| ensures InHand(cfg, r, p) {
      if p in s.delivered { StepInHand(cfg, s, step, p); }
    }
  }
}
