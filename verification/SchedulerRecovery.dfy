/** What is given up is asked for again, and what is no longer needed is called off: scheduling sends
    exactly the sub-blocks it marks, and a timeout, a disconnect or a failed hash makes the sub-blocks
    it concerns schedulable. */
module SchedulerRecovery {
  import opened Counting
  import opened SchedulerModel
  import opened SchedulerInvariant
  import opened SchedulerRuns
  import opened SchedulerPolicy

  // ---------------------------------------------------------------- marks and calls

  /** Between s and r, sub-block (c, sub) was newly marked exactly if p was asked for it, and p carries
      what it carried before and what it was asked for. */
  ghost predicate MarkedAsSent(s: State, r: State, p: nat, sent: seq<Effect>, c: nat, sub: nat) {
    && p < |s.peers| == |r.peers| && r.peers[p].slotId == s.peers[p].slotId
    && r.effects == s.effects + sent
    && c < |s.req| == |r.req| && sub < |s.req[c]| == |r.req[c]|
    && var asked := Request(s.peers[p].slotId, c, BeginOf(sub)) in sent;
       && (r.req[c][sub] <==> s.req[c][sub] || asked)
       && (asked ==> !s.req[c][sub])
       && (Carries(r.peers[p], c, sub) <==> Carries(s.peers[p], c, sub) || asked)
  }

  lemma MarksCompose(s: State, m: State, r: State, p: nat, sent1: seq<Effect>, sent2: seq<Effect>, c: nat, sub: nat)
    requires MarkedAsSent(s, m, p, sent1, c, sub) && MarkedAsSent(m, r, p, sent2, c, sub)
    ensures MarkedAsSent(s, r, p, sent1 + sent2, c, sub)
  {
  }

  lemma IssueOneMarks(s: State, p: nat, c: nat, sub: nat, now: nat, c': nat, sub': nat) returns (sent: seq<Effect>)
    requires Wf(s) && p < |s.peers| && c < |s.chunks| && sub < Total(s, c) && !s.req[c][sub]
    requires c' < |s.chunks| && sub' < Total(s, c')
    ensures MarkedAsSent(s, IssueOne(s, p, c, sub, now), p, sent, c', sub')
  {
    sent := [Request(s.peers[p].slotId, c, BeginOf(sub))];
  }

  lemma {:induction false} IssueMarks(s: State, p: nat, c: nat, sub: nat, now: nat, cap: nat, c': nat, sub': nat)
    returns (sent: seq<Effect>)
    requires Wf(s) && p < |s.peers| && c < |s.chunks| && c' < |s.chunks| && sub' < Total(s, c')
    ensures MarkedAsSent(s, IssueFrom(s, p, c, sub, now, cap), p, sent, c', sub')
    decreases Total(s, c) - sub
  {
    if sub >= Total(s, c) || s.peers[p].pending >= cap {
      sent := [];
    } else if s.req[c][sub] {
      sent := IssueMarks(s, p, c, sub + 1, now, cap, c', sub');
    } else {
      var s1 := IssueOne(s, p, c, sub, now);
      var head := IssueOneMarks(s, p, c, sub, now, c', sub');
      var tail := IssueMarks(s1, p, c, sub + 1, now, cap, c', sub');
      MarksCompose(s, s1, IssueFrom(s1, p, c, sub + 1, now, cap), p, head, tail, c', sub');
      sent := head + tail;
    }
  }

  lemma TryChunkMarks(s: State, p: nat, c: nat, now: nat, cap: nat, c': nat, sub': nat) returns (sent: seq<Effect>)
    requires Wf(s) && p < |s.peers| && c' < |s.chunks| && sub' < Total(s, c')
    ensures MarkedAsSent(s, TryChunk(s, p, c, now, cap), p, sent, c', sub')
  {
    sent := [];
    if CanIssue(s, p, c) {
      sent := IssueMarks(s.(chunks := s.chunks[c := Downloading]), p, c, 0, now, cap, c', sub');
    }
  }

  lemma {:induction false} ListMarks(s: State, p: nat, list: seq<(nat, nat)>, k: nat, now: nat, cap: nat, c': nat,
                                     sub': nat)
    returns (sent: seq<Effect>)
    requires Inv(s) && p < |s.peers| && k <= |list| && cap <= 128 && c' < |s.chunks| && sub' < Total(s, c')
    ensures MarkedAsSent(s, ScheduleList(s, p, list, k, now, cap), p, sent, c', sub')
    decreases |list| - k
  {
    sent := [];
    if k < |list| && s.peers[p].pending < cap {
      var s1 := TryChunk(s, p, list[k].1, now, cap);
      TryChunkKeeps(s, p, list[k].1, now, cap);
      var head := TryChunkMarks(s, p, list[k].1, now, cap, c', sub');
      var tail := ListMarks(s1, p, list, k + 1, now, cap, c', sub');
      MarksCompose(s, s1, ScheduleList(s1, p, list, k + 1, now, cap), p, head, tail, c', sub');
      sent := head + tail;
    }
  }

  /** One scheduling call asks for exactly the sub-blocks it marks as requested. */
  lemma SchedulingMarksWhatItSends(s: State, p: nat, now: nat, c: nat, sub: nat)
    requires Inv(s) && p < |s.peers| && c < |s.chunks| && sub < Total(s, c)
    ensures var r := ScheduleForPeer(s, p, now);
            s.effects <= r.effects && MarkedAsSent(s, r, p, Sent(s, r), c, sub)
  {
    var cap, r := EffectiveCap(s, p), ScheduleForPeer(s, p, now);
    assert s.peers[p].cap <= 128;
    if s.peers[p].pending < cap {
      var sent := ListMarks(s, p, RarestFirst(s, p), 0, now, cap, c, sub);
      assert Sent(s, r) == sent;
    }
  }

  // ---------------------------------------------------------------- asking again

  /** p has no room left, or it was asked for (c, sub). */
  ghost predicate AskedAgain(s: State, p: nat, now: nat, c: nat, sub: nat)
    requires Wf(s) && p < |s.peers|
  {
    var r := ScheduleForPeer(s, p, now);
    || r.peers[p].pending >= EffectiveCap(s, p)
    || (&& s.effects <= r.effects && Request(s.peers[p].slotId, c, BeginOf(sub)) in Sent(s, r)
        && Carries(r.peers[p], c, sub))
  }

  lemma UnmarkedIsAskedFor(s: State, p: nat, now: nat, c: nat, sub: nat)
    requires Inv(s) && p < |s.peers| && SoleSource(s, p) && Serves(s, p, c)
    requires sub < Total(s, c) && !s.req[c][sub]
    ensures AskedAgain(s, p, now, c, sub)
  {
    SoleSourceSaturates(s, p, now);
    SchedulingMarksWhatItSends(s, p, now, c, sub);
  }

  /** A sub-block that timed out goes out again with the next scheduling of its sole source. */
  lemma TimedOutIsAskedAgain(s: State, p: nat, now: nat, c: nat, sub: nat)
    requires Inv(s) && p < |s.peers| && SoleSource(s, p) && Serves(s, p, c) && sub < Total(s, c)
    ensures AskedAgain(OnTimeout(s, c, BeginOf(sub)), p, now, c, sub)
  {
    var s1 := OnTimeout(s, c, BeginOf(sub));
    OnTimeoutKeeps(s, c, BeginOf(sub));
    assert SubOf(BeginOf(sub)) == sub;
    forall c', q | 0 <= c' < |s1.chunks| && Serves(s1, p, c') && 0 <= q < |s1.peers| && q != p
      ensures !Serviceable(s1.peers[q], c')
    {
      assert Serves(s, p, c');
    }
    UnmarkedIsAskedFor(s1, p, now, c, sub);
  }

  /** What a lost peer carried goes out again with the next scheduling of the sole source left. */
  lemma LostIsAskedAgain(s: State, q: nat, p: nat, now: nat, c: nat, sub: nat)
    requires Inv(s) && q < |s.peers| && Carries(s.peers[q], c, sub) && c < |s.chunks| && sub < Total(s, c)
    requires p < |WithoutPeer(s, q).peers| && SoleSource(WithoutPeer(s, q), p) && Serves(WithoutPeer(s, q), p, c)
    ensures AskedAgain(WithoutPeer(s, q), p, now, c, sub)
  {
    WithoutPeerKeeps(s, q);
    assert !WithoutPeer(s, q).req[c][sub];
    UnmarkedIsAskedFor(WithoutPeer(s, q), p, now, c, sub);
  }

  /** Every sub-block of a chunk that failed its hash goes out again. */
  lemma FailedIsAskedAgain(s: State, p: nat, now: nat, c: nat, sub: nat)
    requires Inv(s) && p < |s.peers| && c < |s.chunks| && sub < Total(s, c)
    requires SoleSource(VerifyFailed(s, c), p) && Advertises(s.peers[p], c)
    ensures AskedAgain(VerifyFailed(s, c), p, now, c, sub)
  {
    VerifyFailedKeeps(s, c);
    UnmarkedIsAskedFor(VerifyFailed(s, c), p, now, c, sub);
  }

  // ---------------------------------------------------------------- calling off

  /** e cancels a sub-block of c that this losing peer was downloading. */
  predicate CalledOff(peer: PeerSlot, c: nat, winner: nat, e: Effect) {
    Loses(peer, c, winner) && e.Cancel? && e.chunk == c && e.slot == peer.slotId && e.begin in Flying(peer, c)
  }

  ghost predicate Superfluous(peers: seq<PeerSlot>, c: nat, winner: nat, k: nat, e: Effect) {
    exists q :: k <= q < |peers| && CalledOff(peers[q], c, winner, e)
  }

  /** The peers from k on, except the winner, have dropped c and nothing else. */
  ghost predicate OnlyLosersDrop(a: seq<PeerSlot>, b: seq<PeerSlot>, c: nat, winner: nat, k: nat) {
    && |a| == |b|
    && (forall q :: 0 <= q < |a| ==> if q >= k && Loses(a[q], c, winner) then Dropped(a[q], b[q], c) else a[q] == b[q])
  }

  ghost predicate Dropped(a: PeerSlot, b: PeerSlot, c: nat) {
    && b == a.(pending := MinusFloor(a.pending, |Flying(a, c)|), inFlight := b.inFlight)
    && Flying(b, c) == {} && forall x :: x != c ==> Flying(b, x) == Flying(a, x)
  }

  /** The cancels owed to the losing peers from k on. */
  function CancelsFrom(peers: seq<PeerSlot>, c: nat, winner: nat, k: nat): seq<Effect>
    requires k <= |peers|
    decreases |peers| - k
  {
    if k == |peers| then []
    else (if Loses(peers[k], c, winner) then CancelEffects(peers[k].slotId, c, Ascending(Flying(peers[k], c))) else [])
         + CancelsFrom(peers, c, winner, k + 1)
  }

  lemma CancelsNamed(slot: nat, c: nat, begins: set<nat>, e: Effect)
    ensures e in CancelEffects(slot, c, Ascending(begins)) <==>
            e.Cancel? && e.slot == slot && e.chunk == c && e.begin in begins
  {
    AscendingHas(begins);
    if e.Cancel? && e.slot == slot && e.chunk == c && e.begin in begins {
      var i :| 0 <= i < |Ascending(begins)| && Ascending(begins)[i] == e.begin;
      assert CancelEffects(slot, c, Ascending(begins))[i] == e;
    }
  }

  lemma {:induction false} CancelsAreSuperfluous(peers: seq<PeerSlot>, c: nat, winner: nat, k: nat, e: Effect)
    requires k <= |peers|
    ensures e in CancelsFrom(peers, c, winner, k) <==> Superfluous(peers, c, winner, k, e)
    decreases |peers| - k
  {
    if k < |peers| {
      CancelsNamed(peers[k].slotId, c, Flying(peers[k], c), e);
      CancelsAreSuperfluous(peers, c, winner, k + 1, e);
    }
  }

  lemma {:induction false} CancelsSame(a: seq<PeerSlot>, b: seq<PeerSlot>, c: nat, winner: nat, k: nat)
    requires k <= |a| == |b| && a[k..] == b[k..]
    ensures CancelsFrom(a, c, winner, k) == CancelsFrom(b, c, winner, k)
    decreases |a| - k
  {
    if k < |a| {
      assert a[k] == a[k..][0] == b[k];
      assert a[k + 1..] == a[k..][1..] == b[k + 1..];
      CancelsSame(a, b, c, winner, k + 1);
    }
  }

  lemma DropStep(peers: seq<PeerSlot>, k: nat, after: PeerSlot, r: seq<PeerSlot>, c: nat, winner: nat)
    requires k < |peers| && OnlyLosersDrop(peers[k := after], r, c, winner, k + 1)
    requires if Loses(peers[k], c, winner) then Dropped(peers[k], after, c) else after == peers[k]
    ensures OnlyLosersDrop(peers, r, c, winner, k)
  {
  }

  lemma CancelStep(s: State, c: nat, winner: nat, k: nat) returns (s1: State, head: seq<Effect>)
    requires Wf(s) && k < |s.peers|
    ensures Wf(s1) && |s1.peers| == |s.peers| && s1.effects == s.effects + head
    ensures CancelFrom(s, c, winner, k) == CancelFrom(s1, c, winner, k + 1)
    ensures CancelsFrom(s.peers, c, winner, k) == head + CancelsFrom(s1.peers, c, winner, k + 1)
  {
    s1 := CancelAt(s, c, winner, k);
    head := if Loses(s.peers[k], c, winner)
      then CancelEffects(s.peers[k].slotId, c, Ascending(Flying(s.peers[k], c))) else [];
    CancelsSame(s.peers, s1.peers, c, winner, k + 1);
  }

  lemma InTwoParts(a: seq<Effect>, b: seq<Effect>, c: seq<Effect>)
    ensures (a + b) + c == a + (b + c)
  {
  }

  lemma {:induction false} CancelSends(s: State, c: nat, winner: nat, k: nat) returns (r: State)
    requires Wf(s) && k <= |s.peers|
    ensures r == CancelFrom(s, c, winner, k) && r.effects == s.effects + CancelsFrom(s.peers, c, winner, k)
    decreases |s.peers| - k
  {
    r := s;
    if k < |s.peers| {
      var s1, head := CancelStep(s, c, winner, k);
      r := CancelSends(s1, c, winner, k + 1);
      InTwoParts(s.effects, head, CancelsFrom(s1.peers, c, winner, k + 1));
    }
  }

  lemma {:induction false} CancelDrops(s: State, c: nat, winner: nat, k: nat) returns (r: State)
    requires Wf(s) && k <= |s.peers|
    ensures r == CancelFrom(s, c, winner, k) && OnlyLosersDrop(s.peers, r.peers, c, winner, k)
    decreases |s.peers| - k
  {
    r := s;
    if k < |s.peers| {
      var s1 := CancelAt(s, c, winner, k);
      r := CancelDrops(s1, c, winner, k + 1);
      DropStep(s.peers, k, s1.peers[k], r.peers, c, winner);
    }
  }

  /** A completed chunk is announced once, after calling off exactly what losing peers still had of
      it; without a cancel issuer nothing is called off. */
  lemma CompletionCallsOffLosers(s: State, msg: Completion) returns (cancels: seq<Effect>)
    requires Wf(s) && msg.chunk < |s.chunks|
    ensures var r := CompleteOne(s, msg);
            && r.effects == s.effects + cancels + [BroadcastHave(msg.chunk)]
            && (forall e :: e in cancels <==> s.canCancel && Superfluous(s.peers, msg.chunk, msg.winner, 0, e))
            && if s.canCancel then OnlyLosersDrop(s.peers, r.peers, msg.chunk, msg.winner, 0) else r.peers == s.peers
  {
    cancels := [];
    if s.canCancel {
      cancels := CancelsFrom(s.peers, msg.chunk, msg.winner, 0);
      forall e ensures e in cancels <==> Superfluous(s.peers, msg.chunk, msg.winner, 0, e) {
        CancelsAreSuperfluous(s.peers, msg.chunk, msg.winner, 0, e);
      }
      var _ := CancelSends(Finished(s, msg.chunk), msg.chunk, msg.winner, 0);
      var _ := CancelDrops(Finished(s, msg.chunk), msg.chunk, msg.winner, 0);
    }
  }
}
