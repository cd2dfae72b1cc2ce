/** However the scheduler got where it is, a peer that has everything is asked for something that is
    still missing, and its answer brings the download forward. */
module SchedulerProgress {
  import opened Counting
  import opened SchedulerModel
  import opened SchedulerInvariant
  import opened SchedulerRuns
  import opened SchedulerEvents
  import opened SchedulerPolicy
  import opened SchedulerRecovery
  import SchedulerFlags

  /** The sub-blocks that are not marked as requested. */
  ghost function Clear(s: State): set<(nat, nat)> {
    set c, sub | 0 <= c < |s.req| && 0 <= sub < |s.req[c]| && !s.req[c][sub] :: (c as nat, sub as nat)
  }

  /** What is requested and not done was requested at this time, for every unfinished chunk. */
  ghost predicate RequestedAt(s: State, now: nat)
    requires Wf(s)
  {
    forall c, sub :: 0 <= c < |s.chunks| && s.chunks[c] != Complete && 0 <= sub < |s.req[c]| ==>
      s.req[c][sub] && !s.done[c][sub] ==> s.reqTime[c][sub] == now
  }

  // ---------------------------------------------------------------- every request marks something

  /** The peer's load rises exactly when something is newly marked, and nothing is unmarked. */
  ghost predicate Rises(s: State, r: State, p: nat, now: nat) {
    && p < |s.peers| == |r.peers| && s.peers[p].pending <= r.peers[p].pending
    && Clear(r) <= Clear(s) && (r.peers[p].pending == s.peers[p].pending <==> Clear(r) == Clear(s))
    && Wf(s) && Wf(r) && (RequestedAt(s, now) ==> RequestedAt(r, now))
  }

  lemma RisesOn(s: State, m: State, r: State, p: nat, now: nat)
    requires Rises(s, m, p, now) && Rises(m, r, p, now)
    ensures Rises(s, r, p, now)
  {
  }

  lemma IssueOneRises(s: State, p: nat, c: nat, sub: nat, now: nat)
    requires Wf(s) && p < |s.peers| && c < |s.chunks| && sub < Total(s, c) && !s.req[c][sub]
    ensures Rises(s, IssueOne(s, p, c, sub, now), p, now)
  {
    var r := IssueOne(s, p, c, sub, now);
    assert (c, sub) in Clear(s) && (c, sub) !in Clear(r);
  }

  lemma {:induction false} IssueRises(s: State, p: nat, c: nat, sub: nat, now: nat, cap: nat)
    requires Wf(s) && p < |s.peers| && c < |s.chunks|
    ensures Rises(s, IssueFrom(s, p, c, sub, now, cap), p, now)
    decreases Total(s, c) - sub
  {
    if sub < Total(s, c) && s.peers[p].pending < cap {
      if s.req[c][sub] {
        IssueRises(s, p, c, sub + 1, now, cap);
      } else {
        IssueOneRises(s, p, c, sub, now);
        IssueRises(IssueOne(s, p, c, sub, now), p, c, sub + 1, now, cap);
        RisesOn(s, IssueOne(s, p, c, sub, now), IssueFrom(s, p, c, sub, now, cap), p, now);
      }
    }
  }

  lemma TryChunkRises(s: State, p: nat, c: nat, now: nat, cap: nat)
    requires Wf(s) && p < |s.peers|
    ensures Rises(s, TryChunk(s, p, c, now, cap), p, now)
  {
    if CanIssue(s, p, c) {
      var s1 := s.(chunks := s.chunks[c := Downloading]);
      assert Rises(s, s1, p, now);
      IssueRises(s1, p, c, 0, now, cap);
      RisesOn(s, s1, TryChunk(s, p, c, now, cap), p, now);
    }
  }

  lemma {:induction false} ListRises(s: State, p: nat, list: seq<(nat, nat)>, k: nat, now: nat, cap: nat)
    requires Wf(s) && p < |s.peers| && k <= |list|
    ensures Rises(s, ScheduleList(s, p, list, k, now, cap), p, now)
    decreases |list| - k
  {
    if k < |list| && s.peers[p].pending < cap {
      TryChunkRises(s, p, list[k].1, now, cap);
      ListRises(TryChunk(s, p, list[k].1, now, cap), p, list, k + 1, now, cap);
      RisesOn(s, TryChunk(s, p, list[k].1, now, cap), ScheduleList(s, p, list, k, now, cap), p, now);
    }
  }

  lemma ScheduleRises(s: State, p: nat, now: nat)
    requires Wf(s) && p < |s.peers|
    ensures Rises(s, ScheduleForPeer(s, p, now), p, now)
  {
    if s.peers[p].pending < EffectiveCap(s, p) {
      ListRises(s, p, RarestFirst(s, p), 0, now, EffectiveCap(s, p));
    }
  }

  // ---------------------------------------------------------------- a lone source

  /** The only peer has everything, is not choking and has nothing to do. */
  ghost predicate LoneSource(s: State) {
    && |s.peers| == 1 && !s.peers[0].choking && s.peers[0].timeouts == 0 && s.peers[0].cap == 128
    && s.peers[0].pending == 0 && s.peers[0].inFlight == map[]
    && |s.peers[0].bitfield| == |s.chunks| == HaveCount(s.peers[0])
    && forall c :: 0 <= c < |s.chunks| ==> s.peers[0].bitfield[c]
  }

  /** It is asked for a sub-block that was not marked, if there is one of an unfinished chunk. */
  lemma LoneSourceIsAsked(s: State, now: nat, c: nat, sub: nat) returns (c': nat, sub': nat)
    requires Inv(s) && LoneSource(s) && c < |s.chunks| && s.chunks[c] != Complete && sub < Total(s, c) && !s.req[c][sub]
    ensures var r := ScheduleForPeer(s, 0, now);
            && (c', sub') in Clear(s) && |r.peers| == 1 && r.peers[0].pending > 0 && s.effects <= r.effects
            && c' < |s.chunks| && sub' < Total(s, c') && MarkedAsSent(s, r, 0, Sent(s, r), c', sub') && r.req[c'][sub']
  {
    var r := ScheduleForPeer(s, 0, now);
    assert EffectiveCap(s, 0) == 128;
    ScheduleRises(s, 0, now);
    SoleSourceSaturates(s, 0, now);
    if r.peers[0].pending < 128 {
      assert Serves(s, 0, c) && AllRequested(r, c);
      assert (c, sub) in Clear(s) && (c, sub) !in Clear(r);
    }
    var x :| x in Clear(s) && x !in Clear(r);
    c', sub' := x.0, x.1;
    SchedulingMarksWhatItSends(s, 0, now, c', sub');
  }

  // ---------------------------------------------------------------- the tick of a lone source

  lemma {:induction false} RescueIdles(s: State, c: nat, primary: nat, hunger: nat, sub: nat, now: nat, hungry: bool)
    requires Wf(s) && RequestedAt(s, now) && c < |s.chunks| && s.chunks[c] != Complete
    ensures RescueFrom(s, c, primary, hunger, sub, now, hungry) == Rescued(s, hungry)
    decreases Total(s, c) - sub
  {
    if sub < Total(s, c) { RescueIdles(s, c, primary, hunger, sub + 1, now, hungry); }
  }

  lemma {:induction false} EndgameIdles(s: State, list: seq<(nat, nat)>, k: nat, processed: nat, now: nat)
    requires Wf(s) && RequestedAt(s, now) && k <= |list| && ListsUnfinished(s.chunks, list)
    ensures EndgameList(s, list, k, processed, now) == s
    decreases |list| - k
  {
    if k < |list| && processed < MAX_ENDGAME_CHUNKS {
      var c := list[k].1;
      if Total(s, c) != 0 {
        RescueIdles(s, c, Primary(s.peers, c), HungerMs(s.peers, Primary(s.peers, c)), 0, now, false);
      }
      EndgameIdles(s, list, k + 1, processed, now);
    }
  }

  /** With nothing overdue a tick only schedules. */
  lemma LoneTick(s: State, now: nat)
    requires Inv(s) && LoneSource(s) && |s.chunks| > 0 && s.phase != Done && RequestedAt(s, now)
    ensures Tick(s, now) == ScheduleForPeer(s, 0, now)
  {
    var r := ScheduleForPeer(s, 0, now);
    assert RebalanceFrom(s, 0, now) == RebalanceFrom(s, 1, now) == s;
    assert ScheduleAllFrom(s, 0, now) == ScheduleAllFrom(r, 1, now) == r;
    ScheduleRises(s, 0, now);
    EndgameOrderUnfinished(r);
    EndgameIdles(r, EndgameOrder(r), 0, 0, now);
  }

  // ---------------------------------------------------------------- connecting and disconnecting

  lemma {:induction false} AllTrue(n: nat)
    ensures CountTrue(seq(n, _ => true)) == n
  {
    var bits := seq(n, _ => true);
    if n > 0 {
      assert bits[..n - 1] == seq(n - 1, _ => true);
      AllTrue(n - 1);
    }
  }

  /** The same chunks and sub-blocks, requested and done alike. */
  ghost predicate SameBoard(s: State, r: State) {
    && r.chunks == s.chunks && r.subBlocks == s.subBlocks && r.req == s.req && r.done == s.done
    && r.reqTime == s.reqTime && r.phase == s.phase
  }

  lemma SourceJoins(s: State, slot: nat) returns (s1: State, s2: State, r: State)
    requires Inv(s) && s.peers == [] && |s.chunks| > 0
    ensures Enabled(s, PeerAdded(slot, 0)) && s1 == Apply(s, PeerAdded(slot, 0)) && Inv(s1)
    ensures s2 == Apply(s1, ChokeChange(slot, false)) && Inv(s2)
    ensures r == Apply(s2, Bitfield(slot, seq(|s.chunks|, _ => true), 0)) && Inv(r)
    ensures SameBoard(s, r) && LoneSource(r) && r.peers[0].slotId == slot
  {
    s1, s2 := SourceUnchokes(s, slot);
    r := SourceAdvertises(s2);
  }

  lemma SourceUnchokes(s: State, slot: nat) returns (s1: State, s2: State)
    requires Inv(s) && s.peers == []
    ensures Enabled(s, PeerAdded(slot, 0)) && s1 == Apply(s, PeerAdded(slot, 0)) && Inv(s1)
    ensures s2 == Apply(s1, ChokeChange(slot, false)) && Inv(s2)
    ensures s2 == s.(peers := [NewPeer(slot, 0, |s.availability|).(choking := false)])
  {
    s1 := Apply(s, PeerAdded(slot, 0));
    NetEventKeeps(s, PeerAdded(slot, 0));
    s2 := Apply(s1, ChokeChange(slot, false));
    NetEventKeeps(s1, ChokeChange(slot, false));
  }

  lemma SourceAdvertises(s: State) returns (r: State)
    requires Inv(s) && |s.chunks| > 0 && |s.peers| == 1
    requires s.peers[0] == NewPeer(s.peers[0].slotId, 0, |s.availability|).(choking := false)
    ensures r == Apply(s, Bitfield(s.peers[0].slotId, seq(|s.chunks|, _ => true), 0)) && Inv(r)
    ensures SameBoard(s, r) && LoneSource(r) && r.peers[0].slotId == s.peers[0].slotId
  {
    var slot, bits := s.peers[0].slotId, seq(|s.chunks|, _ => true);
    r := OnBitfield(s, slot, bits, 0);
    OnBitfieldKeeps(s, slot, bits, 0);
    AllTrue(|s.chunks|);
    FullBitfield(s, slot, bits);
  }

  lemma FullBitfield(s: State, slot: nat, bits: seq<bool>)
    requires Wf(s) && |s.peers| == 1 && s.peers[0].slotId == slot && |bits| == |s.chunks| == CountTrue(bits) > 0
    ensures var r := OnBitfield(s, slot, bits, 0);
            SameBoard(s, r) && r.peers == [s.peers[0].(bitfield := bits)]
  {
  }

  // ---------------------------------------------------------------- an answer and a farewell

  /** A marked sub-block that the lone peer does not carry, or has just delivered, stays marked when the
      peer is given new requests and then leaves. */
  lemma MarkOutlivesPeer(s: State, c: nat, sub: nat, now: nat, c': nat, sub': nat) returns (m: State, r: State)
    requires Inv(s) && |s.peers| == 1 && s.peers[0].pending > 0 && s.phase != Done
    requires c < |s.chunks| && sub < Total(s, c)
    requires c' < |s.chunks| && sub' < Total(s, c') && s.req[c'][sub']
    requires Carries(s.peers[0], c', sub') ==> c' == c && sub' == sub
    ensures m == OnPiece(s, s.peers[0].slotId, c, BeginOf(sub), now) && Wf(m) && |m.peers| == 1
    ensures m.peers[0].slotId == s.peers[0].slotId
    ensures r == WithoutPeer(m, 0) && |r.req| == |s.req| && |r.req[c']| == |s.req[c']| && r.req[c'][sub']
  {
    m := OnPiece(s, s.peers[0].slotId, c, BeginOf(sub), now);
    MarkOutlivesAnswer(s, c, sub, now, c', sub');
    r := WithoutPeer(m, 0);
    SchedulerFlags.RemovalRow(m, 0, c');
  }

  lemma MarkOutlivesAnswer(s: State, c: nat, sub: nat, now: nat, c': nat, sub': nat)
    requires Inv(s) && |s.peers| == 1 && s.peers[0].pending > 0 && s.phase != Done
    requires c < |s.chunks| && sub < Total(s, c)
    requires c' < |s.chunks| && sub' < Total(s, c') && s.req[c'][sub']
    requires Carries(s.peers[0], c', sub') ==> c' == c && sub' == sub
    ensures var m := OnPiece(s, s.peers[0].slotId, c, BeginOf(sub), now);
            && |m.peers| == 1 && m.peers[0].slotId == s.peers[0].slotId && !Carries(m.peers[0], c', sub')
            && |m.chunks| == |s.chunks| && |m.req[c']| == |s.req[c']| && m.req[c'][sub']
  {
    var l := AnswerLands(s, c, BeginOf(sub), now);
    LandedCarries(s.peers[0], c, BeginOf(sub), c', sub');
    SchedulingMarksWhatItSends(l, 0, now, c', sub');
  }

  lemma AnswerLands(s: State, c: nat, begin: nat, now: nat) returns (l: State)
    requires Inv(s) && |s.peers| == 1 && s.peers[0].pending > 0 && s.phase != Done
    ensures Inv(l) && |l.chunks| == |s.chunks| && l.subBlocks == s.subBlocks && l.req == s.req
    ensures l.peers == [Land(s.peers[0], c, begin)]
    ensures OnPiece(s, s.peers[0].slotId, c, begin, now) == ScheduleForPeer(l, 0, now)
  {
    l := Landed(s, 0, c, begin);
    LandedKeeps(s, 0, c, begin);
  }

  lemma LandedCarries(peer: PeerSlot, c: nat, begin: nat, c': nat, sub': nat)
    requires Carries(peer, c', sub') ==> c' == c && BeginOf(sub') == begin
    ensures !Carries(Land(peer, c, begin), c', sub')
  {
  }

  /** One visit of a peer that has everything: it is asked for something, answers that and leaves. Then
      fewer sub-blocks than before are not marked. */
  lemma Visit(s: State, now: nat, c: nat, sub: nat) returns (c': nat, sub': nat, s1: State, s2: State, r: State)
    requires Inv(s) && LoneSource(s) && s.phase != Done && RequestedAt(s, now)
    requires c < |s.chunks| && s.chunks[c] != Complete && sub < Total(s, c) && !s.req[c][sub]
    ensures s1 == Tick(s, now) && Request(s.peers[0].slotId, c', BeginOf(sub')) in s1.effects
    ensures s2 == OnPiece(s1, s.peers[0].slotId, c', BeginOf(sub'), now) && |s2.peers| == 1
    ensures s2.peers[0].slotId == s.peers[0].slotId && r == WithoutPeer(s2, 0) && r.peers == [] && Clear(r) < Clear(s)
  {
    c', sub' := LoneSourceIsAsked(s, now, c, sub);
    LoneTick(s, now);
    s1 := Tick(s, now);
    ScheduleForPeerKeeps(s, 0, now);
    s2, r := MarkOutlivesPeer(s1, c', sub', now, c', sub');
    OnPieceKeeps(s1, s.peers[0].slotId, c', BeginOf(sub'), now);
    WithoutPeerKeeps(s2, 0);
    forall x | x in Clear(r) ensures x in Clear(s) {
      if x !in Clear(s) { VisitKeepsMark(s, now, c', sub', x.0, x.1); }
    }
  }

  lemma VisitKeepsMark(s: State, now: nat, c: nat, sub: nat, c': nat, sub': nat)
    requires Inv(s) && LoneSource(s) && s.phase != Done && c' < |s.chunks| && sub' < Total(s, c') && s.req[c'][sub']
    requires var s1 := ScheduleForPeer(s, 0, now); s1.peers[0].pending > 0 && c < |s1.chunks| && sub < Total(s1, c)
    ensures var s1 := ScheduleForPeer(s, 0, now);
            var m := OnPiece(s1, s1.peers[0].slotId, c, BeginOf(sub), now);
            |m.peers| == 1 && var r := WithoutPeer(m, 0); c' < |r.req| && sub' < |r.req[c']| && r.req[c'][sub']
  {
    ScheduleForPeerKeeps(s, 0, now);
    SchedulingMarksWhatItSends(s, 0, now, c', sub');
    var _, _ := MarkOutlivesPeer(ScheduleForPeer(s, 0, now), c, sub, now, c', sub');
  }
}
