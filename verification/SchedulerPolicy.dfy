/** What one scheduling call promises: which peer, in which order, how much and when it stops. */
module SchedulerPolicy {
  import opened Counting
  import opened Sorting
  import opened SchedulerModel
  import opened SchedulerInvariant

  // ---------------------------------------------------------------- peer choice

  /** a is preferred to b: higher score, or the same score and fewer chunks. */
  predicate Outranks(a: PeerSlot, b: PeerSlot, localSpeed: nat) {
    Score(a, localSpeed) > Score(b, localSpeed)
    || (Score(a, localSpeed) == Score(b, localSpeed) && HaveCount(a) < HaveCount(b))
  }

  /** i is the first serviceable peer below k that no serviceable peer below k outranks. */
  ghost predicate Champion(peers: seq<PeerSlot>, localSpeed: nat, c: nat, k: nat, i: nat)
    requires k <= |peers|
  {
    && i < k
    && Serviceable(peers[i], c)
    && (forall j :: 0 <= j < k && Serviceable(peers[j], c) ==>
          !Outranks(peers[j], peers[i], localSpeed) && (j < i ==> Outranks(peers[i], peers[j], localSpeed)))
  }

  lemma {:induction false} BestOfIsChampion(peers: seq<PeerSlot>, localSpeed: nat, c: nat, k: nat)
    returns (i: Option<nat>)
    requires k <= |peers|
    ensures i.None? ==> BestOf(peers, localSpeed, c, k).score == INT_MIN
                        && forall j :: 0 <= j < k && Serviceable(peers[j], c) ==> Score(peers[j], localSpeed) <= INT_MIN
    ensures i.Some? ==> Champion(peers, localSpeed, c, k, i.value) && Score(peers[i.value], localSpeed) > INT_MIN
                        && BestOf(peers, localSpeed, c, k) == WinnerAt(peers[i.value], localSpeed)
  {
    i := None;
    if k > 0 {
      i := BestOfIsChampion(peers, localSpeed, c, k - 1);
      if Serviceable(peers[k - 1], c) && Score(peers[k - 1], localSpeed) > INT_MIN
         && (i.None? || Outranks(peers[k - 1], peers[i.value], localSpeed)) {
        i := Some(k - 1);
      }
    }
  }

  function WinnerAt(peer: PeerSlot, localSpeed: nat): Winner {
    Winner(Score(peer, localSpeed), HaveCount(peer), peer.slotId)
  }

  /** A peer with fewer than 2^28 outstanding requests never scores as low as the sentinel. */
  lemma ScoreAboveSentinel(peer: PeerSlot, localSpeed: nat)
    requires peer.pending < 0x1000_0000
    ensures Score(peer, localSpeed) > INT_MIN
  {
    assert DivTrunc2000(AsInt32(peer.rttUs)) <= 0x7FFF_FFFF / 2000;
  }

  /** The chosen peer is serviceable and of highest rank, earliest slot first; none is chosen exactly
      when every serviceable peer scores as low as the sentinel. */
  lemma SelectBestIsArgmax(peers: seq<PeerSlot>, localSpeed: nat, c: nat)
    ensures match SelectBest(peers, localSpeed, c)
            case None => forall j :: 0 <= j < |peers| && Serviceable(peers[j], c) ==>
              Score(peers[j], localSpeed) <= INT_MIN
            case Some(slot) =>
              exists i: nat :: Champion(peers, localSpeed, c, |peers|, i) && peers[i].slotId == slot
                               && Score(peers[i], localSpeed) > INT_MIN
  {
    var i := BestOfIsChampion(peers, localSpeed, c, |peers|);
  }

  /** With fewer than 2^28 requests pending, as in every reachable state before ENDGAME, somebody is
      chosen exactly when somebody can serve the chunk. */
  lemma SomebodyIsChosen(peers: seq<PeerSlot>, localSpeed: nat, c: nat)
    requires forall j :: 0 <= j < |peers| ==> peers[j].pending < 0x1000_0000
    ensures SelectBest(peers, localSpeed, c).Some? <==> exists j :: 0 <= j < |peers| && Serviceable(peers[j], c)
  {
    SelectBestIsArgmax(peers, localSpeed, c);
    forall j | 0 <= j < |peers| && Serviceable(peers[j], c) ensures Score(peers[j], localSpeed) > INT_MIN {
      ScoreAboveSentinel(peers[j], localSpeed);
    }
  }

  lemma {:induction false} SoleIsBest(peers: seq<PeerSlot>, localSpeed: nat, c: nat, p: nat, k: nat)
    requires p < |peers| && k <= |peers|
    requires Serviceable(peers[p], c) && Score(peers[p], localSpeed) > INT_MIN
    requires forall q :: 0 <= q < |peers| && q != p ==> !Serviceable(peers[q], c)
    ensures BestOf(peers, localSpeed, c, k) ==
            if p < k then Winner(Score(peers[p], localSpeed), HaveCount(peers[p]), peers[p].slotId)
            else Winner(INT_MIN, SIZE_MAX, 0)
  {
    if k > 0 { SoleIsBest(peers, localSpeed, c, p, k - 1); }
  }

  // ---------------------------------------------------------------- order of one call

  function Sent(s: State, r: State): seq<Effect>
    requires s.effects <= r.effects
  {
    r.effects[|s.effects|..]
  }

  /** a is sent before b: earlier in the list, or an earlier sub-block of the same chunk. */
  ghost predicate Follows(list: seq<(nat, nat)>, k: nat, a: Effect, b: Effect) {
    && a.Request? && b.Request?
    && ((a.chunk == b.chunk && a.begin < b.begin)
        || exists x, y :: k <= x < y < |list| && list[x].1 == a.chunk && list[y].1 == b.chunk)
  }

  ghost predicate FromList(list: seq<(nat, nat)>, k: nat, slot: nat, e: Effect) {
    e.Request? && e.slot == slot && exists x :: k <= x < |list| && list[x].1 == e.chunk
  }

  /** Requests for sub-blocks of one chunk, ascending from the given offset, to one peer. */
  ghost predicate Burst(sent: seq<Effect>, slot: nat, c: nat, from: nat) {
    && (forall i :: 0 <= i < |sent| ==>
          sent[i].Request? && sent[i].slot == slot && sent[i].chunk == c && sent[i].begin >= from)
    && (forall i, j :: 0 <= i < j < |sent| ==> sent[i].begin < sent[j].begin)
  }

  lemma {:induction false} IssueOrder(s: State, p: nat, c: nat, sub: nat, now: nat, cap: nat)
    returns (sent: seq<Effect>)
    requires Wf(s) && p < |s.peers| && c < |s.chunks|
    ensures IssueFrom(s, p, c, sub, now, cap).effects == s.effects + sent
    ensures IssueFrom(s, p, c, sub, now, cap).peers[p].slotId == s.peers[p].slotId
    ensures Burst(sent, s.peers[p].slotId, c, BeginOf(sub))
    decreases Total(s, c) - sub
  {
    if sub >= Total(s, c) || s.peers[p].pending >= cap {
      sent := [];
    } else if s.req[c][sub] {
      sent := IssueOrder(s, p, c, sub + 1, now, cap);
    } else {
      sent := IssueOrder(IssueOne(s, p, c, sub, now), p, c, sub + 1, now, cap);
      sent := [Request(s.peers[p].slotId, c, BeginOf(sub))] + sent;
    }
  }

  lemma TryChunkOrder(s: State, p: nat, c: nat, now: nat, cap: nat) returns (sent: seq<Effect>)
    requires Wf(s) && p < |s.peers|
    ensures TryChunk(s, p, c, now, cap).effects == s.effects + sent
    ensures TryChunk(s, p, c, now, cap).peers[p].slotId == s.peers[p].slotId
    ensures Burst(sent, s.peers[p].slotId, c, 0)
  {
    sent := [];
    if CanIssue(s, p, c) {
      sent := IssueOrder(s.(chunks := s.chunks[c := Downloading]), p, c, 0, now, cap);
    }
  }

  /** Every request comes from the list, in list order. */
  ghost predicate InListOrder(sent: seq<Effect>, list: seq<(nat, nat)>, k: nat, slot: nat) {
    && (forall i :: 0 <= i < |sent| ==> FromList(list, k, slot, sent[i]))
    && (forall i, j :: 0 <= i < j < |sent| ==> Follows(list, k, sent[i], sent[j]))
  }

  lemma BurstThenList(head: seq<Effect>, tail: seq<Effect>, list: seq<(nat, nat)>, k: nat, slot: nat)
    requires k < |list| && Burst(head, slot, list[k].1, 0) && InListOrder(tail, list, k + 1, slot)
    ensures InListOrder(head + tail, list, k, slot)
  {
    var sent := head + tail;
    forall i | 0 <= i < |sent|
      ensures FromList(list, k, slot, sent[i])
    {
      if i < |head| { assert list[k].1 == head[i].chunk; }
      else { assert FromList(list, k + 1, slot, tail[i - |head|]); }
    }
    forall i, j | 0 <= i < j < |sent|
      ensures Follows(list, k, sent[i], sent[j])
    {
      if i >= |head| {
        assert Follows(list, k + 1, tail[i - |head|], tail[j - |head|]);
      } else if j >= |head| {
        assert FromList(list, k + 1, slot, tail[j - |head|]);
        assert list[k].1 == head[i].chunk;
      }
    }
  }

  lemma {:induction false} ListOrder(s: State, p: nat, list: seq<(nat, nat)>, k: nat, now: nat, cap: nat)
    returns (sent: seq<Effect>)
    requires Wf(s) && p < |s.peers| && k <= |list|
    ensures ScheduleList(s, p, list, k, now, cap).effects == s.effects + sent
    ensures InListOrder(sent, list, k, s.peers[p].slotId)
    decreases |list| - k
  {
    sent := [];
    if k < |list| && s.peers[p].pending < cap {
      var head := TryChunkOrder(s, p, list[k].1, now, cap);
      var tail := ListOrder(TryChunk(s, p, list[k].1, now, cap), p, list, k + 1, now, cap);
      BurstThenList(head, tail, list, k, s.peers[p].slotId);
      sent := head + tail;
    }
  }

  lemma {:induction false} CandidatesFollowActive(s: State, p: nat, k: nat)
    requires Wf(s) && p < |s.peers| && k <= |s.active|
    ensures forall x | x in Candidates(s, p, k) ::
              x.1 in s.active[..k] && x.1 < |s.chunks| && x.0 == s.availability[x.1] && Wanted(s, p, x.1)
    ensures forall x, y :: Precedes(Candidates(s, p, k), x, y) ==> Precedes(s.active[..k], x.1, y.1)
  {
    if k > 0 {
      CandidatesFollowActive(s, p, k - 1);
      var prev, c := Candidates(s, p, k - 1), s.active[k - 1];
      var all := Candidates(s, p, k);
      assert s.active[..k] == s.active[..k - 1] + [c];
      forall x, y | Precedes(all, x, y)
        ensures Precedes(s.active[..k], x.1, y.1)
      {
        var i, j :| 0 <= i < j < |all| && all[i] == x && all[j] == y;
        if j < |prev| {
          assert Precedes(prev, x, y);
          PrecedesExtends(s.active[..k - 1], c, x.1, y.1);
        } else {
          assert x in prev && y.1 == c;
          PrecedesLast(s.active[..k - 1], c, x.1);
        }
      }
    }
  }

  /** Rarest-first order between two requests of one scheduling call. */
  ghost predicate RarerFirst(s: State, a: Effect, b: Effect)
    requires Wf(s)
  {
    && a.Request? && b.Request? && a.chunk < |s.chunks| && b.chunk < |s.chunks|
    && (|| s.availability[a.chunk] < s.availability[b.chunk]
        || (&& s.availability[a.chunk] == s.availability[b.chunk]
            && (|| (a.chunk == b.chunk && a.begin < b.begin)
                || (a.chunk != b.chunk && Precedes(s.active, a.chunk, b.chunk)))))
  }

  lemma RarestFirstList(s: State, p: nat, x: nat, y: nat)
    requires Inv(s) && p < |s.peers| && x < y < |RarestFirst(s, p)|
    ensures var a, b := RarestFirst(s, p)[x], RarestFirst(s, p)[y];
            && a.1 < |s.chunks| && b.1 < |s.chunks|
            && a.0 == s.availability[a.1] && b.0 == s.availability[b.1]
            && (a.0 < b.0 || (a.0 == b.0 && a.1 != b.1 && Precedes(s.active, a.1, b.1)))
  {
    var list, cands := RarestFirst(s, p), Candidates(s, p, |s.active|);
    StableSortOrdered(cands, ByFirst);
    StableSortPermutes(cands, ByFirst);
    assert list[x] in list && list[y] in list;
    CandidatesFollowActive(s, p, |s.active|);
    assert s.active[..|s.active|] == s.active;
    assert ByFirst(list[x], list[y]);
    if list[x].0 == list[y].0 {
      assert Precedes(cands, list[x], list[y]);
      var i, j :| 0 <= i < j < |s.active| && s.active[i] == list[x].1 && s.active[j] == list[y].1;
    }
  }

  /** One scheduling call sends its requests in non-decreasing availability, equally rare chunks in
      active-list order, sub-blocks of a chunk in ascending order, all to the scheduled peer. */
  lemma RequestsAreRarestFirst(s: State, p: nat, now: nat)
    requires Inv(s) && p < |s.peers|
    ensures var r := ScheduleForPeer(s, p, now);
            && s.effects <= r.effects
            && (forall i :: 0 <= i < |Sent(s, r)| ==>
                  Sent(s, r)[i].Request? && Sent(s, r)[i].slot == s.peers[p].slotId)
            && (forall i, j :: 0 <= i < j < |Sent(s, r)| ==> RarerFirst(s, Sent(s, r)[i], Sent(s, r)[j]))
  {
    var r := ScheduleForPeer(s, p, now);
    ScheduleForPeerKeeps(s, p, now);
    if s.peers[p].pending < EffectiveCap(s, p) {
      var list := RarestFirst(s, p);
      var sent := ListOrder(s, p, list, 0, now, EffectiveCap(s, p));
      assert Sent(s, r) == sent;
      ListOrderIsRarest(s, p, sent);
    }
  }

  lemma ListOrderIsRarest(s: State, p: nat, sent: seq<Effect>)
    requires Inv(s) && p < |s.peers| && InListOrder(sent, RarestFirst(s, p), 0, s.peers[p].slotId)
    ensures forall i :: 0 <= i < |sent| ==> sent[i].Request? && sent[i].slot == s.peers[p].slotId
    ensures forall i, j :: 0 <= i < j < |sent| ==> RarerFirst(s, sent[i], sent[j])
  {
    var list := RarestFirst(s, p);
    forall i | 0 <= i < |sent|
      ensures sent[i].Request? && sent[i].slot == s.peers[p].slotId && sent[i].chunk < |s.chunks|
    {
      assert FromList(list, 0, s.peers[p].slotId, sent[i]);
      CandidatesAreServable(s, p);
    }
    forall i, j | 0 <= i < j < |sent|
      ensures RarerFirst(s, sent[i], sent[j])
    {
      assert Follows(list, 0, sent[i], sent[j]);
      if !(sent[i].chunk == sent[j].chunk && sent[i].begin < sent[j].begin) {
        var x, y :| 0 <= x < y < |list| && list[x].1 == sent[i].chunk && list[y].1 == sent[j].chunk;
        RarestFirstList(s, p, x, y);
      }
    }
  }

  // ---------------------------------------------------------------- saturation

  /** Every sub-block of chunk c is marked requested. */
  ghost predicate AllRequested(s: State, c: nat) {
    c < |s.req| && forall i :: 0 <= i < |s.req[c]| ==> s.req[c][i]
  }

  /** Requests are only added, and only peer p's counter moves, never past cap. */
  ghost predicate Loads(s: State, r: State, p: nat, cap: nat)
    requires p < |s.peers|
  {
    && |r.peers| == |s.peers| && |r.req| == |s.req|
    && (forall c :: 0 <= c < |s.req| ==>
          |r.req[c]| == |s.req[c]| && forall i :: 0 <= i < |s.req[c]| && s.req[c][i] ==> r.req[c][i])
    && (forall q :: 0 <= q < |s.peers| && q != p ==> r.peers[q] == s.peers[q])
    && s.peers[p].pending <= r.peers[p].pending
    && (r.peers[p].pending == s.peers[p].pending || r.peers[p].pending <= cap)
  }

  lemma {:induction false} IssueLoads(s: State, p: nat, c: nat, sub: nat, now: nat, cap: nat)
    requires Wf(s) && p < |s.peers| && c < |s.chunks|
    ensures var r := IssueFrom(s, p, c, sub, now, cap);
            && Loads(s, r, p, cap)
            && (r.peers[p].pending >= cap || forall i :: sub <= i < |r.req[c]| ==> r.req[c][i])
    decreases Total(s, c) - sub
  {
    if sub >= Total(s, c) || s.peers[p].pending >= cap {
    } else if s.req[c][sub] {
      IssueLoads(s, p, c, sub + 1, now, cap);
    } else {
      IssueLoads(IssueOne(s, p, c, sub, now), p, c, sub + 1, now, cap);
    }
  }

  lemma TryChunkLoads(s: State, p: nat, c: nat, now: nat, cap: nat)
    requires Wf(s) && p < |s.peers|
    ensures var r := TryChunk(s, p, c, now, cap);
            && Loads(s, r, p, cap)
            && (CanIssue(s, p, c) ==> r.peers[p].pending >= cap || AllRequested(r, c))
  {
    if CanIssue(s, p, c) {
      IssueLoads(s.(chunks := s.chunks[c := Downloading]), p, c, 0, now, cap);
    }
  }

  lemma {:induction false} ListLoads(s: State, p: nat, list: seq<(nat, nat)>, k: nat, now: nat, cap: nat)
    requires Wf(s) && p < |s.peers| && k <= |list|
    ensures Loads(s, ScheduleList(s, p, list, k, now, cap), p, cap)
    decreases |list| - k
  {
    if k < |list| && s.peers[p].pending < cap {
      TryChunkLoads(s, p, list[k].1, now, cap);
      ListLoads(TryChunk(s, p, list[k].1, now, cap), p, list, k + 1, now, cap);
    }
  }

  /** No scheduling call lifts a peer above its effective window or touches another peer. */
  lemma SchedulingRespectsCap(s: State, p: nat, now: nat)
    requires Inv(s) && p < |s.peers|
    ensures Loads(s, ScheduleForPeer(s, p, now), p, EffectiveCap(s, p))
    ensures IsFullSource(s.peers[p], |s.chunks|) && HasPartialSources(s.peers, |s.chunks|)
            ==> EffectiveCap(s, p) <= 32
  {
    if s.peers[p].pending < EffectiveCap(s, p) {
      ListLoads(s, p, RarestFirst(s, p), 0, now, EffectiveCap(s, p));
    }
  }

  /** c is unfinished and p advertises it. */
  predicate Serves(s: State, p: nat, c: nat)
    requires p < |s.peers|
  {
    c < |s.chunks| && s.chunks[c] != Complete && Advertises(s.peers[p], c)
  }

  /** p is the only peer that could serve any unfinished chunk it advertises. */
  ghost predicate SoleSource(s: State, p: nat)
    requires p < |s.peers|
  {
    && !s.peers[p].choking && s.peers[p].timeouts < MAX_TIMEOUTS
    && (forall c, q :: 0 <= c < |s.chunks| && Serves(s, p, c) && 0 <= q < |s.peers| && q != p ==>
          !Serviceable(s.peers[q], c))
  }

  lemma SoleSourceCanIssue(s: State, p: nat, c: nat)
    requires Inv(s) && p < |s.peers| && SoleSource(s, p) && s.peers[p].pending < 128
    requires Serves(s, p, c) && Total(s, c) != 0
    ensures CanIssue(s, p, c)
  {
    ScoreAboveSentinel(s.peers[p], s.localSpeed);
    SoleIsBest(s.peers, s.localSpeed, c, p, |s.peers|);
  }

  lemma SoleSourcePersists(s: State, r: State, p: nat)
    requires Scheduled(s, r) && p < |s.peers| && SoleSource(s, p)
    ensures SoleSource(r, p)
  {
    forall c, q | 0 <= c < |r.chunks| && Serves(r, p, c) && 0 <= q < |r.peers| && q != p
      ensures !Serviceable(r.peers[q], c)
    {
      assert Serves(s, p, c) && !Serviceable(s.peers[q], c);
    }
  }

  lemma LoadsKeepRequested(s: State, r: State, p: nat, cap: nat, c: nat)
    requires p < |s.peers| && Loads(s, r, p, cap) && AllRequested(s, c)
    ensures AllRequested(r, c)
  {
  }

  lemma SaturateOne(s: State, p: nat, c: nat, now: nat, cap: nat)
    requires Inv(s) && p < |s.peers| && SoleSource(s, p) && s.peers[p].pending < cap <= 128
    requires Serves(s, p, c) && Total(s, c) != 0
    ensures var r := TryChunk(s, p, c, now, cap); r.peers[p].pending >= cap || AllRequested(r, c)
  {
    SoleSourceCanIssue(s, p, c);
    TryChunkLoads(s, p, c, now, cap);
  }

  lemma SoleSourceStep(s: State, p: nat, c: nat, now: nat, cap: nat, c': nat)
    requires Inv(s) && p < |s.peers| && SoleSource(s, p) && cap <= 128
    requires Serves(s, p, c') && Total(s, c') != 0
    ensures var r := TryChunk(s, p, c, now, cap);
            Inv(r) && SoleSource(r, p) && Serves(r, p, c') && Total(r, c') != 0
  {
    TryChunkKeeps(s, p, c, now, cap);
    SoleSourcePersists(s, TryChunk(s, p, c, now, cap), p);
  }

  lemma {:induction false} ListSaturates(s: State, p: nat, list: seq<(nat, nat)>, k: nat, now: nat, cap: nat, x: nat)
    requires Inv(s) && p < |s.peers| && k <= x < |list| && cap <= 128 && SoleSource(s, p)
    requires Serves(s, p, list[x].1) && Total(s, list[x].1) != 0
    ensures var r := ScheduleList(s, p, list, k, now, cap);
            r.peers[p].pending >= cap || AllRequested(r, list[x].1)
    decreases |list| - k
  {
    if s.peers[p].pending < cap {
      var s1 := TryChunk(s, p, list[k].1, now, cap);
      if k == x {
        SaturateOne(s, p, list[k].1, now, cap);
        ListLoads(s1, p, list, k + 1, now, cap);
        if AllRequested(s1, list[x].1) {
          LoadsKeepRequested(s1, ScheduleList(s1, p, list, k + 1, now, cap), p, cap, list[x].1);
        }
      } else {
        SoleSourceStep(s, p, list[k].1, now, cap, list[x].1);
        ListSaturates(s1, p, list, k + 1, now, cap, x);
      }
    }
  }

  lemma {:induction false} WantedAreCandidates(s: State, p: nat, k: nat, c: nat)
    requires Wf(s) && p < |s.peers| && k <= |s.active| && c in s.active[..k] && Wanted(s, p, c)
    ensures (s.availability[c], c) in Candidates(s, p, k)
  {
    assert s.active[..k] == s.active[..k - 1] + [s.active[k - 1]];
    if s.active[k - 1] != c {
      WantedAreCandidates(s, p, k - 1, c);
    }
  }

  /** The counter test that skips a chunk never hides an unrequested sub-block. */
  lemma SkippedMeansRequested(s: State, c: nat)
    requires Inv(s) && c < |s.chunks| && s.reqCount[c] >= Total(s, c)
    ensures AllRequested(s, c)
  {
    CountTrueFull(s.req[c]);
  }

  lemma CandidatesAreServable(s: State, p: nat)
    requires Inv(s) && p < |s.peers|
    ensures forall x :: 0 <= x < |RarestFirst(s, p)| ==> Wanted(s, p, RarestFirst(s, p)[x].1)
  {
    CandidatesFollowActive(s, p, |s.active|);
    StableSortPermutes(Candidates(s, p, |s.active|), ByFirst);
    assert forall x :: 0 <= x < |RarestFirst(s, p)| ==> RarestFirst(s, p)[x] in RarestFirst(s, p);
  }

  lemma WantedIsListed(s: State, p: nat, c: nat)
    requires Inv(s) && p < |s.peers| && Wanted(s, p, c)
    ensures exists x :: 0 <= x < |RarestFirst(s, p)| && RarestFirst(s, p)[x].1 == c
  {
    assert c in s.active;
    assert s.active[..|s.active|] == s.active;
    WantedAreCandidates(s, p, |s.active|, c);
    StableSortPermutes(Candidates(s, p, |s.active|), ByFirst);
    assert (s.availability[c], c) in RarestFirst(s, p);
    var x :| 0 <= x < |RarestFirst(s, p)| && RarestFirst(s, p)[x] == (s.availability[c], c);
  }

  /** A sole eligible source ends the call at its window, or with every sub-block of every
      unfinished chunk it advertises requested. */
  lemma SoleSourceSaturates(s: State, p: nat, now: nat)
    requires Inv(s) && p < |s.peers| && SoleSource(s, p)
    ensures var r := ScheduleForPeer(s, p, now);
            r.peers[p].pending >= EffectiveCap(s, p)
            || forall c :: 0 <= c < |s.chunks| && Serves(s, p, c) ==> AllRequested(r, c)
  {
    var cap, r, list := EffectiveCap(s, p), ScheduleForPeer(s, p, now), RarestFirst(s, p);
    assert s.peers[p].cap <= 128;
    if s.peers[p].pending < cap && r.peers[p].pending < cap {
      CandidatesAreServable(s, p);
      ListLoads(s, p, list, 0, now, cap);
      forall c | 0 <= c < |s.chunks| && Serves(s, p, c)
        ensures AllRequested(r, c)
      {
        if Wanted(s, p, c) {
          WantedIsListed(s, p, c);
          var x :| 0 <= x < |list| && list[x].1 == c;
          ListSaturates(s, p, list, 0, now, cap, x);
        } else {
          SkippedMeansRequested(s, c);
        }
      }
    }
  }
}
