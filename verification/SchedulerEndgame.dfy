/** How much one endgame pass duplicates, and towards whom. */
module SchedulerEndgame {
  import opened Counting
  import opened Sorting
  import opened SchedulerModel
  import opened SchedulerInvariant

  /** b is peer a after some launches for chunk c only. */
  ghost predicate LaunchedFor(a: PeerSlot, b: PeerSlot, c: nat) {
    && b.slotId == a.slotId && b.bitfield == a.bitfield && b.choking == a.choking
    && b.timeouts == a.timeouts && b.rttUs == a.rttUs
    && Flying(a, c) <= Flying(b, c)
    && b.inFlight - {c} == a.inFlight - {c}
  }

  lemma OtherChunksUntouched(a: PeerSlot, b: PeerSlot, c: nat, c': nat)
    requires LaunchedFor(a, b, c) && c' != c
    ensures Flying(a, c') == Flying(b, c')
  {
    assert c' in a.inFlight <==> c' in a.inFlight - {c};
    assert c' in b.inFlight <==> c' in b.inFlight - {c};
    if c' in a.inFlight {
      assert (a.inFlight - {c})[c'] == a.inFlight[c'] && (b.inFlight - {c})[c'] == b.inFlight[c'];
    }
  }

  ghost predicate AllLaunchedFor(a: seq<PeerSlot>, b: seq<PeerSlot>, c: nat) {
    |a| == |b| && forall q :: 0 <= q < |a| ==> LaunchedFor(a[q], b[q], c)
  }

  lemma AllLaunchedForCompose(x: seq<PeerSlot>, y: seq<PeerSlot>, z: seq<PeerSlot>, c: nat)
    requires AllLaunchedFor(x, y, c) && AllLaunchedFor(y, z, c)
    ensures AllLaunchedFor(x, z, c)
  {
    forall q | 0 <= q < |x| ensures LaunchedFor(x[q], z[q], c) {
      assert LaunchedFor(x[q], y[q], c) && LaunchedFor(y[q], z[q], c);
    }
  }

  ghost predicate Helper(peers: seq<PeerSlot>, c: nat, exclude: nat, slot: nat) {
    exists q: nat :: q < |peers| && peers[q].slotId == slot && Redundant(peers[q], c, exclude)
  }

  // ---------------------------------------------------------------- counting requests

  function ToPeer(slot: nat, c: nat): Effect -> bool { (e: Effect) => e.Request? && e.slot == slot && e.chunk == c }

  function ForSubBlock(c: nat, begin: nat): Effect -> bool {
    (e: Effect) => e.Request? && e.chunk == c && e.begin == begin
  }

  // ---------------------------------------------------------------- choosing helpers

  lemma {:induction false} RedundantPairsSpec(peers: seq<PeerSlot>, c: nat, exclude: nat, k: nat)
    requires k <= |peers| && UniqueSlots(peers)
    ensures forall x | x in RedundantPairs(peers, c, exclude, k) ::
              exists q: nat :: q < k && peers[q].slotId == x.1 && Redundant(peers[q], c, exclude)
    ensures DistinctSeconds(RedundantPairs(peers, c, exclude, k))
  {
    if k > 0 {
      RedundantPairsSpec(peers, c, exclude, k - 1);
      var prev, all := RedundantPairs(peers, c, exclude, k - 1), RedundantPairs(peers, c, exclude, k);
      forall i, j | 0 <= i < j < |all| ensures all[i].1 != all[j].1 {
        if j == |prev| {
          assert prev[i] in prev;
          var q: nat :| q < k - 1 && peers[q].slotId == prev[i].1 && Redundant(peers[q], c, exclude);
        }
      }
    }
  }

  lemma {:induction false} RedundantPairsHave(peers: seq<PeerSlot>, c: nat, exclude: nat, k: nat, q: nat)
    requires q < k <= |peers| && Redundant(peers[q], c, exclude)
    ensures (peers[q].pending, peers[q].slotId) in RedundantPairs(peers, c, exclude, k)
  {
    if q < k - 1 { RedundantPairsHave(peers, c, exclude, k - 1, q); }
  }

  /** At most two different helpers are chosen, all of them eligible; an eligible peer that is not
      chosen leaves two behind that have no more to do than it. */
  lemma RedundantPeersSpec(peers: seq<PeerSlot>, c: nat, exclude: nat)
    requires UniqueSlots(peers)
    ensures var r := RedundantPeers(peers, c, exclude);
            && |r| <= 2
            && (forall i :: 0 <= i < |r| ==> Helper(peers, c, exclude, r[i].1))
            && DistinctSeconds(r)
            && (forall q :: 0 <= q < |peers| && Redundant(peers[q], c, exclude) ==>
                  || (peers[q].pending, peers[q].slotId) in r
                  || (|r| == 2 && r[0].0 <= peers[q].pending && r[1].0 <= peers[q].pending))
  {
    var pairs := RedundantPairs(peers, c, exclude, |peers|);
    RedundantPairsSpec(peers, c, exclude, |peers|);
    var r := RedundantPeers(peers, c, exclude);
    StableSortPermutes(pairs, ByBoth);
    ReorderKeepsDistinct(pairs, StableSort(pairs, ByBoth));
    forall i | 0 <= i < |r| ensures Helper(peers, c, exclude, r[i].1) {
      assert r[i] == StableSort(pairs, ByBoth)[i];
      assert r[i] in pairs;
    }
    forall q | 0 <= q < |peers| && Redundant(peers[q], c, exclude)
      ensures (peers[q].pending, peers[q].slotId) in r
              || (|r| == 2 && r[0].0 <= peers[q].pending && r[1].0 <= peers[q].pending)
    {
      LeastLoaded(peers, c, exclude, q);
    }
  }

  lemma LeastLoaded(peers: seq<PeerSlot>, c: nat, exclude: nat, q: nat)
    requires q < |peers| && Redundant(peers[q], c, exclude)
    ensures var r := RedundantPeers(peers, c, exclude);
            || (peers[q].pending, peers[q].slotId) in r
            || (|r| == 2 && r[0].0 <= peers[q].pending && r[1].0 <= peers[q].pending)
  {
    var pairs, pair := RedundantPairs(peers, c, exclude, |peers|), (peers[q].pending, peers[q].slotId);
    RedundantPairsHave(peers, c, exclude, |peers|, q);
    StableSortPermutes(pairs, ByBoth);
    StableSortOrdered(pairs, ByBoth);
    var sorted := StableSort(pairs, ByBoth);
    var k :| 0 <= k < |sorted| && sorted[k] == pair;
    if k >= 2 {
      assert ByBoth(sorted[0], sorted[k]) && ByBoth(sorted[1], sorted[k]);
    } else {
      assert RedundantPeers(peers, c, exclude)[k] == pair;
    }
  }

  // ---------------------------------------------------------------- one overdue sub-block

  lemma FindSlotUnique(peers: seq<PeerSlot>, q: nat, slot: nat)
    requires UniqueSlots(peers) && q < |peers| && peers[q].slotId == slot
    ensures FindSlot(peers, slot) == Some(q)
  {
    assert FindSlot(peers, slot).Some?;
  }

  lemma UniqueSlotsPersist(a: seq<PeerSlot>, b: seq<PeerSlot>, c: nat)
    requires UniqueSlots(a) && AllLaunchedFor(a, b, c)
    ensures UniqueSlots(b)
  {
    forall p, q | 0 <= p < q < |b| ensures b[p].slotId != b[q].slotId {
      assert LaunchedFor(a[p], b[p], c) && LaunchedFor(a[q], b[q], c);
    }
  }

  ghost predicate HasSlot(peers: seq<PeerSlot>, slot: nat) {
    exists q :: 0 <= q < |peers| && peers[q].slotId == slot
  }

  /** Each of the slots belongs to a connected peer. */
  ghost predicate Connected(peers: seq<PeerSlot>, slots: seq<(nat, nat)>) {
    forall i :: 0 <= i < |slots| ==> HasSlot(peers, slots[i].1)
  }

  lemma ConnectedPersists(a: seq<PeerSlot>, b: seq<PeerSlot>, c: nat, slots: seq<(nat, nat)>)
    requires Connected(a, slots) && AllLaunchedFor(a, b, c)
    ensures Connected(b, slots)
  {
    forall i | 0 <= i < |slots| ensures HasSlot(b, slots[i].1) {
      assert HasSlot(a, slots[i].1);
      var q :| 0 <= q < |a| && a[q].slotId == slots[i].1;
      assert LaunchedFor(a[q], b[q], c);
    }
  }

  ghost predicate BusyFor(peers: seq<PeerSlot>, c: nat, slot: nat) {
    forall q :: 0 <= q < |peers| && peers[q].slotId == slot ==> Flying(peers[q], c) != {}
  }

  lemma BusyPersists(a: seq<PeerSlot>, b: seq<PeerSlot>, c: nat, slot: nat)
    requires AllLaunchedFor(a, b, c) && BusyFor(a, c, slot)
    ensures BusyFor(b, c, slot)
  {
    forall q | 0 <= q < |b| && b[q].slotId == slot ensures Flying(b[q], c) != {} {
      assert LaunchedFor(a[q], b[q], c);
    }
  }

  lemma SendToSpec(s: State, slot: nat, c: nat, sub: nat)
    requires Wf(s) && UniqueSlots(s.peers) && c < |s.chunks| && sub < Total(s, c) && HasSlot(s.peers, slot)
    ensures var r := SendTo(s, slot, c, sub);
            && r.effects == s.effects + [Request(slot, c, BeginOf(sub))]
            && AllLaunchedFor(s.peers, r.peers, c) && UniqueSlots(r.peers) && BusyFor(r.peers, c, slot)
  {
    var r := SendTo(s, slot, c, sub);
    var p := FindSlot(s.peers, slot).value;
    assert AllLaunchedFor(s.peers, r.peers, c);
    UniqueSlotsPersist(s.peers, r.peers, c);
    assert BeginOf(sub) in Flying(r.peers[p], c);
  }

  /** One request for the sub-block to each slot of slots[k..]. */
  function RequestsTo(slots: seq<(nat, nat)>, k: nat, c: nat, begin: nat): (r: seq<Effect>)
    requires k <= |slots|
    ensures |r| == |slots| - k
    decreases |slots| - k
  {
    if k == |slots| then [] else [Request(slots[k].1, c, begin)] + RequestsTo(slots, k + 1, c, begin)
  }

  lemma {:induction false} RequestsToAt(slots: seq<(nat, nat)>, k: nat, c: nat, begin: nat, i: nat)
    requires k <= i < |slots|
    ensures RequestsTo(slots, k, c, begin)[i - k] == Request(slots[i].1, c, begin)
    decreases i - k
  {
    if k < i { RequestsToAt(slots, k + 1, c, begin, i); }
  }

  lemma {:induction false} SendRedundantLaunches(s: State, c: nat, sub: nat, slots: seq<(nat, nat)>, k: nat)
    returns (r: State)
    requires Wf(s) && UniqueSlots(s.peers) && c < |s.chunks| && sub < Total(s, c) && k <= |slots|
    requires Connected(s.peers, slots)
    ensures r == SendRedundant(s, c, sub, slots, k)
    ensures AllLaunchedFor(s.peers, r.peers, c)
    decreases |slots| - k
  {
    r := s;
    if k < |slots| {
      var s1 := SendTo(s, slots[k].1, c, sub);
      SendToSpec(s, slots[k].1, c, sub);
      ConnectedPersists(s.peers, s1.peers, c, slots);
      r := SendRedundantLaunches(s1, c, sub, slots, k + 1);
      AllLaunchedForCompose(s.peers, s1.peers, r.peers, c);
    }
  }

  lemma {:induction false} SendRedundantSends(s: State, c: nat, sub: nat, slots: seq<(nat, nat)>, k: nat)
    returns (r: State)
    requires Wf(s) && UniqueSlots(s.peers) && c < |s.chunks| && sub < Total(s, c) && k <= |slots|
    requires Connected(s.peers, slots)
    ensures r == SendRedundant(s, c, sub, slots, k)
    ensures r.effects == s.effects + RequestsTo(slots, k, c, BeginOf(sub))
    decreases |slots| - k
  {
    r := s;
    if k < |slots| {
      var s1 := SendTo(s, slots[k].1, c, sub);
      SendToSpec(s, slots[k].1, c, sub);
      ConnectedPersists(s.peers, s1.peers, c, slots);
      r := SendRedundantSends(s1, c, sub, slots, k + 1);
      ConcatAssoc(s.effects, [Request(slots[k].1, c, BeginOf(sub))], RequestsTo(slots, k + 1, c, BeginOf(sub)));
    }
  }

  lemma ConcatAssoc(a: seq<Effect>, b: seq<Effect>, c: seq<Effect>)
    ensures (a + b) + c == a + (b + c)
  {
  }

  lemma {:induction false} SendRedundantBusies(s: State, c: nat, sub: nat, slots: seq<(nat, nat)>, k: nat, x: nat)
    returns (r: State)
    requires Wf(s) && UniqueSlots(s.peers) && c < |s.chunks| && sub < Total(s, c) && k <= x < |slots|
    requires Connected(s.peers, slots)
    ensures r == SendRedundant(s, c, sub, slots, k) && BusyFor(r.peers, c, slots[x].1)
    decreases |slots| - k
  {
    var s1 := SendTo(s, slots[k].1, c, sub);
    SendToSpec(s, slots[k].1, c, sub);
    ConnectedPersists(s.peers, s1.peers, c, slots);
    if k == x {
      r := SendRedundantLaunches(s1, c, sub, slots, k + 1);
      BusyPersists(s1.peers, r.peers, c, slots[x].1);
    } else {
      r := SendRedundantBusies(s1, c, sub, slots, k + 1, x);
    }
  }

  // ---------------------------------------------------------------- one chunk

  /** Requests of one chunk's rescue: overdue sub-blocks from `from` on, to eligible helpers, at most
      two per sub-block and one per peer. */
  ghost predicate RescueSent(s: State, c: nat, primary: nat, hunger: nat, from: nat, now: nat, sent: seq<Effect>)
    requires Wf(s) && c < |s.chunks|
  {
    && (forall i :: 0 <= i < |sent| ==> RescueOf(s, c, primary, hunger, from, now, sent[i]))
    && (forall slot :: CountIf(sent, ToPeer(slot, c)) <= 1)
    && (forall begin :: CountIf(sent, ForSubBlock(c, begin)) <= 2)
  }

  ghost predicate RescueOf(s: State, c: nat, primary: nat, hunger: nat, from: nat, now: nat, e: Effect)
    requires Wf(s) && c < |s.chunks|
  {
    && e.Request? && e.chunk == c && e.begin % 16384 == 0
    && from <= SubOf(e.begin) < Total(s, c)
    && Overdue(s, c, SubOf(e.begin), now, hunger)
    && Helper(s.peers, c, primary, e.slot)
  }

  /** Whoever got a request for c is no longer an idle helper. */
  ghost predicate HelpersBusy(peers: seq<PeerSlot>, c: nat, sent: seq<Effect>) {
    forall i :: 0 <= i < |sent| && sent[i].Request? ==> BusyFor(peers, c, sent[i].slot)
  }

  lemma HelperBackwards(a: seq<PeerSlot>, b: seq<PeerSlot>, c: nat, exclude: nat, slot: nat)
    requires AllLaunchedFor(a, b, c) && Helper(b, c, exclude, slot)
    ensures Helper(a, c, exclude, slot)
  {
    var q: nat :| q < |b| && b[q].slotId == slot && Redundant(b[q], c, exclude);
    assert LaunchedFor(a[q], b[q], c);
    assert a[q].slotId == slot && Redundant(a[q], c, exclude);
  }

  /** The requests sent for one overdue sub-block: at most two, to different helpers. */
  ghost predicate Group(peers: seq<PeerSlot>, c: nat, primary: nat, begin: nat, group: seq<Effect>) {
    && |group| <= 2
    && (forall i :: 0 <= i < |group| ==>
          && group[i].Request? && group[i].chunk == c && group[i].begin == begin
          && Helper(peers, c, primary, group[i].slot))
    && (forall i, j :: 0 <= i < j < |group| ==> group[i].slot != group[j].slot)
  }

  lemma GroupOncePerPeer(peers: seq<PeerSlot>, c: nat, primary: nat, begin: nat, group: seq<Effect>, slot: nat)
    requires Group(peers, c, primary, begin, group)
    ensures CountIf(group, ToPeer(slot, c)) <= 1
  {
    var p := ToPeer(slot, c);
    CountIfAtMost(group, p);
    if |group| == 2 {
      assert group[0].slot != group[1].slot;
      assert group[1..] == [group[1]] && group == [group[0]] + group[1..];
      assert CountIf(group, p) == (if p(group[0]) then 1 else 0) + CountIf(group[1..], p);
      assert CountIf(group[1..], p) == if p(group[1]) then 1 else 0;
    }
  }

  /** A helper that is still idle after the group was sent is not one of the group. */
  lemma RestAvoidsGroup(peers: seq<PeerSlot>, c: nat, primary: nat, group: seq<Effect>, rest: Effect, i: nat)
    requires i < |group| && group[i].Request? && rest.Request?
    requires HelpersBusy(peers, c, group) && Helper(peers, c, primary, rest.slot)
    ensures group[i].slot != rest.slot
  {
    var q: nat :| q < |peers| && peers[q].slotId == rest.slot && Redundant(peers[q], c, primary);
    assert BusyFor(peers, c, group[i].slot);
  }

  lemma RescueOfEarlier(s: State, s1: State, c: nat, primary: nat, hunger: nat, sub: nat, now: nat, e: Effect)
    requires Wf(s) && Wf(s1) && c < |s.chunks|
    requires s1 == s.(peers := s1.peers, effects := s1.effects) && AllLaunchedFor(s.peers, s1.peers, c)
    requires RescueOf(s1, c, primary, hunger, sub + 1, now, e)
    ensures RescueOf(s, c, primary, hunger, sub, now, e)
  {
    HelperBackwards(s.peers, s1.peers, c, primary, e.slot);
  }

  lemma OncePerPeer(s: State, s1: State, c: nat, primary: nat, hunger: nat, sub: nat, now: nat,
                    group: seq<Effect>, rest: seq<Effect>, slot: nat)
    requires Wf(s1) && c < |s1.chunks|
    requires Group(s.peers, c, primary, BeginOf(sub), group) && HelpersBusy(s1.peers, c, group)
    requires RescueSent(s1, c, primary, hunger, sub + 1, now, rest)
    ensures CountIf(group + rest, ToPeer(slot, c)) <= 1
  {
    var p := ToPeer(slot, c);
    CountIfConcat(group, rest, p);
    if i :| 0 <= i < |group| && p(group[i]) {
      GroupOncePerPeer(s.peers, c, primary, BeginOf(sub), group, slot);
      forall j | 0 <= j < |rest| ensures !p(rest[j]) {
        assert RescueOf(s1, c, primary, hunger, sub + 1, now, rest[j]);
        RestAvoidsGroup(s1.peers, c, primary, group, rest[j], i);
      }
      CountIfNone(rest, p);
    } else {
      CountIfNone(group, p);
    }
  }

  lemma TwicePerSubBlock(s: State, s1: State, c: nat, primary: nat, hunger: nat, sub: nat, now: nat,
                         group: seq<Effect>, rest: seq<Effect>, begin: nat)
    requires Wf(s1) && c < |s1.chunks| && Group(s.peers, c, primary, BeginOf(sub), group)
    requires RescueSent(s1, c, primary, hunger, sub + 1, now, rest)
    ensures CountIf(group + rest, ForSubBlock(c, begin)) <= 2
  {
    var p := ForSubBlock(c, begin);
    CountIfConcat(group, rest, p);
    if begin == BeginOf(sub) {
      CountIfAtMost(group, p);
      forall j | 0 <= j < |rest| ensures !p(rest[j]) {
        assert RescueOf(s1, c, primary, hunger, sub + 1, now, rest[j]);
      }
      CountIfNone(rest, p);
    } else {
      CountIfNone(group, p);
    }
  }

  lemma GroupThenRest(s: State, s1: State, c: nat, primary: nat, hunger: nat, sub: nat, now: nat,
                      group: seq<Effect>, rest: seq<Effect>)
    requires Wf(s) && Wf(s1) && c < |s.chunks| && sub < Total(s, c) && Overdue(s, c, sub, now, hunger)
    requires s1 == s.(peers := s1.peers, effects := s1.effects) && AllLaunchedFor(s.peers, s1.peers, c)
    requires Group(s.peers, c, primary, BeginOf(sub), group) && HelpersBusy(s1.peers, c, group)
    requires RescueSent(s1, c, primary, hunger, sub + 1, now, rest)
    ensures RescueSent(s, c, primary, hunger, sub, now, group + rest)
  {
    var sent := group + rest;
    assert SubOf(BeginOf(sub)) == sub && BeginOf(sub) % 16384 == 0;
    forall i | 0 <= i < |sent| ensures RescueOf(s, c, primary, hunger, sub, now, sent[i]) {
      if i >= |group| { RescueOfEarlier(s, s1, c, primary, hunger, sub, now, rest[i - |group|]); }
    }
    forall slot ensures CountIf(sent, ToPeer(slot, c)) <= 1 {
      OncePerPeer(s, s1, c, primary, hunger, sub, now, group, rest, slot);
    }
    forall begin ensures CountIf(sent, ForSubBlock(c, begin)) <= 2 {
      TwicePerSubBlock(s, s1, c, primary, hunger, sub, now, group, rest, begin);
    }
  }

  lemma RescueStep(s: State, c: nat, primary: nat, hunger: nat, sub: nat, now: nat)
    returns (s1: State, group: seq<Effect>)
    requires Wf(s) && UniqueSlots(s.peers) && c < |s.chunks| && sub < Total(s, c) && Overdue(s, c, sub, now, hunger)
    ensures Wf(s1) && s1 == s.(peers := s1.peers, effects := s1.effects) && AllLaunchedFor(s.peers, s1.peers, c)
    ensures forall hungry :: RescueFrom(s, c, primary, hunger, sub, now, hungry) ==
                             RescueFrom(s1, c, primary, hunger, sub + 1, now, true)
    ensures s1.effects == s.effects + group && UniqueSlots(s1.peers)
    ensures Group(s.peers, c, primary, BeginOf(sub), group)
    ensures HelpersBusy(s1.peers, c, group)
  {
    var slots := RedundantPeers(s.peers, c, primary);
    group := RequestsTo(slots, 0, c, BeginOf(sub));
    GroupSpec(s.peers, c, primary, BeginOf(sub), slots);
    SendRedundantFrame(s, c, sub, slots, 0);
    s1 := SendRedundantSends(s, c, sub, slots, 0);
    var r0 := SendRedundantLaunches(s, c, sub, slots, 0);
    forall i | 0 <= i < |group| ensures BusyFor(s1.peers, c, group[i].slot) {
      var r := SendRedundantBusies(s, c, sub, slots, 0, i);
    }
    UniqueSlotsPersist(s.peers, s1.peers, c);
  }

  lemma GroupSpec(peers: seq<PeerSlot>, c: nat, primary: nat, begin: nat, slots: seq<(nat, nat)>)
    requires UniqueSlots(peers) && slots == RedundantPeers(peers, c, primary)
    ensures Connected(peers, slots)
    ensures var group := RequestsTo(slots, 0, c, begin);
            && |group| == |slots| <= 2
            && Group(peers, c, primary, begin, group)
            && (forall i :: 0 <= i < |group| ==> group[i].slot == slots[i].1)
  {
    RedundantPeersSpec(peers, c, primary);
    forall i | 0 <= i < |slots| ensures RequestsTo(slots, 0, c, begin)[i] == Request(slots[i].1, c, begin) {
      RequestsToAt(slots, 0, c, begin, i);
    }
    forall i | 0 <= i < |slots| ensures HasSlot(peers, slots[i].1) {
      assert Helper(peers, c, primary, slots[i].1);
    }
  }

  lemma RescueLater(s: State, c: nat, primary: nat, hunger: nat, sub: nat, now: nat, sent: seq<Effect>)
    requires Wf(s) && c < |s.chunks| && RescueSent(s, c, primary, hunger, sub + 1, now, sent)
    ensures RescueSent(s, c, primary, hunger, sub, now, sent)
  {
    forall i | 0 <= i < |sent| ensures RescueOf(s, c, primary, hunger, sub, now, sent[i]) {
      assert RescueOf(s, c, primary, hunger, sub + 1, now, sent[i]);
    }
  }

  lemma RescueJoin(s: State, s1: State, r: State, c: nat, primary: nat, hunger: nat, sub: nat, now: nat,
                   group: seq<Effect>, rest: seq<Effect>)
    requires Wf(s) && Wf(s1) && c < |s.chunks| && sub < Total(s, c) && Overdue(s, c, sub, now, hunger)
    requires s1 == s.(peers := s1.peers, effects := s.effects + group) && AllLaunchedFor(s.peers, s1.peers, c)
    requires Group(s.peers, c, primary, BeginOf(sub), group) && HelpersBusy(s1.peers, c, group)
    requires r == s1.(peers := r.peers, effects := s1.effects + rest) && AllLaunchedFor(s1.peers, r.peers, c)
    requires RescueSent(s1, c, primary, hunger, sub + 1, now, rest)
    ensures r == s.(peers := r.peers, effects := s.effects + (group + rest)) && AllLaunchedFor(s.peers, r.peers, c)
    ensures RescueSent(s, c, primary, hunger, sub, now, group + rest)
  {
    GroupThenRest(s, s1, c, primary, hunger, sub, now, group, rest);
    AllLaunchedForCompose(s.peers, s1.peers, r.peers, c);
    ConcatAssoc(s.effects, group, rest);
  }

  lemma {:induction false} RescueSpec(s: State, c: nat, primary: nat, hunger: nat, sub: nat, now: nat, hungry: bool)
    returns (r: Rescued, sent: seq<Effect>)
    requires Wf(s) && UniqueSlots(s.peers) && c < |s.chunks|
    ensures r == RescueFrom(s, c, primary, hunger, sub, now, hungry) && (hungry || |sent| > 0 ==> r.hungry)
    ensures Wf(r.s) && r.s == s.(peers := r.s.peers, effects := s.effects + sent)
    ensures AllLaunchedFor(s.peers, r.s.peers, c)
    ensures RescueSent(s, c, primary, hunger, sub, now, sent)
    decreases Total(s, c) - sub
  {
    if sub >= Total(s, c) {
      r, sent := Rescued(s, hungry), [];
    } else if !Overdue(s, c, sub, now, hunger) {
      r, sent := RescueSpec(s, c, primary, hunger, sub + 1, now, hungry);
      RescueLater(s, c, primary, hunger, sub, now, sent);
    } else {
      var s1, group := RescueStep(s, c, primary, hunger, sub, now);
      var rest;
      r, rest := RescueSpec(s1, c, primary, hunger, sub + 1, now, true);
      RescueJoin(s, s1, r.s, c, primary, hunger, sub, now, group, rest);
      sent := group + rest;
    }
  }

  // ---------------------------------------------------------------- the whole pass

  /** A redundant request that the pass is allowed to send from state s. */
  ghost predicate Rescue(s: State, now: nat, e: Effect)
    requires Wf(s)
  {
    && e.Request? && e.chunk < |s.chunks| && e.begin % 16384 == 0 && SubOf(e.begin) < Total(s, e.chunk)
    && var primary := Primary(s.peers, e.chunk);
       && Overdue(s, e.chunk, SubOf(e.begin), now, HungerMs(s.peers, primary))
       && Helper(s.peers, e.chunk, primary, e.slot)
  }

  ghost function ChunksOf(sent: seq<Effect>): set<nat> {
    set i | 0 <= i < |sent| && sent[i].Request? :: sent[i].chunk
  }

  /** Bounds on a pass that may still process `left` chunks. */
  ghost predicate PassBounded(s: State, now: nat, sent: seq<Effect>, left: nat)
    requires Wf(s)
  {
    && (forall i :: 0 <= i < |sent| ==> Rescue(s, now, sent[i]))
    && (forall slot, c :: CountIf(sent, ToPeer(slot, c)) <= 1)
    && (forall c, begin :: CountIf(sent, ForSubBlock(c, begin)) <= 2)
    && |ChunksOf(sent)| <= left
  }

  lemma {:induction false} PrimarySame(a: seq<PeerSlot>, b: seq<PeerSlot>, c: nat, k: nat)
    requires |a| == |b| && k <= |a|
    requires forall q :: 0 <= q < |a| ==> a[q].slotId == b[q].slotId && Flying(a[q], c) == Flying(b[q], c)
    ensures PrimaryOf(a, c, k) == PrimaryOf(b, c, k)
  {
    if k > 0 { PrimarySame(a, b, c, k - 1); }
  }

  lemma HungerSame(a: seq<PeerSlot>, b: seq<PeerSlot>, primary: nat)
    requires |a| == |b| && UniqueSlots(a)
    requires forall q :: 0 <= q < |a| ==> a[q].slotId == b[q].slotId && a[q].rttUs == b[q].rttUs
    ensures HungerMs(a, primary) == HungerMs(b, primary)
  {
    match FindSlot(a, primary)
    case None => assert FindSlot(b, primary).None?;
    case Some(q) => FindSlotUnique(b, q, primary);
  }

  /** Rescuing chunk c does not change who may be rescued for another chunk. */
  lemma RescueTransports(s: State, s1: State, c: nat, now: nat, e: Effect)
    requires Wf(s) && Wf(s1) && UniqueSlots(s.peers)
    requires s1 == s.(peers := s1.peers, effects := s1.effects) && AllLaunchedFor(s.peers, s1.peers, c)
    requires Rescue(s1, now, e) && e.chunk != c
    ensures Rescue(s, now, e)
  {
    forall q | 0 <= q < |s.peers|
      ensures s.peers[q].slotId == s1.peers[q].slotId && s.peers[q].rttUs == s1.peers[q].rttUs
      ensures Flying(s.peers[q], e.chunk) == Flying(s1.peers[q], e.chunk)
    {
      assert LaunchedFor(s.peers[q], s1.peers[q], c);
      OtherChunksUntouched(s.peers[q], s1.peers[q], c, e.chunk);
    }
    PrimarySame(s.peers, s1.peers, e.chunk, |s.peers|);
    HungerSame(s.peers, s1.peers, Primary(s.peers, e.chunk));
    var primary := Primary(s.peers, e.chunk);
    var q: nat :| q < |s1.peers| && s1.peers[q].slotId == e.slot && Redundant(s1.peers[q], e.chunk, primary);
    assert LaunchedFor(s.peers[q], s1.peers[q], c);
    OtherChunksUntouched(s.peers[q], s1.peers[q], c, e.chunk);
    assert Redundant(s.peers[q], e.chunk, primary);
  }

  /** Head requests are for c, tail requests for other chunks. */
  ghost predicate Separated(c: nat, head: seq<Effect>, tail: seq<Effect>) {
    && (forall i :: 0 <= i < |head| ==> head[i].Request? && head[i].chunk == c)
    && (forall i :: 0 <= i < |tail| ==> tail[i].Request? && tail[i].chunk != c)
  }

  /** What is counted for chunk c' stands on one side only. */
  lemma SeparatedSum(c: nat, head: seq<Effect>, tail: seq<Effect>, c': nat, p: Effect -> bool)
    requires Separated(c, head, tail) && forall e :: p(e) ==> e.Request? && e.chunk == c'
    ensures CountIf(head + tail, p) == if c' == c then CountIf(head, p) else CountIf(tail, p)
  {
    CountIfConcat(head, tail, p);
    if c' == c { CountIfNone(tail, p); } else { CountIfNone(head, p); }
  }

  lemma SeparatedCount(c: nat, head: seq<Effect>, tail: seq<Effect>)
    requires Separated(c, head, tail)
    ensures |ChunksOf(head + tail)| <= |ChunksOf(tail)| + (if |head| > 0 then 1 else 0)
  {
    var sent := head + tail;
    var extra := if |head| > 0 then {c} else {};
    forall x | x in ChunksOf(sent) ensures x in ChunksOf(tail) + extra {
      var i :| 0 <= i < |sent| && sent[i].Request? && sent[i].chunk == x;
      if i >= |head| { assert tail[i - |head|].chunk == x; }
    }
    SubsetSize(ChunksOf(sent), ChunksOf(tail) + extra);
  }

  lemma ChunkThenPass(s: State, s1: State, c: nat, now: nat, head: seq<Effect>, tail: seq<Effect>, left: nat)
    requires Wf(s) && Wf(s1) && UniqueSlots(s.peers) && c < |s.chunks|
    requires s1 == s.(peers := s1.peers, effects := s1.effects) && AllLaunchedFor(s.peers, s1.peers, c)
    requires RescueSent(s, c, Primary(s.peers, c), HungerMs(s.peers, Primary(s.peers, c)), 0, now, head)
    requires PassBounded(s1, now, tail, left) && Separated(c, head, tail)
    ensures PassBounded(s, now, head + tail, if |head| > 0 then left + 1 else left)
  {
    var sent := head + tail;
    forall i | 0 <= i < |sent| ensures Rescue(s, now, sent[i]) {
      if i >= |head| { RescueTransports(s, s1, c, now, tail[i - |head|]); }
    }
    forall slot, c' ensures CountIf(sent, ToPeer(slot, c')) <= 1 {
      SeparatedSum(c, head, tail, c', ToPeer(slot, c'));
    }
    forall c', begin ensures CountIf(sent, ForSubBlock(c', begin)) <= 2 {
      SeparatedSum(c, head, tail, c', ForSubBlock(c', begin));
    }
    SeparatedCount(c, head, tail);
  }

  lemma SubsetSize(a: set<nat>, b: set<nat>)
    requires a <= b
    ensures |a| <= |b|
  {
    assert b == a + (b - a);
  }

  lemma EndgameOne(s: State, list: seq<(nat, nat)>, k: nat, processed: nat, now: nat)
    returns (s1: State, processed1: nat, head: seq<Effect>)
    requires Wf(s) && UniqueSlots(s.peers) && k < |list| && processed < MAX_ENDGAME_CHUNKS
    requires ChunksWithin(list, |s.chunks|)
    ensures Wf(s1) && s1 == s.(peers := s1.peers, effects := s.effects + head)
    ensures EndgameList(s, list, k, processed, now) == EndgameList(s1, list, k + 1, processed1, now)
    ensures AllLaunchedFor(s.peers, s1.peers, list[k].1) && UniqueSlots(s1.peers)
    ensures RescueSent(s, list[k].1, Primary(s.peers, list[k].1),
                       HungerMs(s.peers, Primary(s.peers, list[k].1)), 0, now, head)
    ensures processed <= processed1 <= processed + 1 && (|head| > 0 ==> processed1 == processed + 1)
  {
    var c := list[k].1;
    var primary := Primary(s.peers, c);
    var hunger := HungerMs(s.peers, primary);
    s1, processed1, head := s, processed, [];
    if Total(s, c) != 0 {
      var r;
      r, head := RescueSpec(s, c, primary, hunger, 0, now, false);
      s1 := r.s;
      processed1 := if r.hungry then processed + 1 else processed;
      UniqueSlotsPersist(s.peers, s1.peers, c);
    }
  }

  /** The chunks of list[k..]. */
  function Rest(list: seq<(nat, nat)>, k: nat): set<nat>
    requires k <= |list|
    decreases |list| - k
  {
    if k == |list| then {} else {list[k].1} + Rest(list, k + 1)
  }

  /** No chunk occurs twice in list[k..]. */
  predicate Fresh(list: seq<(nat, nat)>, k: nat)
    requires k <= |list|
    decreases |list| - k
  {
    k < |list| ==> list[k].1 !in Rest(list, k + 1) && Fresh(list, k + 1)
  }

  lemma {:induction false} RestHas(list: seq<(nat, nat)>, k: nat, c: nat)
    requires k <= |list| && c in Rest(list, k)
    ensures exists x :: k <= x < |list| && list[x].1 == c
    decreases |list| - k
  {
    if c != list[k].1 { RestHas(list, k + 1, c); }
  }

  lemma {:induction false} DistinctIsFresh(list: seq<(nat, nat)>, k: nat)
    requires k <= |list| && DistinctSeconds(list)
    ensures Fresh(list, k)
    decreases |list| - k
  {
    if k < |list| {
      if list[k].1 in Rest(list, k + 1) { RestHas(list, k + 1, list[k].1); }
      DistinctIsFresh(list, k + 1);
    }
  }

  ghost predicate AllFor(sent: seq<Effect>, chunks: set<nat>) {
    forall i :: 0 <= i < |sent| ==> sent[i].Request? && sent[i].chunk in chunks
  }

  lemma HeadIsFor(s: State, c: nat, primary: nat, hunger: nat, now: nat, head: seq<Effect>)
    requires Wf(s) && c < |s.chunks| && RescueSent(s, c, primary, hunger, 0, now, head)
    ensures AllFor(head, {c})
  {
    forall i | 0 <= i < |head| ensures head[i].Request? && head[i].chunk in {c} {
      assert RescueOf(s, c, primary, hunger, 0, now, head[i]);
    }
  }

  lemma SplitByChunk(list: seq<(nat, nat)>, k: nat, head: seq<Effect>, tail: seq<Effect>)
    requires k < |list| && Fresh(list, k) && AllFor(head, {list[k].1}) && AllFor(tail, Rest(list, k + 1))
    ensures Separated(list[k].1, head, tail) && AllFor(head + tail, Rest(list, k))
  {
  }

  lemma EndgameJoin(s: State, s1: State, list: seq<(nat, nat)>, k: nat, now: nat,
                    head: seq<Effect>, tail: seq<Effect>, left: nat, left1: nat)
    requires Wf(s) && Wf(s1) && UniqueSlots(s.peers) && k < |list| && list[k].1 < |s.chunks| && Fresh(list, k)
    requires s1 == s.(peers := s1.peers, effects := s1.effects) && AllLaunchedFor(s.peers, s1.peers, list[k].1)
    requires RescueSent(s, list[k].1, Primary(s.peers, list[k].1),
                        HungerMs(s.peers, Primary(s.peers, list[k].1)), 0, now, head)
    requires PassBounded(s1, now, tail, left1) && AllFor(tail, Rest(list, k + 1))
    requires left1 <= left && (|head| > 0 ==> left1 < left)
    ensures PassBounded(s, now, head + tail, left)
    ensures AllFor(head + tail, Rest(list, k))
    ensures (s.effects + head) + tail == s.effects + (head + tail)
  {
    HeadIsFor(s, list[k].1, Primary(s.peers, list[k].1), HungerMs(s.peers, Primary(s.peers, list[k].1)), now, head);
    SplitByChunk(list, k, head, tail);
    ConcatAssoc(s.effects, head, tail);
    ChunkThenPass(s, s1, list[k].1, now, head, tail, left1);
  }

  lemma EmptyPass(s: State, now: nat, left: nat)
    requires Wf(s)
    ensures PassBounded(s, now, [], left) && s.effects + [] == s.effects
  {
    assert ChunksOf([]) == {};
  }

  /** One chunk of the pass: whatever bounded pass follows it, the two together are bounded. */
  lemma EndgameTurn(s: State, list: seq<(nat, nat)>, k: nat, processed: nat, now: nat)
    returns (s1: State, processed1: nat, head: seq<Effect>)
    requires Wf(s) && UniqueSlots(s.peers) && k < |list| && processed < MAX_ENDGAME_CHUNKS
    requires ChunksWithin(list, |s.chunks|) && Fresh(list, k)
    ensures Wf(s1) && UniqueSlots(s1.peers) && |s1.chunks| == |s.chunks| && s1.effects == s.effects + head
    ensures EndgameList(s, list, k, processed, now) == EndgameList(s1, list, k + 1, processed1, now)
    ensures processed <= processed1 <= MAX_ENDGAME_CHUNKS
    ensures forall tail | Follows(s1, list, k + 1, processed1, now, tail) ::
              Follows(s, list, k, processed, now, head + tail)
  {
    s1, processed1, head := EndgameOne(s, list, k, processed, now);
    forall tail | Follows(s1, list, k + 1, processed1, now, tail)
      ensures Follows(s, list, k, processed, now, head + tail)
    {
      EndgameJoin(s, s1, list, k, now, head, tail, MAX_ENDGAME_CHUNKS - processed, MAX_ENDGAME_CHUNKS - processed1);
    }
  }

  /** What a pass over list[k..] may send from s. */
  ghost predicate Follows(s: State, list: seq<(nat, nat)>, k: nat, processed: nat, now: nat, sent: seq<Effect>)
    requires Wf(s) && k <= |list| && processed <= MAX_ENDGAME_CHUNKS
  {
    PassBounded(s, now, sent, MAX_ENDGAME_CHUNKS - processed) && AllFor(sent, Rest(list, k))
  }

  lemma {:induction false} EndgameListBounded(s: State, list: seq<(nat, nat)>, k: nat, processed: nat, now: nat)
    returns (r: State, sent: seq<Effect>)
    requires Wf(s) && UniqueSlots(s.peers) && k <= |list| && processed <= MAX_ENDGAME_CHUNKS
    requires ChunksWithin(list, |s.chunks|) && Fresh(list, k)
    ensures r == EndgameList(s, list, k, processed, now)
    ensures r.effects == s.effects + sent && Follows(s, list, k, processed, now, sent)
    decreases |list| - k
  {
    if k == |list| || processed >= MAX_ENDGAME_CHUNKS {
      r, sent := s, [];
      EmptyPass(s, now, MAX_ENDGAME_CHUNKS - processed);
    } else {
      var s1, processed1, head := EndgameTurn(s, list, k, processed, now);
      var tail;
      r, tail := EndgameListBounded(s1, list, k + 1, processed1, now);
      ConcatAssoc(s.effects, head, tail);
      sent := head + tail;
    }
  }

  lemma {:induction false} DownloadingDistinct(s: State, k: nat)
    requires Wf(s) && k <= |s.active| && NoDup(s.active)
    ensures forall x | x in DownloadingOf(s, k) :: x.1 in s.active[..k]
    ensures DistinctSeconds(DownloadingOf(s, k))
  {
    if k > 0 {
      DownloadingDistinct(s, k - 1);
      var prev, all := DownloadingOf(s, k - 1), DownloadingOf(s, k);
      assert s.active[..k] == s.active[..k - 1] + [s.active[k - 1]];
      forall i, j | 0 <= i < j < |all| ensures all[i].1 != all[j].1 {
        if j == |prev| { assert prev[i] in prev; }
      }
    }
  }

  /** One endgame pass sends redundant requests for at most 32 chunks, at most two per overdue
      sub-block and at most one per peer and chunk, each to an unchoked peer that advertises the
      chunk, has fewer than three timeouts, is not the primary and had nothing of it in flight. */
  lemma EndgamePassIsBounded(s: State, now: nat)
    requires Inv(s)
    ensures exists sent :: TickEndgame(s, now).effects == s.effects + sent && PassBounded(s, now, sent, 32)
  {
    DownloadingDistinct(s, |s.active|);
    StableSortPermutes(DownloadingOf(s, |s.active|), ByFirst);
    ReorderKeepsDistinct(DownloadingOf(s, |s.active|), EndgameOrder(s));
    DistinctIsFresh(EndgameOrder(s), 0);
    var r, sent := EndgameListBounded(s, EndgameOrder(s), 0, 0, now);
  }
}
