/** Which chunks a task need not download: blocks of the previous version that can be cloned, and
    chunks already in place when a download is resumed. */
module Reuse {
  import opened Counting
  import opened Assembly
  import FastCdc

  datatype Block = Block(hash: nat, offset: nat, length: nat)

  function KeyOf(b: Block): (nat, nat) { (b.hash, b.length) }

  function HasKey(key: (nat, nat)): Block -> bool { (b: Block) => KeyOf(b) == key }

  function IsBlock(x: Block): Block -> bool { (b: Block) => b == x }

  /** How often a (hash, length) pair occurs. */
  function KeyCount(bs: seq<Block>, key: (nat, nat)): nat { CountIf(bs, HasKey(key)) }

  function BlockCount(bs: seq<Block>, x: Block): nat { CountIf(bs, IsBlock(x)) }

  ghost predicate InFile(file: seq<byte>, b: Block) { b.offset + b.length <= |file| }

  /** The file's bytes at the block hash to the block's entry. */
  ghost predicate Holds(hash: seq<byte> -> nat, file: seq<byte>, b: Block) {
    InFile(file, b) && hash(file[b.offset..b.offset + b.length]) == b.hash
  }

  predicate Apart(a: Block, b: Block) {
    a.offset + a.length <= b.offset || b.offset + b.length <= a.offset
  }

  ghost predicate Disjoint(bs: seq<Block>) {
    forall i, j :: 0 <= i < j < |bs| ==> Apart(bs[i], bs[j])
  }

  // ---------------------------------------------------------------- the index of old blocks

  type Index = map<nat, seq<Block>>

  function Under(index: Index, h: nat): seq<Block> { if h in index then index[h] else [] }

  function WithHash(bs: seq<Block>, h: nat): seq<Block> {
    if bs == [] then []
    else WithHash(bs[..|bs| - 1], h) + (if bs[|bs| - 1].hash == h then [bs[|bs| - 1]] else [])
  }

  /** The index lists the given blocks by hash, in order. */
  ghost predicate Indexes(index: Index, left: seq<Block>) {
    forall h :: Under(index, h) == WithHash(left, h)
  }

  lemma WithHashPush(bs: seq<Block>, b: Block, h: nat)
    ensures WithHash(bs + [b], h) == WithHash(bs, h) + (if b.hash == h then [b] else [])
  {
    assert (bs + [b])[..|bs|] == bs;
  }

  method BuildIndex(olds: seq<Block>) returns (index: Index)
    ensures Indexes(index, olds)
  {
    index := map[];
    for i := 0 to |olds|
      invariant Indexes(index, olds[..i])
    {
      var b := olds[i];
      assert olds[..i + 1] == olds[..i] + [b];
      ghost var before := index;
      index := index[b.hash := Under(index, b.hash) + [b]];
      forall h ensures Under(index, h) == WithHash(olds[..i + 1], h) {
        WithHashPush(olds[..i], b, h);
        assert Under(before, h) == WithHash(olds[..i], h);
      }
    }
    assert olds[..|olds|] == olds;
  }

  function Removed(bs: seq<Block>, k: nat): seq<Block>
    requires k < |bs|
  {
    bs[..k] + bs[k + 1..]
  }

  lemma RemovedOne(bs: seq<Block>, k: nat, p: Block -> bool)
    requires k < |bs|
    ensures CountIf(bs, p) == CountIf(Removed(bs, k), p) + (if p(bs[k]) then 1 else 0)
  {
    assert bs == bs[..k] + ([bs[k]] + bs[k + 1..]);
    CountIfConcat(bs[..k], [bs[k]] + bs[k + 1..], p);
    CountIfConcat([bs[k]], bs[k + 1..], p);
    CountIfConcat(bs[..k], bs[k + 1..], p);
  }

  lemma {:induction false} WithHashConcat(a: seq<Block>, b: seq<Block>, h: nat)
    ensures WithHash(a + b, h) == WithHash(a, h) + WithHash(b, h)
  {
    if b == [] {
      assert a + b == a;
    } else {
      assert (a + b)[..|a + b| - 1] == a + b[..|b| - 1];
      WithHashConcat(a, b[..|b| - 1], h);
    }
  }

  /** Where the k-th block with hash h stands. */
  ghost function Position(bs: seq<Block>, h: nat, k: nat): (pos: nat)
    requires k < |WithHash(bs, h)|
    ensures pos < |bs| && bs[pos] == WithHash(bs, h)[k] && bs[pos].hash == h && |WithHash(bs[..pos], h)| == k
  {
    var init := bs[..|bs| - 1];
    if k < |WithHash(init, h)|
    then var pos := Position(init, h, k); assert bs[..pos] == init[..pos]; pos
    else |bs| - 1
  }

  lemma RemoveMiddle(a: seq<Block>, x: Block, b: seq<Block>)
    ensures Removed(a + ([x] + b), |a|) == a + b
  {
  }

  lemma WithHashSplit(bs: seq<Block>, pos: nat, h: nat)
    requires pos < |bs|
    ensures WithHash(bs, h) == WithHash(bs[..pos], h) +
            ((if bs[pos].hash == h then [bs[pos]] else []) + WithHash(bs[pos + 1..], h))
    ensures WithHash(Removed(bs, pos), h) == WithHash(bs[..pos], h) + WithHash(bs[pos + 1..], h)
  {
    assert bs == bs[..pos] + ([bs[pos]] + bs[pos + 1..]);
    WithHashConcat(bs[..pos], bs[pos + 1..], h);
    WithHashConcat(bs[..pos], [bs[pos]] + bs[pos + 1..], h);
    WithHashConcat([bs[pos]], bs[pos + 1..], h);
  }

  lemma WithHashRemoved(bs: seq<Block>, h: nat, k: nat, other: nat)
    requires k < |WithHash(bs, h)|
    ensures WithHash(Removed(bs, Position(bs, h, k)), other) ==
            if other == h then Removed(WithHash(bs, h), k) else WithHash(bs, other)
  {
    var pos := Position(bs, h, k);
    WithHashSplit(bs, pos, other);
    if other == h {
      RemoveMiddle(WithHash(bs[..pos], h), bs[pos], WithHash(bs[pos + 1..], h));
    } else {
      assert [] + WithHash(bs[pos + 1..], other) == WithHash(bs[pos + 1..], other);
    }
  }

  /** Taking a candidate out of its list, and the list out of the index when it becomes empty. */
  function TakenOut(index: Index, h: nat, k: nat): Index
    requires h in index && k < |index[h]|
  {
    var rest := Removed(index[h], k);
    if rest == [] then index - {h} else index[h := rest]
  }

  lemma IndexShrinks(index: Index, left: seq<Block>, h: nat, k: nat)
    requires Indexes(index, left) && h in index && k < |index[h]|
    ensures index[h] == WithHash(left, h)
    ensures Indexes(TakenOut(index, h, k), Removed(left, Position(left, h, k)))
  {
    assert Under(index, h) == WithHash(left, h);
    var index' := TakenOut(index, h, k);
    forall x ensures Under(index', x) == WithHash(Removed(left, Position(left, h, k)), x) {
      WithHashRemoved(left, h, k, x);
      assert Under(index, x) == WithHash(left, x);
    }
  }

  // ---------------------------------------------------------------- cloning

  /** What one `clone_range` call did: copied the range, or failed after leaving garbage at its start. */
  datatype Outcome = Cloned | Failed(garbage: seq<byte>)

  ghost predicate AlwaysClones(clone: nat -> Outcome) { forall call :: clone(call) == Cloned }

  function AfterClone(o: Outcome, oldFile: seq<byte>, src: Block, file: seq<byte>, dst: Block): (r: seq<byte>)
    requires src.offset + src.length <= |oldFile| && dst.offset + dst.length <= |file| && src.length == dst.length
    ensures |r| == |file|
  {
    match o
    case Cloned => Overwrite(file, dst.offset, oldFile[src.offset..src.offset + src.length])
    case Failed(garbage) =>
      var n := if |garbage| < dst.length then |garbage| else dst.length;
      Overwrite(file, dst.offset, garbage[..n])
  }

  /** A clone does not touch bytes outside its target. */
  lemma CloneStaysInside(hash: seq<byte> -> nat, o: Outcome, oldFile: seq<byte>, src: Block, file: seq<byte>,
                         dst: Block, other: Block)
    requires src.offset + src.length <= |oldFile| && dst.offset + dst.length <= |file| && src.length == dst.length
    requires Apart(dst, other) && Holds(hash, file, other)
    ensures Holds(hash, AfterClone(o, oldFile, src, file, dst), other)
  {
    var r := AfterClone(o, oldFile, src, file, dst);
    assert r[other.offset..other.offset + other.length] == file[other.offset..other.offset + other.length];
  }

  lemma CloneFills(hash: seq<byte> -> nat, oldFile: seq<byte>, src: Block, file: seq<byte>, dst: Block)
    requires Holds(hash, oldFile, src) && InFile(file, dst) && KeyOf(src) == KeyOf(dst)
    ensures Holds(hash, AfterClone(Cloned, oldFile, src, file, dst), dst)
  {
    var r := AfterClone(Cloned, oldFile, src, file, dst);
    assert r[dst.offset..dst.offset + dst.length] == oldFile[src.offset..src.offset + src.length];
  }

  // ---------------------------------------------------------------- greedy matching

  /** The chunks whose bit is set. */
  function Chosen(bs: seq<Block>, bits: seq<bool>): seq<Block>
    requires |bs| == |bits|
  {
    if bs == [] then []
    else Chosen(bs[..|bs| - 1], bits[..|bs| - 1]) + (if bits[|bs| - 1] then [bs[|bs| - 1]] else [])
  }

  function TotalLength(bs: seq<Block>): nat {
    if bs == [] then 0 else TotalLength(bs[..|bs| - 1]) + bs[|bs| - 1].length
  }

  lemma ChosenPush(bs: seq<Block>, bits: seq<bool>, i: nat, bit: bool)
    requires i < |bs| && |bits| == i
    ensures Chosen(bs[..i + 1], bits + [bit]) == Chosen(bs[..i], bits) + (if bit then [bs[i]] else [])
  {
    assert bs[..i + 1][..i] == bs[..i] && (bits + [bit])[..i] == bits;
  }

  lemma TotalPush(bs: seq<Block>, b: Block)
    ensures TotalLength(bs + [b]) == TotalLength(bs) + b.length
  {
    assert (bs + [b])[..|bs|] == bs;
  }

  // ---------------------------------------------------------------- the books

  function HasLength(length: nat): Block -> bool { (b: Block) => b.length == length }

  lemma {:induction false} CandidatesCount(bs: seq<Block>, h: nat, length: nat)
    ensures KeyCount(bs, (h, length)) == CountIf(WithHash(bs, h), HasLength(length))
  {
    if bs != [] {
      var init, last := bs[..|bs| - 1], bs[|bs| - 1];
      assert bs == init + [last];
      CandidatesCount(init, h, length);
      CountIfPush(init, last, HasKey((h, length)));
      WithHashPush(init, last, h);
      CountIfPush(WithHash(init, h), last, HasLength(length));
      assert WithHash(init, h) + [] == WithHash(init, h);
    }
  }

  /** What is left and what was used are the old blocks, each as often as before, and every used one
      has the key of a chunk that was marked. */
  ghost predicate Books(olds: seq<Block>, left: seq<Block>, used: seq<Block>, chosen: seq<Block>) {
    && (forall x :: BlockCount(left, x) + BlockCount(used, x) == BlockCount(olds, x))
    && (forall key :: KeyCount(left, key) + KeyCount(used, key) == KeyCount(olds, key))
    && (forall key :: KeyCount(used, key) == KeyCount(chosen, key))
  }

  lemma BooksUse(olds: seq<Block>, left: seq<Block>, used: seq<Block>, chosen: seq<Block>, pos: nat, want: Block)
    requires Books(olds, left, used, chosen) && pos < |left| && KeyOf(left[pos]) == KeyOf(want)
    ensures Books(olds, Removed(left, pos), used + [left[pos]], chosen + [want])
  {
    var left', used', chosen' := Removed(left, pos), used + [left[pos]], chosen + [want];
    forall x ensures BlockCount(left', x) + BlockCount(used', x) == BlockCount(olds, x) {
      RemovedOne(left, pos, IsBlock(x));
      CountIfPush(used, left[pos], IsBlock(x));
      assert BlockCount(left, x) + BlockCount(used, x) == BlockCount(olds, x);
    }
    forall key
      ensures KeyCount(left', key) + KeyCount(used', key) == KeyCount(olds, key)
      ensures KeyCount(used', key) == KeyCount(chosen', key)
    {
      RemovedOne(left, pos, HasKey(key));
      CountIfPush(used, left[pos], HasKey(key));
      CountIfPush(chosen, want, HasKey(key));
      assert KeyCount(left, key) + KeyCount(used, key) == KeyCount(olds, key);
      assert KeyCount(used, key) == KeyCount(chosen, key);
    }
  }

  function Min(a: nat, b: nat): nat { if a < b then a else b }

  /** Every key is marked as often as both sides have it. */
  ghost predicate IsIntersection(chosen: seq<Block>, olds: seq<Block>, news: seq<Block>) {
    forall key :: KeyCount(chosen, key) == Min(KeyCount(olds, key), KeyCount(news, key))
  }

  lemma IntersectionGrows(olds: seq<Block>, left: seq<Block>, used: seq<Block>, chosen: seq<Block>, news: seq<Block>,
                          want: Block)
    requires Books(olds, left, used, chosen) && IsIntersection(chosen, olds, news)
    ensures IsIntersection(if KeyCount(left, KeyOf(want)) > 0 then chosen + [want] else chosen, olds, news + [want])
  {
    var chosen' := if KeyCount(left, KeyOf(want)) > 0 then chosen + [want] else chosen;
    forall key ensures KeyCount(chosen', key) == Min(KeyCount(olds, key), KeyCount(news + [want], key)) {
      CountIfPush(news, want, HasKey(key));
      CountIfPush(chosen, want, HasKey(key));
      assert KeyCount(left, key) + KeyCount(used, key) == KeyCount(olds, key);
      assert KeyCount(used, key) == KeyCount(chosen, key);
      assert KeyCount(chosen, key) == Min(KeyCount(olds, key), KeyCount(news, key));
    }
  }

  // ---------------------------------------------------------------- the reuse loop

  /** The first candidate of the right length whose clone succeeds, or |candidates| if there is none. */
  method CloneFirst(hash: seq<byte> -> nat, oldFile: seq<byte>, candidates: seq<Block>, want: Block, file0: seq<byte>,
                    clone: nat -> Outcome, calls0: nat, ghost others: seq<Block>)
    returns (k: nat, file: seq<byte>, calls: nat)
    requires forall j :: 0 <= j < |candidates| ==>
               candidates[j].hash == want.hash && Holds(hash, oldFile, candidates[j])
    requires InFile(file0, want)
    requires forall j :: 0 <= j < |others| ==> Apart(want, others[j]) && Holds(hash, file0, others[j])
    ensures k <= |candidates| && |file| == |file0|
    ensures k < |candidates| ==> candidates[k].length == want.length && Holds(hash, file, want)
    ensures forall j :: 0 <= j < |others| ==> Holds(hash, file, others[j])
    ensures AlwaysClones(clone) && k == |candidates| ==> forall j :: 0 <= j < k ==> candidates[j].length != want.length
  {
    file, calls := file0, calls0;
    for j := 0 to |candidates|
      invariant |file| == |file0|
      invariant forall i :: 0 <= i < |others| ==> Holds(hash, file, others[i])
      invariant AlwaysClones(clone) ==> forall i :: 0 <= i < j ==> candidates[i].length != want.length
    {
      var cand := candidates[j];
      if cand.length == want.length {
        var outcome := clone(calls);
        calls := calls + 1;
        forall i | 0 <= i < |others| ensures Holds(hash, AfterClone(outcome, oldFile, cand, file, want), others[i]) {
          CloneStaysInside(hash, outcome, oldFile, cand, file, want, others[i]);
        }
        if outcome == Cloned {
          CloneFills(hash, oldFile, cand, file, want);
        }
        file := AfterClone(outcome, oldFile, cand, file, want);
        if outcome == Cloned {
          return j, file, calls;
        }
      }
    }
    k := |candidates|;
  }

  /** Every block was read off the old file by the scan. */
  ghost predicate AllHold(hash: seq<byte> -> nat, file: seq<byte>, bs: seq<Block>) {
    forall j :: 0 <= j < |bs| ==> Holds(hash, file, bs[j])
  }

  lemma {:induction false} WithHashHolds(hash: seq<byte> -> nat, file: seq<byte>, bs: seq<Block>, h: nat)
    requires AllHold(hash, file, bs)
    ensures AllHold(hash, file, WithHash(bs, h))
    ensures forall j :: 0 <= j < |WithHash(bs, h)| ==> WithHash(bs, h)[j].hash == h
  {
    if bs != [] { WithHashHolds(hash, file, bs[..|bs| - 1], h); }
  }

  /** Nothing of the wanted key is on offer when no candidate has its length. */
  lemma NoneOnOffer(index: Index, left: seq<Block>, want: Block)
    requires Indexes(index, left)
    requires forall j :: 0 <= j < |Under(index, want.hash)| ==> Under(index, want.hash)[j].length != want.length
    ensures KeyCount(left, KeyOf(want)) == 0
  {
    assert Under(index, want.hash) == WithHash(left, want.hash);
    CandidatesCount(left, want.hash, want.length);
    CountIfNone(WithHash(left, want.hash), HasLength(want.length));
  }

  lemma SomeOnOffer(left: seq<Block>, pos: nat, want: Block)
    requires pos < |left| && KeyOf(left[pos]) == KeyOf(want)
    ensures KeyCount(left, KeyOf(want)) > 0
  {
    CountIfSome(left, pos, HasKey(KeyOf(want)));
  }

  /** The chunks marked so far lie apart from the next one. */
  lemma {:induction false} ChosenApart(news: seq<Block>, bits: seq<bool>, i: nat)
    requires i < |news| && |bits| <= i && Disjoint(news)
    ensures forall j :: 0 <= j < |Chosen(news[..|bits|], bits)| ==> Apart(news[i], Chosen(news[..|bits|], bits)[j])
    decreases |bits|
  {
    if bits != [] {
      var n := |bits| - 1;
      assert news[..n + 1][..n] == news[..n];
      ChosenApart(news, bits[..n], i);
    }
  }

  lemma {:induction false} ChosenHas(bs: seq<Block>, bits: seq<bool>, i: nat)
    requires |bs| == |bits| && i < |bs| && bits[i]
    ensures exists j :: 0 <= j < |Chosen(bs, bits)| && Chosen(bs, bits)[j] == bs[i]
  {
    var n := |bs| - 1;
    if i < n {
      ChosenHas(bs[..n], bits[..n], i);
      var j :| 0 <= j < |Chosen(bs[..n], bits[..n])| && Chosen(bs[..n], bits[..n])[j] == bs[i];
      assert Chosen(bs, bits)[j] == bs[i];
    } else {
      assert Chosen(bs, bits)[|Chosen(bs, bits)| - 1] == bs[i];
    }
  }

  /** One wanted chunk: tries to clone it and takes the block it used out of the index. */
  method ReuseOne(hash: seq<byte> -> nat, oldFile: seq<byte>, index0: Index, want: Block, file0: seq<byte>,
                  clone: nat -> Outcome, calls0: nat, ghost left0: seq<Block>, ghost chosen: seq<Block>)
    returns (bit: bool, index: Index, file: seq<byte>, calls: nat, ghost left: seq<Block>, ghost taken: Block)
    requires Indexes(index0, left0) && AllHold(hash, oldFile, left0) && InFile(file0, want)
    requires AllHold(hash, file0, chosen) && forall j :: 0 <= j < |chosen| ==> Apart(want, chosen[j])
    ensures |file| == |file0| && Indexes(index, left) && AllHold(hash, oldFile, left) && AllHold(hash, file, chosen)
    ensures bit ==> Holds(hash, file, want) && KeyOf(taken) == KeyOf(want)
    ensures if bit then exists pos :: 0 <= pos < |left0| && left0[pos] == taken && left == Removed(left0, pos)
            else left == left0
    ensures AlwaysClones(clone) ==> (bit <==> KeyCount(left0, KeyOf(want)) > 0)
  {
    bit, index, file, calls, left, taken := false, index0, file0, calls0, left0, want;
    if want.hash in index {
      var candidates := index[want.hash];
      assert Under(index, want.hash) == WithHash(left0, want.hash);
      WithHashHolds(hash, oldFile, left0, want.hash);
      var k;
      k, file, calls := CloneFirst(hash, oldFile, candidates, want, file, clone, calls, chosen);
      if k < |candidates| {
        ghost var pos := Position(left0, want.hash, k);
        IndexShrinks(index, left0, want.hash, k);
        SomeOnOffer(left0, pos, want);
        bit, taken, left := true, left0[pos], Removed(left0, pos);
        index := TakenOut(index, want.hash, k);
        return;
      }
    }
    if AlwaysClones(clone) { NoneOnOffer(index, left0, want); }
  }

  /** Old blocks come from a scan of the old file; new chunks lie apart in the new file.
      Each old block is used at most once, for a chunk with the same hash and length; every marked
      chunk ends up with bytes that hash to its entry, whatever failed clones left behind; and when
      every clone succeeds, what is marked is exactly the intersection of the two files as multisets
      of (hash, length) pairs. */
  method ReuseBlocks(hash: seq<byte> -> nat, oldFile: seq<byte>, olds: seq<Block>, news: seq<Block>, file0: seq<byte>,
                     clone: nat -> Outcome)
    returns (bits: seq<bool>, matchedBytes: nat, file: seq<byte>, ghost used: seq<Block>)
    requires AllHold(hash, oldFile, olds)
    requires Disjoint(news) && forall i :: 0 <= i < |news| ==> InFile(file0, news[i])
    ensures |bits| == |news| && |file| == |file0|
    ensures forall x :: BlockCount(used, x) <= BlockCount(olds, x)
    ensures forall key :: KeyCount(used, key) == KeyCount(Chosen(news, bits), key)
    ensures forall key :: KeyCount(Chosen(news, bits), key) <= Min(KeyCount(olds, key), KeyCount(news, key))
    ensures AlwaysClones(clone) ==> IsIntersection(Chosen(news, bits), olds, news)
    ensures forall i :: 0 <= i < |news| && bits[i] ==> Holds(hash, file, news[i])
    ensures matchedBytes == TotalLength(Chosen(news, bits))
  {
    var index := BuildIndex(olds);
    bits, matchedBytes, file, used := [], 0, file0, [];
    var calls := 0;
    ghost var left, chosen := olds, [];
    assert news[..0] == [];
    BooksOpen(olds);
    for i := 0 to |news|
      invariant |bits| == i && |file| == |file0| && chosen == Chosen(news[..i], bits)
      invariant Indexes(index, left) && AllHold(hash, oldFile, left) && Books(olds, left, used, chosen)
      invariant AlwaysClones(clone) ==> IsIntersection(chosen, olds, news[..i])
      invariant AllHold(hash, file, chosen)
      invariant matchedBytes == TotalLength(chosen)
    {
      var want := news[i];
      ChosenApart(news, bits, i);
      ghost var before := left;
      var bit;
      ghost var taken;
      bit, index, file, calls, left, taken := ReuseOne(hash, oldFile, index, want, file, clone, calls, left, chosen);
      ChosenPush(news, bits, i, bit);
      IntersectionOrNot(clone, olds, before, used, chosen, news, i, bit);
      if bit {
        used, chosen := Use(hash, file, olds, before, left, used, chosen, taken, want);
        matchedBytes := matchedBytes + want.length;
      }
      bits := bits + [bit];
    }
    assert news[..|news|] == news;
    NoMoreThanOffered(olds, left, used, chosen, news, bits);
    ChosenStill(hash, file, news, bits, chosen);
  }

  lemma BooksOpen(olds: seq<Block>)
    ensures Books(olds, olds, [], []) && IsIntersection([], olds, [])
  {
  }

  lemma Use(hash: seq<byte> -> nat, file: seq<byte>, olds: seq<Block>, before: seq<Block>, left: seq<Block>,
            used: seq<Block>,
            chosen: seq<Block>, taken: Block, want: Block)
    returns (used': seq<Block>, chosen': seq<Block>)
    requires Books(olds, before, used, chosen) && KeyOf(taken) == KeyOf(want)
    requires exists pos :: 0 <= pos < |before| && before[pos] == taken && left == Removed(before, pos)
    requires AllHold(hash, file, chosen) && Holds(hash, file, want)
    ensures Books(olds, left, used', chosen') && chosen' == chosen + [want] && AllHold(hash, file, chosen')
    ensures TotalLength(chosen') == TotalLength(chosen) + want.length
  {
    var pos :| 0 <= pos < |before| && before[pos] == taken && left == Removed(before, pos);
    BooksUse(olds, before, used, chosen, pos, want);
    TotalPush(chosen, want);
    used', chosen' := used + [taken], chosen + [want];
  }

  lemma {:induction false} ChosenAtMost(bs: seq<Block>, bits: seq<bool>, key: (nat, nat))
    requires |bs| == |bits|
    ensures KeyCount(Chosen(bs, bits), key) <= KeyCount(bs, key)
  {
    if bs != [] {
      var n := |bs| - 1;
      ChosenAtMost(bs[..n], bits[..n], key);
      assert bs == bs[..n] + [bs[n]];
      CountIfPush(bs[..n], bs[n], HasKey(key));
      CountIfPush(Chosen(bs[..n], bits[..n]), bs[n], HasKey(key));
      assert !bits[n] ==> Chosen(bs, bits) == Chosen(bs[..n], bits[..n]);
    }
  }

  lemma NoMoreThanOffered(olds: seq<Block>, left: seq<Block>, used: seq<Block>, chosen: seq<Block>, news: seq<Block>,
                          bits: seq<bool>)
    requires |news| == |bits| && chosen == Chosen(news, bits) && Books(olds, left, used, chosen)
    ensures forall x :: BlockCount(used, x) <= BlockCount(olds, x)
    ensures forall key :: KeyCount(chosen, key) <= Min(KeyCount(olds, key), KeyCount(news, key))
  {
    forall x ensures BlockCount(used, x) <= BlockCount(olds, x) {
      assert BlockCount(left, x) + BlockCount(used, x) == BlockCount(olds, x);
    }
    forall key ensures KeyCount(chosen, key) <= Min(KeyCount(olds, key), KeyCount(news, key)) {
      ChosenAtMost(news, bits, key);
      assert KeyCount(left, key) + KeyCount(used, key) == KeyCount(olds, key);
      assert KeyCount(used, key) == KeyCount(chosen, key);
    }
  }

  lemma IntersectionOrNot(clone: nat -> Outcome, olds: seq<Block>, left: seq<Block>, used: seq<Block>,
                          chosen: seq<Block>,
                          news: seq<Block>, i: nat, bit: bool)
    requires i < |news| && Books(olds, left, used, chosen)
    requires AlwaysClones(clone) ==> IsIntersection(chosen, olds, news[..i])
    requires AlwaysClones(clone) ==> (bit <==> KeyCount(left, KeyOf(news[i])) > 0)
    ensures AlwaysClones(clone) ==> IsIntersection(if bit then chosen + [news[i]] else chosen, olds, news[..i + 1])
  {
    assert news[..i + 1] == news[..i] + [news[i]];
    if AlwaysClones(clone) { IntersectionGrows(olds, left, used, chosen, news[..i], news[i]); }
  }

  lemma ChosenStill(hash: seq<byte> -> nat, file: seq<byte>, news: seq<Block>, bits: seq<bool>, chosen: seq<Block>)
    requires |bits| == |news| && chosen == Chosen(news, bits) && AllHold(hash, file, chosen)
    ensures forall j :: 0 <= j < |news| && bits[j] ==> Holds(hash, file, news[j])
  {
    forall j | 0 <= j < |news| && bits[j] ensures Holds(hash, file, news[j]) {
      ChosenHas(news, bits, j);
    }
  }

  // ---------------------------------------------------------------- as multisets

  function Bag(bs: seq<Block>): multiset<(nat, nat)> {
    if bs == [] then multiset{} else multiset{KeyOf(bs[0])} + Bag(bs[1..])
  }

  lemma {:induction false} BagCounts(bs: seq<Block>, key: (nat, nat))
    ensures Bag(bs)[key] == KeyCount(bs, key)
  {
    if bs != [] { BagCounts(bs[1..], key); }
  }

  /** Being the intersection is equality with the multiset intersection. */
  lemma IntersectionOfBags(chosen: seq<Block>, olds: seq<Block>, news: seq<Block>)
    ensures IsIntersection(chosen, olds, news) <==> Bag(chosen) == Bag(olds) * Bag(news)
  {
    forall key
      ensures Bag(chosen)[key] == KeyCount(chosen, key)
      ensures (Bag(olds) * Bag(news))[key] == Min(KeyCount(olds, key), KeyCount(news, key))
    {
      BagCounts(chosen, key);
      BagCounts(olds, key);
      BagCounts(news, key);
    }
    if IsIntersection(chosen, olds, news) {
      forall key ensures Bag(chosen)[key] == (Bag(olds) * Bag(news))[key] {
        assert KeyCount(chosen, key) == Min(KeyCount(olds, key), KeyCount(news, key));
      }
    } else {
      var key :| KeyCount(chosen, key) != Min(KeyCount(olds, key), KeyCount(news, key));
      assert Bag(chosen)[key] != (Bag(olds) * Bag(news))[key];
    }
  }

  // ---------------------------------------------------------------- resuming

  method FindSame(candidates: seq<Block>, want: Block) returns (found: bool)
    ensures found <==> exists k :: 0 <= k < |candidates| && SamePlace(candidates[k], want)
  {
    for k := 0 to |candidates|
      invariant forall j :: 0 <= j < k ==> !SamePlace(candidates[j], want)
    {
      if SamePlace(candidates[k], want) {
        return true;
      }
    }
    return false;
  }

  predicate SamePlace(a: Block, b: Block) { a.offset == b.offset && a.length == b.length }

  /** A resumed download keeps exactly the chunks that a scan of the partial file finds again: same
      hash, offset and length. */
  method ResumeMatch(locals: seq<Block>, wants: seq<Block>) returns (bits: seq<bool>, bytes: nat)
    ensures |bits| == |wants|
    ensures forall i :: 0 <= i < |wants| ==> (bits[i] <==> wants[i] in locals)
    ensures bytes == TotalLength(Chosen(wants, bits))
  {
    var index := BuildIndex(locals);
    bits, bytes := [], 0;
    assert wants[..0] == [];
    for i := 0 to |wants|
      invariant |bits| == i && bytes == TotalLength(Chosen(wants[..i], bits))
      invariant forall j :: 0 <= j < i ==> (bits[j] <==> wants[j] in locals)
    {
      var want := wants[i];
      FoundByHash(index, locals, want);
      var bit := false;
      if want.hash in index {
        bit := FindSame(index[want.hash], want);
      }
      TotalChosen(wants, bits, i, bit);
      if bit {
        bytes := bytes + want.length;
      }
      bits := bits + [bit];
    }
    assert wants[..|wants|] == wants;
  }

  lemma TotalChosen(bs: seq<Block>, bits: seq<bool>, i: nat, bit: bool)
    requires i < |bs| && |bits| == i
    ensures TotalLength(Chosen(bs[..i + 1], bits + [bit])) ==
            TotalLength(Chosen(bs[..i], bits)) + (if bit then bs[i].length else 0)
  {
    ChosenPush(bs, bits, i, bit);
    TotalPush(Chosen(bs[..i], bits), bs[i]);
    assert Chosen(bs[..i], bits) + [] == Chosen(bs[..i], bits);
  }

  lemma {:induction false} InWithHash(bs: seq<Block>, x: Block)
    ensures x in bs <==> x in WithHash(bs, x.hash)
  {
    if bs != [] {
      assert bs == bs[..|bs| - 1] + [bs[|bs| - 1]];
      InWithHash(bs[..|bs| - 1], x);
    }
  }

  lemma FoundByHash(index: Index, locals: seq<Block>, want: Block)
    requires Indexes(index, locals)
    ensures want in locals <==>
            exists k :: 0 <= k < |Under(index, want.hash)| && SamePlace(Under(index, want.hash)[k], want)
  {
    var candidates := Under(index, want.hash);
    assert candidates == WithHash(locals, want.hash);
    InWithHash(locals, want);
    if k :| 0 <= k < |candidates| && SamePlace(candidates[k], want) { SameBlock(locals, want, k); }
    if want in locals {
      var k :| 0 <= k < |candidates| && candidates[k] == want;
      assert SamePlace(candidates[k], want);
    }
  }

  lemma {:induction false} SameBlock(bs: seq<Block>, want: Block, k: nat)
    requires k < |WithHash(bs, want.hash)| && SamePlace(WithHash(bs, want.hash)[k], want)
    ensures WithHash(bs, want.hash)[k] == want
  {
    var init := bs[..|bs| - 1];
    if k < |WithHash(init, want.hash)| { SameBlock(init, want, k); }
  }

  /** A chunk kept on resume holds its published bytes, and a file scanned to the seed's own chunks is
      kept whole. */
  lemma ResumeIsSound(hash: seq<byte> -> nat, file: seq<byte>, locals: seq<Block>, wants: seq<Block>, bits: seq<bool>)
    requires AllHold(hash, file, locals) && |bits| == |wants|
    requires forall i :: 0 <= i < |wants| ==> (bits[i] <==> wants[i] in locals)
    ensures forall i :: 0 <= i < |wants| && bits[i] ==> Holds(hash, file, wants[i])
    ensures locals == wants ==> forall i :: 0 <= i < |wants| ==> bits[i]
  {
    forall i | 0 <= i < |wants| && bits[i] ensures Holds(hash, file, wants[i]) {
      var j :| 0 <= j < |locals| && locals[j] == wants[i];
    }
  }

  // ---------------------------------------------------------------- blocks found by a scan

  /** The scan's chunks with their hashes. */
  function Scanned(hash: seq<byte> -> nat, p: FastCdc.Params, data: seq<byte>, a: nat): seq<Block>
    requires a <= |data|
    decreases |data| - a
  {
    if a == |data| then []
    else var e := FastCdc.CutEnd(p, data, a, a); [Block(hash(data[a..e]), a, e - a)] + Scanned(hash, p, data, e)
  }

  lemma {:induction false} ScannedIsScan(hash: seq<byte> -> nat, p: FastCdc.Params, data: seq<byte>, a: nat)
    requires a <= |data|
    ensures |Scanned(hash, p, data, a)| == |FastCdc.ChunksFrom(p, data, a)|
    ensures forall k :: 0 <= k < |Scanned(hash, p, data, a)| ==>
              && Scanned(hash, p, data, a)[k].offset == FastCdc.ChunksFrom(p, data, a)[k].offset
              && Scanned(hash, p, data, a)[k].length == FastCdc.ChunksFrom(p, data, a)[k].length
    decreases |data| - a
  {
    if a < |data| { ScannedIsScan(hash, p, data, FastCdc.CutEnd(p, data, a, a)); }
  }

  /** Blocks found by a scan hold their hashes and lie apart, so they serve as old blocks, and as the
      chunks of a seed. */
  lemma {:induction false} ScannedBlocksHold(hash: seq<byte> -> nat, p: FastCdc.Params, data: seq<byte>, a: nat)
    requires a <= |data|
    ensures AllHold(hash, data, Scanned(hash, p, data, a)) && Disjoint(Scanned(hash, p, data, a))
    ensures forall k :: 0 <= k < |Scanned(hash, p, data, a)| ==> a <= Scanned(hash, p, data, a)[k].offset
    decreases |data| - a
  {
    if a < |data| {
      var e := FastCdc.CutEnd(p, data, a, a);
      ScannedBlocksHold(hash, p, data, e);
      var all, rest := Scanned(hash, p, data, a), Scanned(hash, p, data, e);
      forall i, j | 0 <= i < j < |all| ensures Apart(all[i], all[j]) {
        assert all[j] == rest[j - 1];
        if i > 0 { assert all[i] == rest[i - 1]; }
      }
    }
  }
}
