/** What an edit of the file leaves to be reused: chunking keeps the chunks in front of the edit and
    those behind the point where the boundaries meet again, and the update clones at least these. */
module EditReuse {
  import opened Counting
  import opened Assembly
  import opened FastCdc
  import opened Reuse

  /** Block by block the same hash and length. */
  ghost predicate SameKeys(a: seq<Block>, b: seq<Block>) {
    |a| == |b| && forall t :: 0 <= t < |a| ==> KeyOf(a[t]) == KeyOf(b[t])
  }

  // ---------------------------------------------------------------- blocks that survive the edit

  lemma ScannedBlock(hash: seq<byte> -> nat, p: Params, data: seq<byte>, t: nat)
    requires t < |ChunksFrom(p, data, 0)|
    ensures |Scanned(hash, p, data, 0)| == |ChunksFrom(p, data, 0)|
    ensures var (b, c) := (Scanned(hash, p, data, 0)[t], ChunksFrom(p, data, 0)[t]);
            b.offset == c.offset && b.length == c.length && Holds(hash, data, b)
  {
    ScannedIsScan(hash, p, data, 0);
    ScannedBlocksHold(hash, p, data, 0);
  }

  lemma EqualBytes(hash: seq<byte> -> nat, x: seq<byte>, y: seq<byte>, a: Block, b: Block)
    requires Holds(hash, x, a) && Holds(hash, y, b) && a.length == b.length
    requires x[a.offset..a.offset + a.length] == y[b.offset..b.offset + b.length]
    ensures KeyOf(a) == KeyOf(b)
  {
  }

  /** The first k blocks, if they end inside the common prefix and are not all. */
  lemma PrefixSurvives(hash: seq<byte> -> nat, p: Params, x: seq<byte>, y: seq<byte>, n: nat, k: nat)
    requires n <= |x| && n <= |y| && x[..n] == y[..n] && k < |ChunksFrom(p, x, 0)|
    requires k == 0 || EndOf(ChunksFrom(p, x, 0)[k - 1]) <= n
    ensures k <= |Scanned(hash, p, x, 0)| && k <= |Scanned(hash, p, y, 0)|
    ensures SameKeys(Scanned(hash, p, x, 0)[..k], Scanned(hash, p, y, 0)[..k])
  {
    ScannedIsScan(hash, p, x, 0);
    ScannedIsScan(hash, p, y, 0);
    if k > 0 {
      PrefixChunksSame(p, x, y, n, 0, k - 1);
      forall t | 0 <= t < k ensures KeyOf(Scanned(hash, p, x, 0)[t]) == KeyOf(Scanned(hash, p, y, 0)[t]) {
        PrefixBlock(hash, p, x, y, n, k, t);
      }
    }
  }

  lemma PrefixBlock(hash: seq<byte> -> nat, p: Params, x: seq<byte>, y: seq<byte>, n: nat, k: nat, t: nat)
    requires n <= |x| && n <= |y| && x[..n] == y[..n] && t < k < |ChunksFrom(p, x, 0)| && k <= |ChunksFrom(p, y, 0)|
    requires EndOf(ChunksFrom(p, x, 0)[k - 1]) <= n && ChunksFrom(p, x, 0)[..k] == ChunksFrom(p, y, 0)[..k]
    ensures t < |Scanned(hash, p, x, 0)| && t < |Scanned(hash, p, y, 0)|
    ensures KeyOf(Scanned(hash, p, x, 0)[t]) == KeyOf(Scanned(hash, p, y, 0)[t])
  {
    var cx, cy := ChunksFrom(p, x, 0), ChunksFrom(p, y, 0);
    assert cx[t] == cx[..k][t] == cy[..k][t] == cy[t];
    ScannedBlock(hash, p, x, t);
    ScannedBlock(hash, p, y, t);
    EndsAscend(p, x, t, k - 1);
    SliceOfPrefix(x, y, n, cx[t].offset, EndOf(cx[t]));
    EqualBytes(hash, x, y, Scanned(hash, p, x, 0)[t], Scanned(hash, p, y, 0)[t]);
  }

  lemma SliceOfPrefix(x: seq<byte>, y: seq<byte>, n: nat, o: nat, e: nat)
    requires n <= |x| && n <= |y| && x[..n] == y[..n] && o <= e <= n
    ensures x[o..e] == y[o..e]
  {
    assert x[o..e] == x[..n][o..e] && y[o..e] == y[..n][o..e];
  }

  lemma SliceOfTail(x: seq<byte>, a: nat, o: nat, n: nat)
    requires a + o + n <= |x|
    ensures x[a + o..a + o + n] == x[a..][o..o + n]
  {
  }

  lemma OffsetsAscend(p: Params, data: seq<byte>, t: nat, u: nat)
    requires t <= u < |ChunksFrom(p, data, 0)|
    ensures ChunksFrom(p, data, 0)[t].offset <= ChunksFrom(p, data, 0)[u].offset
  {
    if t < u {
      ChunksTile(p, data, 0);
      TilesAscend(ChunksFrom(p, data, 0), 0, |data|, t, u);
    }
  }

  lemma EndsAscend(p: Params, data: seq<byte>, t: nat, u: nat)
    requires t <= u < |ChunksFrom(p, data, 0)|
    ensures EndOf(ChunksFrom(p, data, 0)[t]) <= EndOf(ChunksFrom(p, data, 0)[u])
  {
    if t < u {
      ChunksTile(p, data, 0);
      TilesAscend(ChunksFrom(p, data, 0), 0, |data|, t, u);
    }
  }

  lemma {:induction false} TilesAscend(chunks: seq<Chunk>, a: nat, b: nat, t: nat, u: nat)
    requires Tiles(chunks, a, b) && t < u < |chunks|
    ensures EndOf(chunks[t]) <= chunks[u].offset && a <= chunks[u].offset
    decreases u
  {
    if t > 0 {
      TilesAscend(chunks[1..], a + chunks[0].length, b, t - 1, u - 1);
    } else if u > 1 {
      TilesAscend(chunks[1..], a + chunks[0].length, b, 0, u - 1);
    }
  }

  /** The blocks from i in x and j in y on, if the same bytes follow these boundaries. */
  lemma TailSurvives(hash: seq<byte> -> nat, p: Params, x: seq<byte>, y: seq<byte>, i: nat, j: nat)
    requires i < |ChunksFrom(p, x, 0)| && j < |ChunksFrom(p, y, 0)|
    requires var (a, b) := (ChunksFrom(p, x, 0)[i].offset, ChunksFrom(p, y, 0)[j].offset);
             a <= |x| && b <= |y| && x[a..] == y[b..]
    ensures i <= |Scanned(hash, p, x, 0)| && j <= |Scanned(hash, p, y, 0)|
    ensures SameKeys(Scanned(hash, p, x, 0)[i..], Scanned(hash, p, y, 0)[j..])
  {
    ScannedIsScan(hash, p, x, 0);
    ScannedIsScan(hash, p, y, 0);
    var cx, cy := ChunksFrom(p, x, 0), ChunksFrom(p, y, 0);
    SuffixResyncs(p, x, y, cx, cy, i, j);
    var olds, news := Scanned(hash, p, x, 0), Scanned(hash, p, y, 0);
    assert |olds[i..]| == |cx[i..]| && |news[j..]| == |cy[j..]|;
    forall t | 0 <= t < |cx[i..]| ensures KeyOf(olds[i..][t]) == KeyOf(news[j..][t]) {
      TailBlockOf(hash, p, x, y, cx, cy, olds, news, i, j, t);
    }
  }

  lemma TailBlockOf(hash: seq<byte> -> nat, p: Params, x: seq<byte>, y: seq<byte>, cx: seq<Chunk>, cy: seq<Chunk>,
                    olds: seq<Block>, news: seq<Block>, i: nat, j: nat, t: nat)
    requires cx == ChunksFrom(p, x, 0) && cy == ChunksFrom(p, y, 0) && i + t < |cx| && j + t < |cy|
    requires olds == Scanned(hash, p, x, 0) && news == Scanned(hash, p, y, 0) && |olds| == |cx| && |news| == |cy|
    requires cx[i].offset <= |x| && cy[j].offset <= |y| && x[cx[i].offset..] == y[cy[j].offset..]
    requires Shifted(cx[i..], cy[j..], cy[j].offset - cx[i].offset)
    ensures KeyOf(olds[i..][t]) == KeyOf(news[j..][t])
  {
    assert cx[i..][t] == cx[i + t] && cy[j..][t] == cy[j + t];
    OffsetsAscend(p, x, i, i + t);
    TailBlock(hash, p, x, y, cx[i].offset, cy[j].offset, i + t, j + t);
  }

  lemma TailBlock(hash: seq<byte> -> nat, p: Params, x: seq<byte>, y: seq<byte>, a: nat, b: nat, t: nat, u: nat)
    requires a <= |x| && b <= |y| && x[a..] == y[b..] && t < |ChunksFrom(p, x, 0)| && u < |ChunksFrom(p, y, 0)|
    requires var (c, d) := (ChunksFrom(p, x, 0)[t], ChunksFrom(p, y, 0)[u]);
             d.offset - b == c.offset - a && d.length == c.length
    ensures t < |Scanned(hash, p, x, 0)| && u < |Scanned(hash, p, y, 0)|
    ensures a <= ChunksFrom(p, x, 0)[t].offset ==> KeyOf(Scanned(hash, p, x, 0)[t]) == KeyOf(Scanned(hash, p, y, 0)[u])
  {
    ScannedBlock(hash, p, x, t);
    ScannedBlock(hash, p, y, u);
    var (v, w) := (Scanned(hash, p, x, 0)[t], Scanned(hash, p, y, 0)[u]);
    if a <= v.offset { TailKeys(hash, x, y, a, b, v, w); }
  }

  lemma TailKeys(hash: seq<byte> -> nat, x: seq<byte>, y: seq<byte>, a: nat, b: nat, v: Block, w: Block)
    requires a <= |x| && b <= |y| && x[a..] == y[b..] && Holds(hash, x, v) && Holds(hash, y, w)
    requires a <= v.offset && w.offset - b == v.offset - a && w.length == v.length
    ensures KeyOf(v) == KeyOf(w)
  {
    SliceOfTail(x, a, v.offset - a, v.length);
    SliceOfTail(y, b, v.offset - a, v.length);
    EqualBytes(hash, x, y, v, w);
  }

  // ---------------------------------------------------------------- counting them

  lemma {:induction false} SameKeysCount(a: seq<Block>, b: seq<Block>, key: (nat, nat))
    requires SameKeys(a, b)
    ensures KeyCount(a, key) == KeyCount(b, key)
  {
    if a != [] {
      assert SameKeys(a[1..], b[1..]);
      SameKeysCount(a[1..], b[1..], key);
    }
  }

  lemma PartsCount(bs: seq<Block>, k: nat, i: nat, key: (nat, nat))
    requires k <= i <= |bs|
    ensures KeyCount(bs[..k] + bs[i..], key) <= KeyCount(bs, key)
  {
    var p := HasKey(key);
    assert bs == bs[..k] + (bs[k..i] + bs[i..]);
    CountIfConcat(bs[..k], bs[k..i] + bs[i..], p);
    CountIfConcat(bs[k..i], bs[i..], p);
    CountIfConcat(bs[..k], bs[i..], p);
  }

  lemma {:induction false} Occurs(bs: seq<Block>, key: (nat, nat)) returns (pos: nat)
    requires KeyCount(bs, key) > 0
    ensures pos < |bs| && KeyOf(bs[pos]) == key
  {
    if KeyOf(bs[0]) == key {
      pos := 0;
    } else {
      pos := Occurs(bs[1..], key);
      pos := pos + 1;
    }
  }

  lemma {:induction false} TotalConcat(a: seq<Block>, b: seq<Block>)
    ensures TotalLength(a + b) == TotalLength(a) + TotalLength(b)
  {
    if b == [] {
      assert a + b == a;
    } else {
      assert (a + b)[..|a + b| - 1] == a + b[..|b| - 1];
      TotalConcat(a, b[..|b| - 1]);
    }
  }

  lemma TotalRemoved(bs: seq<Block>, pos: nat)
    requires pos < |bs|
    ensures TotalLength(bs) == TotalLength(Removed(bs, pos)) + bs[pos].length
  {
    ThreeParts(bs, pos);
    TotalOfThree(bs[..pos], bs[pos], bs[pos + 1..]);
  }

  lemma ThreeParts(bs: seq<Block>, pos: nat)
    requires pos < |bs|
    ensures (bs[..pos] + [bs[pos]]) + bs[pos + 1..] == bs
  {
  }

  lemma TotalOfThree(front: seq<Block>, b: Block, back: seq<Block>)
    ensures TotalLength((front + [b]) + back) == TotalLength(front + back) + b.length
  {
    TotalConcat(front + [b], back);
    TotalPush(front, b);
    TotalConcat(front, back);
  }

  /** Blocks whose keys occur no more often are together no longer. */
  lemma {:induction false} FewerIsShorter(a: seq<Block>, b: seq<Block>)
    requires forall key :: KeyCount(a, key) <= KeyCount(b, key)
    ensures TotalLength(a) <= TotalLength(b)
    decreases |a|
  {
    if a != [] {
      var last := |a| - 1;
      var key := KeyOf(a[last]);
      RemovedOne(a, last, HasKey(key));
      var pos := Occurs(b, key);
      forall other ensures KeyCount(a[..last], other) <= KeyCount(Removed(b, pos), other) {
        assert a[..last] + a[last + 1..] == a[..last];
        RemovedOne(a, last, HasKey(other));
        RemovedOne(b, pos, HasKey(other));
        assert KeyCount(a, other) <= KeyCount(b, other);
      }
      FewerIsShorter(a[..last], Removed(b, pos));
      TotalRemoved(b, pos);
    }
  }

  // ---------------------------------------------------------------- what the update clones

  lemma SharedCount(olds: seq<Block>, news: seq<Block>, k: nat, i: nat, j: nat, key: (nat, nat))
    requires k <= i <= |olds| && k <= j <= |news| && SameKeys(olds[..k], news[..k]) && SameKeys(olds[i..], news[j..])
    ensures KeyCount(news[..k] + news[j..], key) <= Reuse.Min(KeyCount(olds, key), KeyCount(news, key))
  {
    PartsCount(olds, k, i, key);
    PartsCount(news, k, j, key);
    CountIfConcat(olds[..k], olds[i..], HasKey(key));
    CountIfConcat(news[..k], news[j..], HasKey(key));
    SameKeysCount(olds[..k], news[..k], key);
    SameKeysCount(olds[i..], news[j..], key);
  }

  /** An edit between the k-th and the last boundaries: with every clone successful, the chunks the
      update need not download include, key by key and byte by byte, the k chunks in front of the edit
      and all those behind the boundaries i and j where the files agree again. */
  lemma EditKeepsShared(hash: seq<byte> -> nat, p: Params, x: seq<byte>, y: seq<byte>, n: nat, k: nat, i: nat, j: nat,
                        olds: seq<Block>, news: seq<Block>, chosen: seq<Block>)
    requires n <= |x| && n <= |y| && x[..n] == y[..n] && k <= i < |ChunksFrom(p, x, 0)|
    requires k <= j < |ChunksFrom(p, y, 0)|
    requires k == 0 || EndOf(ChunksFrom(p, x, 0)[k - 1]) <= n
    requires var (a, b) := (ChunksFrom(p, x, 0)[i].offset, ChunksFrom(p, y, 0)[j].offset);
             a <= |x| && b <= |y| && x[a..] == y[b..]
    requires olds == Scanned(hash, p, x, 0) && news == Scanned(hash, p, y, 0) && IsIntersection(chosen, olds, news)
    ensures k <= |news| && j <= |news|
    ensures forall key :: KeyCount(news[..k] + news[j..], key) <= KeyCount(chosen, key)
    ensures TotalLength(news[..k]) + TotalLength(news[j..]) <= TotalLength(chosen)
  {
    PrefixSurvives(hash, p, x, y, n, k);
    TailSurvives(hash, p, x, y, i, j);
    forall key ensures KeyCount(news[..k] + news[j..], key) <= KeyCount(chosen, key) {
      SharedCount(olds, news, k, i, j, key);
    }
    FewerIsShorter(news[..k] + news[j..], chosen);
    TotalConcat(news[..k], news[j..]);
  }
}
