/**
  Building the job list and handing it out in batches: the dedup filter loop
  of src/main.rs and the shared `links.chunks(link_batch_size)` iterator that
  every session advances under one mutex (src/main.rs, src/bin/master.rs).
 */
module Batching {
  import opened Wrappers

  function Min(a: nat, b: nat): nat
  {
    if a <= b then a else b
  }

  /** The next chunk `slice::Chunks::next` hands out: the first b elements, or all if fewer. */
  function Take<T>(s: seq<T>, b: nat): (r: seq<T>)
    requires b > 0
    ensures |r| == Min(b, |s|) && r == s[..|r|]
  {
    s[..Min(b, |s|)]
  }

  /** What the chunk iterator still holds after handing out Take(s, b). */
  function Drop<T>(s: seq<T>, b: nat): (r: seq<T>)
    requires b > 0
    ensures Take(s, b) + r == s
  {
    s[Min(b, |s|)..]
  }

  /** The chunks `s.chunks(b)` yields, in order. */
  function Chunks<T>(s: seq<T>, b: nat): seq<seq<T>>
    requires b > 0
    decreases |s|
  {
    if s == [] then [] else [Take(s, b)] + Chunks(Drop(s, b), b)
  }

  function Flatten<T>(ss: seq<seq<T>>): seq<T>
  {
    if ss == [] then [] else ss[0] + Flatten(ss[1..])
  }

  lemma {:induction false} FlattenAppend<T>(a: seq<seq<T>>, b: seq<seq<T>>)
    ensures Flatten(a + b) == Flatten(a) + Flatten(b)
  {
    if a != [] {
      assert (a + b)[1..] == a[1..] + b;
      FlattenAppend(a[1..], b);
    } else {
      assert a + b == b;
    }
  }

  /** The chunks, put back together, are the sequence. */
  lemma {:induction false} ChunksFlatten<T>(s: seq<T>, b: nat)
    requires b > 0
    ensures Flatten(Chunks(s, b)) == s
    decreases |s|
  {
    if s != [] {
      var c := Chunks(s, b);
      assert c[1..] == Chunks(Drop(s, b), b);
      ChunksFlatten(Drop(s, b), b);
    }
  }

  /**
    Every chunk but the last holds exactly b elements; the last holds
    between 1 and b, namely |s| mod b, or b when b divides |s|.
   */
  lemma {:induction false} ChunksShape<T>(s: seq<T>, b: nat)
    requires b > 0
    ensures var c := Chunks(s, b);
            (forall i :: 0 <= i < |c| - 1 ==> |c[i]| == b) &&
            (c != [] ==> |c[|c| - 1]| == (if |s| % b == 0 then b else |s| % b))
    decreases |s|
  {
    if s != [] {
      var c := Chunks(s, b);
      var d := Drop(s, b);
      ChunksShape(d, b);
      assert c[1..] == Chunks(d, b);
      if |s| > b {
        assert |d| == |s| - b;
        assert |d| % b == |s| % b by { ModShift(|s|, b); }
      }
    }
  }

  lemma ModShift(n: nat, b: nat)
    requires b > 0 && n >= b
    ensures (n - b) % b == n % b
  {
    DivModShift(n, b);
  }

  /** Division with remainder is unique. */
  lemma DivModUnique(n: int, b: int, q: int, r: int)
    requires b > 0 && 0 <= r < b && n == q * b + r
    ensures n / b == q && n % b == r
  {
    var q', r' := n / b, n % b;
    assert (q - q') * b == r' - r;
    if q > q' {
      assert (q - q') * b >= b by { MulAtLeast(q - q', b); }
    } else if q < q' {
      assert (q' - q) * b >= b by { MulAtLeast(q' - q, b); }
    }
  }

  lemma MulAtLeast(k: int, b: int)
    requires k >= 1 && b > 0
    ensures k * b >= b
  {
  }

  lemma DivModShift(n: nat, b: nat)
    requires b > 0 && n >= b
    ensures (n - b) / b == n / b - 1 && (n - b) % b == n % b
  {
    var q, r := n / b, n % b;
    assert n - b == (q - 1) * b + r;
    DivModUnique(n - b, b, q - 1, r);
  }

  /** There are ceil(|s| / b) chunks. */
  lemma {:induction false} ChunksCount<T>(s: seq<T>, b: nat)
    requires b > 0
    ensures |Chunks(s, b)| == (|s| + b - 1) / b
    decreases |s|
  {
    if s == [] {
      DivModUnique(b - 1, b, 0, b - 1);
    } else {
      var d := Drop(s, b);
      assert |Chunks(s, b)| == 1 + |Chunks(d, b)|;
      ChunksCount(d, b);
      if |s| > b {
        assert |d| == |s| - b;
        DivShift(|s| + b - 1, b);
      } else {
        assert |d| == 0;
        DivModUnique(b - 1, b, 0, b - 1);
        DivModUnique(|s| + b - 1, b, 1, |s| - 1);
      }
    }
  }

  lemma DivShift(n: nat, b: nat)
    requires b > 0 && n >= b
    ensures (n - b) / b == n / b - 1
  {
    DivModShift(n, b);
  }

  /**
    The batches handed out so far, followed by the chunks of what is left,
    are the chunks of the whole list: then the batches handed out, joined,
    followed by what is left, are the whole list.
   */
  lemma PartitionLaw<T>(handed: seq<seq<T>>, rest: seq<T>, links: seq<T>, b: nat)
    requires b > 0
    requires handed + Chunks(rest, b) == Chunks(links, b)
    ensures Flatten(handed) + rest == links
    ensures rest == [] ==> Flatten(handed) == links
  {
    FlattenAppend(handed, Chunks(rest, b));
    ChunksFlatten(rest, b);
    ChunksFlatten(links, b);
  }

  // ---------------------------------------------------------------------
  // Dedup filter: `for l in links_raw { if !downloaded_videos.contains(&l) { links.push(l) } }`
  // ---------------------------------------------------------------------

  /** The raw links that are not among the downloaded uids, in their original order. */
  function Filtered(raw: seq<string>, downloaded: seq<string>): seq<string>
  {
    if raw == [] then []
    else (if raw[0] in downloaded then [] else [raw[0]]) + Filtered(raw[1..], downloaded)
  }

  method FilterLinks(raw: seq<string>, downloaded: seq<string>) returns (links: seq<string>)
    ensures links == Filtered(raw, downloaded)
  {
    links := [];
    for i := 0 to |raw|
      invariant links + Filtered(raw[i..], downloaded) == Filtered(raw, downloaded)
    {
      assert raw[i..][1..] == raw[i + 1..];
      if raw[i] !in downloaded {
        links := links + [raw[i]];
      }
    }
  }

  /** Filtering a concatenation filters each part: the original order is kept. */
  lemma {:induction false} FilteredAppend(a: seq<string>, b: seq<string>, downloaded: seq<string>)
    ensures Filtered(a + b, downloaded) == Filtered(a, downloaded) + Filtered(b, downloaded)
  {
    if a == [] {
      assert a + b == b;
    } else {
      assert (a + b)[1..] == a[1..] + b;
      FilteredAppend(a[1..], b, downloaded);
    }
  }

  /**
    A link occurs in the filtered list exactly as often as in the raw list
    when it is not downloaded, and not at all when it is: duplicates in the
    raw list are kept.
   */
  lemma {:induction false} FilteredCount(raw: seq<string>, downloaded: seq<string>, x: string)
    ensures multiset(Filtered(raw, downloaded))[x] ==
            if x in downloaded then 0 else multiset(raw)[x]
  {
    if raw != [] {
      FilteredCount(raw[1..], downloaded, x);
      assert raw == [raw[0]] + raw[1..];
    }
  }

  lemma FilteredMembership(raw: seq<string>, downloaded: seq<string>, x: string)
    ensures x in Filtered(raw, downloaded) <==> x in raw && x !in downloaded
  {
    FilteredCount(raw, downloaded, x);
  }

  lemma {:induction false} InFlatten<T>(ss: seq<seq<T>>, i: nat, x: T)
    requires i < |ss| && x in ss[i]
    ensures x in Flatten(ss)
  {
    if i > 0 {
      InFlatten(ss[1..], i - 1, x);
    }
  }

  /** No batch built from the filtered list holds a link already in the DB. */
  lemma DownloadedNeverQueued(raw: seq<string>, downloaded: seq<string>, b: nat, x: string)
    requires b > 0 && x in downloaded
    ensures forall c :: c in Chunks(Filtered(raw, downloaded), b) ==> x !in c
  {
    var links := Filtered(raw, downloaded);
    FilteredMembership(raw, downloaded, x);
    ChunksFlatten(links, b);
    forall c | c in Chunks(links, b) ensures x !in c {
      if x in c {
        var i :| 0 <= i < |Chunks(links, b)| && Chunks(links, b)[i] == c;
        InFlatten(Chunks(links, b), i, x);
      }
    }
  }

  /**
    The shared batch iterator. `rest` is the slice the Rust `Chunks`
    iterator still holds; `handed` records, for the proof, every batch given
    out so far, to whichever session asked.
   */
  class BatchQueue {
    const links: seq<string>
    const batchSize: nat
    var rest: seq<string>
    ghost var handed: seq<seq<string>>

    ghost predicate Valid()
      reads this
    {
      batchSize > 0 && handed + Chunks(rest, batchSize) == Chunks(links, batchSize)
    }

    /** `links.chunks(batch_size)`; a zero batch size makes `chunks` panic. */
    constructor (links: seq<string>, batchSize: nat)
      requires batchSize > 0
      ensures Valid()
      ensures this.links == links && this.batchSize == batchSize
      ensures rest == links && handed == []
    {
      this.links := links;
      this.batchSize := batchSize;
      rest := links;
      handed := [];
    }

    /**
      `batches.lock().unwrap().next()`, one atomic step: the next chunk, or
      None once the iterator is exhausted, and None ever after.
     */
    method Draw() returns (batch: Option<seq<string>>)
      requires Valid()
      modifies this`rest, this`handed
      ensures Valid()
      ensures old(rest) == [] ==> batch == None && rest == [] && handed == old(handed)
      ensures old(rest) != [] ==>
                batch == Some(Take(old(rest), batchSize)) &&
                rest == Drop(old(rest), batchSize) &&
                handed == old(handed) + [batch.value]
    {
      if rest == [] {
        batch := None;
      } else {
        var n := Min(batchSize, |rest|);
        batch := Some(rest[..n]);
        assert Chunks(rest, batchSize) == [rest[..n]] + Chunks(rest[n..], batchSize);
        rest := rest[n..];
        handed := handed + [batch.value];
      }
    }
  }
}
