/**
 * The content shredder: a page is cut into fixed-width chunks and each chunk
 * is filed under a short header the model writes for it.
 */
module Shredder {
  import opened Wrappers
  import opened Strings

  /** Width of the chunks a page is shredded into. */
  const ShredWidth := 10000

  // ---------------------------------------------------------------------
  // Fixed-width chunks
  // ---------------------------------------------------------------------

  /** The chunks of `data`, `n` characters each, the last one possibly shorter. */
  function Chunks(data: string, n: nat): seq<string>
    requires n > 0
    decreases |data|
  {
    if |data| == 0 then []
    else if |data| <= n then [data]
    else [data[..n]] + Chunks(data[n..], n)
  }

  /** The number of chunks of `len` characters: `len / n` rounded up. */
  function CeilDiv(len: nat, n: nat): nat
    requires n > 0
  {
    (len + n - 1) / n
  }

  /** Putting the chunks back together gives the data. */
  lemma {:induction false} ChunksConcat(data: string, n: nat)
    requires n > 0
    ensures Concat(Chunks(data, n)) == data
    decreases |data|
  {
    if |data| > n {
      ChunksConcat(data[n..], n);
      assert data == data[..n] + data[n..];
    }
  }

  /** Every chunk is non-empty and at most `n` long; all but the last are exactly `n` long. */
  lemma {:induction false} ChunksSizes(data: string, n: nat)
    requires n > 0
    ensures forall i :: 0 <= i < |Chunks(data, n)| ==> 0 < |Chunks(data, n)[i]| <= n
    ensures forall i :: 0 <= i < |Chunks(data, n)| - 1 ==> |Chunks(data, n)[i]| == n
    decreases |data|
  {
    if |data| > n {
      var rest := Chunks(data[n..], n);
      ChunksSizes(data[n..], n);
      assert Chunks(data, n) == [data[..n]] + rest;
      forall i | 0 < i < |Chunks(data, n)| ensures Chunks(data, n)[i] == rest[i - 1] {
      }
    }
  }

  lemma CeilDivStep(len: nat, n: nat)
    requires n > 0 && len > n
    ensures CeilDiv(len, n) == CeilDiv(len - n, n) + 1
  {
    var x := len - n + n - 1;
    var q, r := x / n, x % n;
    assert x == q * n + r && 0 <= r < n;
    assert x + n == (q + 1) * n + r;
    DivIs(x + n, n, q + 1, r);
  }

  /** Division has one answer: `a == q * n + r` with `0 <= r < n` makes `q` the quotient. */
  lemma DivIs(a: nat, n: nat, q: nat, r: nat)
    requires n > 0 && r < n && a == q * n + r
    ensures a / n == q
  {
    var q', r' := a / n, a % n;
    assert a == q' * n + r' && 0 <= r' < n;
    if q' > q {
      assert q' * n >= (q + 1) * n by { MulMono(q + 1, q', n); }
    } else if q' < q {
      assert q * n >= (q' + 1) * n by { MulMono(q' + 1, q, n); }
    }
  }

  lemma MulMono(a: nat, b: nat, n: nat)
    requires a <= b
    ensures a * n <= b * n
  {
  }

  /** There are `|data| / n` chunks rounded up, so none at all for empty data. */
  lemma {:induction false} ChunksCount(data: string, n: nat)
    requires n > 0
    ensures |Chunks(data, n)| == CeilDiv(|data|, n)
    ensures data == [] <==> Chunks(data, n) == []
    decreases |data|
  {
    if |data| == 0 {
      assert CeilDiv(0, n) == (n - 1) / n == 0;
    } else if |data| <= n {
      assert n <= |data| + n - 1 < 2 * n;
      assert CeilDiv(|data|, n) == 1;
    } else {
      ChunksCount(data[n..], n);
      CeilDivStep(|data|, n);
    }
  }

  /** The chunks of `data` from position `i` on, `i` possibly past the end. */
  lemma ChunksFrom(data: string, n: nat, i: nat)
    requires n > 0 && i < |data|
    ensures Chunks(data[i..], n) == [data[i..Min(i + n, |data|)]] + Chunks(data[Min(i + n, |data|)..], n)
  {
    var d := data[i..];
    if |d| <= n {
      assert Min(i + n, |data|) == |data|;
      assert data[|data|..] == [];
      assert data[i..|data|] == d;
    } else {
      assert d[..n] == data[i..i + n];
      assert d[n..] == data[i + n..];
    }
  }

  function Min(a: int, b: int): int {
    if a <= b then a else b
  }

  /** `splitContent`: steps through `data` `chunkLength` characters at a time. */
  method SplitContent(data: string, chunkLength: nat) returns (chunks: seq<string>)
    requires chunkLength > 0
    ensures chunks == Chunks(data, chunkLength)
  {
    chunks := [];
    var i: nat := 0;
    while i < |data|
      invariant chunks + Chunks(data[Min(i, |data|)..], chunkLength) == Chunks(data, chunkLength)
      decreases |data| - i
    {
      ChunksFrom(data, chunkLength, i);
      chunks := chunks + [data[i..Min(i + chunkLength, |data|)]];
      i := i + chunkLength;
    }
  }

  // ---------------------------------------------------------------------
  // Header table
  // ---------------------------------------------------------------------

  /**
   * The header the model writes for a chunk of the titled page: `None` when
   * its reply does not parse, which makes the whole shredding fail.
   */
  type HeaderOracle = (string, string) -> Option<string>

  /** Files the chunks, in order, into `acc` under their headers; a later chunk replaces an earlier one. */
  function File(acc: map<string, string>, chunks: seq<string>, title: string, header: HeaderOracle): Option<map<string, string>>
    decreases |chunks|
  {
    if |chunks| == 0 then Some(acc)
    else match header(title, chunks[0])
      case None => None
      case Some(h) => File(acc[h := chunks[0]], chunks[1..], title, header)
  }

  /** The header table of a page's chunks. */
  function Table(content: string, title: string, header: HeaderOracle): Option<map<string, string>> {
    File(map[], Chunks(content, ShredWidth), title, header)
  }

  /** `shredContent`: asks for a header per chunk and files the chunk under it. */
  method ShredContent(content: string, title: string, header: HeaderOracle) returns (headers: Option<map<string, string>>)
    ensures headers == Table(content, title, header)
  {
    var chunks := SplitContent(content, ShredWidth);
    var table: map<string, string> := map[];
    var i := 0;
    while i < |chunks|
      invariant 0 <= i <= |chunks|
      invariant File(table, chunks[i..], title, header) == File(map[], chunks, title, header)
    {
      var h := header(title, chunks[i]);
      if h.None? {
        assert File(table, chunks[i..], title, header) == None;
        return None;
      }
      assert chunks[i..][1..] == chunks[i + 1..];
      table := table[h.value := chunks[i]];
      i := i + 1;
    }
    headers := Some(table);
  }

  /** Every value filed is one of the chunks or was there before; the table grows by at most one key per chunk. */
  lemma {:induction false} FileValues(acc: map<string, string>, chunks: seq<string>, title: string, header: HeaderOracle)
    requires File(acc, chunks, title, header).Some?
    ensures var m := File(acc, chunks, title, header).value;
      (forall k :: k in m ==> m[k] in chunks || (k in acc && m[k] == acc[k]))
      && |m.Keys| <= |acc.Keys| + |chunks|
    decreases |chunks|
  {
    if |chunks| > 0 {
      var h := header(title, chunks[0]).value;
      var acc' := acc[h := chunks[0]];
      FileValues(acc', chunks[1..], title, header);
      var m := File(acc, chunks, title, header).value;
      forall k | k in m ensures m[k] in chunks || (k in acc && m[k] == acc[k]) {
        if m[k] in chunks[1..] {
          assert m[k] in chunks;
        }
      }
      assert acc'.Keys <= acc.Keys + {h};
      assert |acc'.Keys| <= |acc.Keys| + 1 by {
        SubsetSize(acc'.Keys, acc.Keys + {h});
        assert |acc.Keys + {h}| <= |acc.Keys| + 1;
      }
    }
  }

  lemma SubsetSize<T>(a: set<T>, b: set<T>)
    requires a <= b
    ensures |a| <= |b|
  {
    assert b == a + (b - a);
  }

  /** A header some chunk got ends up in the table, filed with the last chunk that got it. */
  lemma {:induction false} FileLastWins(acc: map<string, string>, chunks: seq<string>, title: string, header: HeaderOracle, h: string, i: nat)
    requires File(acc, chunks, title, header).Some?
    requires i < |chunks| && header(title, chunks[i]) == Some(h)
    requires forall j :: i < j < |chunks| ==> header(title, chunks[j]) != Some(h)
    ensures h in File(acc, chunks, title, header).value
    ensures File(acc, chunks, title, header).value[h] == chunks[i]
    decreases |chunks|
  {
    var acc' := acc[header(title, chunks[0]).value := chunks[0]];
    if i == 0 {
      FileKeeps(acc', chunks[1..], title, header, h);
    } else {
      FileLastWins(acc', chunks[1..], title, header, h, i - 1);
    }
  }

  /** A key no later chunk gets keeps its chunk. */
  lemma {:induction false} FileKeeps(acc: map<string, string>, chunks: seq<string>, title: string, header: HeaderOracle, h: string)
    requires File(acc, chunks, title, header).Some?
    requires h in acc
    requires forall j :: 0 <= j < |chunks| ==> header(title, chunks[j]) != Some(h)
    ensures h in File(acc, chunks, title, header).value
    ensures File(acc, chunks, title, header).value[h] == acc[h]
    decreases |chunks|
  {
    if |chunks| > 0 {
      var acc' := acc[header(title, chunks[0]).value := chunks[0]];
      FileKeeps(acc', chunks[1..], title, header, h);
    }
  }

  /** The shredded table: every value is a chunk of the page, and there are no more keys than chunks. */
  lemma TableOfChunks(content: string, title: string, header: HeaderOracle)
    requires Table(content, title, header).Some?
    ensures var m := Table(content, title, header).value;
      (forall k :: k in m ==> m[k] in Chunks(content, ShredWidth))
      && |m.Keys| <= |Chunks(content, ShredWidth)|
  {
    FileValues(map[], Chunks(content, ShredWidth), title, header);
  }
}
