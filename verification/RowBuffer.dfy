/** Buffers seen as rows of equal length, and writes that replace one stretch. */
module RowBuffer {
  import FlatIndex

  /** The n entries of a from i on are those of b from j on. */
  ghost predicate SameStretch<T>(a: seq<T>, i: int, b: seq<T>, j: int, n: int) {
    0 <= i && 0 <= j && 0 <= n && i + n <= |a| && j + n <= |b| && a[i..i + n] == b[j..j + n]
  }

  ghost predicate RowAt<T>(buffer: seq<T>, base: nat, row: seq<T>) {
    base + |row| <= |buffer| && buffer[base..base + |row|] == row
  }

  ghost predicate Overwritten<T>(before: seq<T>, after: seq<T>, base: nat, row: seq<T>) {
    && |before| == |after| && RowAt(after, base, row)
    && after[..base] == before[..base] && after[base + |row|..] == before[base + |row|..]
  }

  /** A stretch apart from the one written is as before. */
  lemma OverwrittenKeeps<T>(before: seq<T>, after: seq<T>, base: nat, row: seq<T>, base': nat, row': seq<T>)
    requires Overwritten(before, after, base, row) && (base + |row| <= base' || base' + |row'| <= base)
    ensures RowAt(after, base', row') <==> RowAt(before, base', row')
  {
    if base' + |row'| <= |before| {
      var n := |row'|;
      if base + |row| <= base' {
        SliceOfSuffix(after, base + |row|, base', n);
        SliceOfSuffix(before, base + |row|, base', n);
      } else {
        SliceOfPrefix(after, base, base', n);
        SliceOfPrefix(before, base, base', n);
      }
    }
  }

  lemma SliceOfSuffix<T>(s: seq<T>, c: nat, i: nat, n: nat)
    requires c <= i && i + n <= |s|
    ensures s[i..i + n] == s[c..][i - c..i - c + n]
  {
  }

  lemma SliceOfPrefix<T>(s: seq<T>, c: nat, i: nat, n: nat)
    requires i + n <= c <= |s|
    ensures s[i..i + n] == s[..c][i..i + n]
  {
  }

  predicate Rows<T>(buffer: seq<T>, n: nat, rows: nat) {
    |buffer| == rows * n
  }

  /** Row i of a buffer of rows of length n. */
  function Row<T>(buffer: seq<T>, n: nat, rows: nat, i: nat): (r: seq<T>)
    requires Rows(buffer, n, rows) && i < rows
    ensures |r| == n && i * n + n <= |buffer|
  {
    FlatIndex.Grows(n, i, rows);
    buffer[i * n..i * n + n]
  }

  lemma RowsAreStretches<T>(a: seq<T>, b: seq<T>, n: nat, rowsA: nat, rowsB: nat, i: nat, j: nat)
    requires Rows(a, n, rowsA) && Rows(b, n, rowsB) && i < rowsA && j < rowsB
    ensures Row(a, n, rowsA, i) == Row(b, n, rowsB, j) <==> SameStretch(a, i * n, b, j * n, n)
  {
    FlatIndex.Grows(n, i, rowsA);
    FlatIndex.Grows(n, j, rowsB);
  }

  lemma RowReplaced<T>(before: seq<T>, after: seq<T>, n: nat, rows: nat, i: nat, row: seq<T>)
    requires Rows(before, n, rows) && i < rows && |row| == n && Overwritten(before, after, i * n, row)
    ensures Rows(after, n, rows)
    ensures forall k: nat | k < rows :: Row(after, n, rows, k) == if k == i then row else Row(before, n, rows, k)
  {
    forall k: nat | k < rows && k != i ensures Row(after, n, rows, k) == Row(before, n, rows, k) {
      if k < i { FlatIndex.Grows(n, k, i); } else { FlatIndex.Grows(n, i, k); }
      hide Overwritten;
      OverwrittenKeeps(before, after, i * n, row, k * n, Row(before, n, rows, k));
    }
  }
}
