/** Flat Uint16 buffers built by writing rows of three values one after another,
    as a renderer's vertex-indexed triangle list expects them: element 3*i + c of the
    buffer is entry c of row i. */
module PackedBuffers {

  /** 2^16: the number of distinct values an element of a Uint16Array can hold. */
  const Uint16Modulus: int := 0x1_0000

  predicate IsUint16(v: int) {
    0 <= v < Uint16Modulus
  }

  /** The value an element of a Uint16Array holds after the integer v is assigned to it:
      ECMAScript's ToUint16, which reduces modulo 2^16 with a non-negative remainder. */
  function ToUint16(v: int): (r: int)
    ensures IsUint16(r)
    ensures (v - r) % Uint16Modulus == 0
    ensures IsUint16(v) ==> r == v
  {
    v % Uint16Modulus
  }

  /** Every row holds exactly three entries. */
  predicate AllTriples(rows: seq<seq<int>>) {
    forall i :: 0 <= i < |rows| ==> |rows[i]| == 3
  }

  /** Every entry of every row fits a Uint16Array element. */
  predicate AllUint16(rows: seq<seq<int>>) {
    forall i, k :: 0 <= i < |rows| && 0 <= k < |rows[i]| ==> IsUint16(rows[i][k])
  }

  /** The rows written one after another, which is what a write cursor advanced once
      per entry leaves behind in the buffer. */
  function Concat(rows: seq<seq<int>>): seq<int> {
    if rows == [] then [] else Concat(rows[..|rows| - 1]) + rows[|rows| - 1]
  }

  /** Writing one more row appends it to the buffer. */
  lemma ConcatAppend(rows: seq<seq<int>>, row: seq<int>)
    ensures Concat(rows + [row]) == Concat(rows) + row
  {
  }

  /** The index relation of a triple buffer: it is three times as long as the list of
      rows, and its element 3*i + c is entry c of row i. */
  lemma {:induction false} ConcatTriplesAt(rows: seq<seq<int>>)
    requires AllTriples(rows)
    ensures |Concat(rows)| == 3 * |rows|
    ensures forall i, c :: 0 <= i < |rows| && 0 <= c < 3 ==> Concat(rows)[3 * i + c] == rows[i][c]
  {
    if rows != [] {
      var n := |rows| - 1;
      ConcatTriplesAt(rows[..n]);
      forall i, c | 0 <= i < |rows| && 0 <= c < 3
        ensures Concat(rows)[3 * i + c] == rows[i][c]
      {
        if i < n {
          assert rows[..n][i] == rows[i];
        }
      }
    }
  }

  /** A buffer built from Uint16 entries holds only Uint16 values. */
  lemma {:induction false} ConcatUint16(rows: seq<seq<int>>)
    requires AllUint16(rows)
    ensures forall k :: 0 <= k < |Concat(rows)| ==> IsUint16(Concat(rows)[k])
  {
    if rows != [] {
      var n := |rows| - 1;
      assert AllUint16(rows[..n]) by {
        forall i, k | 0 <= i < n && 0 <= k < |rows[..n][i]|
          ensures IsUint16(rows[..n][i][k])
        {
          assert rows[..n][i] == rows[i];
        }
      }
      ConcatUint16(rows[..n]);
      forall k | 0 <= k < |Concat(rows)|
        ensures IsUint16(Concat(rows)[k])
      {
        if k >= |Concat(rows[..n])| {
          assert Concat(rows)[k] == rows[n][k - |Concat(rows[..n])|];
        }
      }
    }
  }

  /** Reads a flat buffer back as consecutive rows of three, the way a renderer groups
      an index buffer into triangles. */
  function Chunks(buf: seq<int>): (rows: seq<seq<int>>)
    requires |buf| % 3 == 0
    ensures |rows| == |buf| / 3 && AllTriples(rows)
    ensures Concat(rows) == buf
  {
    if buf == [] then []
    else
      var n := |buf| - 3;
      var init := Chunks(buf[..n]);
      ConcatAppend(init, buf[n..]);
      assert buf[..n] + buf[n..] == buf;
      init + [buf[n..]]
  }

  /** Flattening loses nothing about rows of three: grouping the buffer into triples
      gives the rows back. */
  lemma {:induction false} ChunksOfConcat(rows: seq<seq<int>>)
    requires AllTriples(rows)
    ensures |Concat(rows)| % 3 == 0 && Chunks(Concat(rows)) == rows
  {
    ConcatTriplesAt(rows);
    if rows != [] {
      var n := |rows| - 1;
      var buf := Concat(rows);
      ConcatTriplesAt(rows[..n]);
      ChunksOfConcat(rows[..n]);
      assert buf == Concat(rows[..n]) + rows[n];
      assert buf[..|buf| - 3] == Concat(rows[..n]);
      assert buf[|buf| - 3..] == rows[n];
      assert rows[..n] + [rows[n]] == rows;
    }
  }
}
