/** The buffer that keeps the head and the tail of a command's output. */
module CappedBuffer {

  newtype Byte = x: int | 0 <= x < 256
  type Bytes = seq<Byte>

  const TAIL_MAX := 8 * 1024

  /** What is shown: everything, or head, number of bytes left out, tail. */
  datatype Shown = Whole(head: Bytes) | Cut(head: Bytes, dropped: int, tail: Bytes)

  /** The state of a buffer. */
  datatype State = State(head: Bytes, tail: Bytes, dropped: nat, truncated: bool)

  const Empty := State([], [], 0, false)

  // ---------- specification ----------

  function Cap(max: int): nat {
    if max < 0 then 0 else max
  }

  function First(s: Bytes, n: nat): Bytes {
    if |s| <= n then s else s[..n]
  }

  function Last(s: Bytes, n: nat): Bytes {
    if |s| <= n then s else s[|s| - n..]
  }

  /** The state after output `s`, however it was cut into writes. */
  function Holding(max: int, s: Bytes, truncated: bool): State {
    var head := First(s, Cap(max));
    State(head, Last(s[|head|..], TAIL_MAX), |s| - |head|, truncated)
  }

  /** A write sets the mark if it does not fit, or if it finds the head full. */
  predicate Marks(max: int, written: nat, chunk: Bytes) {
    written + |chunk| > Cap(max) || written >= Cap(max)
  }

  function Render(s: State): Shown {
    if s.truncated then Cut(s.head, s.dropped - |s.tail|, s.tail) else Whole(s.head)
  }

  /** One write, as the program does it. */
  function Wrote(max: int, b: State, chunk: Bytes): State {
    var room := max - |b.head|;
    if room > 0 && |chunk| <= room then b.(head := b.head + chunk)
    else
      var fits := if room > 0 then room else 0;
      State(b.head + First(chunk, fits), Last(b.tail + chunk[|First(chunk, fits)|..], TAIL_MAX),
            b.dropped + |chunk| - |First(chunk, fits)|, true)
  }

  // ---------- the program ----------

  class Buffer {
    var head: Bytes
    var tail: Bytes
    const max: int
    var dropped: nat
    var truncated: bool

    constructor (max: int)
      ensures Contents() == Empty && this.max == max
    {
      head, tail, dropped, truncated := [], [], 0, false;
      this.max := max;
    }

    function Contents(): State
      reads this
    {
      State(head, tail, dropped, truncated)
    }

    /** Always reports the full length. `WriteIs` says what the new state means. */
    method Write(chunk: Bytes) returns (n: nat)
      modifies this
      ensures Contents() == Wrote(max, old(Contents()), chunk) && n == |chunk|
    {
      n := |chunk|;
      var p := chunk;
      var room := max - |head|;
      if room > 0 {
        if |p| <= room {
          head := head + p;
          return;
        }
        head := head + p[..room];
        p := p[room..];
      }
      truncated := true;
      dropped := dropped + |p|;
      tail := tail + p;
      if |tail| > TAIL_MAX {
        tail := tail[|tail| - TAIL_MAX..];
      }
    }

    method String() returns (r: Shown)
      ensures r == Render(Contents())
    {
      if !truncated { return Whole(head); }
      return Cut(head, dropped - |tail|, tail);
    }
  }

  lemma WriteIs(max: int, s: Bytes, truncated: bool, chunk: Bytes)
    ensures Wrote(max, Holding(max, s, truncated), chunk)
            == Holding(max, s + chunk, truncated || Marks(max, |s|, chunk))
  {
    var cap := Cap(max);
    if |s| + |chunk| <= cap {
      Fits(s, chunk, cap);
    } else {
      Overflows(s, chunk, cap);
    }
  }

  lemma Fits(s: Bytes, chunk: Bytes, cap: nat)
    requires |s| + |chunk| <= cap
    ensures First(s, cap) == s && First(s + chunk, cap) == s + chunk
    ensures s[|s|..] == [] && (s + chunk)[|s + chunk|..] == [] && First(chunk, 0) == []
  {
  }

  lemma Overflows(s: Bytes, chunk: Bytes, cap: nat)
    requires |s| + |chunk| > cap
    ensures var head := First(s, cap);
      var fits := First(chunk, cap - |head|);
      && First(s + chunk, cap) == head + fits
      && Last((s + chunk)[|head + fits|..], TAIL_MAX)
         == Last(Last(s[|head|..], TAIL_MAX) + chunk[|fits|..], TAIL_MAX)
  {
    var head := First(s, cap);
    var fits := First(chunk, cap - |head|);
    assert (s + chunk)[|head + fits|..] == s[|head|..] + chunk[|fits|..];
    LastOfLast(s[|head|..], chunk[|fits|..], TAIL_MAX);
  }

  /** Keeping only a tail's length along the way loses nothing of the final tail. */
  lemma LastOfLast(s: Bytes, p: Bytes, n: nat)
    ensures Last(Last(s, n) + p, n) == Last(s + p, n)
  {
  }

  // ---------- whole outputs ----------

  function Concat(chunks: seq<Bytes>): Bytes {
    if chunks == [] then [] else Concat(chunks[..|chunks| - 1]) + chunks[|chunks| - 1]
  }

  predicate EmptyWriteWhenFull(max: int, chunks: seq<Bytes>) {
    exists i: nat :: i < |chunks| && EmptyWriteAt(max, chunks, i)
  }

  /** Some write set the mark. */
  predicate Marked(max: int, chunks: seq<Bytes>) {
    chunks != [] &&
    (Marked(max, chunks[..|chunks| - 1]) || Marks(max, |Concat(chunks[..|chunks| - 1])|, chunks[|chunks| - 1]))
  }

  /** Writes the chunks one by one into a new buffer. */
  method WriteAll(max: int, chunks: seq<Bytes>) returns (b: Buffer, r: Shown)
    ensures fresh(b) && b.Contents() == Holding(max, Concat(chunks), Marked(max, chunks)) && r == Render(b.Contents())
  {
    b := new Buffer(max);
    for i := 0 to |chunks|
      invariant fresh(b) && b.max == max
      invariant b.Contents() == Holding(max, Concat(chunks[..i]), Marked(max, chunks[..i]))
    {
      assert chunks[..i + 1][..i] == chunks[..i];
      var n := b.Write(chunks[i]);
      WriteIs(max, Concat(chunks[..i]), Marked(max, chunks[..i]), chunks[i]);
    }
    assert chunks[..|chunks|] == chunks;
    r := b.String();
  }

  /** Exactly when output is reported as truncated: it is longer than the cap, or something
      empty was written when the head was already full. */
  lemma {:induction false} MarkedExactly(max: int, chunks: seq<Bytes>)
    ensures Marked(max, chunks) <==> |Concat(chunks)| > Cap(max) || EmptyWriteWhenFull(max, chunks)
    decreases |chunks|
  {
    if chunks != [] {
      var n := |chunks| - 1;
      MarkedExactly(max, chunks[..n]);
      EmptyWriteAtEnd(max, chunks);
    }
  }

  predicate EmptyWriteAt(max: int, chunks: seq<Bytes>, i: nat) {
    i < |chunks| && chunks[i] == [] && |Concat(chunks[..i])| >= Cap(max)
  }

  lemma EmptyWriteAtEnd(max: int, chunks: seq<Bytes>)
    requires chunks != []
    ensures var n := |chunks| - 1;
      EmptyWriteWhenFull(max, chunks) <==> EmptyWriteWhenFull(max, chunks[..n]) || EmptyWriteAt(max, chunks, n)
  {
    var n := |chunks| - 1;
    forall i | 0 <= i < n ensures EmptyWriteAt(max, chunks, i) <==> EmptyWriteAt(max, chunks[..n], i) {
      assert chunks[..n][..i] == chunks[..i];
    }
  }

  /** For non-empty writes the result depends on the output alone, not on how it was cut:
      the first `max` bytes, the last 8192 of the rest, and the mark exactly on overflow. */
  lemma ChunkingIsInvisible(max: int, chunks: seq<Bytes>)
    requires forall c | c in chunks :: c != []
    ensures Holding(max, Concat(chunks), Marked(max, chunks))
            == Holding(max, Concat(chunks), |Concat(chunks)| > Cap(max))
  {
    MarkedExactly(max, chunks);
    forall i: nat | i < |chunks| ensures !EmptyWriteAt(max, chunks, i) {
      assert chunks[i] in chunks;
    }
  }

  /** No byte is unaccounted for: what is shown plus what is reported as dropped is the whole
      output, and up to a tail's length beyond the cap nothing is dropped. */
  lemma NothingUnaccounted(max: int, chunks: seq<Bytes>)
    ensures var s := Concat(chunks);
      match Render(Holding(max, s, Marked(max, chunks)))
      case Whole(head) => head == s
      case Cut(head, dropped, tail) =>
        && 0 <= dropped && |head| + dropped + |tail| == |s|
        && head + s[|head|..|head| + dropped] + tail == s
        && |head| == (if max < 0 then 0 else if max < |s| then max else |s|)
        && |tail| <= 8192 && (dropped == 0 <==> |s| <= (if max < 0 then 0 else max) + 8192)
  {
    MarkedExactly(max, chunks);
    HeadAndTail(max, Concat(chunks));
  }

  lemma HeadAndTail(max: int, s: Bytes)
    ensures var head := First(s, Cap(max));
      var tail := Last(s[|head|..], TAIL_MAX);
      var dropped := |s| - |head| - |tail|;
      && 0 <= dropped && head + s[|head|..|head| + dropped] + tail == s
      && (dropped == 0 <==> |s| <= Cap(max) + TAIL_MAX) && (|s| <= Cap(max) ==> head == s)
  {
    var head := First(s, Cap(max));
    var tail := Last(s[|head|..], TAIL_MAX);
    assert tail == s[|s| - |tail|..];
    assert head == s[..|head|];
  }
}
