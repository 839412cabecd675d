/** The 24-byte records `Wait` hands to C: three 64-bit words in host byte order, the third an
    aligned pointer with a type tag in its low bits. */
module Records {
  import opened Base
  import opened Buffers

  const WORD := 0x1_0000_0000_0000_0000

  /** A uint64. */
  type Word = w: nat | w < WORD

  datatype ByteOrder = LittleEndian | BigEndian

  /** `ngx_grpc_cli_task_res_t` as three words. */
  datatype Rec = Rec(id: Word, size: Word, word: Word)

  // ---------------------------------------------------------------- bitwise operators on words

  function Or(a: nat, b: nat): nat {
    if a == 0 then b else if b == 0 then a
    else (if a % 2 == 1 || b % 2 == 1 then 1 else 0) + 2 * Or(a / 2, b / 2)
  }

  function And(a: nat, b: nat): nat {
    if a == 0 || b == 0 then 0
    else (if a % 2 == 1 && b % 2 == 1 then 1 else 0) + 2 * And(a / 2, b / 2)
  }

  /** `(int64_t) w`, two's complement. */
  function Signed(w: Word): int { if w < WORD / 2 then w else w - WORD }

  /** Back to an unsigned word, dropping what does not fit. */
  function Wrapped(x: int): Word { x % WORD }

  /** `(u_char *) ((int64_t) w >> 3 << 3)`: an arithmetic shift right, then a shift left. */
  function Unshifted(w: Word): Word { Wrapped(Wrapped(Signed(Wrapped(Signed(w) / 8))) * 8) }

  /** Setting a tag below the alignment adds it. */
  lemma OrAligned(p: nat, tag: nat)
    requires p % 8 == 0 && tag < 8
    ensures Or(p, tag) == p + tag
  {
    var q, r := p / 2, tag / 2;
    OrShallow(q / 2, r / 2);
  }

  lemma OrShallow(p: nat, tag: nat)
    requires p % 2 == 0 && tag < 2
    ensures Or(p, tag) == p + tag
  {
    assert Or(p / 2, 0) == p / 2;
  }

  /** `(int64_t) w & 7` is the tag. */
  lemma AndSeven(w: nat)
    ensures And(w, 7) == TypeOf(w)
  {
    assert And(w / 8, 0) == 0;
    assert And(w / 4, 1) == w / 4 % 2;
    assert And(w / 2, 3) == w / 2 % 2 + 2 * (w / 4 % 2);
  }

  /** The signed shifts clear the tag of every word, high addresses included. */
  lemma UnshiftedBase(w: Word)
    ensures Unshifted(w) == Base8(w)
  {
    var x := Signed(w) / 8;
    assert -WORD / 16 <= x < WORD / 16;
    assert Signed(Wrapped(x)) == x;
    assert Wrapped(x) * 8 == (if w < WORD / 2 then w / 8 * 8 else (x + WORD) * 8);
  }

  // ---------------------------------------------------------------- bytes

  /** Eight bytes, least significant first. */
  function Digits(w: nat, n: nat): (r: Bytes)
    ensures |r| == n
  {
    if n == 0 then [] else [w % 256] + Digits(w / 256, n - 1)
  }

  function Undigits(b: Bytes): (w: nat) {
    if b == [] then 0 else b[0] + 256 * Undigits(b[1..])
  }

  function Pow256(n: nat): nat { if n == 0 then 1 else 256 * Pow256(n - 1) }

  lemma {:induction false} DigitsRoundTrip(w: nat, n: nat)
    requires w < Pow256(n)
    ensures Undigits(Digits(w, n)) == w
  {
    if n > 0 {
      DigitsRoundTrip(w / 256, n - 1);
      assert Digits(w, n)[1..] == Digits(w / 256, n - 1);
    }
  }

  function Reversed(b: Bytes): (r: Bytes)
    ensures |r| == |b|
    ensures forall i :: 0 <= i < |b| ==> r[i] == b[|b| - 1 - i]
  {
    seq(|b|, i requires 0 <= i < |b| => b[|b| - 1 - i])
  }

  /** `hostEndian.PutUint64`. */
  function PutUint64(order: ByteOrder, w: Word): (r: Bytes)
    ensures |r| == 8
  {
    if order.LittleEndian? then Digits(w, 8) else Reversed(Digits(w, 8))
  }

  /** How the C compiler reads a uint64 from memory. */
  function GetUint64(order: ByteOrder, b: Bytes): nat {
    Undigits(if order.LittleEndian? then b else Reversed(b))
  }

  lemma WordRoundTrip(order: ByteOrder, w: Word)
    ensures GetUint64(order, PutUint64(order, w)) == w
  {
    assert Pow256(8) == WORD by {
      assert Pow256(4) == 0x1_0000_0000;
    }
    DigitsRoundTrip(w, 8);
    assert Reversed(Reversed(Digits(w, 8))) == Digits(w, 8);
  }

  // ---------------------------------------------------------------- records

  function EncodeRec(order: ByteOrder, x: Rec): (r: Bytes)
    ensures |r| == 24
  {
    PutUint64(order, x.id) + PutUint64(order, x.size) + PutUint64(order, x.word)
  }

  function EncodeAll(order: ByteOrder, xs: seq<Rec>): (r: Bytes)
    ensures |r| == 24 * |xs|
  {
    if xs == [] then [] else EncodeAll(order, xs[..|xs| - 1]) + EncodeRec(order, xs[|xs| - 1])
  }

  /** The struct at index `i` of the array the bytes are cast to. */
  function StructAt(out: Bytes, i: nat): (b: Bytes)
    requires 24 * (i + 1) <= |out|
    ensures |b| == 24
  {
    out[24 * i..24 * (i + 1)]
  }

  /** Reading a struct's three fields. */
  function TaskId(order: ByteOrder, b: Bytes): nat requires |b| == 24 { GetUint64(order, b[0..8]) }
  function Size(order: ByteOrder, b: Bytes): nat requires |b| == 24 { GetUint64(order, b[8..16]) }
  function Buf(order: ByteOrder, b: Bytes): nat requires |b| == 24 { GetUint64(order, b[16..24]) }

  lemma {:induction false} StructOf(order: ByteOrder, xs: seq<Rec>, i: nat)
    requires i < |xs|
    ensures StructAt(EncodeAll(order, xs), i) == EncodeRec(order, xs[i])
  {
    var n := |xs| - 1;
    var before, last := EncodeAll(order, xs[..n]), EncodeRec(order, xs[n]);
    assert EncodeAll(order, xs) == before + last;
    StructConcat(before, last, n, i);
    if i < n {
      StructOf(order, xs[..n], i);
    }
  }

  lemma StructConcat(a: Bytes, b: Bytes, n: nat, i: nat)
    requires |a| == 24 * n && |b| == 24 && i <= n
    ensures StructAt(a + b, i) == if i < n then StructAt(a, i) else b
  {
    if i < n {
      SliceLeft(a, b, 24 * i, 24 * (i + 1));
    } else {
      assert (a + b)[|a|..|a| + 24] == b;
    }
  }

  lemma SliceLeft(a: Bytes, b: Bytes, i: nat, j: nat)
    requires i <= j <= |a|
    ensures (a + b)[i..j] == a[i..j]
  {
  }

  /** Reading the packed output as an array of structs gives back every record, and the count
      is the number of records. */
  lemma RecordsRoundTrip(order: ByteOrder, xs: seq<Rec>, i: nat)
    requires i < |xs|
    ensures var out := EncodeAll(order, xs);
            && |out| / 24 == |xs|
            && TaskId(order, StructAt(out, i)) == xs[i].id
            && Size(order, StructAt(out, i)) == xs[i].size
            && Buf(order, StructAt(out, i)) == xs[i].word
  {
    StructOf(order, xs, i);
    hide EncodeAll, EncodeRec, GetUint64, StructAt;
    RecRoundTrip(order, xs[i]);
  }

  lemma RecRoundTrip(order: ByteOrder, x: Rec)
    ensures var b := EncodeRec(order, x);
            GetUint64(order, b[0..8]) == x.id && GetUint64(order, b[8..16]) == x.size && GetUint64(order, b[16..24]) == x.word
  {
    WordRoundTrip(order, x.id);
    WordRoundTrip(order, x.size);
    WordRoundTrip(order, x.word);
    hide GetUint64, PutUint64;
    var b := EncodeRec(order, x);
    assert b[0..8] == PutUint64(order, x.id);
    assert b[8..16] == PutUint64(order, x.size);
    assert b[16..24] == PutUint64(order, x.word);
  }

  // ---------------------------------------------------------------- layout

  /** The byte of a word with `k` less significant ones below it. */
  function ByteOf(w: nat, k: nat): Byte {
    if k == 0 then w % 256 else ByteOf(w / 256, k - 1)
  }

  lemma {:induction false} DigitAt(w: nat, n: nat, k: nat)
    requires k < n
    ensures Digits(w, n)[k] == ByteOf(w, k)
  {
    if k > 0 {
      DigitAt(w / 256, n - 1, k - 1);
    }
  }

  lemma PutAt(order: ByteOrder, w: Word, k: nat)
    requires k < 8
    ensures PutUint64(order, w)[k] == ByteOf(w, if order.LittleEndian? then k else 7 - k)
  {
    DigitAt(w, 8, k);
    DigitAt(w, 8, 7 - k);
    hide Digits;
  }

  /** Byte by byte: record `i` starts at offset `24 * i` with the id, the size follows at offset 8 and
      the tagged pointer at 16, each with its bytes in the order of the host. */
  lemma RecordLayout(order: ByteOrder, xs: seq<Rec>, i: nat, k: nat)
    requires i < |xs| && k < 8
    ensures var out, place := EncodeAll(order, xs), if order.LittleEndian? then k else 7 - k;
            && out[24 * i + k] == ByteOf(xs[i].id, place)
            && out[24 * i + 8 + k] == ByteOf(xs[i].size, place)
            && out[24 * i + 16 + k] == ByteOf(xs[i].word, place)
  {
    StructOf(order, xs, i);
    hide EncodeAll, PutUint64, ByteOf;
    PutAt(order, xs[i].id, k);
    PutAt(order, xs[i].size, k);
    PutAt(order, xs[i].word, k);
    BytesOf(EncodeAll(order, xs), i, k);
    BytesOf(EncodeAll(order, xs), i, 8 + k);
    BytesOf(EncodeAll(order, xs), i, 16 + k);
  }

  lemma BytesOf(out: Bytes, i: nat, k: nat)
    requires 24 * (i + 1) <= |out| && k < 24
    ensures StructAt(out, i)[k] == out[24 * i + k]
  {
  }
}
