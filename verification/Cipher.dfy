/**
 The XOR cipher of src/crypto.c inside the chunk loops of src/fs.c.  The key index starts
 again in every chunk, so what a byte is combined with depends on where the chunks are cut.
 */
module Cipher {

  type Byte = bv8

  /** The bytes of "MySecretKey123". */
  const KEY: seq<Byte> := [0x4D, 0x79, 0x53, 0x65, 0x63, 0x72, 0x65, 0x74, 0x4B, 0x65, 0x79, 0x31, 0x32, 0x33]

  /** The buffer size of both loops. */
  const CHUNK: nat := 8192

  /** The key of src/crypto.c, as text. */
  lemma KeyIsText()
    ensures |KEY| == 14 && forall i :: 0 <= i < 14 ==> KEY[i] as int == "MySecretKey123"[i] as int
  {
  }

  function KeyByte(key: seq<Byte>, i: nat): Byte
    requires key != []
  {
    key[i % |key|]
  }

  /** One buffer encoded, or decoded. */
  function Xored(key: seq<Byte>, data: seq<Byte>): (r: seq<Byte>)
    requires key != []
    ensures |r| == |data|
  {
    seq(|data|, i requires 0 <= i < |data| => data[i] ^ KeyByte(key, i))
  }

  function Min(a: nat, b: nat): nat {
    if a < b then a else b
  }

  /** A file encoded buffer by buffer, `chunk` bytes at a time. */
  function Chunked(key: seq<Byte>, data: seq<Byte>, chunk: nat): (r: seq<Byte>)
    requires key != [] && chunk > 0
    ensures |r| == |data|
    decreases |data|
  {
    if data == [] then []
    else
      var n := Min(chunk, |data|);
      Xored(key, data[..n]) + Chunked(key, data[n..], chunk)
  }

  // ---------- The code ----------

  method XorCipher(input: array<Byte>, output: array<Byte>, len: nat, key: seq<Byte>)
    requires len <= input.Length && len <= output.Length && input != output
    requires len > 0 ==> key != []
    modifies output
    ensures forall i :: 0 <= i < len ==> output[i] == input[i] ^ key[i % |key|]
    ensures output[len..] == old(output[len..])
  {
    var i := 0;
    while i < len
      invariant 0 <= i <= len
      invariant forall j :: 0 <= j < i ==> output[j] == input[j] ^ key[j % |key|]
      invariant output[len..] == old(output[len..])
    {
      output[i] := input[i] ^ key[i % |key|];
      i := i + 1;
    }
  }

  method EncodeData(data: array<Byte>, len: nat) returns (encoded: array<Byte>)
    requires len <= data.Length
    ensures fresh(encoded) && encoded[..] == Xored(KEY, data[..len])
  {
    encoded := new Byte[len];
    XorCipher(data, encoded, len, KEY);
  }

  method DecodeData(data: array<Byte>, len: nat) returns (decoded: array<Byte>)
    requires len <= data.Length
    ensures fresh(decoded) && decoded[..] == Xored(KEY, data[..len])
  {
    decoded := EncodeData(data, len);
  }

  /** A file open for reading; reads are short only at its end. */
  class Reader {
    const data: seq<Byte>
    var pos: nat

    constructor (data: seq<Byte>)
      ensures this.data == data && pos == 0
    {
      this.data := data;
      pos := 0;
    }

    method Read(buf: array<Byte>) returns (n: nat)
      requires pos <= |data|
      modifies this, buf
      ensures n == Min(buf.Length, |data| - old(pos)) && pos == old(pos) + n
      ensures pos <= |data| && buf[..n] == data[old(pos)..pos]
    {
      n := Min(buf.Length, |data| - pos);
      forall i | 0 <= i < n {
        buf[i] := data[pos + i];
      }
      pos := pos + n;
    }
  }

  /** A file open for writing. */
  class Writer {
    var data: seq<Byte>

    constructor ()
      ensures data == []
    {
      data := [];
    }

    method Write(buf: array<Byte>)
      modifies this
      ensures data == old(data) + buf[..]
    {
      data := data + buf[..];
    }
  }

  /** The copy loop of `fs_upload`. */
  method Upload(input: Reader, output: Writer)
    requires input.pos == 0 && output.data == []
    modifies input, output
    ensures output.data == Chunked(KEY, input.data, CHUNK)
  {
    var buf := new Byte[CHUNK];
    while true
      invariant input.pos <= |input.data|
      invariant fresh(buf) && buf.Length == CHUNK
      invariant output.data + Chunked(KEY, input.data[input.pos..], CHUNK) == Chunked(KEY, input.data, CHUNK)
      decreases |input.data| - input.pos
    {
      ghost var pos, written := input.pos, output.data;
      var n := input.Read(buf);
      if n == 0 {
        break;
      }
      var encoded := EncodeData(buf, n);
      ChunkWritten(KEY, input.data, CHUNK, written, pos, input.pos);
      output.Write(encoded);
    }
  }

  /** The copy loop of `fs_download_path`. */
  method Download(input: Reader, output: Writer)
    requires input.pos == 0 && output.data == []
    modifies input, output
    ensures output.data == Chunked(KEY, input.data, CHUNK)
  {
    var buf := new Byte[CHUNK];
    while true
      invariant input.pos <= |input.data|
      invariant fresh(buf) && buf.Length == CHUNK
      invariant output.data + Chunked(KEY, input.data[input.pos..], CHUNK) == Chunked(KEY, input.data, CHUNK)
      decreases |input.data| - input.pos
    {
      ghost var pos, written := input.pos, output.data;
      var n := input.Read(buf);
      if n == 0 {
        break;
      }
      var decoded := DecodeData(buf, n);
      ChunkWritten(KEY, input.data, CHUNK, written, pos, input.pos);
      output.Write(decoded);
    }
  }

  lemma ChunkedStep(key: seq<Byte>, data: seq<Byte>, chunk: nat)
    requires key != [] && chunk > 0 && data != []
    ensures var n := Min(chunk, |data|);
            Chunked(key, data, chunk) == Xored(key, data[..n]) + Chunked(key, data[n..], chunk)
  {
  }

  /** What was written and what the rest will add stay the whole file. */
  lemma ChunkWritten(key: seq<Byte>, data: seq<Byte>, chunk: nat, written: seq<Byte>, p: nat, q: nat)
    requires key != [] && chunk > 0 && p < |data| && q == p + Min(chunk, |data| - p)
    ensures written + Chunked(key, data[p..], chunk) ==
            (written + Xored(key, data[p..q])) + Chunked(key, data[q..], chunk)
  {
    ChunkedStep(key, data[p..], chunk);
    assert data[p..][..q - p] == data[p..q] && data[p..][q - p..] == data[q..];
  }

  // ---------- Remainders ----------

  lemma DivMod(i: nat, c: nat)
    requires c > 0
    ensures i == (i / c) * c + i % c && 0 <= i % c < c
  {
  }

  lemma QuotientUnique(c: nat, q: int, r: int, q': int, r': int)
    requires 0 <= r < c && 0 <= r' < c && q * c + r == q' * c + r'
    ensures r == r'
  {
    var d := q - q';
    assert d * c == r' - r;
    if d >= 1 {
      AtLeastOnce(d, c);
    } else if d <= -1 {
      AtLeastOnce(-d, c);
    }
  }

  lemma AtLeastOnce(d: nat, c: nat)
    requires d >= 1
    ensures d * c >= c
  {
  }

  lemma ModStep(i: nat, c: nat)
    requires 0 < c <= i
    ensures (i - c) % c == i % c
  {
    DivMod(i - c, c);
    DivMod(i, c);
    var q := (i - c) / c;
    assert (q + 1) * c == q * c + c;
    QuotientUnique(c, q + 1, (i - c) % c, i / c, i % c);
  }

  /** A remainder by a multiple of `k` leaves the remainder by `k`. */
  lemma PhaseOfMultiple(i: nat, c: nat, k: nat)
    requires c > 0 && k > 0 && c % k == 0
    ensures (i % c) % k == i % k
  {
    DivMod(i, c);
    DivMod(c, k);
    DivMod(i % c, k);
    DivMod(i, k);
    var q, m, r := i / c, c / k, i % c;
    assert q * c == (q * m) * k by {
      assert c == m * k;
    }
    assert (q * m + r / k) * k == (q * m) * k + (r / k) * k;
    QuotientUnique(k, q * m + r / k, r % k, i / k, i % k);
  }

  // ---------- What is stored, and what comes back ----------

  /** The stored byte at `i` is the source byte combined with `key[(i % chunk) % |key|]`. */
  lemma {:induction false} StoredByte(key: seq<Byte>, data: seq<Byte>, chunk: nat, i: nat)
    requires key != [] && chunk > 0 && i < |data|
    ensures Chunked(key, data, chunk)[i] == data[i] ^ KeyByte(key, i % chunk)
    decreases |data|
  {
    var n := Min(chunk, |data|);
    ChunkedStep(key, data, chunk);
    if i < n {
      assert Chunked(key, data, chunk)[i] == Xored(key, data[..n])[i];
      SmallMod(i, chunk);
    } else {
      StoredByte(key, data[n..], chunk, i - n);
      ModStep(i, chunk);
    }
  }

  lemma SmallMod(i: nat, c: nat)
    requires i < c
    ensures i % c == i
  {
  }

  lemma XorUndone(a: Byte, k: Byte)
    ensures (a ^ k) ^ k == a
  {
  }

  lemma XorDiffers(b: Byte, k: Byte, l: Byte)
    requires k != l
    ensures b ^ k != b ^ l
  {
  }

  lemma XorCancels(a: Byte, k: Byte, b: Byte, l: Byte, c: Byte)
    requires b == a ^ k && c == b ^ l
    ensures c == a <==> k == l
  {
    XorUndone(a, k);
    if k != l {
      XorDiffers(b, k, l);
    }
  }

  lemma TwiceAt(key: seq<Byte>, data: seq<Byte>, e: nat, d: nat, i: nat)
    requires key != [] && e > 0 && d > 0 && i < |data|
    ensures Chunked(key, Chunked(key, data, e), d)[i] == data[i] <==> KeyByte(key, i % e) == KeyByte(key, i % d)
  {
    StoredByte(key, data, e, i);
    RestoredByte(key, Chunked(key, data, e), data[i], KeyByte(key, i % e), d, i);
  }

  lemma RestoredByte(key: seq<Byte>, stored: seq<Byte>, source: Byte, k: Byte, d: nat, i: nat)
    requires key != [] && d > 0 && i < |stored| && stored[i] == source ^ k
    ensures Chunked(key, stored, d)[i] == source <==> k == KeyByte(key, i % d)
  {
    StoredByte(key, stored, d, i);
    XorCancels(source, k, stored[i], KeyByte(key, i % d), Chunked(key, stored, d)[i]);
  }

  /** Download gives back every file that upload stored, whatever its length. */
  lemma {:induction false} FileRoundTrip(data: seq<Byte>)
    ensures Chunked(KEY, Chunked(KEY, data, CHUNK), CHUNK) == data
  {
    var again := Chunked(KEY, Chunked(KEY, data, CHUNK), CHUNK);
    forall i | 0 <= i < |data|
      ensures again[i] == data[i]
    {
      TwiceAt(KEY, data, CHUNK, CHUNK, i);
    }
  }

  /** Every stored byte is known, and none is stored as it was. */
  lemma StoredFile(data: seq<Byte>, i: nat)
    requires i < |data|
    ensures Chunked(KEY, data, CHUNK)[i] == data[i] ^ KEY[(i % 8192) % 14]
    ensures Chunked(KEY, data, CHUNK)[i] != data[i]
  {
    StoredByte(KEY, data, CHUNK, i);
    KeyHasNoZero((i % 8192) % 14);
    ChangesByte(data[i], KEY[(i % 8192) % 14]);
  }

  lemma KeyHasNoZero(k: nat)
    requires k < 14
    ensures KEY[k] != 0
  {
  }

  lemma ChangesByte(a: Byte, k: Byte)
    requires k != 0
    ensures a ^ k != a
  {
  }

  // ---------- Why both loops must cut the file at the same places ----------

  /** At every position, chunks of `e` and chunks of `d` use the same key byte. */
  ghost predicate PhasesAgree(key: seq<Byte>, e: nat, d: nat)
    requires key != [] && e > 0 && d > 0
  {
    forall i: nat :: KeyByte(key, i % e) == KeyByte(key, i % d)
  }

  /** Decoding in chunks of `d` gives back every file that was encoded in chunks of `e`. */
  ghost predicate Undoes(key: seq<Byte>, e: nat, d: nat)
    requires key != [] && e > 0 && d > 0
  {
    forall data :: Chunked(key, Chunked(key, data, e), d) == data
  }

  lemma UndoesIffPhasesAgree(key: seq<Byte>, e: nat, d: nat)
    requires key != [] && e > 0 && d > 0
    ensures Undoes(key, e, d) <==> PhasesAgree(key, e, d)
  {
    if Undoes(key, e, d) {
      forall i: nat
        ensures KeyByte(key, i % e) == KeyByte(key, i % d)
      {
        var data: seq<Byte> := seq(i + 1, _ => 0);
        assert Chunked(key, Chunked(key, data, e), d) == data;
        TwiceAt(key, data, e, d, i);
      }
    }
    if PhasesAgree(key, e, d) {
      forall data: seq<Byte>
        ensures Chunked(key, Chunked(key, data, e), d) == data
      {
        var again := Chunked(key, Chunked(key, data, e), d);
        forall i | 0 <= i < |data|
          ensures again[i] == data[i]
        {
          TwiceAt(key, data, e, d, i);
        }
      }
    }
  }

  /** The first byte of the key occurs nowhere else in it. */
  predicate FirstIsUnique(key: seq<Byte>)
    requires key != []
  {
    forall k :: 0 < k < |key| ==> key[k] != key[0]
  }

  lemma PhaseZero(key: seq<Byte>, i: nat)
    requires key != [] && FirstIsUnique(key) && KeyByte(key, i) == key[0]
    ensures i % |key| == 0
  {
  }

  lemma PhasesAgreeImplies(key: seq<Byte>, e: nat, d: nat)
    requires key != [] && FirstIsUnique(key) && 0 < d < e && PhasesAgree(key, e, d)
    ensures e % |key| == 0 && d % |key| == 0
  {
    SmallMod(d, e);
    assert d % d == 0 && e % e == 0 && KeyByte(key, 0) == key[0];
    assert KeyByte(key, d % e) == KeyByte(key, d % d);
    PhaseZero(key, d);
    assert KeyByte(key, e % e) == KeyByte(key, e % d);
    PhaseZero(key, e % d);
    PhaseOfMultiple(e, d, |key|);
  }

  lemma PhasesAgreeIff(key: seq<Byte>, e: nat, d: nat)
    requires key != [] && FirstIsUnique(key) && e > 0 && d > 0
    ensures PhasesAgree(key, e, d) <==> e == d || (e % |key| == 0 && d % |key| == 0)
  {
    if PhasesAgree(key, e, d) {
      if d < e {
        PhasesAgreeImplies(key, e, d);
      } else if e < d {
        assert PhasesAgree(key, d, e);
        PhasesAgreeImplies(key, d, e);
      }
    }
    if e % |key| == 0 && d % |key| == 0 {
      forall i: nat
        ensures KeyByte(key, i % e) == KeyByte(key, i % d)
      {
        PhaseOfMultiple(i, e, |key|);
        PhaseOfMultiple(i, d, |key|);
      }
    }
  }

  /**
   Decoding in chunks of `d` gives back every file encoded in chunks of `e` exactly when
   the sizes are equal or both are multiples of the key length; 8192 is not such a multiple.
   */
  lemma ChunkSizesMustMatch(e: nat, d: nat)
    requires e > 0 && d > 0
    ensures Undoes(KEY, e, d) <==> e == d || (e % 14 == 0 && d % 14 == 0)
    ensures Undoes(KEY, CHUNK, d) <==> d == CHUNK
  {
    UndoesIffPhasesAgree(KEY, e, d);
    PhasesAgreeIff(KEY, e, d);
    UndoesIffPhasesAgree(KEY, CHUNK, d);
    PhasesAgreeIff(KEY, CHUNK, d);
  }
}
