/**
Streaming a text file in chunks that never split a character (fslocal/local.go, fslocal/fsio.go).
Validity is that of section 4 of RFC 3629.
 */
module TextStream {
  import opened SessionLog

  type Byte = bv8
  type Bytes = seq<Byte>

  // ----- UTF-8 -----

  predicate Tail(b: Byte) { 0x80 <= b <= 0xBF }

  /** How many bytes the character starting with this byte has; 0 for no character. */
  function Length(lead: Byte): nat {
    if lead <= 0x7F then 1
    else if 0xC2 <= lead <= 0xDF then 2
    else if 0xE0 <= lead <= 0xEF then 3
    else if 0xF0 <= lead <= 0xF4 then 4
    else 0
  }

  /** The second byte a lead byte allows. */
  predicate Second(lead: Byte, b: Byte) {
    Tail(b) && (lead == 0xE0 ==> b >= 0xA0) && (lead == 0xED ==> b <= 0x9F) && (lead == 0xF0 ==> b >= 0x90) && (lead == 0xF4 ==> b <= 0x8F)
  }

  /** One encoded character. */
  predicate Character(s: Bytes) {
    s != [] && |s| == Length(s[0]) && (|s| > 1 ==> Second(s[0], s[1])) && forall i :: 2 <= i < |s| ==> Tail(s[i])
  }

  predicate Utf8(s: Bytes) {
    s == [] || (0 < Length(s[0]) <= |s| && Character(s[..Length(s[0])]) && Utf8(s[Length(s[0])..]))
  }

  // ----- The characters are the encoded Unicode scalar values -----

  type CodePoint = bv32

  predicate Scalar(c: CodePoint) { c <= 0x10FFFF && !(0xD800 <= c <= 0xDFFF) }

  function Lead(mark: CodePoint, c: CodePoint): Byte {
    ((mark | c) & 0xFF) as bv8
  }

  function Follow(c: CodePoint): Byte {
    (0x80 | (c & 0x3F)) as bv8
  }

  /** Section 3 of RFC 3629: the bits of the value, six to every byte after the first. */
  function Encode(c: CodePoint): Bytes
    requires Scalar(c)
  {
    if c < 0x80 then [Lead(0, c)]
    else if c < 0x800 then [Lead(0xC0, c >> 6), Follow(c)]
    else if c < 0x1_0000 then [Lead(0xE0, c >> 12), Follow(c >> 6), Follow(c)]
    else [Lead(0xF0, c >> 18), Follow(c >> 12), Follow(c >> 6), Follow(c)]
  }

  function Bits(b: Byte): CodePoint {
    (b & 0x3F) as bv32
  }

  function Join2(a: Byte, b: Byte): CodePoint { ((a & 0x1F) as bv32 << 6) | Bits(b) }

  function Join3(a: Byte, b: Byte, c: Byte): CodePoint { ((a & 0x0F) as bv32 << 12) | (Bits(b) << 6) | Bits(c) }

  function Join4(a: Byte, b: Byte, c: Byte, d: Byte): CodePoint {
    ((a & 0x07) as bv32 << 18) | (Bits(b) << 12) | (Bits(c) << 6) | Bits(d)
  }

  function Decode(s: Bytes): CodePoint
    requires Character(s)
  {
    if |s| == 1 then s[0] as bv32
    else if |s| == 2 then Join2(s[0], s[1])
    else if |s| == 3 then Join3(s[0], s[1], s[2])
    else Join4(s[0], s[1], s[2], s[3])
  }

  lemma Split2(c: CodePoint)
    requires 0x80 <= c < 0x800
    ensures 0xC2 <= Lead(0xC0, c >> 6) <= 0xDF && Tail(Follow(c)) && Join2(Lead(0xC0, c >> 6), Follow(c)) == c
  {
  }

  lemma Split3(c: CodePoint)
    requires 0x800 <= c < 0x1_0000 && Scalar(c)
    ensures var a, b := Lead(0xE0, c >> 12), Follow(c >> 6);
            0xE0 <= a <= 0xEF && Second(a, b) && Tail(Follow(c)) && Join3(a, b, Follow(c)) == c
  {
  }

  lemma Split4(c: CodePoint)
    requires 0x1_0000 <= c && Scalar(c)
    ensures var a, b := Lead(0xF0, c >> 18), Follow(c >> 12);
            0xF0 <= a <= 0xF4 && Second(a, b) && Tail(Follow(c >> 6)) && Tail(Follow(c))
  {
  }

  lemma Rejoin4(c: CodePoint)
    requires 0x1_0000 <= c && Scalar(c)
    ensures Join4(Lead(0xF0, c >> 18), Follow(c >> 12), Follow(c >> 6), Follow(c)) == c
  {
  }

  lemma Unsplit2(a: Byte, b: Byte)
    requires 0xC2 <= a <= 0xDF && Tail(b)
    ensures var c := Join2(a, b);
            0x80 <= c < 0x800 && Lead(0xC0, c >> 6) == a && Follow(c) == b
  {
  }

  lemma Unsplit3(a: Byte, b: Byte, d: Byte)
    requires 0xE0 <= a <= 0xEF && Second(a, b) && Tail(d)
    ensures var c := Join3(a, b, d);
            0x800 <= c < 0x1_0000 && Scalar(c) && Lead(0xE0, c >> 12) == a && Follow(c >> 6) == b && Follow(c) == d
  {
  }

  lemma Unsplit4(a: Byte, b: Byte, d: Byte, e: Byte) returns (c: CodePoint)
    requires 0xF0 <= a <= 0xF4 && Second(a, b) && Tail(d) && Tail(e)
    ensures c == Join4(a, b, d, e) && 0x1_0000 <= c && Scalar(c)
    ensures Encode(c) == [a, b, d, e]
  {
    c := Join4(a, b, d, e);
    EncodeAs4(c, a, b, d, e);
  }

  /** Every scalar value is encoded as one character, and read back. */
  lemma EncodedIsCharacter(c: CodePoint)
    requires Scalar(c)
    ensures Character(Encode(c)) && Decode(Encode(c)) == c
  {
    hide Lead, Follow, Join2, Join3, Join4, Tail, Second;
    if c < 0x80 {
      Plain(c);
    } else if c < 0x800 {
      Split2(c);
      SecondOfTwo(Lead(0xC0, c >> 6), Follow(c));
    } else if c < 0x1_0000 {
      Split3(c);
    } else {
      Split4(c);
      Rejoin4(c);
    }
  }

  lemma Plain(c: CodePoint)
    requires c < 0x80
    ensures Lead(0, c) <= 0x7F && Lead(0, c) as bv32 == c
  {
  }

  lemma SecondOfTwo(a: Byte, b: Byte)
    requires 0xC2 <= a <= 0xDF
    ensures Second(a, b) <==> Tail(b)
  {
  }

  lemma Unplain(a: Byte)
    requires a <= 0x7F
    ensures a as bv32 < 0x80 && Lead(0, a as bv32) == a
  {
  }

  lemma LeadOf(s: Bytes)
    requires Character(s)
    ensures 1 <= |s| <= 4
    ensures |s| == 1 ==> s[0] <= 0x7F
    ensures |s| == 2 ==> 0xC2 <= s[0] <= 0xDF
    ensures |s| == 3 ==> 0xE0 <= s[0] <= 0xEF
    ensures |s| == 4 ==> 0xF0 <= s[0] <= 0xF4
    ensures |s| > 1 ==> Second(s[0], s[1]) && Tail(s[1])
    ensures |s| > 2 ==> Tail(s[2])
    ensures |s| > 3 ==> Tail(s[3])
  {
  }

  lemma EncodeAs2(c: CodePoint)
    requires 0x80 <= c < 0x800
    ensures Scalar(c) && Encode(c) == [Lead(0xC0, c >> 6), Follow(c)]
  {
    hide Lead, Follow;
  }

  lemma EncodeAs3(c: CodePoint)
    requires 0x800 <= c < 0x1_0000 && Scalar(c)
    ensures Encode(c) == [Lead(0xE0, c >> 12), Follow(c >> 6), Follow(c)]
  {
    hide Lead, Follow;
  }

  lemma EncodeAs4(c: CodePoint, a: Byte, b: Byte, d: Byte, e: Byte)
    requires 0x1_0000 <= c && Scalar(c) && Lead(0xF0, c >> 18) == a && Follow(c >> 12) == b && Follow(c >> 6) == d && Follow(c) == e
    ensures Encode(c) == [a, b, d, e]
  {
    hide Lead, Follow;
  }

  lemma Encoded1(a: Byte)
    requires a <= 0x7F
    ensures Scalar(a as bv32) && Encode(a as bv32) == [a]
  {
    hide Lead;
    Unplain(a);
  }

  lemma Encoded2(a: Byte, b: Byte)
    requires 0xC2 <= a <= 0xDF && Tail(b)
    ensures Scalar(Join2(a, b)) && Encode(Join2(a, b)) == [a, b]
  {
    hide Lead, Follow, Join2, Tail, Encode, Scalar;
    Unsplit2(a, b);
    EncodeAs2(Join2(a, b));
  }

  lemma Encoded3(a: Byte, b: Byte, d: Byte)
    requires 0xE0 <= a <= 0xEF && Second(a, b) && Tail(d)
    ensures Scalar(Join3(a, b, d)) && Encode(Join3(a, b, d)) == [a, b, d]
  {
    hide Lead, Follow, Join3, Tail, Second, Encode, Scalar;
    Unsplit3(a, b, d);
    EncodeAs3(Join3(a, b, d));
  }

  /** Every character is the encoding of one scalar value: no overlong form, no surrogate, nothing above 10FFFF. */
  lemma CharacterIsEncoded(s: Bytes)
    requires Character(s)
    ensures Scalar(Decode(s)) && Encode(Decode(s)) == s
  {
    LeadOf(s);
    hide Join2, Join3, Join4, Tail, Second, Character, Length, Encode, Scalar;
    if |s| == 1 {
      Encoded1(s[0]);
      assert s == [s[0]];
    } else if |s| == 2 {
      Encoded2(s[0], s[1]);
      assert s == [s[0], s[1]];
    } else if |s| == 3 {
      Encoded3(s[0], s[1], s[2]);
      assert s == [s[0], s[1], s[2]];
    } else {
      var c := Unsplit4(s[0], s[1], s[2], s[3]);
      assert s == [s[0], s[1], s[2], s[3]];
    }
  }

  /** A proper prefix of a character, possibly empty. */
  ghost predicate Partial(s: Bytes) {
    s == [] || exists c: Bytes :: Character(c) && s <= c && |s| < |c|
  }

  lemma {:induction false} Utf8Concat(a: Bytes, b: Bytes)
    requires Utf8(a)
    ensures Utf8(a + b) <==> Utf8(b)
  {
    if a == [] {
      assert a + b == b;
    } else {
      var n := Length(a[0]);
      assert (a + b)[..n] == a[..n] && (a + b)[n..] == a[n..] + b;
      Utf8Concat(a[n..], b);
    }
  }

  lemma PartialIsNotUtf8(s: Bytes)
    requires Partial(s) && s != []
    ensures !Utf8(s) && |s| <= 3 && Length(s[0]) > |s| && forall i :: 1 <= i < |s| ==> Tail(s[i])
  {
    var c: Bytes :| Character(c) && s <= c && |s| < |c|;
    assert c[0] == s[0];
    assert forall i :: 1 <= i < |s| ==> s[i] == c[i];
  }

  /** The bytes before n are a text and the rest is part of a character. */
  ghost predicate SplitAt(s: Bytes, n: nat) {
    n <= |s| && Utf8(s[..n]) && Partial(s[n..])
  }

  lemma CharacterIsUtf8(s: Bytes, rest: Bytes)
    requires Character(s)
    ensures Utf8(s + rest) <==> Utf8(rest)
  {
    assert (s + rest)[..|s|] == s && (s + rest)[|s|..] == rest;
  }

  lemma SplitLater(first: Bytes, rest: Bytes, n: nat)
    requires Character(first) && SplitAt(rest, n)
    ensures SplitAt(first + rest, |first| + n)
  {
    var s := first + rest;
    assert s[..|first| + n] == first + rest[..n] && s[|first| + n..] == rest[n..];
    CharacterIsUtf8(first, rest[..n]);
  }

  /** Any prefix of a text is a text followed by part of a character. */
  lemma {:induction false} PrefixSplits(s: Bytes, k: nat) returns (n: nat)
    requires Utf8(s) && k <= |s|
    ensures n <= k && SplitAt(s[..k], n)
  {
    if k == 0 { return 0; }
    var first := Length(s[0]);
    if k < first {
      assert s[..k] <= s[..first] && s[..k][0..] == s[..k];
      return 0;
    }
    var rest := s[first..];
    n := PrefixSplits(rest, k - first);
    assert s[..k] == s[..first] + rest[..k - first];
    SplitLater(s[..first], rest[..k - first], n);
    n := first + n;
  }

  // ----- The bytes to hold back -----

  /** How many trailing bytes may be the start of a split character. */
  method TrailingPartialBytes(chunk: Bytes) returns (keep: nat)
    ensures keep <= |chunk| && keep <= 3
    ensures forall n: nat {:trigger SplitAt(chunk, n)} :: SplitAt(chunk, n) && n < |chunk| ==> keep == |chunk| - n
  {
    var limit := if |chunk| < 3 then |chunk| else 3;
    var i := 1;
    while i <= limit
      invariant 1 <= i <= limit + 1
      invariant forall p :: |chunk| - i < p < |chunk| ==> Tail(chunk[p])
    {
      var b := chunk[|chunk| - i];
      if b & 0xC0 != 0x80 {
        if b & 0x80 == 0 { return 0; }
        var expected := 0;
        if b & 0xE0 == 0xC0 { expected := 2; }
        else if b & 0xF0 == 0xE0 { expected := 3; }
        else if b & 0xF8 == 0xF0 { expected := 4; }
        else { return 0; }
        if i < expected { return i; }
        return 0;
      }
      i := i + 1;
    }
    return limit;
  }

  // ----- The stream -----

  function Concat(chunks: seq<Bytes>): Bytes {
    if chunks == [] then [] else Concat(chunks[..|chunks| - 1]) + chunks[|chunks| - 1]
  }

  predicate AllUtf8(chunks: seq<Bytes>) {
    forall i :: 0 <= i < |chunks| ==> Utf8(chunks[i])
  }

  lemma {:induction false} ConcatIsUtf8(chunks: seq<Bytes>)
    requires AllUtf8(chunks)
    ensures Utf8(Concat(chunks))
  {
    if chunks != [] {
      ConcatIsUtf8(chunks[..|chunks| - 1]);
      Utf8Concat(Concat(chunks[..|chunks| - 1]), chunks[|chunks| - 1]);
    }
  }

  lemma ConcatOneMore(chunks: seq<Bytes>, chunk: Bytes)
    ensures Concat(chunks + [chunk]) == Concat(chunks) + chunk
  {
    assert (chunks + [chunk])[..|chunks|] == chunks;
  }

  /** What a stream has delivered and holds back after reading `offset` bytes: nothing is lost or
      repeated, and on a text every chunk is a text. */
  ghost predicate Faithful(file: Bytes, offset: nat, delivered: seq<Bytes>, carry: Bytes) {
    && offset <= |file| && Concat(delivered) + carry == file[..offset]
    && (Utf8(file) ==> AllUtf8(delivered) && Partial(carry))
  }

  lemma ReadMore(file: Bytes, offset: nat, before: Bytes, carry: Bytes, more: nat, chunk: Bytes)
    requires offset + more <= |file| && before + carry == file[..offset] && chunk == carry + file[offset..offset + more]
    ensures before + chunk == file[..offset + more]
  {
    assert file[..offset + more] == file[..offset] + file[offset..offset + more];
  }

  lemma Regroup(before: Bytes, chunk: Bytes, cut: nat)
    requires cut <= |chunk|
    ensures before + chunk[..cut] + chunk[cut..] == before + chunk
  {
    assert chunk == chunk[..cut] + chunk[cut..];
  }

  lemma PrefixRest(file: Bytes, before: Bytes, chunk: Bytes, k: nat)
    requires k <= |file| && before + chunk == file[..k]
    ensures file == before + file[|before|..] && |chunk| <= |file[|before|..]| && file[|before|..][..|chunk|] == chunk
  {
    assert file == file[..k] + file[k..];
    assert file == before + (chunk + file[k..]);
  }

  /** What follows a text in a text starts with a text and part of a character. */
  lemma ChunkSplits(file: Bytes, before: Bytes, chunk: Bytes, k: nat) returns (n: nat)
    requires Utf8(file) && Utf8(before) && k <= |file| && before + chunk == file[..k]
    ensures SplitAt(chunk, n)
  {
    hide SplitAt;
    PrefixRest(file, before, chunk, k);
    Utf8Concat(before, file[|before|..]);
    hide Utf8;
    n := PrefixSplits(file[|before|..], |chunk|);
  }

  /** How much of a chunk may be held back: nothing of a text, otherwise a split character. */
  ghost predicate KeepFits(chunk: Bytes, keep: nat) {
    && keep <= |chunk|
    && if Utf8(chunk) then keep == 0 else forall n: nat {:trigger SplitAt(chunk, n)} :: SplitAt(chunk, n) && n < |chunk| ==> keep == |chunk| - n
  }

  lemma DeliveredBytes(read: Bytes, delivered: seq<Bytes>, chunk: Bytes, cut: nat)
    requires cut <= |chunk| && Concat(delivered) + chunk == read
    ensures Concat(delivered + [chunk[..cut]]) + chunk[cut..] == read
  {
    hide Concat;
    ConcatOneMore(delivered, chunk[..cut]);
    Regroup(Concat(delivered), chunk, cut);
  }

  /** Delivering all but the last `keep` bytes keeps the stream faithful. */
  lemma DeliverKeepsFaithful(file: Bytes, offset: nat, delivered: seq<Bytes>, carry: Bytes, more: nat, chunk: Bytes, keep: nat)
    requires Faithful(file, offset, delivered, carry) && offset + more <= |file| && chunk == carry + file[offset..offset + more]
    requires KeepFits(chunk, keep)
    ensures keep <= |chunk| && Faithful(file, offset + more, delivered + [chunk[..|chunk| - keep]], chunk[|chunk| - keep..])
  {
    hide Utf8, Concat, Partial, AllUtf8;
    ReadMore(file, offset, Concat(delivered), carry, more, chunk);
    DeliverWhole(file, offset + more, delivered, chunk, keep);
  }

  lemma DeliverWhole(file: Bytes, k: nat, delivered: seq<Bytes>, chunk: Bytes, keep: nat)
    requires k <= |file| && Concat(delivered) + chunk == file[..k] && KeepFits(chunk, keep) && (Utf8(file) ==> AllUtf8(delivered))
    ensures keep <= |chunk| && Faithful(file, k, delivered + [chunk[..|chunk| - keep]], chunk[|chunk| - keep..])
  {
    hide Utf8, Concat, SplitAt, Partial, AllUtf8;
    var cut := |chunk| - keep;
    DeliveredBytes(file[..k], delivered, chunk, cut);
    if Utf8(file) {
      ConcatIsUtf8(delivered);
      CutIsSplit(file, k, Concat(delivered), chunk, keep);
      AllUtf8OneMore(delivered, chunk[..cut]);
    }
  }

  lemma AllUtf8OneMore(chunks: seq<Bytes>, chunk: Bytes)
    requires AllUtf8(chunks) && Utf8(chunk)
    ensures AllUtf8(chunks + [chunk])
  {
    hide Utf8;
  }

  lemma SplitIsCut(chunk: Bytes, keep: nat, n: nat)
    requires KeepFits(chunk, keep) && !Utf8(chunk) && SplitAt(chunk, n)
    ensures n == |chunk| - keep
  {
    hide Utf8, Partial;
    assert chunk[..|chunk|] == chunk;
  }

  lemma CutIsSplit(file: Bytes, k: nat, before: Bytes, chunk: Bytes, keep: nat)
    requires Utf8(file) && Utf8(before) && k <= |file| && before + chunk == file[..k] && KeepFits(chunk, keep)
    ensures SplitAt(chunk, |chunk| - keep)
    ensures Utf8(chunk[..|chunk| - keep]) && Partial(chunk[|chunk| - keep..])
  {
    WholeCut(chunk);
    if !Utf8(chunk) {
      hide Utf8, Partial, KeepFits;
      var n := ChunkSplits(file, before, chunk, k);
      SplitIsCut(chunk, keep, n);
    }
  }

  lemma WholeCut(chunk: Bytes)
    ensures chunk[..|chunk|] == chunk && chunk[|chunk|..] == [] && Partial([])
  {
  }

  /** At the end of a text nothing is held back, so the chunks are the whole file. */
  lemma NothingHeldBack(file: Bytes, delivered: seq<Bytes>, carry: Bytes)
    requires Faithful(file, |file|, delivered, carry) && Utf8(file)
    ensures carry == [] && Concat(delivered) == file
  {
    ConcatIsUtf8(delivered);
    assert file[..|file|] == file;
    Utf8Concat(Concat(delivered), carry);
    if carry != [] { PartialIsNotUtf8(carry); }
  }

  /** A completely read file is delivered exactly, in valid chunks, if and only if it is valid. */
  lemma DeliveredExactlyIffValid(file: Bytes, delivered: seq<Bytes>, carry: Bytes)
    requires Faithful(file, |file|, delivered, carry)
    ensures (AllUtf8(delivered) && Concat(delivered) == file) <==> Utf8(file)
  {
    if Utf8(file) { NothingHeldBack(file, delivered, carry); }
    if AllUtf8(delivered) { ConcatIsUtf8(delivered); }
  }

  /** Why a stream ended. */
  datatype Ending = Cancelled | ReadFailed | Binary | EndOfFile

  /** What happens when the stream asks for more: its context ends, the read fails, or bytes come, as
      many of those that are left as the system likes, but at least one. */
  datatype Reading = Interrupted | Fails | Gives(bytes: nat)

  class Stream {
    const file: Bytes
    var offset: nat
    var carry: Bytes
    var done: bool
    ghost var delivered: seq<Bytes>

    ghost predicate Valid()
      reads this
    {
      !done ==> Faithful(file, offset, delivered, carry) && offset <= |file| && 0 !in file[..offset]
    }

    constructor (file: Bytes)
      ensures Valid() && this.file == file && offset == 0 && delivered == [] && !done
    {
      this.file, offset, carry, done, delivered := file, 0, [], false, [];
    }

    /** How many bytes a reading brings. */
    function Taken(reading: Reading): nat
      reads this
      requires reading.Gives? && offset < |file|
      ensures 1 <= Taken(reading) <= |file| - offset
    {
      Max(1, Min(reading.bytes, |file| - offset))
    }

    /** The next chunk. */
    method Next(reading: Reading) returns (chunk: Bytes, ok: bool, ghost why: Ending)
      requires Valid() && !done
      modifies this
      ensures Valid() && old(offset) <= offset && done == !ok
      ensures ok ==> delivered == old(delivered) + [chunk] && old(offset) < offset && |carry| <= 3
      ensures !ok ==> delivered == old(delivered) && chunk == []
      // Each ending by its cause; without one a chunk is delivered.
      ensures !ok && why == Cancelled ==> reading.Interrupted?
      ensures !ok && why == ReadFailed ==> reading.Fails?
      ensures !ok && why == Binary ==> 0 in file
      ensures !ok && why == EndOfFile ==> Faithful(file, |file|, delivered, carry) && 0 !in file
      ensures ok ==> reading.Gives?
    {
      hide Faithful, SplitAt, Utf8;
      FaithfulOffset(file, offset, delivered, carry);
      chunk, ok, why := [], false, Cancelled;
      if reading.Interrupted? { done := true; return; }
      if reading.Fails? { done, why := true, ReadFailed; return; }
      if offset >= |file| {
        assert file[..offset] == file;
        done, why := true, EndOfFile;
        return;
      }
      var n := Taken(reading);
      var read := carry + file[offset..offset + n];
      if 0 in read {
        NulIsInFile(file, offset, delivered, carry, n);
        done, why := true, Binary;
        offset := offset + n;
        return;
      }
      var keep := 0;
      if !Utf8(read) { keep := TrailingPartialBytes(read); }
      DeliverKeepsFaithful(file, offset, delivered, carry, n, read, keep);
      NoNulRead(file, offset, carry, n);
      chunk, carry, offset, ok := read[..|read| - keep], read[|read| - keep..], offset + n, true;
      delivered := delivered + [chunk];
    }

    /** Reads the stream to its end. */
    method ReadAll(readings: nat -> Reading) returns (chunks: seq<Bytes>, ghost why: Ending)
      requires Valid() && !done && delivered == []
      modifies this
      ensures chunks == delivered && done
      ensures why == EndOfFile ==> 0 !in file
      ensures why == EndOfFile ==> ((AllUtf8(chunks) && Concat(chunks) == file) <==> Utf8(file))
      ensures why == Binary ==> 0 in file
      // Unless it is interrupted or a read fails, a file without NUL is read to its end.
      ensures (forall i :: readings(i).Gives?) ==> why == if 0 in file then Binary else EndOfFile
    {
      chunks := [];
      var i := 0;
      while true
        invariant Valid() && !done && chunks == delivered && i >= 0
        decreases |file| - offset
      {
        ghost var was := offset;
        assert offset <= |file|;
        var chunk, ok, reason := Next(readings(i));
        i := i + 1;
        why := reason;
        if !ok {
          if why == EndOfFile { DeliveredExactlyIffValid(file, delivered, carry); }
          return;
        }
        chunks := chunks + [chunk];
      }
    }
  }

  lemma NoNulRead(file: Bytes, offset: nat, carry: Bytes, n: nat)
    requires offset + n <= |file| && 0 !in file[..offset] && 0 !in carry + file[offset..offset + n]
    ensures 0 !in file[..offset + n]
  {
    var read := file[offset..offset + n];
    assert forall k :: 0 <= k < n ==> (carry + read)[|carry| + k] == read[k];
    assert file[..offset + n] == file[..offset] + read;
  }

  lemma FaithfulOffset(file: Bytes, offset: nat, delivered: seq<Bytes>, carry: Bytes)
    requires Faithful(file, offset, delivered, carry)
    ensures offset <= |file|
  {
  }

  lemma NulIsInFile(file: Bytes, offset: nat, delivered: seq<Bytes>, carry: Bytes, n: nat)
    requires Faithful(file, offset, delivered, carry) && offset + n <= |file| && 0 in carry + file[offset..offset + n]
    ensures 0 in file
  {
    var read := carry + file[offset..offset + n];
    var k :| 0 <= k < |read| && read[k] == 0;
    var before := Concat(delivered);
    assert file[..offset] == before + carry;
    assert file[|before| + k] == read[k] by {
      if k < |carry| { assert file[..offset][|before| + k] == carry[k]; }
    }
  }
}
