/** Byte-level checks on a picture before it is sent as it is: the GIF block walker and
    the chunked scan for metadata marks. */
module OutgoingImage {
  newtype Byte = x: int | 0 <= x < 256
  type Bytes = seq<Byte>

  const TRAILER: Byte := 0x3b
  const EXTENSION: Byte := 0x21
  const IMAGE: Byte := 0x2c
  const COMMENT: Byte := 0xfe
  const APPLICATION: Byte := 0xff
  /** "XMP Data". */
  const XMP: Bytes := [0x58, 0x4d, 0x50, 0x20, 0x44, 0x61, 0x74, 0x61]
  const OVERLAP := 32

  /** The bytes of a colour table, by its flags byte. */
  function TableSize(packed: Byte): (n: nat)
    ensures n <= 768
  {
    if packed < 0x80 then 0 else 3 * [2, 4, 8, 16, 32, 64, 128, 256][packed as int % 8]
  }

  /** Three bytes a colour, and two to the power of the lower three bits plus one of them,
      if there is a table at all (GIF89a, sections 18 and 20). */
  lemma TableSizeIs(packed: Byte)
    ensures TableSize(packed) == if packed < 128 then 0 else 3 * Power(packed as int % 8 + 1)
  {
    assert Power(1) == 2 && Power(2) == 4 && Power(3) == 8 && Power(4) == 16;
    assert Power(5) == 32 && Power(6) == 64 && Power(7) == 128 && Power(8) == 256;
  }

  function Power(n: nat): nat { if n == 0 then 1 else 2 * Power(n - 1) }

  // ------------------------------------------------ the blocks of a GIF (GIF89a, sections 15 to 27)

  /** Anything with a label and data sub-blocks, or an image with its own colour table. */
  datatype Block =
    | Ext(kind: Byte, subs: seq<Bytes>)
    | Image(descriptor: Bytes, table: Bytes, codeSize: Byte, subs: seq<Bytes>)

  predicate Sized(subs: seq<Bytes>) { forall s :: s in subs ==> 1 <= |s| < 256 }

  /** Sub-blocks hold 1 to 255 bytes; an application extension starts with one of 11
      (section 26). */
  predicate WellFormed(b: Block) {
    && Sized(b.subs)
    && match b
       case Ext(kind, subs) => true
       case Image(d, table, _, _) => |d| == 9 && |table| == TableSize(d[8])
  }

  predicate ProperApplication(b: Block) {
    b.Ext? && b.kind == 0xff ==> b.subs != [] && |b.subs[0]| == 11
  }

  /** A comment, or the application block XMP travels in. */
  predicate Metadata(b: Block) {
    b.Ext? && (b.kind == 0xfe || (b.kind == 0xff && b.subs != [] && NamesXmp(b.subs[0])))
  }

  predicate NamesXmp(name: Bytes) { [0x58, 0x4d, 0x50, 0x20, 0x44, 0x61, 0x74, 0x61] <= name }

  lemma NamesXmpIs(name: Bytes)
    ensures NamesXmp(name) <==> XMP <= name
  {
  }

  function EncodeSubs(subs: seq<Bytes>): Bytes
    requires Sized(subs)
  {
    if subs == [] then [0] else [|subs[0]| as Byte] + subs[0] + EncodeSubs(subs[1..])
  }

  function Encode(b: Block): Bytes
    requires WellFormed(b)
  {
    match b
    case Ext(kind, subs) => [0x21, kind] + EncodeSubs(subs)
    case Image(d, table, code, subs) => [0x2c] + d + table + [code] + EncodeSubs(subs)
  }

  function EncodeAll(bs: seq<Block>): Bytes
    requires forall b :: b in bs ==> WellFormed(b)
  {
    if bs == [] then [] else Encode(bs[0]) + EncodeAll(bs[1..])
  }

  // ------------------------------------------------ the walk, on what is left to read

  /** What a seek `n` bytes ahead leaves; past the end, nothing. */
  function Drop(g: Bytes, n: nat): (r: Bytes)
    ensures |r| == if n <= |g| then |g| - n else 0
  {
    if n <= |g| then g[n..] else []
  }

  datatype Skip = Short | Rest(bytes: Bytes)

  /** What follows the terminator of the sub-blocks in front. */
  function SkipSubs(g: Bytes): (s: Skip)
    ensures s.Rest? ==> |s.bytes| < |g|
    decreases |g|
  {
    if g == [] then Short else if g[0] == 0 then Rest(g[1..]) else SkipSubs(Drop(g, 1 + g[0] as int))
  }

  /** Whether the walk finds metadata, or anything it cannot read, before a trailer. */
  function Walk(g: Bytes): bool
    decreases |g|
  {
    if g == [] then true
    else if g[0] == TRAILER then false
    else if g[0] == EXTENSION then WalkExt(g)
    else if g[0] == IMAGE then WalkImage(g)
    else true
  }

  function WalkExt(g: Bytes): bool
    requires g != []
    decreases |g|, 0
  {
    if |g| < 2 || g[1] == COMMENT then true
    else if g[1] == APPLICATION && (|g| < 14 || g[3..11] == XMP) then true
    else var s := SkipSubs(g[2..]); s == Short || Walk(s.bytes)
  }

  function WalkImage(g: Bytes): bool
    requires g != []
    decreases |g|, 0
  {
    if |g| < 10 then true
    else
      var code := Drop(g, 10 + TableSize(g[9]));
      if code == [] then true
      else var s := SkipSubs(code[1..]); s == Short || Walk(s.bytes)
  }

  function GifCarries(f: Bytes): bool { |f| < 13 || Walk(Drop(f, 13 + TableSize(f[10]))) }

  // ------------------------------------------------ the walk against the grammar

  lemma {:induction false} SkipEncoded(subs: seq<Bytes>, rest: Bytes)
    requires Sized(subs)
    ensures SkipSubs(EncodeSubs(subs) + rest) == Rest(rest)
    decreases |subs|
  {
    if subs == [] {
      assert EncodeSubs(subs) + rest == [0] + rest && ([0] + rest)[1..] == rest;
    } else {
      hide SkipSubs, Sized, EncodeSubs;
      SizedTail(subs);
      SkipEncoded(subs[1..], rest);
      SkipMore(subs[0], subs[1..], rest);
      assert [subs[0]] + subs[1..] == subs;
    }
  }

  lemma SkipMore(s: Bytes, subs: seq<Bytes>, rest: Bytes)
    requires 1 <= |s| < 256 && Sized(subs)
    ensures Sized([s] + subs) && SkipSubs(EncodeSubs([s] + subs) + rest) == SkipSubs(EncodeSubs(subs) + rest)
  {
    hide SkipSubs, Sized, EncodeSubs;
    EncodeMore(s, subs);
    SkipOne(s, EncodeSubs(subs) + rest);
    Regroup([|s| as Byte] + s, EncodeSubs(subs), rest);
  }

  lemma Regroup(a: Bytes, b: Bytes, c: Bytes)
    ensures a + b + c == a + (b + c)
  {
  }

  lemma SkipOne(s: Bytes, rest: Bytes)
    requires 1 <= |s| < 256
    ensures SkipSubs([|s| as Byte] + s + rest) == SkipSubs(rest)
  {
    DropFront([|s| as Byte] + s, rest);
  }

  lemma EncodeMore(s: Bytes, more: seq<Bytes>)
    requires 1 <= |s| < 256 && Sized(more)
    ensures Sized([s] + more) && EncodeSubs([s] + more) == [|s| as Byte] + s + EncodeSubs(more)
  {
    assert ([s] + more)[1..] == more;
  }

  /** Where the walk looks for the name of an application. */
  lemma NameAt(kind: Byte, size: Byte, first: Bytes, rest: Bytes)
    requires |first| == 11
    ensures var g := [EXTENSION, kind] + ([size] + first + rest);
      |g| >= 14 && (g[3..11] == XMP <==> XMP <= first)
  {
    var g := [EXTENSION, kind] + ([size] + first + rest);
    assert g == [EXTENSION, kind, size] + first + rest;
    assert g[3..11] == first[..8];
    Prefix8(first);
  }

  lemma ApplicationName(kind: Byte, subs: seq<Bytes>, more: Bytes)
    requires Sized(subs) && subs != [] && |subs[0]| == 11
    ensures var g := [EXTENSION, kind] + (EncodeSubs(subs) + more);
      |g| >= 14 && (g[3..11] == XMP <==> XMP <= subs[0])
  {
    hide EncodeSubs, XMP, Sized;
    SizedTail(subs);
    var e := EncodeSubs(subs[1..]);
    EncodeMore(subs[0], subs[1..]);
    assert subs == [subs[0]] + subs[1..];
    NameAt(kind, 11, subs[0], e + more);
    assert EncodeSubs(subs) + more == [11 as Byte] + subs[0] + (e + more);
  }

  /** Of whatever size its first sub-block: a block named so reads as one, or short. */
  lemma NamedXmp(kind: Byte, subs: seq<Bytes>, more: Bytes)
    requires Sized(subs) && subs != [] && XMP <= subs[0]
    ensures var g := [EXTENSION, kind] + (EncodeSubs(subs) + more); |g| < 14 || g[3..11] == XMP
  {
    hide EncodeSubs, Sized;
    SizedTail(subs);
    var first, e := subs[0], EncodeSubs(subs[1..]);
    EncodeMore(first, subs[1..]);
    assert subs == [first] + subs[1..];
    Regroup([|first| as Byte] + first, e, more);
    var g := [EXTENSION, kind] + ([|first| as Byte] + first + (e + more));
    assert g == [EXTENSION, kind, |first| as Byte] + first + (e + more);
    Prefix8(first);
    assert g[3..11] == first[..8];
  }

  lemma SizedTail(subs: seq<Bytes>)
    requires Sized(subs) && subs != []
    ensures Sized(subs[1..]) && 1 <= |subs[0]| < 256
  {
  }

  lemma ExtExact(kind: Byte, subs: seq<Bytes>, more: Bytes)
    requires WellFormed(Ext(kind, subs)) && ProperApplication(Ext(kind, subs))
    ensures Walk(Encode(Ext(kind, subs)) + more) == (Metadata(Ext(kind, subs)) || Walk(more))
  {
    if subs != [] {
      NamesXmpIs(subs[0]);
    }
    hide SkipSubs, EncodeSubs, Sized, XMP, NamesXmp;
    var e := EncodeSubs(subs) + more;
    var g := [EXTENSION, kind] + e;
    SkipEncoded(subs, more);
    assert g[2..] == e;
    if kind == APPLICATION {
      ApplicationName(kind, subs, more);
    }
    assert Walk(g) == WalkExt(g);
    assert Encode(Ext(kind, subs)) + more == g;
  }

  lemma Prefix8(s: Bytes)
    requires |s| >= 8
    ensures XMP <= s <==> s[..8] == XMP
  {
  }

  lemma ImageExact(d: Bytes, table: Bytes, code: Byte, subs: seq<Bytes>, more: Bytes)
    requires WellFormed(Image(d, table, code, subs))
    ensures Walk(Encode(Image(d, table, code, subs)) + more) == Walk(more)
  {
    hide SkipSubs, EncodeSubs, TableSize, Sized, Drop;
    var e := EncodeSubs(subs) + more;
    var coded := [code] + e;
    var g := [IMAGE] + d + table + coded;
    SkipEncoded(subs, more);
    assert g[9] == d[8];
    DropFront([IMAGE] + d + table, coded);
    assert coded[1..] == e;
    assert Walk(g) == WalkImage(g);
    assert Encode(Image(d, table, code, subs)) + more == g;
  }

  lemma DropFront(front: Bytes, rest: Bytes)
    ensures Drop(front + rest, |front|) == rest
  {
  }

  /** On the encoding of any blocks the walk finds metadata exactly where there is some. */
  lemma {:induction false} WalkExact(bs: seq<Block>, rest: Bytes)
    requires forall b :: b in bs ==> WellFormed(b) && ProperApplication(b)
    ensures Walk(EncodeAll(bs) + [TRAILER] + rest) <==> exists b :: b in bs && Metadata(b)
    decreases |bs|
  {
    hide Walk, Encode, Metadata;
    if bs == [] {
      assert EncodeAll(bs) + [TRAILER] + rest == [TRAILER] + rest;
      TrailerEnds([TRAILER] + rest);
    } else {
      var b, more := bs[0], EncodeAll(bs[1..]) + [TRAILER] + rest;
      assert EncodeAll(bs) + [TRAILER] + rest == Encode(b) + more;
      match b {
        case Ext(kind, subs) => ExtExact(kind, subs, more);
        case Image(d, table, code, subs) =>
          ImageExact(d, table, code, subs, more);
          ImagesCarryNothing(b);
      }
      WalkExact(bs[1..], rest);
      assert forall x :: x in bs <==> x == b || x in bs[1..];
    }
  }

  lemma ImagesCarryNothing(b: Block)
    ensures b.Image? ==> !Metadata(b)
  {
  }

  lemma TrailerEnds(g: Bytes)
    requires g != [] && g[0] == TRAILER
    ensures !Walk(g)
  {
  }

  /** A whole GIF: header, global colour table, blocks, trailer, and whatever follows. */
  lemma GifExact(header: Bytes, table: Bytes, bs: seq<Block>, rest: Bytes)
    requires |header| == 13 && |table| == TableSize(header[10])
    requires forall b :: b in bs ==> WellFormed(b) && ProperApplication(b)
    ensures GifCarries(header + table + (EncodeAll(bs) + [TRAILER] + rest)) <==> exists b :: b in bs && Metadata(b)
  {
    hide Walk, TableSize, EncodeAll;
    var body := EncodeAll(bs) + [TRAILER] + rest;
    var f := header + table + body;
    assert f[10] == header[10];
    assert f[|header + table|..] == body;
    WalkExact(bs, rest);
  }

  lemma {:induction false} SubsOf(g: Bytes) returns (subs: seq<Bytes>)
    requires SkipSubs(g).Rest?
    ensures Sized(subs) && g == EncodeSubs(subs) + SkipSubs(g).bytes
    decreases |g|
  {
    if g[0] == 0 {
      subs := [];
    } else {
      var left := SkipStep(g);
      var more := SubsOf(left);
      subs := [g[1..1 + g[0] as int]] + more;
      hide SkipSubs, EncodeSubs, Sized;
      SubsGrow(g, more, SkipSubs(left).bytes);
    }
  }

  lemma SubsGrow(g: Bytes, more: seq<Bytes>, rest: Bytes)
    requires Sized(more) && g != [] && 1 <= g[0] as int < |g|
    requires g[1 + g[0] as int..] == EncodeSubs(more) + rest
    ensures var subs := [g[1..1 + g[0] as int]] + more; Sized(subs) && g == EncodeSubs(subs) + rest
  {
    hide EncodeSubs, Sized;
    var n := 1 + g[0] as int;
    var s := g[1..n];
    EncodeMore(s, more);
    assert g == ([g[0]] + s) + g[n..];
  }

  lemma SkipStep(g: Bytes) returns (left: Bytes)
    requires SkipSubs(g).Rest? && g[0] != 0
    ensures |g| > g[0] as int && left == g[1 + g[0] as int..] && SkipSubs(g) == SkipSubs(left)
  {
    left := Drop(g, 1 + g[0] as int);
    assert left != [];
  }

  /** "None" is answered only for bytes that parse as blocks, none of them metadata, up to
      a trailer. */
  lemma {:induction false} BlocksOf(g: Bytes) returns (bs: seq<Block>, rest: Bytes)
    requires !Walk(g)
    ensures AllHarmless(bs) && g == EncodeAll(bs) + [TRAILER] + rest
    decreases |g|
  {
    NonEmpty(g);
    hide Walk, EncodeAll, AllHarmless, Harmless, Encode;
    if g[0] == TRAILER {
      bs, rest := [], g[1..];
      EncodeNone();
      assert g == [] + [TRAILER] + rest;
    } else {
      var b, left := BlockOf(g);
      var more;
      more, rest := BlocksOf(left);
      bs := [b] + more;
      EncodeOne(b, more);
      Associate(Encode(b), EncodeAll(more), [TRAILER], rest);
    }
  }

  /** The same of a whole file: a screen descriptor, the colour table it announces, harmless
      blocks, a trailer, and anything after it. */
  lemma FileOf(f: Bytes) returns (header: Bytes, table: Bytes, bs: seq<Block>, rest: Bytes)
    requires !GifCarries(f)
    ensures |header| == 13 && |table| == TableSize(header[10]) && AllHarmless(bs)
    ensures f == header + table + (EncodeAll(bs) + [TRAILER] + rest)
  {
    hide Walk, EncodeAll, AllHarmless, TableSize, GifCarries;
    Head(f);
    var n := 13 + TableSize(f[10]);
    header, table := f[..13], f[13..n];
    bs, rest := BlocksOf(f[n..]);
    assert f == header + table + f[n..];
  }

  lemma Head(f: Bytes)
    requires !GifCarries(f)
    ensures |f| > 13 + TableSize(f[10]) && !Walk(f[13 + TableSize(f[10])..])
  {
    hide Walk, TableSize;
    NonEmpty(Drop(f, 13 + TableSize(f[10])));
  }

  lemma Associate(a: Bytes, b: Bytes, c: Bytes, d: Bytes)
    ensures a + (b + c + d) == a + b + c + d
  {
  }

  /** A block the walk passes over. */
  predicate Harmless(b: Block) { WellFormed(b) && !Metadata(b) }

  predicate AllHarmless(bs: seq<Block>)
    ensures AllHarmless(bs) ==> forall b :: b in bs ==> WellFormed(b)
  {
    forall b :: b in bs ==> Harmless(b)
  }

  lemma NonEmpty(g: Bytes)
    requires !Walk(g)
    ensures g != []
  {
  }

  lemma EncodeNone()
    ensures AllHarmless([]) && EncodeAll([]) == []
  {
  }

  lemma EncodeOne(b: Block, more: seq<Block>)
    requires Harmless(b) && AllHarmless(more)
    ensures WellFormed(b) && AllHarmless([b] + more) && EncodeAll([b] + more) == Encode(b) + EncodeAll(more)
  {
    assert ([b] + more)[1..] == more;
  }

  lemma BlockOf(g: Bytes) returns (b: Block, left: Bytes)
    requires g != [] && !Walk(g) && g[0] != TRAILER
    ensures Harmless(b) && WellFormed(b) && !Walk(left) && |left| < |g| && g == Encode(b) + left
  {
    hide Harmless, WellFormed, Encode;
    if g[0] == EXTENSION {
      b, left := ExtOf(g);
    } else {
      b, left := ImageOf(g);
    }
  }

  lemma ExtOf(g: Bytes) returns (b: Block, left: Bytes)
    requires g != [] && !WalkExt(g) && g[0] == EXTENSION
    ensures Harmless(b) && WellFormed(b) && !Walk(left) && |left| < |g| && g == Encode(b) + left
  {
    hide Walk, SkipSubs, EncodeSubs, Sized, XMP, NamesXmp;
    var e := g[2..];
    var subs := SubsOf(e);
    if subs != [] {
      NamesXmpIs(subs[0]);
    }
    left := SkipSubs(e).bytes;
    b := Ext(g[1], subs);
    assert g == [EXTENSION, g[1]] + e;
    if g[1] == APPLICATION && subs != [] && XMP <= subs[0] {
      NamedXmp(g[1], subs, left);
    }
    assert Encode(b) + left == [EXTENSION, g[1]] + e;
  }

  lemma ImageOf(g: Bytes) returns (b: Block, left: Bytes)
    requires g != [] && !WalkImage(g) && g[0] == IMAGE
    ensures Harmless(b) && WellFormed(b) && !Walk(left) && |left| < |g| && g == Encode(b) + left
  {
    hide Walk, TableSize, SkipSubs, EncodeSubs, Sized;
    var n := 10 + TableSize(g[9]);
    var code := Drop(g, n);
    assert n < |g| && code == g[n..] && code[1..] == g[n + 1..];
    var subs := SubsOf(code[1..]);
    left := SkipSubs(code[1..]).bytes;
    b := Image(g[1..10], g[10..n], code[0], subs);
    ImageParts(g, n, subs, left);
  }

  lemma ImageParts(g: Bytes, n: nat, subs: seq<Bytes>, left: Bytes)
    requires 10 <= n < |g| && n == 10 + TableSize(g[9]) && Sized(subs) && g[0] == IMAGE
    requires g[n + 1..] == EncodeSubs(subs) + left
    ensures var b := Image(g[1..10], g[10..n], g[n], subs); WellFormed(b) && g == Encode(b) + left
  {
    hide TableSize, EncodeSubs, Sized;
    var d, table := g[1..10], g[10..n];
    assert d[8] == g[9];
    assert g[..n] == [IMAGE] + d + table;
    assert g == g[..n] + [g[n]] + g[n + 1..];
    Regroup([IMAGE] + d + table + [g[n]], EncodeSubs(subs), left);
  }

  // ------------------------------------------------ the file and its cursor

  class File {
    const bytes: Bytes
    var pos: nat

    constructor (bytes: Bytes)
      ensures this.bytes == bytes && pos == 0
    {
      this.bytes := bytes;
      pos := 0;
    }

    /** What is left to read. */
    function Left(): Bytes
      reads this
    {
      Drop(bytes, pos)
    }

    method GetChar() returns (ok: bool, c: Byte)
      modifies this
      ensures ok <==> old(Left()) != []
      ensures if ok then c == old(Left())[0] && Left() == old(Left())[1..] else Left() == []
    {
      ok, c := pos < |bytes|, 0;
      if ok {
        c := bytes[pos];
        pos := pos + 1;
      }
    }

    /** `peek`. */
    method Peek(n: nat) returns (s: Bytes)
      ensures s == if n <= |Left()| then Left()[..n] else Left()
    {
      s := if n <= |Left()| then Left()[..n] else Left();
    }

    method Read(n: nat) returns (s: Bytes)
      modifies this
      ensures s == if n <= |old(Left())| then old(Left())[..n] else old(Left())
      ensures Left() == Drop(old(Left()), n)
    {
      s := Peek(n);
      pos := pos + |s|;
    }

    /** `seek(pos() + n)`: succeeds past the end, where everything reads short. */
    method Ahead(n: nat)
      modifies this
      ensures Left() == Drop(old(Left()), n)
    {
      pos := pos + n;
    }

    method Rewind()
      modifies this
      ensures Left() == bytes
    {
      pos := 0;
    }
  }

  method SkipSubBlocks(file: File) returns (ok: bool)
    modifies file
    ensures var s := SkipSubs(old(file.Left())); ok == s.Rest? && (ok ==> file.Left() == s.bytes)
  {
    while true
      invariant SkipSubs(file.Left()) == SkipSubs(old(file.Left()))
      decreases |file.Left()|
    {
      var got, size := file.GetChar();
      if !got {
        return false;
      }
      if size == 0 {
        return true;
      }
      file.Ahead(size as int);
    }
    ok := false;
  }

  /** An extension at the cursor, its introducer already read: whether the walk ends here. */
  method WalkExtAt(file: File, ghost g: Bytes) returns (carries: bool)
    requires g != [] && file.Left() == g[1..]
    modifies file
    ensures WalkExt(g) == (carries || Walk(file.Left()))
    ensures !carries ==> |file.Left()| < |g|
  {
    hide SkipSubs, Walk, XMP;
    var named, what := file.GetChar();
    if !named || what == COMMENT {
      return true;
    }
    assert file.Left() == g[2..] && what == g[1];
    if what == APPLICATION {
      var application := file.Peek(12);
      if |application| < 12 {
        return true;
      }
      assert application == g[2..14] && application[1..9] == g[2..14][1..9] == g[3..11];
      if application[1..9] == XMP {
        return true;
      }
    }
    var skipped := SkipSubBlocks(file);
    carries := !skipped;
  }

  /** An image at the cursor, its separator already read. */
  method WalkImageAt(file: File, ghost g: Bytes) returns (carries: bool)
    requires g != [] && file.Left() == g[1..]
    modifies file
    ensures WalkImage(g) == (carries || Walk(file.Left()))
    ensures !carries ==> |file.Left()| < |g|
  {
    hide TableSize, SkipSubs, Walk;
    var descriptor := file.Read(9);
    if |descriptor| < 9 {
      return true;
    }
    assert descriptor[8] == g[9] && file.Left() == g[10..];
    var local := descriptor[8];
    NoTable(local);
    if local >= 0x80 {
      file.Ahead(TableSize(local));
    }
    assert file.Left() == Drop(g, 10 + TableSize(g[9]));
    var coded, codeSize := file.GetChar();
    if !coded {
      return true;
    }
    var skipped := SkipSubBlocks(file);
    carries := !skipped;
  }

  lemma NoTable(packed: Byte)
    ensures packed < 0x80 ==> TableSize(packed) == 0
  {
  }

  /** Past the header and the global colour table. */
  method ToBlocks(file: File) returns (whole: bool)
    modifies file
    ensures GifCarries(file.bytes) == (!whole || Walk(file.Left()))
  {
    hide Walk, TableSize, GifCarries, Drop, File.Left;
    GifHead(file.bytes);
    file.Rewind();
    var screen := file.Read(13);
    if |screen| < 13 {
      return false;
    }
    var packed := screen[10];
    if packed >= 0x80 {
      file.Ahead(TableSize(packed));
    }
    return true;
  }

  lemma GifHead(f: Bytes)
    ensures |f| < 13 ==> GifCarries(f)
    ensures |f| >= 13 ==> f[..13][10] == f[10]
    ensures |f| >= 13 ==>
      GifCarries(f) == Walk(if f[10] >= 0x80 then Drop(Drop(f, 13), TableSize(f[10])) else Drop(f, 13))
  {
    hide Walk;
    if |f| >= 13 {
      NoTable(f[10]);
    }
  }

  method GifCarriesMetadata(file: File) returns (carries: bool)
    modifies file
    ensures carries == GifCarries(file.bytes)
  {
    hide WalkExt, WalkImage, GifCarries;
    var whole := ToBlocks(file);
    if !whole {
      return true;
    }
    while true
      invariant GifCarries(file.bytes) == Walk(file.Left())
      decreases |file.Left()|
    {
      ghost var g := file.Left();
      var got, kind := file.GetChar();
      if !got {
        return true;
      }
      if kind == TRAILER {
        return false;
      }
      if kind == EXTENSION {
        carries := WalkExtAt(file, g);
      } else if kind == IMAGE {
        carries := WalkImageAt(file, g);
      } else {
        return true;
      }
      if carries {
        return true;
      }
    }
    carries := true;
  }

  // ------------------------------------------------ the chunked scan

  ghost predicate Contains(s: Bytes, mark: Bytes) {
    exists i :: 0 <= i <= |s| - |mark| && OccursAt(s, mark, i)
  }

  predicate OccursAt(s: Bytes, mark: Bytes, i: int) { 0 <= i <= |s| - |mark| && s[i..i + |mark|] == mark }

  method Has(s: Bytes, mark: Bytes) returns (yes: bool)
    ensures yes <==> Contains(s, mark)
  {
    var i := 0;
    while i <= |s| - |mark|
      invariant 0 <= i
      invariant forall h :: 0 <= h < i ==> !OccursAt(s, mark, h)
    {
      if s[i..i + |mark|] == mark {
        assert OccursAt(s, mark, i);
        return true;
      }
      i := i + 1;
    }
    return false;
  }

  function Right(s: Bytes, n: nat): Bytes { if |s| <= n then s else s[|s| - n..] }

  function Joined(chunks: seq<Bytes>): Bytes
    decreases |chunks|
  {
    if chunks == [] then [] else Joined(chunks[..|chunks| - 1]) + chunks[|chunks| - 1]
  }

  /** The carry after reading these chunks. */
  function Carried(chunks: seq<Bytes>): Bytes
    decreases |chunks|
  {
    if chunks == [] then []
    else Right(Carried(chunks[..|chunks| - 1]) + chunks[|chunks| - 1], OVERLAP)
  }

  /** Whether the scan meets the mark in some chunk with its carry in front. */
  ghost predicate Meets(chunks: seq<Bytes>, mark: Bytes) {
    exists i :: 0 <= i < |chunks| && Contains(Carried(chunks[..i]) + chunks[i], mark)
  }

  method HasAny(chunk: Bytes, marks: seq<Bytes>) returns (hit: bool)
    ensures hit <==> exists m :: m in marks && Contains(chunk, m)
  {
    hide Contains;
    for k := 0 to |marks|
      invariant forall h :: 0 <= h < k ==> !Contains(chunk, marks[h])
    {
      hit := Has(chunk, marks[k]);
      if hit {
        assert marks[k] in marks;
        return;
      }
    }
    hit := false;
  }

  method Scan(chunks: seq<Bytes>, marks: seq<Bytes>) returns (found: bool)
    ensures found <==> exists m :: m in marks && Meets(chunks, m)
  {
    hide Contains, Carried;
    var carry: Bytes := [];
    CarriedStep(chunks, 0);
    for n := 0 to |chunks|
      invariant carry == Carried(chunks[..n])
      invariant forall m, i :: m in marks && 0 <= i < n ==> !Contains(Carried(chunks[..i]) + chunks[i], m)
    {
      var chunk := carry + chunks[n];
      found := HasAny(chunk, marks);
      if found {
        return;
      }
      CarriedStep(chunks, n);
      carry := Right(chunk, OVERLAP);
    }
    found := false;
  }

  lemma CarriedStep(chunks: seq<Bytes>, n: nat)
    ensures Carried(chunks[..0]) == []
    ensures n < |chunks| ==> Carried(chunks[..n + 1]) == Right(Carried(chunks[..n]) + chunks[n], OVERLAP)
  {
    if n < |chunks| {
      assert chunks[..n + 1][..n] == chunks[..n];
    }
  }

  lemma {:induction false} CarriedIsTail(chunks: seq<Bytes>)
    ensures Carried(chunks) == Right(Joined(chunks), OVERLAP)
    decreases |chunks|
  {
    if chunks != [] {
      CarriedIsTail(chunks[..|chunks| - 1]);
      RightRight(Joined(chunks[..|chunks| - 1]), chunks[|chunks| - 1], OVERLAP);
    }
  }

  lemma RightRight(s: Bytes, c: Bytes, n: nat)
    ensures Right(Right(s, n) + c, n) == Right(s + c, n)
  {
  }

  /** An occurrence that was not there before reaches back no further than the carry. */
  lemma NewOccurrence(s: Bytes, c: Bytes, mark: Bytes)
    requires 1 <= |mark| <= OVERLAP + 1
    ensures Contains(s + c, mark) <==> Contains(s, mark) || Contains(Right(s, OVERLAP) + c, mark)
  {
    hide Contains, OccursAt;
    var t := Right(s, OVERLAP);
    var front := s[..|s| - |t|];
    assert s == front + t;
    assert front + (t + c) + [] == s + c && [] + s + c == s + c;
    Inside(front, t + c, [], mark);
    Inside([], s, c, mark);
    if Contains(s + c, mark) {
      OldOrNew(front, t, c, mark);
    }
  }

  lemma OldOrNew(front: Bytes, t: Bytes, c: Bytes, mark: Bytes)
    requires 1 <= |mark| <= OVERLAP + 1 && (front == [] || |t| == OVERLAP)
    requires Contains(front + t + c, mark)
    ensures Contains(front + t, mark) || Contains(t + c, mark)
  {
    hide OccursAt;
    var i :| 0 <= i <= |front + t + c| - |mark| && OccursAt(front + t + c, mark, i);
    if i + |mark| <= |front + t| {
      assert [] + (front + t) + c == front + t + c;
      Shifted([], front + t, c, mark, i);
    } else {
      assert front + (t + c) + [] == front + t + c;
      Shifted(front, t + c, [], mark, i - |front|);
    }
  }

  lemma Shifted(a: Bytes, s: Bytes, b: Bytes, mark: Bytes, i: int)
    requires 0 <= i <= |s| - |mark|
    ensures OccursAt(a + s + b, mark, |a| + i) <==> OccursAt(s, mark, i)
  {
    assert (a + s + b)[|a| + i..|a| + i + |mark|] == s[i..i + |mark|];
  }

  lemma Inside(a: Bytes, s: Bytes, b: Bytes, mark: Bytes)
    ensures Contains(s, mark) ==> Contains(a + s + b, mark)
  {
    if Contains(s, mark) {
      var i :| 0 <= i <= |s| - |mark| && OccursAt(s, mark, i);
      Shifted(a, s, b, mark, i);
    }
  }

  /** The scan finds a short mark exactly if the file contains it, however it was cut. */
  lemma {:induction false} ScanExact(chunks: seq<Bytes>, mark: Bytes)
    requires 1 <= |mark| <= 33
    ensures Meets(chunks, mark) <==> Contains(Joined(chunks), mark)
    decreases |chunks|
  {
    if chunks != [] {
      var n := |chunks| - 1;
      ScanExact(chunks[..n], mark);
      CarriedIsTail(chunks[..n]);
      NewOccurrence(Joined(chunks[..n]), chunks[n], mark);
      MeetsLast(chunks, mark);
      hide Meets, Contains, Carried, Right;
    } else {
      hide Carried;
    }
  }

  lemma MeetsLast(chunks: seq<Bytes>, mark: Bytes)
    requires chunks != []
    ensures var n := |chunks| - 1;
      Meets(chunks, mark) <==> Meets(chunks[..n], mark) || Contains(Carried(chunks[..n]) + chunks[n], mark)
  {
    hide Contains, Carried;
    var n := |chunks| - 1;
    assert forall i :: 0 <= i < n ==> chunks[..n][i] == chunks[i] && chunks[..n][..i] == chunks[..i];
    if Meets(chunks[..n], mark) {
      var i :| 0 <= i < n && Contains(Carried(chunks[..n][..i]) + chunks[..n][i], mark);
      assert Contains(Carried(chunks[..i]) + chunks[i], mark);
    }
    if Meets(chunks, mark) {
      var i :| 0 <= i <= n && Contains(Carried(chunks[..i]) + chunks[i], mark);
      assert i < n ==> Contains(Carried(chunks[..n][..i]) + chunks[..n][i], mark);
    }
  }

  /** So the scan answers for the file as a whole: it finds something exactly if one of the
      marks is in it. */
  method ScanFile(chunks: seq<Bytes>, marks: seq<Bytes>) returns (found: bool)
    requires forall m :: m in marks ==> 1 <= |m| <= 33
    ensures found <==> exists m :: m in marks && Contains(Joined(chunks), m)
  {
    hide Contains, Meets, Joined;
    found := Scan(chunks, marks);
    forall m | m in marks
      ensures Meets(chunks, m) <==> Contains(Joined(chunks), m)
    {
      ScanExact(chunks, m);
    }
  }

  /** One byte more and a cut can hide it, however large the reads: in reads of `n` bytes any
      longer mark is missed in some file that holds it. */
  lemma LongMarksAreMissed(mark: Bytes, n: nat) returns (a: Bytes, b: Bytes)
    requires |mark| > 33 && |mark| <= n
    ensures |a| == n && |b| <= n && Contains(Joined([a, b]), mark) && !Meets([a, b], mark)
  {
    var other: Byte := if mark[0] == 0 then 1 else 0;
    var pad := seq(n - (OVERLAP + 1), _ => other);
    a, b := pad + mark[..OVERLAP + 1], mark[OVERLAP + 1..];
    TwoChunks(a, b);
    assert a + b == pad + mark;
    assert OccursAt(a + b, mark, |pad|);
    forall i | 0 <= i <= |a| - |mark|
      ensures !OccursAt(a, mark, i)
    {
      assert a[i..i + |mark|][0] == a[i] == other;
    }
    assert |Right(a, OVERLAP) + b| < |mark|;
  }

  lemma TwoChunks(a: Bytes, b: Bytes)
    ensures Joined([a, b]) == a + b
    ensures forall mark :: Meets([a, b], mark) <==> Contains(a, mark) || Contains(Right(a, OVERLAP) + b, mark)
  {
    OneChunk(a);
    assert [a, b][..1] == [a];
    hide Contains, Carried, Right;
    forall mark
      ensures Meets([a, b], mark) <==> Contains(a, mark) || Contains(Right(a, OVERLAP) + b, mark)
    {
      MeetsLast([a, b], mark);
      MeetsLast([a], mark);
      hide Meets;
    }
  }

  lemma OneChunk(a: Bytes)
    ensures [a][..0] == [] && Carried([]) == [] && [] + a == a
    ensures Joined([a]) == a && Carried([a]) == Right(a, OVERLAP)
    ensures forall mark :: !Meets([], mark)
  {
    assert [a][..0] == [];
    assert [] + a == a;
  }
}
