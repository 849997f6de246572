/** Opaque record keys: a digest over length-delimited UTF-8 parts. */
module Keys {
  import opened Wrappers

  type byte = x: int | 0 <= x < 256

  // ------------------------------------------------------------------
  // UTF-8 (RFC 3629, section 3)

  function Utf8Char(c: char): (bytes: seq<byte>)
    ensures 1 <= |bytes| <= 4
  {
    var n := c as int;
    if n < 0x80 then [n]
    else if n < 0x800 then [0xC0 + n / 64, 0x80 + n % 64]
    else if n < 0x10000 then [0xE0 + n / 4096, 0x80 + n / 64 % 64, 0x80 + n % 64]
    else [0xF0 + n / 262144, 0x80 + n / 4096 % 64, 0x80 + n / 64 % 64, 0x80 + n % 64]
  }

  function Utf8(s: string): seq<byte> {
    if s == "" then [] else Utf8Char(s[0]) + Utf8(s[1..])
  }

  function SequenceLength(lead: byte): nat {
    if lead < 0xC0 then 1 else if lead < 0xE0 then 2 else if lead < 0xF0 then 3 else 4
  }

  lemma LeadByte(c: char)
    ensures |Utf8Char(c)| == SequenceLength(Utf8Char(c)[0])
  {
  }

  /** The code point a sequence encodes. */
  function CodePoint(x: seq<byte>): int
    requires 1 <= |x| <= 4
  {
    if |x| == 1 then (x[0] as int)
    else if |x| == 2 then 64 * ((x[0] as int) - 0xC0) + ((x[1] as int) - 0x80)
    else if |x| == 3 then 4096 * ((x[0] as int) - 0xE0) + 64 * ((x[1] as int) - 0x80) + ((x[2] as int) - 0x80)
    else 262144 * ((x[0] as int) - 0xF0) + 4096 * ((x[1] as int) - 0x80) + 64 * ((x[2] as int) - 0x80) + ((x[3] as int) - 0x80)
  }

  lemma Utf8CharDecodes(c: char)
    ensures CodePoint(Utf8Char(c)) == c as int
  {
    var n := c as int;
    assert n == 64 * (n / 64) + n % 64;
    assert n / 64 == 64 * (n / 4096) + n / 64 % 64;
    assert n / 4096 == 64 * (n / 262144) + n / 4096 % 64;
  }

  lemma {:induction false} Utf8Injective(s: string, t: string)
    requires Utf8(s) == Utf8(t)
    ensures s == t
  {
    if s != "" && t != "" {
      var x, y := Utf8Char(s[0]), Utf8Char(t[0]);
      LeadByte(s[0]);
      LeadByte(t[0]);
      assert Utf8(s)[0] == x[0] && Utf8(t)[0] == y[0];
      assert x == Utf8(s)[..|x|] == Utf8(t)[..|x|] == y;
      Utf8CharDecodes(s[0]);
      Utf8CharDecodes(t[0]);
      assert Utf8(s[1..]) == Utf8(s)[|x|..] == Utf8(t)[|x|..] == Utf8(t[1..]);
      Utf8Injective(s[1..], t[1..]);
      assert s == [s[0]] + s[1..] && t == [t[0]] + t[1..];
    }
  }

  // ------------------------------------------------------------------
  // Length prefixes: `n.to_bytes(width, "big")`

  function Range(width: nat): nat { if width == 0 then 1 else 256 * Range(width - 1) }

  function BigEndian(n: nat, width: nat): (bytes: seq<byte>)
    requires n < Range(width)
    ensures |bytes| == width
  {
    if width == 0 then [] else BigEndian(n / 256, width - 1) + [n % 256]
  }

  lemma {:induction false} BigEndianInjective(n: nat, m: nat, width: nat)
    requires n < Range(width) && m < Range(width)
    requires BigEndian(n, width) == BigEndian(m, width)
    ensures n == m
  {
    if width > 0 {
      var x, y := BigEndian(n, width), BigEndian(m, width);
      assert x[width - 1] == n % 256 && y[width - 1] == m % 256;
      assert BigEndian(n / 256, width - 1) == x[..width - 1] == y[..width - 1] == BigEndian(m / 256, width - 1);
      BigEndianInjective(n / 256, m / 256, width - 1);
    }
  }

  // ------------------------------------------------------------------
  // Record keys

  const LENGTH_WIDTH := 8

  /** `to_bytes` raises `OverflowError` for a part of 2^64 bytes or more. */
  predicate Framable(parts: seq<string>) {
    forall i :: 0 <= i < |parts| ==> |Utf8(parts[i])| < Range(LENGTH_WIDTH)
  }

  function FramePart(part: string): seq<byte>
    requires |Utf8(part)| < Range(LENGTH_WIDTH)
  {
    BigEndian(|Utf8(part)|, LENGTH_WIDTH) + Utf8(part)
  }

  /** Everything fed to the digest, in order. */
  function Frame(parts: seq<string>): (bytes: seq<byte>)
    requires Framable(parts)
    ensures parts == [] ==> bytes == []
  {
    if parts == [] then [] else Frame(parts[..|parts| - 1]) + FramePart(parts[|parts| - 1])
  }

  lemma {:induction false} FrameHead(parts: seq<string>)
    requires Framable(parts) && parts != []
    ensures Frame(parts) == FramePart(parts[0]) + Frame(parts[1..])
  {
    hide Range, FramePart, Utf8;
    var n := |parts| - 1;
    if n == 0 {
      assert parts[..0] == [] && parts[1..] == [];
    } else {
      FrameHead(parts[..n]);
      assert parts[..n][1..] == parts[1..][..n - 1];
      assert parts[1..][n - 1] == parts[n];
    }
  }

  lemma FramePartDelimits(a: string, b: string, after: seq<byte>, after': seq<byte>)
    requires |Utf8(a)| < Range(LENGTH_WIDTH) && |Utf8(b)| < Range(LENGTH_WIDTH)
    requires FramePart(a) + after == FramePart(b) + after'
    ensures a == b && after == after'
  {
    var x, y := FramePart(a) + after, FramePart(b) + after';
    assert BigEndian(|Utf8(a)|, LENGTH_WIDTH) == x[..LENGTH_WIDTH] == y[..LENGTH_WIDTH] == BigEndian(|Utf8(b)|, LENGTH_WIDTH);
    BigEndianInjective(|Utf8(a)|, |Utf8(b)|, LENGTH_WIDTH);
    var end := LENGTH_WIDTH + |Utf8(a)|;
    assert Utf8(a) == x[LENGTH_WIDTH..end] == y[LENGTH_WIDTH..end] == Utf8(b);
    Utf8Injective(a, b);
    assert after == x[end..] == y[end..] == after';
  }

  /** Distinct part lists never frame to the same bytes, whatever their parts contain. */
  lemma {:induction false} FrameInjective(p: seq<string>, q: seq<string>)
    requires Framable(p) && Framable(q) && Frame(p) == Frame(q)
    ensures p == q
  {
    hide Range, Frame, Utf8;
    if p != [] && q != [] {
      FrameHead(p);
      FrameHead(q);
      FramePartDelimits(p[0], q[0], Frame(p[1..]), Frame(q[1..]));
      FrameInjective(p[1..], q[1..]);
      assert p == [p[0]] + p[1..] && q == [q[0]] + q[1..];
    } else if p != [] {
      FrameHead(p);
    } else if q != [] {
      FrameHead(q);
    }
  }

  /** Reading bytes with the most significant first. */
  function FromBytes(bytes: seq<byte>): nat {
    if bytes == [] then 0 else 256 * FromBytes(bytes[..|bytes| - 1]) + bytes[|bytes| - 1]
  }

  lemma {:induction false} BigEndianReadsBack(n: nat, width: nat)
    requires n < Range(width)
    ensures |BigEndian(n, width)| == width && FromBytes(BigEndian(n, width)) == n
  {
    if width > 0 {
      BigEndianReadsBack(n / 256, width - 1);
      var bytes := BigEndian(n, width);
      assert bytes[..width - 1] == BigEndian(n / 256, width - 1);
    }
  }

  lemma EightBytes()
    ensures Range(8) == 0x1_0000_0000_0000_0000
  {
    assert Range(4) == 0x1_0000_0000;
    assert Range(8) == 256 * (256 * (256 * (256 * Range(4))));
  }

  /** Exactly the lists of parts below 2^64 bytes can be framed. */
  lemma FramableBelow2To64(parts: seq<string>)
    ensures Framable(parts) <==> forall part <- parts :: |Utf8(part)| < 0x1_0000_0000_0000_0000
  {
    hide Range, Utf8;
    EightBytes();
    if Framable(parts) {
      forall part <- parts ensures |Utf8(part)| < 0x1_0000_0000_0000_0000 {
        var i :| 0 <= i < |parts| && parts[i] == part;
      }
    }
    if forall part <- parts :: |Utf8(part)| < 0x1_0000_0000_0000_0000 {
      forall i | 0 <= i < |parts| ensures |Utf8(parts[i])| < Range(LENGTH_WIDTH) {
        assert parts[i] in parts;
      }
    }
  }

  /** Each part is preceded by its length in bytes, in eight bytes, the most significant first. */
  lemma FrameShape(parts: seq<string>)
    requires Framable(parts) && parts != []
    ensures
      var bytes, length := Frame(parts), |Utf8(parts[0])|;
      && |bytes| >= 8 + length
      && FromBytes(bytes[..8]) == length
      && bytes[8..8 + length] == Utf8(parts[0])
      && bytes[8 + length..] == Frame(parts[1..])
  {
    hide Range, Utf8, BigEndian, FromBytes, Frame;
    var length := |Utf8(parts[0])|;
    FrameHead(parts);
    BigEndianReadsBack(length, 8);
    var head := BigEndian(length, 8);
    assert Frame(parts) == head + Utf8(parts[0]) + Frame(parts[1..]);
    assert Frame(parts)[..8] == head;
  }

  /** The key of a part list, for any digest function. */
  function Key(digest: seq<byte> -> string, parts: seq<string>): Option<string> {
    if Framable(parts) then Some(digest(Frame(parts))) else None
  }

  /** Two part lists share a key only if their frames are two different preimages of one digest. */
  lemma KeysClashOnlyOnCollision(digest: seq<byte> -> string, p: seq<string>, q: seq<string>)
    requires Key(digest, p).Some? && Key(digest, p) == Key(digest, q)
    ensures p == q || (Frame(p) != Frame(q) && digest(Frame(p)) == digest(Frame(q)))
  {
    if Frame(p) == Frame(q) {
      FrameInjective(p, q);
    }
  }

  method RecordKey(digest: seq<byte> -> string, parts: seq<string>) returns (key: Option<string>)
    ensures key == Key(digest, parts)
    ensures key.Some? <==> forall part <- parts :: |Utf8(part)| < 0x1_0000_0000_0000_0000
  {
    hide Range, Utf8, BigEndian;
    FramableBelow2To64(parts);
    var fed: seq<byte> := [];
    for i := 0 to |parts|
      invariant Framable(parts[..i])
      invariant fed == Frame(parts[..i])
    {
      var encoded := Utf8(parts[i]);
      if |encoded| >= Range(LENGTH_WIDTH) {
        return None;
      }
      assert parts[..i + 1][..i] == parts[..i];
      fed := fed + BigEndian(|encoded|, LENGTH_WIDTH);
      fed := fed + encoded;
    }
    assert parts[..|parts|] == parts;
    key := Some(digest(fed));
  }
}
