/**
 * The page cursor of `aeh/service.py`: base64 with the URL alphabet and without padding
 * (sections 3.2 and 5 of RFC 4648) around "created_at|id|signature".
 *
 * The text forms of a timestamp and of an id, and the keyed digest, are parameters.
 */
module Cursor {
  import opened Base

  type Byte = b: int | 0 <= b < 256
  type Bytes = seq<Byte>
  type Sextet = b: int | 0 <= b < 64

  // ---- base64 ----

  function Letter(v: Sextet): char {
    if v < 26 then 'A' + v as char
    else if v < 52 then 'a' + (v - 26) as char
    else if v < 62 then '0' + (v - 52) as char
    else if v == 62 then '-'
    else '_'
  }

  /** `urlsafe_b64decode` maps the two letters of the URL alphabet to the standard ones, which it accepts too. */
  function Worth(c: char): Option<Sextet> {
    if 'A' <= c <= 'Z' then Some((c - 'A') as int)
    else if 'a' <= c <= 'z' then Some((c - 'a') as int + 26)
    else if '0' <= c <= '9' then Some((c - '0') as int + 52)
    else if c == '-' || c == '+' then Some(62)
    else if c == '_' || c == '/' then Some(63)
    else None
  }

  function Group(x: Byte, y: Byte, z: Byte): string {
    [Letter(x / 4), Letter(x % 4 * 16 + y / 16), Letter(y % 16 * 4 + z / 64), Letter(z % 64)]
  }

  /** Three bytes as four letters; one or two last bytes as two or three letters and padding. */
  function Encode(b: Bytes): string {
    if b == [] then ""
    else if |b| == 1 then Group(b[0], 0, 0)[..2] + "=="
    else if |b| == 2 then Group(b[0], b[1], 0)[..3] + "="
    else Group(b[0], b[1], b[2]) + Encode(b[3..])
  }

  /** The three bytes of four letters. */
  function Joined(p: Sextet, q: Sextet, r: Sextet, t: Sextet): (b: Bytes)
    ensures |b| == 3
  {
    [p * 4 + q / 16, q % 16 * 16 + r / 4, r % 4 * 64 + t]
  }

  /** The letters collected so far of a group of four. */
  type Pending = g: seq<Sextet> | |g| < 4

  /** The bytes of an unfinished group, one less than its letters; the low bits left over are ignored. */
  function Rest(got: Pending): Bytes
    requires |got| >= 2
  {
    Joined(got[0], got[1], if |got| == 3 then got[2] else 0, 0)[..|got| - 1]
  }

  /**
   * The library's lenient reading: letters in groups of four, other characters skipped, and padding
   * that completes a group ends the text. None is a group left unfinished.
   */
  function Scan(s: string, got: Pending, pads: nat): Option<Bytes>
    decreases |s|
  {
    if s == "" then if got == [] then Some([]) else None
    else if s[0] == '=' then
      if |got| >= 2 && |got| + pads + 1 >= 4 then Some(Rest(got))
      else Scan(s[1..], got, if |got| >= 2 then pads + 1 else pads)
    else
      var v := Worth(s[0]);
      if v.None? then Scan(s[1..], got, pads)
      else if |got| < 3 then Scan(s[1..], got + [v.value], 0)
      else
        var rest := Scan(s[1..], [], 0);
        if rest.None? then None else Some(Joined(got[0], got[1], got[2], v.value) + rest.value)
  }

  predicate Ascii(s: string) {
    forall k :: 0 <= k < |s| ==> (s[k] as int) < 128
  }

  /** `urlsafe_b64decode`. */
  function Decode(s: string): Option<Bytes> {
    if Ascii(s) then Scan(s, [], 0) else None
  }

  /** `rstrip("=")`. */
  function Strip(s: string): string {
    if s != "" && s[|s| - 1] == '=' then Strip(s[..|s| - 1]) else s
  }

  function Repeat(n: nat): string {
    seq(n, _ => '=')
  }

  /** `cursor + "=" * (-len(cursor) % 4)`. */
  function Pad(s: string): string {
    s + Repeat((4 - |s| % 4) % 4)
  }

  /** The URL alphabet of table 2 in RFC 4648. */
  lemma LettersExactly()
    ensures Letter(0) == 'A' && forall v: Sextet :: v < 25 ==> Letter(v + 1) as int == Letter(v) as int + 1
    ensures Letter(26) == 'a' && forall v: Sextet :: 26 <= v < 51 ==> Letter(v + 1) as int == Letter(v) as int + 1
    ensures Letter(52) == '0' && forall v: Sextet :: 52 <= v < 61 ==> Letter(v + 1) as int == Letter(v) as int + 1
    ensures Letter(62) == '-' && Letter(63) == '_'
  {}

  /** The test vectors of section 10 of RFC 4648 for "fo", "foo" and "foob". */
  lemma EncodesVectors()
    ensures Encode([102, 111]) == "Zm8="
    ensures Encode([102, 111, 111]) == "Zm9v"
    ensures Encode([102, 111, 111, 98]) == "Zm9vYg=="
  {
    var foo: Bytes := [102, 111, 111];
    var foob: Bytes := [102, 111, 111, 98];
    assert foo[3..] == [] && foob[3..] == [98];
    assert Group(102, 111, 111) == "Zm9v" && Group(102, 111, 0)[..3] == "Zm8" && Group(98, 0, 0)[..2] == "Yg";
  }

  lemma LetterBack(v: Sextet)
    ensures Worth(Letter(v)) == Some(v) && Letter(v) != '=' && (Letter(v) as int) < 128
  {}

  lemma DecodeEncode(b: Bytes)
    ensures Decode(Encode(b)) == Some(b)
  {
    ScanEncode(b);
    EncodeAscii(b);
  }

  lemma {:induction false} EncodeAscii(b: Bytes)
    ensures Ascii(Encode(b))
  {
    if |b| >= 3 {
      EncodeAscii(b[3..]);
      GroupPlain(b[0], b[1], b[2]);
    } else if |b| == 2 {
      GroupPlain(b[0], b[1], 0);
    } else if |b| == 1 {
      GroupPlain(b[0], 0, 0);
    }
  }

  lemma {:induction false} ScanEncode(b: Bytes)
    ensures Scan(Encode(b), [], 0) == Some(b)
  {
    if |b| >= 3 {
      ScanEncode(b[3..]);
      EncodeMore(b);
      ScanMore(b, Encode(b[3..]));
    } else if |b| == 2 {
      ScanPair(b[0], b[1]);
      assert b == [b[0], b[1]];
    } else if |b| == 1 {
      ScanSingle(b[0]);
      assert b == [b[0]];
    }
  }

  lemma ScanMore(b: Bytes, rest: string)
    requires |b| >= 3 && Scan(rest, [], 0) == Some(b[3..])
    ensures Scan(Group(b[0], b[1], b[2]) + rest, [], 0) == Some(b)
  {
    ScanGroup(b[0], b[1], b[2], rest);
    HeadAndTail(b);
  }

  lemma HeadAndTail(b: Bytes)
    requires |b| >= 3
    ensures [b[0], b[1], b[2]] + b[3..] == b
  {}

  lemma EncodeMore(b: Bytes)
    requires |b| >= 3
    ensures Encode(b) == Group(b[0], b[1], b[2]) + Encode(b[3..])
  {}

  /** Reading one letter, for a group that goes on and for one that it completes. */
  lemma ScanLetter(v: Sextet, s: string, got: Pending, pads: nat)
    ensures |got| < 3 ==> Scan([Letter(v)] + s, got, pads) == Scan(s, got + [v], 0)
    ensures |got| == 3 && Scan(s, [], 0).Some? ==>
              Scan([Letter(v)] + s, got, pads) == Some(Joined(got[0], got[1], got[2], v) + Scan(s, [], 0).value)
  {
    LetterBack(v);
    assert ([Letter(v)] + s)[1..] == s;
  }

  lemma ScanTwo(p: Sextet, q: Sextet, s: string)
    ensures Scan([Letter(p), Letter(q)] + s, [], 0) == Scan(s, [p, q], 0)
  {
    ScanLetter(p, [Letter(q)] + s, [], 0);
    ScanLetter(q, s, [p], 0);
    assert [Letter(p), Letter(q)] + s == [Letter(p)] + ([Letter(q)] + s);
    assert [] + [p] == [p] && [p] + [q] == [p, q];
  }

  lemma ScanPair(x: Byte, y: Byte)
    ensures Scan(Group(x, y, 0)[..3] + "=", [], 0) == Some([x, y])
  {
    var p, q, r, t := LettersBack(x, y, 0);
    ScanTwo(p, q, [Letter(r)] + "=");
    ScanLetter(r, "=", [p, q], 0);
    assert [p, q] + [r] == [p, q, r];
    assert Group(x, y, 0)[..3] + "=" == [Letter(p), Letter(q)] + ([Letter(r)] + "=");
    assert Rest([p, q, r]) == Joined(p, q, r, t)[..2] == [x, y];
  }

  lemma ScanSingle(x: Byte)
    ensures Scan(Group(x, 0, 0)[..2] + "==", [], 0) == Some([x])
  {
    var p, q, r, t := LettersBack(x, 0, 0);
    ScanTwo(p, q, "==");
    assert Group(x, 0, 0)[..2] + "==" == [Letter(p), Letter(q)] + "==";
    assert "=="[1..] == "=";
    assert Rest([p, q]) == Joined(p, q, r, t)[..1] == [x];
  }

  lemma ScanGroup(x: Byte, y: Byte, z: Byte, rest: string)
    requires Scan(rest, [], 0).Some?
    ensures Scan(Group(x, y, z) + rest, [], 0) == Some([x, y, z] + Scan(rest, [], 0).value)
  {
    var p, q, r, t := LettersBack(x, y, z);
    ScanFour(p, q, r, t, rest);
  }

  lemma ScanFour(p: Sextet, q: Sextet, r: Sextet, t: Sextet, rest: string)
    requires Scan(rest, [], 0).Some?
    ensures Scan([Letter(p), Letter(q), Letter(r), Letter(t)] + rest, [], 0) == Some(Joined(p, q, r, t) + Scan(rest, [], 0).value)
  {
    var tail := [Letter(r)] + ([Letter(t)] + rest);
    ScanTwo(p, q, tail);
    ScanLastTwo(p, q, r, t, rest);
    assert [Letter(p), Letter(q), Letter(r), Letter(t)] + rest == [Letter(p), Letter(q)] + tail;
  }

  lemma ScanLastTwo(p: Sextet, q: Sextet, r: Sextet, t: Sextet, rest: string)
    requires Scan(rest, [], 0).Some?
    ensures Scan([Letter(r)] + ([Letter(t)] + rest), [p, q], 0) == Some(Joined(p, q, r, t) + Scan(rest, [], 0).value)
  {
    ScanLetter(r, [Letter(t)] + rest, [p, q], 0);
    assert [p, q] + [r] == [p, q, r];
    ScanLetter(t, rest, [p, q, r], 0);
  }

  lemma JoinedBack(x: Byte, y: Byte, z: Byte, p: Sextet, q: Sextet, r: Sextet, t: Sextet)
    requires p == x / 4 && q == x % 4 * 16 + y / 16 && r == y % 16 * 4 + z / 64 && t == z % 64
    ensures Joined(p, q, r, t) == [x, y, z]
  {}

  /** The four letters of a group, read back. */
  lemma LettersBack(x: Byte, y: Byte, z: Byte) returns (p: Sextet, q: Sextet, r: Sextet, t: Sextet)
    ensures Group(x, y, z) == [Letter(p), Letter(q), Letter(r), Letter(t)] && '=' !in Group(x, y, z)
    ensures Worth(Letter(p)) == Some(p) && Worth(Letter(q)) == Some(q) && Worth(Letter(r)) == Some(r) && Worth(Letter(t)) == Some(t)
    ensures Joined(p, q, r, t) == [x, y, z]
  {
    p, q, r, t := x / 4, x % 4 * 16 + y / 16, y % 16 * 4 + z / 64, z % 64;
    JoinedBack(x, y, z, p, q, r, t);
    LetterBack(p);
    LetterBack(q);
    LetterBack(r);
    LetterBack(t);
  }

  function PadCount(n: nat): nat {
    if n % 3 == 1 then 2 else if n % 3 == 2 then 1 else 0
  }

  lemma PadNeeded(n: nat, k: nat)
    requires k <= 2 && (n + k) % 4 == 0
    ensures (4 - n % 4) % 4 == k
  {}

  /** Letters followed by the padding, in groups of four. */
  predicate Padded(s: string, body: string, k: nat) {
    s == body + Repeat(k) && '=' !in body && (|body| + k) % 4 == 0
  }

  lemma {:induction false} EncodeShape(b: Bytes) returns (body: string)
    ensures Padded(Encode(b), body, PadCount(|b|))
  {
    if |b| >= 3 {
      body := EncodeShape(b[3..]);
      assert |b[3..]| % 3 == |b| % 3;
      GroupPlain(b[0], b[1], b[2]);
      PaddedGrows(Encode(b[3..]), body, PadCount(|b|), Group(b[0], b[1], b[2]));
      body := Group(b[0], b[1], b[2]) + body;
    } else if |b| == 2 {
      GroupPlain(b[0], b[1], 0);
      body := Group(b[0], b[1], 0)[..3];
    } else if |b| == 1 {
      GroupPlain(b[0], 0, 0);
      body := Group(b[0], 0, 0)[..2];
    } else {
      body := "";
    }
  }

  lemma GroupPlain(x: Byte, y: Byte, z: Byte)
    ensures |Group(x, y, z)| == 4 && '=' !in Group(x, y, z) && Ascii(Group(x, y, z))
  {
    var p, q, r, t := LettersBack(x, y, z);
    LetterBack(p);
    LetterBack(q);
    LetterBack(r);
    LetterBack(t);
  }

  lemma PaddedGrows(s: string, body: string, k: nat, group: string)
    requires Padded(s, body, k) && |group| == 4 && '=' !in group
    ensures Padded(group + s, group + body, k)
  {
    assert group + (body + Repeat(k)) == group + body + Repeat(k);
  }

  lemma {:induction false} StripRepeat(s: string, k: nat)
    requires s == "" || s[|s| - 1] != '='
    ensures Strip(s + Repeat(k)) == s
  {
    if k == 0 {
      assert s + Repeat(0) == s;
    } else {
      StripRepeat(s, k - 1);
      assert (s + Repeat(k))[..|s| + k - 1] == s + Repeat(k - 1);
    }
  }

  /** The padding that the encoder strips is the padding that the decoder restores. */
  lemma PaddingRestored(b: Bytes)
    ensures Pad(Strip(Encode(b))) == Encode(b)
  {
    var body := EncodeShape(b);
    StripRepeat(body, PadCount(|b|));
    PadNeeded(|body|, PadCount(|b|));
  }

  // ---- the cursor ----

  const BAR: Byte := 124

  /** The text forms and the keyed digest the cursor is built with. */
  datatype Format = Format(
    iso: Time -> Bytes, fromIso: Bytes -> Option<Time>,
    show: Id -> Bytes, parse: Bytes -> Option<Id>,
    mac: Bytes -> Bytes)

  /** Formatting can be read back, and a timestamp has no bar in it. */
  ghost predicate Sound(f: Format) {
    && (forall t :: f.fromIso(f.iso(t)) == Some(t) && BAR !in f.iso(t))
    && (forall i: Id :: f.parse(f.show(i)) == Some(i))
  }

  function HexDigit(v: int): Byte
    requires 0 <= v < 16
  {
    if v < 10 then 48 + v else 87 + v
  }

  function Hex(b: Bytes): Bytes {
    if b == [] then [] else [HexDigit(b[0] / 16), HexDigit(b[0] % 16)] + Hex(b[1..])
  }

  function Signature(f: Format, data: Bytes): Bytes {
    var digest := f.mac(data);
    Hex(if |digest| <= 16 then digest else digest[..16])
  }

  /** `split(b"|", 1)`. */
  function SplitFirst(s: Bytes): Option<(Bytes, Bytes)> {
    if s == [] then None
    else if s[0] == BAR then Some(([], s[1..]))
    else
      var rest := SplitFirst(s[1..]);
      if rest.None? then None else Some(([s[0]] + rest.value.0, rest.value.1))
  }

  /** `rsplit(b"|", 1)`. */
  function SplitLast(s: Bytes): Option<(Bytes, Bytes)> {
    if s == [] then None
    else
      var n := |s| - 1;
      if s[n] == BAR then Some((s[..n], []))
      else
        var rest := SplitLast(s[..n]);
        if rest.None? then None else Some((rest.value.0, rest.value.1 + [s[n]]))
  }

  function EncodeCursor(f: Format, created: Time, id: Id): string {
    var data := f.iso(created) + [BAR] + f.show(id);
    Strip(Encode(data + [BAR] + Signature(f, data)))
  }

  /** None is the 400 of an invalid cursor. */
  function DecodeCursor(f: Format, cursor: string): Option<(Time, Id)> {
    var raw := Decode(Pad(cursor));
    if raw.None? then None
    else
      var signed := SplitLast(raw.value);
      if signed.None? || Signature(f, signed.value.0) != signed.value.1 then None
      else
        var parts := SplitFirst(signed.value.0);
        if parts.None? then None
        else
          var created, id := f.fromIso(parts.value.0), f.parse(parts.value.1);
          if created.None? || id.None? then None else Some((created.value, id.value))
  }

  /** The value of a lower-case hexadecimal digit. */
  function HexWorth(c: Byte): int {
    if 48 <= c <= 57 then c - 48 else if 97 <= c <= 102 then c - 87 else -1
  }

  /** The bytes that pairs of digits spell, high digit first. */
  function Unhex(s: Bytes): Option<seq<int>> {
    if s == [] then Some([])
    else if |s| == 1 || HexWorth(s[0]) < 0 || HexWorth(s[1]) < 0 then None
    else
      var rest := Unhex(s[2..]);
      if rest.None? then None else Some([HexWorth(s[0]) * 16 + HexWorth(s[1])] + rest.value)
  }

  lemma {:induction false} UnhexHex(b: Bytes)
    ensures Unhex(Hex(b)) == Some(b) && |Hex(b)| == 2 * |b|
    ensures forall c | c in Hex(b) :: '0' as int <= c <= '9' as int || 'a' as int <= c <= 'f' as int
  {
    if b != [] {
      UnhexHex(b[1..]);
      assert Hex(b)[2..] == Hex(b[1..]);
      assert [b[0]] + b[1..] == b;
    }
  }

  /** A signature spells the first 16 bytes of the digest. */
  lemma SignatureExactly(f: Format, data: Bytes)
    requires |f.mac(data)| >= 16
    ensures |Signature(f, data)| == 32 && Unhex(Signature(f, data)) == Some(f.mac(data)[..16])
    ensures forall c | c in Signature(f, data) :: '0' as int <= c <= '9' as int || 'a' as int <= c <= 'f' as int
  {
    var digest := f.mac(data);
    UnhexHex(digest[..16]);
    assert |digest| == 16 ==> digest[..16] == digest;
  }

  /** What a cursor carries: timestamp, bar, id, bar, signature. */
  lemma CursorCarries(f: Format, created: Time, id: Id)
    ensures var data := f.iso(created) + [124] + f.show(id);
            Decode(Pad(EncodeCursor(f, created, id))) == Some(data + [124] + Signature(f, data))
  {
    var data := f.iso(created) + [BAR] + f.show(id);
    PaddingRestored(data + [BAR] + Signature(f, data));
    DecodeEncode(data + [BAR] + Signature(f, data));
  }

  lemma {:induction false} HexHasNoBar(b: Bytes)
    ensures BAR !in Hex(b)
  {
    if b != [] {
      HexHasNoBar(b[1..]);
    }
  }

  lemma {:induction false} SplitFirstAt(s: Bytes)
    ensures SplitFirst(s).None? <==> BAR !in s
    ensures SplitFirst(s).Some? ==>
            var (a, b) := SplitFirst(s).value;
            s == a + [BAR] + b && BAR !in a
  {
    if s != [] && s[0] != BAR {
      SplitFirstAt(s[1..]);
      assert s == [s[0]] + s[1..];
    }
  }

  lemma {:induction false} SplitLastAt(s: Bytes)
    ensures SplitLast(s).None? <==> BAR !in s
    ensures SplitLast(s).Some? ==>
            var (a, b) := SplitLast(s).value;
            s == a + [BAR] + b && BAR !in b
  {
    if s != [] && s[|s| - 1] != BAR {
      SplitLastAt(s[..|s| - 1]);
      assert s == s[..|s| - 1] + [s[|s| - 1]];
    }
  }

  lemma FirstBarIsUnique(a: Bytes, b: Bytes, c: Bytes, d: Bytes)
    requires a + [BAR] + b == c + [BAR] + d && BAR !in a && BAR !in c
    ensures a == c && b == d
  {
    var s := a + [BAR] + b;
    assert s[|a|] == BAR && s[|c|] == BAR;
    assert forall m | 0 <= m < |a| :: s[m] == a[m] && s[m] != BAR;
    assert forall m | 0 <= m < |c| :: s[m] == c[m] && s[m] != BAR;
    assert a == s[..|a|] && c == s[..|c|];
    assert b == s[|a| + 1..] && d == s[|c| + 1..];
  }

  lemma LastBarIsUnique(a: Bytes, b: Bytes, c: Bytes, d: Bytes)
    requires a + [BAR] + b == c + [BAR] + d && BAR !in b && BAR !in d
    ensures a == c && b == d
  {
    var s := a + [BAR] + b;
    assert s[|a|] == BAR && s[|c|] == BAR;
    assert forall m | |a| < m < |s| :: s[m] == b[m - |a| - 1] && s[m] != BAR;
    assert forall m | |c| < m < |s| :: s[m] == d[m - |c| - 1] && s[m] != BAR;
    assert a == s[..|a|] && c == s[..|c|];
    assert b == s[|a| + 1..] && d == s[|c| + 1..];
  }

  /** A cursor leads back to the row it was made from. */
  lemma CursorRoundTrip(f: Format, created: Time, id: Id)
    requires Sound(f)
    ensures DecodeCursor(f, EncodeCursor(f, created, id)) == Some((created, id))
  {
    var iso, show := f.iso(created), f.show(id);
    var data := iso + [BAR] + show;
    var raw := data + [BAR] + Signature(f, data);
    PaddingRestored(raw);
    DecodeEncode(raw);
    SplitsSigned(f, data);
    SplitFirstAt(data);
    assert data[|iso|] == BAR;
    var (a, b) := SplitFirst(data).value;
    FirstBarIsUnique(a, b, iso, show);
  }

  lemma SplitsSigned(f: Format, data: Bytes)
    ensures SplitLast(data + [BAR] + Signature(f, data)) == Some((data, Signature(f, data)))
  {
    var raw := data + [BAR] + Signature(f, data);
    SplitLastAt(raw);
    assert raw[|data|] == BAR;
    var digest := f.mac(data);
    HexHasNoBar(if |digest| <= 16 then digest else digest[..16]);
    var (a, b) := SplitLast(raw).value;
    LastBarIsUnique(a, b, data, Signature(f, data));
  }

  /** What a caller sends is accepted exactly when it is some data under its own signature that reads as a position. */
  lemma AcceptsExactly(f: Format, cursor: string, created: Time, id: Id)
    ensures DecodeCursor(f, cursor) == Some((created, id)) <==>
            exists data: Bytes :: Decode(Pad(cursor)) == Some(data + [BAR] + Signature(f, data)) && Reads(f, data, created, id)
  {
    if DecodeCursor(f, cursor) == Some((created, id)) {
      var raw := Decode(Pad(cursor)).value;
      SplitLastAt(raw);
      var data := SplitLast(raw).value.0;
      SplitFirstAt(data);
      var (a, b) := SplitFirst(data).value;
      assert Reads(f, data, created, id) && raw == data + [BAR] + Signature(f, data);
    }
    if data: Bytes :| Decode(Pad(cursor)) == Some(data + [BAR] + Signature(f, data)) && Reads(f, data, created, id) {
      SplitsSigned(f, data);
      SplitFirstAt(data);
      var a: Bytes, b: Bytes :| data == a + [BAR] + b && BAR !in a && f.fromIso(a) == Some(created) && f.parse(b) == Some(id);
      assert data[|a|] == BAR;
      var (c, d) := SplitFirst(data).value;
      FirstBarIsUnique(a, b, c, d);
    }
  }

  /** The data is a timestamp, the first bar and an id. */
  ghost predicate Reads(f: Format, data: Bytes, created: Time, id: Id) {
    exists a: Bytes, b: Bytes :: data == a + [BAR] + b && BAR !in a && f.fromIso(a) == Some(created) && f.parse(b) == Some(id)
  }
}
