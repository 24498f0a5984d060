/** `zygo_child_seccomp.c`: the base64 decoder that reads the filter program from
    the environment. Its 32-bit accumulator wraps; what it writes is nevertheless
    the number the characters spell, byte by byte.
 */
module Base64 {

  const UPPER := "ABCDEFGHIJKLMNOPQRSTUVWXYZ"
  const LOWER := "abcdefghijklmnopqrstuvwxyz"
  const DIGITS := "0123456789"
  const ALPHABET := UPPER + LOWER + DIGITS + "+/"

  /** `strchr(alphabet, c) - alphabet`, or -1. */
  function IndexOf(s: string, c: char): (i: int)
    ensures -1 <= i < |s|
    ensures i == -1 <==> c !in s
    ensures i >= 0 ==> s[i] == c && c !in s[..i]
  {
    if s == "" then -1
    else if s[0] == c then 0
    else
      var i := IndexOf(s[1..], c);
      assert s == [s[0]] + s[1..];
      assert i >= 0 ==> s[..i + 1] == [s[0]] + s[1..][..i];
      if i == -1 then -1 else i + 1
  }

  function Sextet(c: char): (i: int)
    ensures -1 <= i < 64
  {
    assert |ALPHABET| == 64;
    IndexOf(ALPHABET, c)
  }

  function CharOf(i: int): char
    requires 0 <= i < 64
  {
    if i < 26 then 'A' + i as char
    else if i < 52 then 'a' + (i - 26) as char
    else if i < 62 then '0' + (i - 52) as char
    else if i == 62 then '+'
    else '/'
  }

  lemma AlphabetIs(i: int)
    requires 0 <= i < 64
    ensures |ALPHABET| == 64 && ALPHABET[i] == CharOf(i)
  {
    assert |UPPER| == 26 && |LOWER| == 26 && |DIGITS| == 10;
    if i < 26 {
      assert UPPER[i] == CharOf(i);
    } else if i < 52 {
      assert LOWER[i - 26] == CharOf(i);
    } else if i < 62 {
      assert DIGITS[i - 52] == CharOf(i);
    }
    hide UPPER, LOWER, DIGITS;
  }

  lemma SextetOfChar(i: int)
    requires 0 <= i < 64
    ensures Sextet(CharOf(i)) == i && CharOf(i) != '='
  {
    AlphabetIs(i);
    hide ALPHABET;
    var j := Sextet(CharOf(i));
    assert CharOf(i) in ALPHABET;
    AlphabetIs(j);
    assert CharOf(i) == CharOf(j);
  }

  // --- What the characters spell ----------------------------------------------

  /** The characters before the first `=`, where decoding stops. */
  function Clean(s: string): string {
    if s == "" || s[0] == '=' then "" else [s[0]] + Clean(s[1..])
  }

  predicate Spells(s: string) { forall i | 0 <= i < |s| :: Sextet(s[i]) >= 0 }

  /** The number `s` spells, six bits a character. */
  function Value64(s: string): int
    requires Spells(s)
  {
    if s == "" then 0 else 64 * Value64(s[..|s| - 1]) + Sextet(s[|s| - 1])
  }

  predicate Bytes(b: seq<int>) { forall i | 0 <= i < |b| :: 0 <= b[i] < 256 }

  /** The number the bytes are, eight bits each. */
  function Value256(b: seq<int>): int {
    if b == [] then 0 else 256 * Value256(b[..|b| - 1]) + b[|b| - 1]
  }

  /** Whole bytes in `n` characters, and the bits left over. */
  function Whole(n: nat): nat { 6 * n / 8 }

  function Left(n: nat): nat { 6 * n % 8 }

  /** `x >> bits`. */
  function ShiftRight(x: int, bits: int): int
    requires 0 <= bits < 8
  {
    x / (if bits == 0 then 1 else if bits == 1 then 2 else if bits == 2 then 4 else if bits == 3 then 8
         else if bits == 4 then 16 else if bits == 5 then 32 else if bits == 6 then 64 else 128)
  }

  /** A character outside the alphabet, or more bytes than there is room for. */
  predicate Refused(s: string, room: nat) { !Spells(Clean(s)) || Whole(|Clean(s)|) > room }

  const WORD := 0x1_0000_0000

  /** Arithmetic in `uint32_t`. */
  function Wrap(x: int): int { x % WORD }

  /** The decoder's state after the characters `done`. */
  ghost predicate State(done: string, accumulator: int, bits: int, bytes: seq<int>) {
    && Spells(done) && 0 <= bits < 8 && 8 * |bytes| + bits == 6 * |done|
    && accumulator == Wrap(Value64(done))
    && Bytes(bytes) && Value256(bytes) == ShiftRight(Value64(done), bits)
  }

  /** `bytes` are the whole bytes of the number `s` spells. */
  ghost predicate Decodes(s: string, bytes: seq<int>) {
    && Spells(Clean(s)) && |bytes| == Whole(|Clean(s)|) && Bytes(bytes)
    && Value256(bytes) == ShiftRight(Value64(Clean(s)), Left(|Clean(s)|))
  }

  method Unbase64(s: string, out: array<int>, room: nat) returns (length: int)
    requires room <= out.Length
    modifies out
    ensures length == -1 <==> Refused(s, room)
    ensures length != -1 ==> 0 <= length <= room && Decodes(s, out[..length])
    ensures forall k | room <= k < out.Length :: out[k] == old(out[k])
  {
    hide Value64, Value256, ShiftRight, Sextet, Wrap, State, Whole, Left, Bytes;
    var accumulator, bits, written, p := 0, 0, 0, 0;
    StartState(out[..0]);
    while p < |s|
      invariant p <= |s| && Clean(s) == s[..p] + Clean(s[p..])
      invariant 0 <= written <= room && State(s[..p], accumulator, bits, out[..written])
      invariant forall k | room <= k < out.Length :: out[k] == old(out[k])
    {
      assert s[p..][1..] == s[p + 1..] && s[..p + 1] == s[..p] + [s[p]];
      if s[p] == '=' {
        break;
      }
      var at := Sextet(s[p]);
      if at == -1 {
        assert Clean(s)[p] == s[p];
        return -1;
      }
      StateFacts(s[..p], accumulator, bits, out[..written]);
      NextState(s[..p], s[p], accumulator, bits, out[..written]);
      accumulator := Wrap(accumulator * 64 + at);
      bits := bits + 6;
      if bits >= 8 {
        bits := bits - 8;
        if written >= room {
          NoRoom(s, p, written);
          return -1;
        }
        ghost var before := out[..written];
        out[written] := ShiftRight(accumulator, bits) % 256;
        written := written + 1;
        assert out[..written] == before + [out[written - 1]];
      }
      p := p + 1;
    }
    assert Clean(s) == s[..p];
    StateFacts(s[..p], accumulator, bits, out[..written]);
    return written;
  }

  lemma StateFacts(done: string, accumulator: int, bits: int, bytes: seq<int>)
    requires State(done, accumulator, bits, bytes)
    ensures Spells(done) && 0 <= bits < 8 && Bytes(bytes)
    ensures |bytes| == Whole(|done|) && bits == Left(|done|)
    ensures Value256(bytes) == ShiftRight(Value64(done), Left(|done|))
  {
    hide Value64, Value256, ShiftRight, Spells, Bytes;
    assert |bytes| == Whole(|done|);
  }

  lemma NoRoom(s: string, p: nat, written: nat)
    requires p < |Clean(s)| && written == Whole(p) && Left(p) + 6 >= 8
    ensures Whole(|Clean(s)|) > written
  {
  }

  lemma StartState(none: seq<int>)
    requires none == []
    ensures State("", 0, 0, none)
  {
  }

  lemma NextState(done: string, c: char, accumulator: int, bits: int, bytes: seq<int>)
    requires State(done, accumulator, bits, bytes) && Sextet(c) >= 0
    ensures var next := Wrap(accumulator * 64 + Sextet(c));
            if bits + 6 < 8 then State(done + [c], next, bits + 6, bytes)
            else State(done + [c], next, bits - 2, bytes + [ShiftRight(next, bits - 2) % 256])
  {
    EvenBits(|bytes|, |done|, bits);
    if bits == 0 {
      KeepBits(done, c, accumulator, bytes);
    } else {
      EmitByte(done, c, accumulator, bits, bytes);
    }
    hide State, Sextet, Wrap, ShiftRight;
  }

  lemma KeepBits(done: string, c: char, accumulator: int, bytes: seq<int>)
    requires State(done, accumulator, 0, bytes) && Sextet(c) >= 0
    ensures State(done + [c], Wrap(accumulator * 64 + Sextet(c)), 6, bytes)
  {
    hide Value64, Sextet, Spells, Wrap, Bytes, ShiftRight;
    OneMore(done, c);
    Wrapped(Value64(done), Sextet(c));
    KeepSixBits(Value64(done), Sextet(c));
  }

  lemma KeepSixBits(v: int, at: int)
    requires 0 <= at < 64
    ensures ShiftRight(64 * v + at, 6) == ShiftRight(v, 0)
  {
    By64(64 * v + at, v, at);
  }

  lemma EmitByte(done: string, c: char, accumulator: int, bits: int, bytes: seq<int>)
    requires State(done, accumulator, bits, bytes) && Sextet(c) >= 0 && bits in {2, 4, 6}
    ensures var next := Wrap(accumulator * 64 + Sextet(c));
            State(done + [c], next, bits - 2, bytes + [ShiftRight(next, bits - 2) % 256])
  {
    hide Value64, Sextet, Spells, Wrap, ShiftRight, Bytes, Value256;
    OneMore(done, c);
    Wrapped(Value64(done), Sextet(c));
    ByteOut(Value64(done), Sextet(c), bits);
    Append(bytes, ShiftRight(Wrap(64 * Value64(done) + Sextet(c)), bits - 2) % 256);
  }

  lemma EvenBits(a: nat, b: nat, bits: int)
    requires 8 * a + bits == 6 * b && 0 <= bits < 8
    ensures bits in {0, 2, 4, 6}
  {
    assert bits == 2 * (3 * b - 4 * a);
  }

  lemma OneMore(done: string, c: char)
    requires Spells(done) && Sextet(c) >= 0
    ensures Spells(done + [c]) && Value64(done + [c]) == 64 * Value64(done) + Sextet(c) && Value64(done) >= 0
  {
    hide Sextet;
    assert (done + [c])[..|done|] == done;
    Nonnegative(done);
  }

  lemma Append(bytes: seq<int>, b: int)
    requires Bytes(bytes) && 0 <= b < 256
    ensures Bytes(bytes + [b]) && Value256(bytes + [b]) == 256 * Value256(bytes) + b
  {
    assert (bytes + [b])[..|bytes|] == bytes;
  }

  lemma {:induction false} Nonnegative(s: string)
    requires Spells(s)
    ensures Value64(s) >= 0
  {
    if s != "" { Nonnegative(s[..|s| - 1]); }
  }

  lemma Wrapped(v: int, at: int)
    requires v >= 0 && 0 <= at < 64
    ensures Wrap(Wrap(v) * 64 + at) == Wrap(64 * v + at)
  {
    var k, m := v / WORD, v % WORD;
    assert 64 * v + at == WORD * (64 * k) + (64 * m + at);
  }

  /** What the shift moves out of the wrapped accumulator is the next byte. */
  lemma ByteOut(v: int, at: int, bits: int)
    requires v >= 0 && 0 <= at < 64 && bits in {2, 4, 6}
    ensures ShiftRight(64 * v + at, bits - 2) ==
            256 * ShiftRight(v, bits) + ShiftRight(Wrap(64 * v + at), bits - 2) % 256
  {
    var u := 64 * v + at;
    var c, m := u / WORD, u % WORD;
    if bits == 2 {
      SameByte(u, 0x100_0000 * c, m);
      By256(u, v / 4, 64 * (v % 4) + at);
    } else if bits == 4 {
      By4(u, 0x4000_0000 * c + m / 4, m % 4);
      By4(u, 16 * v + at / 4, at % 4);
      SameByte(u / 4, 0x40_0000 * c, m / 4);
      By256(u / 4, v / 16, 16 * (v % 16) + at / 4);
    } else {
      By16(u, 0x1000_0000 * c + m / 16, m % 16);
      By16(u, 4 * v + at / 16, at % 16);
      SameByte(u / 16, 0x10_0000 * c, m / 16);
      By256(u / 16, v / 64, 4 * (v % 64) + at / 16);
    }
  }

  lemma SameByte(x: int, k: int, m: int)
    requires x == 256 * k + m
    ensures x % 256 == m % 256
  {
  }

  lemma By256(x: int, q: int, r: int)
    requires x == 256 * q + r && 0 <= r < 256
    ensures x / 256 == q && x % 256 == r
  {
  }

  lemma By64(x: int, q: int, r: int)
    requires x == 64 * q + r && 0 <= r < 64
    ensures x / 64 == q
  {
  }

  lemma By16(x: int, q: int, r: int)
    requires x == 16 * q + r && 0 <= r < 16
    ensures x / 16 == q
  {
  }

  lemma By4(x: int, q: int, r: int)
    requires x == 4 * q + r && 0 <= r < 4
    ensures x / 4 == q
  {
  }

  // --- The encoding of RFC 4648, section 4 ------------------------------------

  predicate IsByte(x: int) { 0 <= x < 256 }

  function Group(a: int, b: int, c: int): (g: string)
    requires IsByte(a) && IsByte(b) && IsByte(c)
    ensures |g| == 4
  {
    [CharOf(a / 4), CharOf(16 * (a % 4) + b / 16), CharOf(4 * (b % 16) + c / 64), CharOf(c % 64)]
  }

  /** The first `m` groups of 24 bits. */
  function Groups(b: seq<int>, m: nat): string
    requires Bytes(b) && 3 * m <= |b|
  {
    if m == 0 then "" else Groups(b, m - 1) + Group(b[3 * m - 3], b[3 * m - 2], b[3 * m - 1])
  }

  /** The characters, without padding; zero bits fill up the last group. */
  function Chars(b: seq<int>): string
    requires Bytes(b)
  {
    CharsWith(b, |b| / 3)
  }

  function CharsWith(b: seq<int>, m: nat): string
    requires Bytes(b) && 3 * m <= |b| < 3 * m + 3
  {
    var left := |b| - 3 * m;
    Groups(b, m) +
    if left == 0 then ""
    else if left == 1 then Group(b[3 * m], 0, 0)[..2]
    else Group(b[3 * m], b[3 * m + 1], 0)[..3]
  }

  function Padding(n: nat): string { if n % 3 == 0 then "" else if n % 3 == 1 then "==" else "=" }

  function Encode(b: seq<int>): string
    requires Bytes(b)
  {
    Chars(b) + Padding(|b|)
  }

  ghost predicate Plain(s: string) { Spells(s) && '=' !in s }

  lemma PlainChar(s: string, i: int)
    requires Plain(s) && 0 <= i < 64
    ensures Plain(s + [CharOf(i)]) && Value64(s + [CharOf(i)]) == 64 * Value64(s) + i
  {
    SextetOfChar(i);
    hide CharOf, Sextet;
    assert (s + [CharOf(i)])[..|s|] == s;
  }

  lemma OneByte(s: string, a: int)
    requires Plain(s) && IsByte(a)
    ensures var t := s + Group(a, 0, 0)[..2]; Plain(t) && Value64(t) == 16 * (256 * Value64(s) + a)
  {
    var x, y := a / 4, 16 * (a % 4);
    assert s + Group(a, 0, 0)[..2] == s + [CharOf(x)] + [CharOf(y)];
    PlainChar(s, x);
    PlainChar(s + [CharOf(x)], y);
    hide Plain, Value64, CharOf, Group;
  }

  lemma TwoBytes(s: string, a: int, b: int)
    requires Plain(s) && IsByte(a) && IsByte(b)
    ensures var t := s + Group(a, b, 0)[..3]; Plain(t) && Value64(t) == 4 * (65_536 * Value64(s) + (256 * a + b))
  {
    var x, y, z := a / 4, 16 * (a % 4) + b / 16, 4 * (b % 16);
    assert s + Group(a, b, 0)[..3] == s + [CharOf(x)] + [CharOf(y)] + [CharOf(z)];
    PlainChar(s, x);
    PlainChar(s + [CharOf(x)], y);
    PlainChar(s + [CharOf(x)] + [CharOf(y)], z);
    hide Plain, Value64, CharOf, Group;
  }

  lemma ThreeBytes(s: string, a: int, b: int, c: int)
    requires Plain(s) && IsByte(a) && IsByte(b) && IsByte(c)
    ensures var t := s + Group(a, b, c);
            Plain(t) && Value64(t) == 0x100_0000 * Value64(s) + (65_536 * a + 256 * b + c)
  {
    var x, y, z, w := a / 4, 16 * (a % 4) + b / 16, 4 * (b % 16) + c / 64, c % 64;
    assert s + Group(a, b, c) == s + [CharOf(x)] + [CharOf(y)] + [CharOf(z)] + [CharOf(w)];
    PlainChar(s, x);
    PlainChar(s + [CharOf(x)], y);
    PlainChar(s + [CharOf(x)] + [CharOf(y)], z);
    PlainChar(s + [CharOf(x)] + [CharOf(y)] + [CharOf(z)], w);
    hide Plain, Value64, CharOf, Group;
  }

  /** The number `m` whole groups and `left` further bytes spell, with the zero
      bits that fill up the last group. */
  function Filled(v: int, left: int): int { if left == 0 then v else if left == 1 then 16 * v else 4 * v }

  lemma {:induction false} GroupsSpell(b: seq<int>, m: nat)
    requires Bytes(b) && 3 * m <= |b|
    ensures var s := Groups(b, m); Plain(s) && Value64(s) == Value256(b[..3 * m]) && |s| == 4 * m
  {
    hide Plain, Value64, Value256, Group;
    if m > 0 {
      GroupsSpell(b, m - 1);
      var t := b[..3 * m];
      assert t[..|t| - 3] == b[..3 * (m - 1)];
      Last3(t);
      ThreeBytes(Groups(b, m - 1), t[|t| - 3], t[|t| - 2], t[|t| - 1]);
    } else {
      assert b[..0] == [];
      NoBytes();
    }
  }

  lemma NoBytes()
    ensures Plain("") && Value64("") == 0 == Value256([])
  {
  }

  ghost predicate Spelled(s: string, b: seq<int>, m: nat)
    requires 3 * m <= |b|
  {
    var left := |b| - 3 * m;
    Plain(s) && Value64(s) == Filled(Value256(b), left) && |s| == 4 * m + (if left == 0 then 0 else left + 1)
  }

  lemma CharsSpell(b: seq<int>, m: nat)
    requires Bytes(b) && 3 * m <= |b| < 3 * m + 3
    ensures Spelled(CharsWith(b, m), b, m)
  {
    var s := Groups(b, m);
    GroupsSpell(b, m);
    hide Plain, Value64, Value256, Group, Groups, Filled;
    if |b| == 3 * m {
      assert b[..3 * m] == b && s + "" == s;
      WholeGroups(s, b, m);
    } else if |b| == 3 * m + 1 {
      OneMoreByte(s, b, m);
    } else {
      TwoMoreBytes(s, b, m);
    }
    hide Spelled;
  }

  lemma WholeGroups(s: string, b: seq<int>, m: nat)
    requires |b| == 3 * m && Plain(s) && Value64(s) == Value256(b) && |s| == 4 * m
    ensures Spelled(s, b, m)
  {
    hide Plain, Value64, Value256;
  }

  lemma OneMoreByte(s: string, b: seq<int>, m: nat)
    requires Bytes(b) && |b| == 3 * m + 1
    requires Plain(s) && Value64(s) == Value256(b[..3 * m]) && |s| == 4 * m
    ensures Spelled(s + Group(b[3 * m], 0, 0)[..2], b, m)
  {
    hide Plain, Value64, Value256, Group;
    Last1(b);
    var a := b[3 * m];
    OneByte(s, a);
    assert Value256(b) == 256 * Value256(b[..3 * m]) + a;
  }

  lemma TwoMoreBytes(s: string, b: seq<int>, m: nat)
    requires Bytes(b) && |b| == 3 * m + 2
    requires Plain(s) && Value64(s) == Value256(b[..3 * m]) && |s| == 4 * m
    ensures Spelled(s + Group(b[3 * m], b[3 * m + 1], 0)[..3], b, m)
  {
    hide Plain, Value64, Value256, Group;
    Last2(b);
    var x, y := b[3 * m], b[3 * m + 1];
    TwoBytes(s, x, y);
    assert Value256(b) == 65_536 * Value256(b[..3 * m]) + (256 * x + y);
  }

  lemma Last1(b: seq<int>)
    requires |b| >= 1
    ensures Value256(b) == 256 * Value256(b[..|b| - 1]) + b[|b| - 1]
  {
  }

  lemma Last2(b: seq<int>)
    requires |b| >= 2
    ensures Value256(b) == 65_536 * Value256(b[..|b| - 2]) + (256 * b[|b| - 2] + b[|b| - 1])
  {
    assert b[..|b| - 1][..|b| - 2] == b[..|b| - 2];
    Last1(b[..|b| - 1]);
    Last1(b);
    hide Value256;
  }

  lemma Last3(b: seq<int>)
    requires |b| >= 3
    ensures Value256(b) == 0x100_0000 * Value256(b[..|b| - 3]) + (65_536 * b[|b| - 3] + 256 * b[|b| - 2] + b[|b| - 1])
  {
    assert b[..|b| - 1][..|b| - 3] == b[..|b| - 3];
    Last2(b[..|b| - 1]);
    Last1(b);
    hide Value256;
  }

  lemma PlainHasNoPad(s: string)
    ensures Plain(s) ==> Spells(s) && '=' !in s
  {
  }

  lemma {:induction false} CleanOfPadded(s: string, pad: string)
    requires '=' !in s && (pad == "" || pad[0] == '=')
    ensures Clean(s + pad) == s
  {
    if s != "" {
      assert (s + pad)[1..] == s[1..] + pad;
      CleanOfPadded(s[1..], pad);
      assert s == [s[0]] + s[1..] && s[0] in s;
      assert (s + pad)[0] == s[0] != '=';
    } else {
      assert s + pad == pad;
    }
  }

  /** Bytes are determined by their number and how many there are. */
  lemma {:induction false} ValueIsInjective(a: seq<int>, b: seq<int>)
    requires Bytes(a) && Bytes(b) && |a| == |b| && Value256(a) == Value256(b)
    ensures a == b
  {
    if a != [] {
      var n := |a| - 1;
      By256(Value256(a), Value256(a[..n]), a[n]);
      By256(Value256(b), Value256(b[..n]), b[n]);
      ValueIsInjective(a[..n], b[..n]);
      assert a == a[..n] + [a[n]] && b == b[..n] + [b[n]];
    }
  }

  lemma EncodedIsSpelled(b: seq<int>)
    requires Bytes(b)
    ensures Clean(Encode(b)) == CharsWith(b, |b| / 3) && Spelled(Clean(Encode(b)), b, |b| / 3)
  {
    hide CharsWith, Padding;
    CharsSpell(b, |b| / 3);
    PlainHasNoPad(Chars(b));
    PaddingIs(|b|);
    CleanOfPadded(Chars(b), Padding(|b|));
  }

  lemma {:induction false} GroupsLength(b: seq<int>, m: nat)
    requires Bytes(b) && 3 * m <= |b|
    ensures |Groups(b, m)| == 4 * m
  {
    if m > 0 { GroupsLength(b, m - 1); }
  }

  lemma CharsLength(b: seq<int>)
    requires Bytes(b)
    ensures |Chars(b)| == 4 * (|b| / 3) + (if |b| % 3 == 0 then 0 else |b| % 3 + 1)
  {
    hide Groups;
    GroupsLength(b, |b| / 3);
  }

  lemma PaddingIs(n: nat)
    ensures |Padding(n)| == (3 - n % 3) % 3 && forall k | 0 <= k < |Padding(n)| :: Padding(n)[k] == '='
  {
  }

  lemma NoPadInChars(b: seq<int>)
    requires Bytes(b)
    ensures '=' !in Chars(b)
  {
    hide CharsWith;
    CharsSpell(b, |b| / 3);
    PlainHasNoPad(Chars(b));
  }

  /** The encoding is four characters for every three bytes, begun or whole, and its last
      ones are `=`, as many as bytes are missing from the last three. */
  lemma EncodedShape(b: seq<int>)
    requires Bytes(b)
    ensures |Encode(b)| == (|b| + 2) / 3 * 4
    ensures forall k | 0 <= k < |Encode(b)| :: Encode(b)[k] == '=' <==> |Encode(b)| - k <= (3 - |b| % 3) % 3
  {
    hide Chars, Padding, Bytes;
    CharsLength(b);
    PaddingIs(|b|);
    NoPadInChars(b);
  }

  /** The decoder's contract lets it write, for an encoded string, the bytes that
      were encoded and nothing else; it refuses only what does not fit. */
  lemma DecodingInvertsEncoding(b: seq<int>, room: nat, written: seq<int>)
    requires Bytes(b)
    ensures Refused(Encode(b), room) <==> |b| > room
    ensures Decodes(Encode(b), written) <==> written == b
  {
    var s := Clean(Encode(b));
    EncodedIsSpelled(b);
    SpelledDecodes(s, b, |b| / 3, written);
    hide Spelled, Encode, Whole, Left, ShiftRight, Spells, Bytes;
  }

  lemma SpelledDecodes(s: string, b: seq<int>, m: nat, written: seq<int>)
    requires Bytes(b) && 3 * m <= |b| < 3 * m + 3 && Spelled(s, b, m)
    ensures Spells(s) && Whole(|s|) == |b|
    ensures |written| == Whole(|s|) && Bytes(written) && Value256(written) == ShiftRight(Value64(s), Left(|s|))
            <==> written == b
  {
    WholeOfChars(|b|, m, Value256(b));
    PlainHasNoPad(s);
    hide Plain, Value64, Value256, ShiftRight, Whole, Left, Filled, Bytes;
    if |written| == |b| && Bytes(written) && Value256(written) == Value256(b) {
      ValueIsInjective(written, b);
    }
  }

  lemma WholeOfChars(n: nat, m: nat, v: int)
    requires 3 * m <= n < 3 * m + 3
    ensures var chars := 4 * m + (if n == 3 * m then 0 else n - 3 * m + 1);
            Whole(chars) == n && ShiftRight(Filled(v, n - 3 * m), Left(chars)) == v
  {
    var chars := 4 * m + (if n == 3 * m then 0 else n - 3 * m + 1);
    assert 6 * chars == 8 * n + (if n == 3 * m then 0 else if n == 3 * m + 1 then 4 else 2);
  }
}
