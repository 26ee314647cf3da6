/** Room tokens: a UUIDv8 as 22 characters of unpadded base64url (RFC 4648 section 5), each room with exactly one
    spelling. */
module RoomToken {
  import opened Wrappers
  import opened Sfu

  const ROOM_TOKEN_LEN := 22
  const UUID_LEN := 16

  // ---- the alphabet ----

  type Sextet = d: nat | d < 64

  function Symbol(d: Sextet): (c: char)
    ensures Digit(c) == Some(d)
  {
    if d < 26 then ('A' as int + d) as char
    else if d < 52 then ('a' as int + (d - 26)) as char
    else if d < 62 then ('0' as int + (d - 52)) as char
    else if d == 62 then '-'
    else '_'
  }

  function Digit(c: char): (d: Option<Sextet>) {
    if 'A' <= c <= 'Z' then Some(c as int - 'A' as int)
    else if 'a' <= c <= 'z' then Some(c as int - 'a' as int + 26)
    else if '0' <= c <= '9' then Some(c as int - '0' as int + 52)
    else if c == '-' then Some(62)
    else if c == '_' then Some(63)
    else None
  }

  lemma SymbolOfDigit(c: char)
    requires Digit(c).Some?
    ensures Symbol(Digit(c).value) == c
  {
  }

  // ---- three bytes are four digits ----

  function First(a: Byte): Sextet { a / 4 }
  function Second(a: Byte, b: Byte): Sextet { a % 4 * 16 + b / 16 }
  function Third(b: Byte, c: Byte): Sextet { b % 16 * 4 + c / 64 }
  function Fourth(c: Byte): Sextet { c % 64 }

  function ByteA(d: Sextet, e: Sextet): Byte { d * 4 + e / 16 }
  function ByteB(e: Sextet, f: Sextet): Byte { e % 16 * 16 + f / 4 }
  function ByteC(f: Sextet, g: Sextet): Byte { f % 4 * 64 + g }

  /** The four, or two, low bits are zero. */
  predicate LowFourZero(d: Sextet) { d % 16 == 0 }
  predicate LowTwoZero(d: Sextet) { d % 4 == 0 }

  lemma BytesBack(a: Byte, b: Byte, c: Byte)
    ensures ByteA(First(a), Second(a, b)) == a
    ensures ByteB(Second(a, b), Third(b, c)) == b
    ensures ByteC(Third(b, c), Fourth(c)) == c
  {
  }

  lemma DigitsBack(d: Sextet, e: Sextet, f: Sextet, g: Sextet)
    ensures First(ByteA(d, e)) == d
    ensures Second(ByteA(d, e), ByteB(e, f)) == e
    ensures Third(ByteB(e, f), ByteC(f, g)) == f
    ensures Fourth(ByteC(f, g)) == g
    ensures LowFourZero(e) ==> Second(ByteA(d, e), 0) == e
    ensures LowTwoZero(f) ==> Third(ByteB(e, f), 0) == f
  {
  }

  lemma LastBits(a: Byte)
    ensures LowFourZero(Second(a, 0)) && LowTwoZero(Third(a, 0))
  {
  }

  // ---- base64, without padding ----

  /** Digits for the bytes; the bits of the last digit that no byte fills are zero. */
  function Pack(bytes: seq<Byte>): (d: seq<Sextet>)
    decreases |bytes|
  {
    if |bytes| == 0 then []
    else if |bytes| == 1 then [First(bytes[0]), Second(bytes[0], 0)]
    else if |bytes| == 2 then [First(bytes[0]), Second(bytes[0], bytes[1]), Third(bytes[1], 0)]
    else
      [First(bytes[0]), Second(bytes[0], bytes[1]), Third(bytes[1], bytes[2]), Fourth(bytes[2])] + Pack(bytes[3..])
  }

  /** Bytes for the digits, unless the bits of the last digit that fill no byte are not zero. */
  function Unpack(d: seq<Sextet>): (bytes: Option<seq<Byte>>)
    decreases |d|
  {
    if |d| == 0 then Some([])
    else if |d| == 1 then None
    else if |d| == 2 then
      if LowFourZero(d[1]) then Some([ByteA(d[0], d[1])]) else None
    else if |d| == 3 then
      if LowTwoZero(d[2]) then Some([ByteA(d[0], d[1]), ByteB(d[1], d[2])]) else None
    else
      var rest := Unpack(d[4..]);
      if rest.None? then None
      else Some([ByteA(d[0], d[1]), ByteB(d[1], d[2]), ByteC(d[2], d[3])] + rest.value)
  }

  function Encode(bytes: seq<Byte>): (s: string) {
    var d := Pack(bytes);
    seq(|d|, i requires 0 <= i < |d| => Symbol(d[i]))
  }

  function Digits(s: string): (digits: Option<seq<Sextet>>) {
    if forall i :: 0 <= i < |s| ==> Digit(s[i]).Some? then
      Some(seq(|s|, i requires 0 <= i < |s| => Digit(s[i]).value))
    else None
  }

  function Decode(s: string): (bytes: Option<seq<Byte>>) {
    var d := Digits(s);
    if d.Some? then Unpack(d.value) else None
  }

  // ---- room ids ----

  /** Version 8 and the variant of RFC 9562 (sections 4.1, 4.2 and 5.8). */
  predicate IsRoomUuid(id: Uuid) {
    |id.bytes| == UUID_LEN && id.bytes[6] / 16 == 8 && id.bytes[8] / 64 == 2
  }

  function FormatRoomToken(id: Uuid): string {
    Encode(id.bytes)
  }

  function ParseRoomToken(token: string): (id: Option<Uuid>) {
    if |token| != ROOM_TOKEN_LEN then None
    else
      var bytes := Decode(token);
      if bytes.None? || |bytes.value| != UUID_LEN then None
      else if IsRoomUuid(Uuid(bytes.value)) then Some(Uuid(bytes.value))
      else None
  }

  // ---- base64 loses nothing ----

  lemma UnpackPackOne(a: Byte)
    ensures Unpack(Pack([a])) == Some([a])
  {
    hide First, Second, Third, Fourth, ByteA, ByteB, ByteC, LowFourZero, LowTwoZero;
    BytesBack(a, 0, 0);
    LastBits(a);
  }

  lemma UnpackPackTwo(a: Byte, b: Byte)
    ensures Unpack(Pack([a, b])) == Some([a, b])
  {
    hide First, Second, Third, Fourth, ByteA, ByteB, ByteC, LowFourZero, LowTwoZero;
    BytesBack(a, b, 0);
    LastBits(b);
  }

  lemma {:induction false} UnpackPack(bytes: seq<Byte>)
    ensures Unpack(Pack(bytes)) == Some(bytes)
    decreases |bytes|
  {
    if |bytes| == 1 {
      UnpackPackOne(bytes[0]);
      assert bytes == [bytes[0]];
    } else if |bytes| == 2 {
      UnpackPackTwo(bytes[0], bytes[1]);
      assert bytes == [bytes[0], bytes[1]];
    } else if |bytes| >= 3 {
      BytesBack(bytes[0], bytes[1], bytes[2]);
      hide First, Second, Third, Fourth, ByteA, ByteB, ByteC, LowFourZero, LowTwoZero;
      UnpackPack(bytes[3..]);
      assert Pack(bytes)[4..] == Pack(bytes[3..]);
      assert bytes == [bytes[0], bytes[1], bytes[2]] + bytes[3..];
    }
  }

  lemma {:induction false} PackUnpack(d: seq<Sextet>)
    requires Unpack(d).Some?
    ensures Pack(Unpack(d).value) == d
    decreases |d|
  {
    if |d| >= 2 {
      var f := if |d| > 2 then d[2] else 0;
      DigitsBack(d[0], d[1], f, if |d| > 3 then d[3] else 0);
      hide First, Second, Third, Fourth, ByteA, ByteB, ByteC, LowFourZero, LowTwoZero;
      if |d| >= 4 {
        PackUnpack(d[4..]);
        assert Unpack(d).value[3..] == Unpack(d[4..]).value;
        assert d == d[..4] + d[4..];
      }
    }
  }

  /** Decoding undoes encoding. */
  lemma DecodeEncode(bytes: seq<Byte>)
    ensures Decode(Encode(bytes)) == Some(bytes)
  {
    assert Digits(Encode(bytes)).value == Pack(bytes);
    UnpackPack(bytes);
  }

  /** Encoding undoes decoding: what decodes is the one canonical spelling. */
  lemma EncodeDecode(s: string)
    requires Decode(s).Some?
    ensures Encode(Decode(s).value) == s
  {
    PackUnpack(Digits(s).value);
    forall i | 0 <= i < |s| ensures Encode(Decode(s).value)[i] == s[i] {
      SymbolOfDigit(s[i]);
    }
  }

  lemma {:induction false} PackLength(bytes: seq<Byte>)
    ensures |Pack(bytes)| == (|bytes| * 4 + 2) / 3
    decreases |bytes|
  {
    if |bytes| >= 3 { PackLength(bytes[3..]); }
  }

  // ---- one room, one token ----

  /** Every room id survives its token. */
  lemma ParseFormat(id: Uuid)
    requires IsRoomUuid(id)
    ensures ParseRoomToken(FormatRoomToken(id)) == Some(id)
  {
    DecodeEncode(id.bytes);
    PackLength(id.bytes);
  }

  /** Every token that parses is the token of the room it names, which is a UUIDv8. */
  lemma FormatParse(token: string)
    requires ParseRoomToken(token).Some?
    ensures FormatRoomToken(ParseRoomToken(token).value) == token
    ensures IsRoomUuid(ParseRoomToken(token).value)
  {
    EncodeDecode(token);
  }

  /** So the tokens accepted are exactly those of UUIDv8s, and no two of them name one room. */
  lemma TokensAreRooms(token: string, other: string)
    ensures ParseRoomToken(token).Some? <==> exists id :: IsRoomUuid(id) && FormatRoomToken(id) == token
    ensures ParseRoomToken(token).Some? && ParseRoomToken(token) == ParseRoomToken(other) ==> token == other
  {
    if ParseRoomToken(token).Some? {
      FormatParse(token);
      if ParseRoomToken(token) == ParseRoomToken(other) { FormatParse(other); }
    }
    if id :| IsRoomUuid(id) && FormatRoomToken(id) == token { ParseFormat(id); }
  }

  // ---- the last character ----

  /** The last of the digits of a last lone byte has two bits; any other four must be zero, and may be any such. */
  lemma {:induction false} LastDigit(d: seq<Sextet>, last: Sextet)
    requires |d| % 4 == 2 && Unpack(d).Some?
    ensures LowFourZero(d[|d| - 1])
    ensures var e := d[..|d| - 1] + [last];
            && (Unpack(e).Some? <==> LowFourZero(last))
            && (Unpack(e).Some? ==>
                  && |Unpack(e).value| == |Unpack(d).value| > 0
                  && forall i :: 0 <= i < |Unpack(d).value| - 1 ==> Unpack(e).value[i] == Unpack(d).value[i])
    decreases |d|
  {
    if |d| > 2 {
      LastDigit(d[4..], last);
      var e := d[..|d| - 1] + [last];
      assert e[4..] == d[4..][..|d| - 5] + [last];
    }
  }

  predicate MayEnd(c: char) {
    c == 'A' || c == 'Q' || c == 'g' || c == 'w'
  }

  lemma FourEndings(c: char)
    ensures MayEnd(c) <==> Digit(c).Some? && LowFourZero(Digit(c).value)
  {
  }

  /** Of the tokens that share their first 21 characters with a valid one, those are valid that end in A, Q, g or w:
      the valid one does, and the four name different rooms. */
  lemma Endings(token: string, c: char)
    requires ParseRoomToken(token).Some?
    ensures |token| == ROOM_TOKEN_LEN && MayEnd(token[ROOM_TOKEN_LEN - 1])
    ensures ParseRoomToken(token[..ROOM_TOKEN_LEN - 1] + [c]).Some? <==> MayEnd(c)
    ensures ParseRoomToken(token[..ROOM_TOKEN_LEN - 1] + [c]) == ParseRoomToken(token) ==>
              c == token[ROOM_TOKEN_LEN - 1]
  {
    var other := token[..ROOM_TOKEN_LEN - 1] + [c];
    var d := Digits(token).value;
    FourEndings(token[ROOM_TOKEN_LEN - 1]);
    FourEndings(c);
    LastDigit(d, if Digit(c).Some? then Digit(c).value else 0);
    assert other[ROOM_TOKEN_LEN - 1] == c;
    if Digit(c).Some? {
      assert forall i :: 0 <= i < ROOM_TOKEN_LEN - 1 ==> other[i] == token[i];
      assert Digits(other).Some?;
      assert Digits(other).value == d[..|d| - 1] + [Digit(c).value];
    }
    TokensAreRooms(token, other);
  }

  // ---- what the characters mean ----

  /** The number whose digits to the base 256 are those of `high` and then the bytes. */
  ghost function BytesValue(high: nat, bytes: seq<Byte>): nat
    decreases |bytes|
  {
    if bytes == [] then high else BytesValue(high * 256 + bytes[0], bytes[1..])
  }

  /** The number whose digits to the base 64 are those of `high` and then these. */
  ghost function DigitsValue(high: nat, d: seq<Sextet>): nat
    decreases |d|
  {
    if d == [] then high else DigitsValue(high * 64 + d[0], d[1..])
  }

  /** Zero bits after the last byte, as a factor. */
  ghost function Padding(n: nat): nat {
    if n % 3 == 0 then 1 else if n % 3 == 1 then 16 else 4
  }

  lemma DigitsValueFour(high: nat, d: seq<Sextet>)
    requires |d| >= 4
    ensures DigitsValue(high, d) == DigitsValue((((high * 64 + d[0]) * 64 + d[1]) * 64 + d[2]) * 64 + d[3], d[4..])
  {
    assert d[1..][1..] == d[2..] && d[2..][1..] == d[3..] && d[3..][1..] == d[4..];
    assert DigitsValue(high, d) == DigitsValue(high * 64 + d[0], d[1..]);
    assert DigitsValue(high * 64 + d[0], d[1..]) == DigitsValue((high * 64 + d[0]) * 64 + d[1], d[2..]);
    assert DigitsValue((high * 64 + d[0]) * 64 + d[1], d[2..])
        == DigitsValue(((high * 64 + d[0]) * 64 + d[1]) * 64 + d[2], d[3..]);
  }

  lemma BytesValueThree(high: nat, b: seq<Byte>)
    requires |b| >= 3
    ensures BytesValue(high, b) == BytesValue(((high * 256 + b[0]) * 256 + b[1]) * 256 + b[2], b[3..])
  {
    assert b[1..][1..] == b[2..] && b[2..][1..] == b[3..];
    assert BytesValue(high, b) == BytesValue(high * 256 + b[0], b[1..]);
    assert BytesValue(high * 256 + b[0], b[1..]) == BytesValue((high * 256 + b[0]) * 256 + b[1], b[2..]);
  }

  lemma Quantum(high: nat, a: Byte, b: Byte, c: Byte)
    ensures (((high * 64 + First(a)) * 64 + Second(a, b)) * 64 + Third(b, c)) * 64 + Fourth(c)
            == ((high * 256 + a) * 256 + b) * 256 + c
    ensures (high * 64 + First(a)) * 64 + Second(a, 0) == (high * 256 + a) * 16
    ensures ((high * 64 + First(a)) * 64 + Second(a, b)) * 64 + Third(b, 0) == ((high * 256 + a) * 256 + b) * 4
  {
  }

  lemma PackValueOne(high: nat, a: Byte)
    ensures DigitsValue(high, Pack([a])) == BytesValue(high, [a]) * 16
  {
    hide First, Second, Third, Fourth;
    Quantum(high, a, 0, 0);
    var d := Pack([a]);
    assert d[1..][1..] == [] && [a][1..] == [];
    assert DigitsValue(high, d) == DigitsValue(high * 64 + d[0], d[1..]);
    assert DigitsValue(high * 64 + d[0], d[1..]) == DigitsValue((high * 64 + d[0]) * 64 + d[1], d[1..][1..]);
  }

  lemma PackValueTwo(high: nat, a: Byte, b: Byte)
    ensures DigitsValue(high, Pack([a, b])) == BytesValue(high, [a, b]) * 4
  {
    hide First, Second, Third, Fourth;
    Quantum(high, a, b, 0);
    var d := Pack([a, b]);
    assert d[1..][1..] == d[2..] && d[2..][1..] == [] && [a, b][1..] == [b] && [b][1..] == [];
    assert DigitsValue(high, d) == DigitsValue(high * 64 + d[0], d[1..]);
    assert DigitsValue(high * 64 + d[0], d[1..]) == DigitsValue((high * 64 + d[0]) * 64 + d[1], d[2..]);
    assert DigitsValue((high * 64 + d[0]) * 64 + d[1], d[2..])
        == DigitsValue(((high * 64 + d[0]) * 64 + d[1]) * 64 + d[2], d[2..][1..]);
    assert BytesValue(high, [a, b]) == BytesValue(high * 256 + a, [b]);
    assert BytesValue(high * 256 + a, [b]) == BytesValue((high * 256 + a) * 256 + b, [b][1..]);
  }

  /** The digits are the bits of the bytes, most significant first, and then zeros. */
  lemma {:induction false} PackValue(high: nat, bytes: seq<Byte>)
    ensures DigitsValue(high, Pack(bytes)) == BytesValue(high, bytes) * Padding(|bytes|)
    decreases |bytes|
  {
    hide First, Second, Third, Fourth;
    if |bytes| == 1 {
      assert bytes == [bytes[0]];
      PackValueOne(high, bytes[0]);
    } else if |bytes| == 2 {
      assert bytes == [bytes[0], bytes[1]];
      PackValueTwo(high, bytes[0], bytes[1]);
    } else if |bytes| >= 3 {
      Quantum(high, bytes[0], bytes[1], bytes[2]);
      DigitsValueFour(high, Pack(bytes));
      BytesValueThree(high, bytes);
      assert Pack(bytes)[4..] == Pack(bytes[3..]);
      var high' := ((high * 256 + bytes[0]) * 256 + bytes[1]) * 256 + bytes[2];
      assert DigitsValue(high, Pack(bytes)) == DigitsValue(high', Pack(bytes[3..]));
      assert BytesValue(high, bytes) == BytesValue(high', bytes[3..]);
      assert Padding(|bytes|) == Padding(|bytes[3..]|);
      hide DigitsValue, BytesValue, Pack, Padding;
      PackValue(high', bytes[3..]);
    }
  }

  /** A token is the 128-bit number of its room and four zero bits, six bits a character. */
  lemma TokenValue(token: string)
    requires ParseRoomToken(token).Some?
    ensures Digits(token).Some?
    ensures DigitsValue(0, Digits(token).value) == BytesValue(0, ParseRoomToken(token).value.bytes) * 16
  {
    hide Unpack, Pack, BytesValue, DigitsValue, IsRoomUuid, Digits;
    var bytes := Decode(token).value;
    PackUnpack(Digits(token).value);
    PackValue(0, bytes);
    assert Padding(UUID_LEN) == 16;
  }
}
