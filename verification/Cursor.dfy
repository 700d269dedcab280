/** Scoped recovery cursors: an eight-byte position and a 32-byte MAC in the URL-safe base64
    alphabet of section 5 of RFC 4648, without padding. The MAC of RFC 2104 is a parameter. */
module Cursor {
  import opened Basics
  import opened ExecutionProtocol

  type Byte = x: int | 0 <= x < 256
  type Sextet = x: int | 0 <= x < 64

  /** The read a token belongs to: its kind, session, owner and, for observations, execution. */
  datatype Scope =
    | Executions(sessionId: string, ownerUserId: string)
    | Observations(sessionId: string, ownerUserId: string, execution: Uuid)

  type Mac = (Scope, seq<Byte>) -> seq<Byte>

  ghost predicate MacOk(mac: Mac) {
    forall scope, raw :: |mac(scope, raw)| == 32
  }

  const POSITION_BYTES: nat := 8
  const TOKEN_LENGTH: nat := 54
  const POSITION_LIMIT: nat := 0x8000_0000_0000_0000

  // ---- Base64 -----------------------------------------------------------------------------

  function Symbol(k: Sextet): char {
    if k < 26 then 'A' + k as char
    else if k < 52 then 'a' + (k - 26) as char
    else if k < 62 then '0' + (k - 52) as char
    else if k == 62 then '-' else '_'
  }

  /** The decoder translates `-_` to `+/` first, so it takes both spellings. */
  function Value(c: char): Option<Sextet> {
    if 'A' <= c <= 'Z' then Some((c - 'A') as int)
    else if 'a' <= c <= 'z' then Some((c - 'a') as int + 26)
    else if '0' <= c <= '9' then Some((c - '0') as int + 52)
    else if c == '-' || c == '+' then Some(62)
    else if c == '_' || c == '/' then Some(63)
    else None
  }

  function ToSextets(bytes: seq<Byte>): seq<Sextet> {
    if |bytes| == 0 then []
    else if |bytes| == 1 then [bytes[0] / 4, bytes[0] % 4 * 16]
    else if |bytes| == 2 then [bytes[0] / 4, bytes[0] % 4 * 16 + bytes[1] / 16, bytes[1] % 16 * 4]
    else
      [bytes[0] / 4, bytes[0] % 4 * 16 + bytes[1] / 16, bytes[1] % 16 * 4 + bytes[2] / 64, bytes[2] % 64]
      + ToSextets(bytes[3..])
  }

  /** Bits left over in a final partial group are dropped, as the decoder does. */
  function ToBytes(s: seq<Sextet>): seq<Byte> {
    if |s| <= 1 then []
    else if |s| == 2 then [First(s[0], s[1])]
    else if |s| == 3 then [First(s[0], s[1]), Second(s[1], s[2])]
    else [First(s[0], s[1]), Second(s[1], s[2]), Third(s[2], s[3])] + ToBytes(s[4..])
  }

  function First(a: int, b: int): Byte
    requires 0 <= a < 64 && 0 <= b < 64
  {
    a * 4 + b / 16
  }

  function Second(a: int, b: int): Byte
    requires 0 <= a < 64 && 0 <= b < 64
  {
    a % 16 * 16 + b / 4
  }

  function Third(a: int, b: int): Byte
    requires 0 <= a < 64 && 0 <= b < 64
  {
    a % 4 * 64 + b
  }

  function Spell(s: seq<Sextet>): string {
    if s == [] then "" else [Symbol(s[0])] + Spell(s[1..])
  }

  function Read(text: string): Option<seq<Sextet>> {
    if text == "" then Some([])
    else if Value(text[0]).None? || Read(text[1..]).None? then None
    else Some([Value(text[0]).value] + Read(text[1..]).value)
  }

  lemma {:induction false} BytesRoundTrip(bytes: seq<Byte>)
    ensures ToBytes(ToSextets(bytes)) == bytes
  {
    if |bytes| >= 3 {
      BytesRoundTrip(bytes[3..]);
      assert ToSextets(bytes)[4..] == ToSextets(bytes[3..]);
      assert bytes == bytes[..3] + bytes[3..];
    }
  }

  lemma SymbolRoundTrip(k: Sextet)
    ensures Value(Symbol(k)) == Some(k)
  {
  }

  lemma {:induction false} SpellRoundTrip(s: seq<Sextet>)
    ensures |Spell(s)| == |s| && Read(Spell(s)) == Some(s)
  {
    if s != [] {
      SpellRoundTrip(s[1..]);
      SymbolRoundTrip(s[0]);
      assert Spell(s)[0] == Symbol(s[0]) && Spell(s)[1..] == Spell(s[1..]);
      assert s == [s[0]] + s[1..];
    }
  }

  lemma {:induction false} ReadLength(text: string)
    ensures Read(text).Some? ==> |Read(text).value| == |text|
  {
    if text != "" { ReadLength(text[1..]); }
  }

  lemma {:induction false} SextetCount(bytes: seq<Byte>)
    ensures |ToSextets(bytes)| == (|bytes| * 4 + 2) / 3
  {
    if |bytes| >= 3 { SextetCount(bytes[3..]); }
  }

  lemma {:induction false} ByteCount(s: seq<Sextet>)
    ensures |ToBytes(s)| == |s| * 3 / 4
  {
    if |s| >= 4 { ByteCount(s[4..]); }
  }

  // ---- Positions --------------------------------------------------------------------------

  function BigEndian(position: nat, width: nat): seq<Byte> {
    if width == 0 then [] else BigEndian(position / 256, width - 1) + [position % 256]
  }

  function FromBigEndian(bytes: seq<Byte>): nat {
    if bytes == [] then 0 else FromBigEndian(bytes[..|bytes| - 1]) * 256 + bytes[|bytes| - 1]
  }

  function Capacity(width: nat): nat {
    if width == 0 then 1 else 256 * Capacity(width - 1)
  }

  lemma {:induction false} BigEndianRoundTrip(position: nat, width: nat)
    ensures |BigEndian(position, width)| == width
    ensures position < Capacity(width) ==> FromBigEndian(BigEndian(position, width)) == position
  {
    if width > 0 {
      BigEndianRoundTrip(position / 256, width - 1);
      assert BigEndian(position, width)[..width - 1] == BigEndian(position / 256, width - 1);
    }
  }

  // ---- Tokens -----------------------------------------------------------------------------

  function Encode(mac: Mac, scope: Scope, position: nat): string {
    var raw := BigEndian(position, POSITION_BYTES);
    Spell(ToSextets(raw + mac(scope, raw)))
  }

  function Decode(mac: Mac, scope: Scope, token: string): Result<nat>
    requires MacOk(mac)
  {
    if |token| != TOKEN_LENGTH || Read(token).None? then Err(BadRequest)
    else
      ReadLength(token);
      ByteCount(Read(token).value);
      var position := FromBigEndian(ToBytes(Read(token).value)[..POSITION_BYTES]);
      if !(0 < position < POSITION_LIMIT) || token != Encode(mac, scope, position) then Err(BadRequest)
      else Ok(position)
  }

  lemma EncodedPosition(mac: Mac, scope: Scope, position: nat)
    requires MacOk(mac) && position < POSITION_LIMIT
    ensures |Encode(mac, scope, position)| == TOKEN_LENGTH
    ensures var read := Read(Encode(mac, scope, position));
      read.Some? && |ToBytes(read.value)| == 40 && FromBigEndian(ToBytes(read.value)[..POSITION_BYTES]) == position
  {
    var raw := BigEndian(position, POSITION_BYTES);
    var bytes := raw + mac(scope, raw);
    BigEndianRoundTrip(position, POSITION_BYTES);
    CapacityOfPosition();
    SextetCount(bytes);
    SpellRoundTrip(ToSextets(bytes));
    BytesRoundTrip(bytes);
    assert bytes[..POSITION_BYTES] == raw;
  }

  lemma CapacityOfPosition()
    ensures POSITION_LIMIT <= Capacity(POSITION_BYTES)
  {
    assert Capacity(4) == 0x1_0000_0000;
  }

  /** A token decodes to a position exactly when it is the token minted for that position in the
      same scope. */
  lemma DecodeAcceptsExactlyMintedTokens(mac: Mac, scope: Scope, token: string, position: nat)
    requires MacOk(mac)
    ensures Decode(mac, scope, token) == Ok(position)
       <==> 0 < position < POSITION_LIMIT && token == Encode(mac, scope, position)
  {
    hide Read, ToBytes, FromBigEndian, Encode;
    if 0 < position < POSITION_LIMIT && token == Encode(mac, scope, position) {
      EncodedPosition(mac, scope, position);
    }
  }

  /** A token minted for one read is taken by another exactly when their MACs of its position agree. */
  lemma TokensAreScoped(mac: Mac, minted: Scope, read: Scope, position: nat)
    requires MacOk(mac) && 0 < position < POSITION_LIMIT
    ensures var raw := BigEndian(position, POSITION_BYTES);
      Decode(mac, read, Encode(mac, minted, position)).Ok? <==> mac(minted, raw) == mac(read, raw)
  {
    hide Read, ToBytes, FromBigEndian, BigEndian, ToSextets, Spell;
    var raw := BigEndian(position, POSITION_BYTES);
    var token := Encode(mac, minted, position);
    EncodedPosition(mac, minted, position);
    var theirs, ours := raw + mac(minted, raw), raw + mac(read, raw);
    SpellRoundTrip(ToSextets(theirs));
    SpellRoundTrip(ToSextets(ours));
    BytesRoundTrip(theirs);
    BytesRoundTrip(ours);
    if Decode(mac, read, token).Ok? {
      assert theirs == ours;
      assert theirs[|raw|..] == mac(minted, raw) && ours[|raw|..] == mac(read, raw);
    }
  }

  /** Tokens are spelled in the URL-safe alphabet, in its order: capitals, small letters, digits, `-`, `_`. */
  lemma SymbolsAreUrlSafe(k: Sextet)
    ensures Symbol(0) == 'A' && Symbol(25) == 'Z' && Symbol(26) == 'a' && Symbol(51) == 'z'
    ensures Symbol(52) == '0' && Symbol(61) == '9' && Symbol(62) == '-' && Symbol(63) == '_'
    ensures k < 61 && k !in {25, 51} ==> Symbol(k + 1) == Symbol(k) + 1 as char
  {
  }
}
