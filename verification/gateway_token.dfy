/** The gateway's cookie: an expiry in decimal, a dot, and the base64url text
    (section 5 of RFC 4648, unpadded) of a keyed hash of that expiry.  The hash
    of RFC 2104 is a parameter. */
module GatewayToken {
  import opened Options
  import opened Decimal

  type byte = x: int | 0 <= x < 256

  /** Any keyed hash whose output is never empty. */
  type Mac = (seq<byte>, string) -> seq<byte>

  ghost predicate Keyed(mac: Mac) {
    forall secret, text :: mac(secret, text) != []
  }

  // ---------------------------------------------------------- base64url

  type sextet = x: int | 0 <= x < 64

  function Letter(v: sextet): (c: char)
    ensures LetterValue(c) == v && c != '.'
  {
    if v < 26 then 'A' + v as char
    else if v < 52 then 'a' + (v - 26) as char
    else if v < 62 then '0' + (v - 52) as char
    else if v == 62 then '-'
    else '_'
  }

  // Three bytes x, y, z as four groups of six bits, and back.

  function First(x: byte): sextet { x / 4 }

  function Second(x: byte, y: byte): sextet { x % 4 * 16 + y / 16 }

  function Third(y: byte, z: byte): sextet { y % 16 * 4 + z / 64 }

  function Fourth(z: byte): sextet { z % 64 }

  function ByteX(a: sextet, b: sextet): byte { a * 4 + b / 16 }

  function ByteY(b: sextet, c: sextet): byte { b % 16 * 16 + c / 4 }

  function ByteZ(c: sextet, d: sextet): byte { c % 4 * 64 + d }

  function Encode(data: seq<byte>): string {
    if |data| == 0 then ""
    else if |data| == 1 then
      [Letter(First(data[0])), Letter(Second(data[0], 0))]
    else if |data| == 2 then
      [Letter(First(data[0])), Letter(Second(data[0], data[1])), Letter(Third(data[1], 0))]
    else
      [Letter(First(data[0])), Letter(Second(data[0], data[1])),
       Letter(Third(data[1], data[2])), Letter(Fourth(data[2]))] + Encode(data[3..])
  }

  function LetterValue(c: char): sextet
  {
    if 'A' <= c <= 'Z' then (c - 'A') as int
    else if 'a' <= c <= 'z' then (c - 'a') as int + 26
    else if '0' <= c <= '9' then (c - '0') as int + 52
    else if c == '-' then 62
    else 63
  }

  /** Reads base64url text back, four letters to three bytes. */
  function Decode(s: string): seq<byte> {
    if |s| < 2 then []
    else
      var a, b := LetterValue(s[0]), LetterValue(s[1]);
      if |s| == 2 then [ByteX(a, b)]
      else
        var c := LetterValue(s[2]);
        if |s| == 3 then [ByteX(a, b), ByteY(b, c)]
        else [ByteX(a, b), ByteY(b, c), ByteZ(c, LetterValue(s[3]))] + Decode(s[4..])
  }

  lemma Regroup(x: byte, y: byte, z: byte)
    ensures ByteX(First(x), Second(x, y)) == x
    ensures ByteY(Second(x, y), Third(y, z)) == y
    ensures ByteZ(Third(y, z), Fourth(z)) == z
  {
    assert Second(x, y) / 16 == x % 4;
    assert Second(x, y) % 16 == y / 16;
    assert Third(y, z) / 4 == y % 16;
    assert Third(y, z) % 4 == z / 64;
  }

  lemma DecodeOne(x: byte)
    ensures Decode([Letter(First(x)), Letter(Second(x, 0))]) == [x]
  {
    Regroup(x, 0, 0);
  }

  lemma DecodeTwo(x: byte, y: byte)
    ensures Decode([Letter(First(x)), Letter(Second(x, y)), Letter(Third(y, 0))]) == [x, y]
  {
    Regroup(x, y, 0);
  }

  lemma DecodeThree(x: byte, y: byte, z: byte, rest: string)
    ensures Decode([Letter(First(x)), Letter(Second(x, y)), Letter(Third(y, z)), Letter(Fourth(z))] + rest)
              == [x, y, z] + Decode(rest)
  {
    var s := [Letter(First(x)), Letter(Second(x, y)), Letter(Third(y, z)), Letter(Fourth(z))] + rest;
    assert s[4..] == rest;
    Regroup(x, y, z);
  }

  /** Decoding undoes encoding, for every byte sequence. */
  lemma {:induction false} DecodeEncode(data: seq<byte>)
    ensures Decode(Encode(data)) == data
  {
    if |data| == 0 {
    } else if |data| == 1 {
      DecodeOne(data[0]);
    } else if |data| == 2 {
      DecodeTwo(data[0], data[1]);
    } else {
      var x, y, z, rest := data[0], data[1], data[2], data[3..];
      DecodeThree(x, y, z, Encode(rest));
      DecodeEncode(rest);
      assert data == [x, y, z] + rest;
    }
  }

  lemma {:induction false} EncodeShape(data: seq<byte>)
    ensures '.' !in Encode(data)
    ensures data != [] ==> Encode(data) != ""
  {
    if |data| >= 3 {
      EncodeShape(data[3..]);
    }
  }

  // ------------------------------------------- the encoding, letter by letter

  /** The alphabet of section 5 of RFC 4648. */
  function Alphabet(v: sextet): char {
    if v < 26 then "ABCDEFGHIJKLMNOPQRSTUVWXYZ"[v]
    else if v < 52 then "abcdefghijklmnopqrstuvwxyz"[v - 26]
    else if v < 62 then "0123456789"[v - 52]
    else "-_"[v - 62]
  }

  lemma UpperCase(v: nat)
    requires v < 26
    ensures "ABCDEFGHIJKLMNOPQRSTUVWXYZ"[v] == 'A' + v as char
  {
  }

  lemma LowerCase(v: nat)
    requires v < 26
    ensures "abcdefghijklmnopqrstuvwxyz"[v] == 'a' + v as char
  {
  }

  lemma LetterIs(v: sextet)
    ensures Letter(v) == Alphabet(v)
  {
    if v < 26 {
      UpperCase(v);
    } else if v < 52 {
      LowerCase(v - 26);
    } else if v < 62 {
      assert "0123456789"[v - 52] == '0' + (v - 52) as char;
    }
  }

  /** The value of a byte's bit `j`, counted from its highest. */
  function Weight(j: nat): (w: nat)
    requires j < 8
    ensures w > 0
  {
    match j
    case 0 => 128
    case 1 => 64
    case 2 => 32
    case 3 => 16
    case 4 => 8
    case 5 => 4
    case 6 => 2
    case _ => 1
  }

  function ByteBit(x: byte, j: nat): nat
    requires j < 8
  {
    x / Weight(j) % 2
  }

  /** Bit `n` of the data, highest first; zero after its end. */
  function Bit(data: seq<byte>, n: nat): nat {
    if n / 8 < |data| then ByteBit(data[n / 8], n % 8) else 0
  }

  /** Six bits from bit `n` on, as a number. */
  function Six(data: seq<byte>, n: nat): nat {
    32 * Bit(data, n) + 16 * Bit(data, n + 1) + 8 * Bit(data, n + 2) + 4 * Bit(data, n + 3)
    + 2 * Bit(data, n + 4) + Bit(data, n + 5)
  }

  lemma HighBits(x: byte)
    ensures x / 128 == x / 128 % 2
    ensures x / 64 == 2 * (x / 128) + x / 64 % 2
    ensures x / 32 == 2 * (x / 64) + x / 32 % 2
    ensures x / 16 == 2 * (x / 32) + x / 16 % 2
  {
  }

  lemma LowBits(x: byte)
    ensures x / 8 == 2 * (x / 16) + x / 8 % 2
    ensures x / 4 == 2 * (x / 8) + x / 4 % 2
    ensures x / 2 == 2 * (x / 4) + x / 2 % 2
    ensures x == 2 * (x / 2) + x % 2
  {
  }

  /** A byte cut after its second, fourth and sixth bit: what stands before the cut. */
  lemma BeforeCut(x: byte)
    ensures x / 64 == 2 * ByteBit(x, 0) + ByteBit(x, 1)
    ensures x / 16 == 8 * ByteBit(x, 0) + 4 * ByteBit(x, 1) + 2 * ByteBit(x, 2) + ByteBit(x, 3)
    ensures x / 4 == 4 * (x / 16) + 2 * ByteBit(x, 4) + ByteBit(x, 5)
  {
    HighBits(x);
    LowBits(x);
  }

  /** And what stands after it. */
  lemma AfterCut(x: byte)
    ensures x % 4 == 2 * ByteBit(x, 6) + ByteBit(x, 7)
    ensures x % 16 == 8 * ByteBit(x, 4) + 4 * ByteBit(x, 5) + x % 4
    ensures x % 64 == 32 * ByteBit(x, 2) + 16 * ByteBit(x, 3) + x % 16
  {
    BeforeCut(x);
    Remainders(x);
    LowBits(x);
    assert ByteBit(x, 6) == x / 2 % 2 && ByteBit(x, 7) == x % 2;
    hide ByteBit;
  }

  lemma Remainders(x: byte)
    ensures x == 4 * (x / 4) + x % 4 && x == 16 * (x / 16) + x % 16 && x == 64 * (x / 64) + x % 64
  {
  }

  lemma SixFirst(data: seq<byte>)
    requires |data| >= 1
    ensures Six(data, 0) == First(data[0])
  {
    BeforeCut(data[0]);
    hide ByteBit;
  }

  lemma SixSecond(data: seq<byte>)
    requires |data| >= 1
    ensures Six(data, 6) == Second(data[0], if |data| > 1 then data[1] else 0)
  {
    AfterCut(data[0]);
    if |data| > 1 {
      BeforeCut(data[1]);
    }
    hide ByteBit;
  }

  lemma SixThird(data: seq<byte>)
    requires |data| >= 2
    ensures Six(data, 12) == Third(data[1], if |data| > 2 then data[2] else 0)
  {
    BitIs(data, 1, 4);
    BitIs(data, 1, 5);
    BitIs(data, 1, 6);
    BitIs(data, 1, 7);
    BitIs(data, 2, 0);
    BitIs(data, 2, 1);
    hide ByteBit, Bit;
    AfterCut(data[1]);
    if |data| > 2 {
      BeforeCut(data[2]);
    }
  }

  lemma BitIs(data: seq<byte>, i: nat, j: nat)
    requires j < 8
    ensures Bit(data, 8 * i + j) == if i < |data| then ByteBit(data[i], j) else 0
  {
    assert (8 * i + j) / 8 == i && (8 * i + j) % 8 == j;
    hide ByteBit;
  }

  lemma SixFourth(data: seq<byte>)
    requires |data| >= 3
    ensures Six(data, 18) == Fourth(data[2])
  {
    AfterCut(data[2]);
    hide ByteBit;
  }

  lemma SixLater(data: seq<byte>, n: nat)
    requires |data| >= 3
    ensures Six(data, n + 24) == Six(data[3..], n)
  {
    BitLater(data, n);
    BitLater(data, n + 1);
    BitLater(data, n + 2);
    BitLater(data, n + 3);
    BitLater(data, n + 4);
    BitLater(data, n + 5);
    hide Bit;
  }

  lemma BitLater(data: seq<byte>, n: nat)
    requires |data| >= 3
    ensures Bit(data, n + 24) == Bit(data[3..], n)
  {
    assert (n + 24) / 8 == n / 8 + 3 && (n + 24) % 8 == n % 8;
  }

  lemma EncodeBegins(data: seq<byte>)
    requires data != []
    ensures var e := Encode(data);
      && |e| >= 2 && e[0] == Letter(First(data[0]))
      && e[1] == Letter(Second(data[0], if |data| > 1 then data[1] else 0))
      && (|data| == 1 <==> |e| == 2) && (|data| == 2 <==> |e| == 3)
      && (|data| > 1 ==> e[2] == Letter(Third(data[1], if |data| > 2 then data[2] else 0)))
      && (|data| > 2 ==> |e| == 4 + |Encode(data[3..])| && e[3] == Letter(Fourth(data[2])) && e[4..] == Encode(data[3..]))
  {
  }

  /** The text has one letter of the alphabet for every six bits of the data begun, read
      from its highest bit on and filled up with zeros; there is no padding. */
  lemma {:induction false} EncodedLetter(data: seq<byte>, k: nat)
    ensures |Encode(data)| == (8 * |data| + 5) / 6
    ensures k < |Encode(data)| ==> Six(data, 6 * k) < 64 && Encode(data)[k] == Alphabet(Six(data, 6 * k))
  {
    hide First, Second, Third, Fourth, Letter, Alphabet, Six;
    if data != [] {
      EncodeBegins(data);
      if |data| >= 3 {
        EncodedLetter(data[3..], if k >= 4 then k - 4 else 0);
      }
      if k < |Encode(data)| {
        LetterOfGroup(data, k);
        if k < 4 {
          assert Encode(data)[k] == Letter(Six(data, 6 * k));
          LetterIs(Six(data, 6 * k));
        } else {
          SixLater(data, 6 * (k - 4));
          assert Encode(data)[k] == Encode(data)[4..][k - 4];
        }
      }
    }
  }

  /** The first four groups. */
  lemma LetterOfGroup(data: seq<byte>, k: nat)
    requires data != [] && k < |Encode(data)|
    ensures k < 4 ==> Six(data, 6 * k) < 64 && Encode(data)[k] == Letter(Six(data, 6 * k))
  {
    EncodeBegins(data);
    hide First, Second, Third, Fourth, Letter, Six, Encode;
    if k == 0 {
      SixFirst(data);
    } else if k == 1 {
      SixSecond(data);
    } else if k == 2 {
      SixThird(data);
    } else if k == 3 {
      SixFourth(data);
    }
  }

  // -------------------------------------------------------------- tokens

  function SignToken(mac: Mac, secret: seq<byte>, exp: int): string {
    var e := FormatInt(exp);
    e + "." + Encode(mac(secret, e))
  }

  /** The index of the last `c` in `s`, or -1. */
  function LastIndex(s: string, c: char): (i: int)
    ensures -1 <= i < |s|
    ensures i >= 0 ==> s[i] == c
    ensures forall j :: i < j < |s| ==> s[j] != c
  {
    if s == "" then -1
    else if s[|s| - 1] == c then |s| - 1
    else LastIndex(s[..|s| - 1], c)
  }

  predicate ValidToken(mac: Mac, secret: seq<byte>, value: string, now: int) {
    var dot := LastIndex(value, '.');
    if dot <= 0 || dot == |value| - 1 then false
    else
      var e, sig := value[..dot], value[dot + 1..];
      match ParseInt(e)
      case None => false
      case Some(exp) => sig == Encode(mac(secret, e)) && exp > now
  }

  lemma LastDot(e: string, sig: string)
    requires '.' !in sig
    ensures var value := e + "." + sig;
            LastIndex(value, '.') == |e| && value[..|e|] == e && value[|e| + 1..] == sig
  {
    var value := e + "." + sig;
    assert value[|e|] == '.';
    assert forall j :: |e| < j < |value| ==> value[j] == sig[j - |e| - 1];
  }

  /** How a token made of any text and any hash is judged. */
  lemma JudgeToken(mac: Mac, secret: seq<byte>, e: string, hash: seq<byte>, now: int)
    requires Keyed(mac)
    ensures ValidToken(mac, secret, e + "." + Encode(hash), now)
      <==> hash == mac(secret, e) && ParseInt(e).Some? && ParseInt(e).value > now
  {
    var want := mac(secret, e);
    DecodeEncode(hash);
    DecodeEncode(want);
    assert Encode(hash) == Encode(want) <==> hash == want;
    EncodeShape(hash);
    EncodeShape(want);
    LastDot(e, Encode(hash));
  }

  /** A freshly signed token is accepted exactly while it has not expired. */
  lemma SignedTokenAccepted(mac: Mac, secret: seq<byte>, exp: int, now: int)
    requires Keyed(mac) && MIN_INT64 <= exp <= MAX_INT64
    ensures ValidToken(mac, secret, SignToken(mac, secret, exp), now) <==> exp > now
  {
    var e := FormatInt(exp);
    ParseFormat(exp);
    JudgeToken(mac, secret, e, mac(secret, e), now);
  }

  /** The value is the text `e`, a dot and the encoded hash of `e`, and `e` is an
      expiry that lies ahead. */
  predicate IsTokenOf(mac: Mac, secret: seq<byte>, value: string, e: string, now: int) {
    value == e + "." + Encode(mac(secret, e)) && ParseInt(e).Some? && ParseInt(e).value > now
  }

  /** The accepted values are exactly the unexpired expiries under their own hash. */
  lemma AcceptedTokens(mac: Mac, secret: seq<byte>, value: string, now: int)
    requires Keyed(mac)
    ensures ValidToken(mac, secret, value, now) <==> exists e :: IsTokenOf(mac, secret, value, e, now)
  {
    if ValidToken(mac, secret, value, now) {
      TokenHasExpiry(mac, secret, value, now);
    }
    forall e | IsTokenOf(mac, secret, value, e, now) ensures ValidToken(mac, secret, value, now) {
      JudgeToken(mac, secret, e, mac(secret, e), now);
    }
  }

  lemma TokenHasExpiry(mac: Mac, secret: seq<byte>, value: string, now: int)
    requires ValidToken(mac, secret, value, now)
    ensures IsTokenOf(mac, secret, value, value[..LastIndex(value, '.')], now)
  {
    var dot := LastIndex(value, '.');
    CutAtDot(value, dot);
    hide LastIndex, Encode, ParseInt;
  }

  lemma CutAtDot(value: string, dot: int)
    requires 0 <= dot < |value| && value[dot] == '.'
    ensures value == value[..dot] + "." + value[dot + 1..]
  {
  }

  /** Moving a signature to another expiry, or checking it under another
      secret, works only where the two hashes collide. */
  lemma TransplantedSignature(mac: Mac, secret: seq<byte>, exp: int, secret': seq<byte>, exp': int, now: int)
    requires Keyed(mac) && MIN_INT64 <= exp' <= MAX_INT64
    ensures var sig := Encode(mac(secret, FormatInt(exp)));
            ValidToken(mac, secret', FormatInt(exp') + "." + sig, now)
            <==> exp' > now && mac(secret, FormatInt(exp)) == mac(secret', FormatInt(exp'))
  {
    ParseFormat(exp');
    JudgeToken(mac, secret', FormatInt(exp'), mac(secret, FormatInt(exp)), now);
  }
}
