/**
 The connection code a person carries to another machine (slipwright/workers.py): an address
 and a secret as bytes, the bytes as one big number, the number in base 32.

 An address is taken as parsed already; the check byte is any function of the bytes before it.
 */
module Codes {
  import opened Wrappers

  type Byte = b: nat | b < 256

  type Bytes = seq<Byte>

  /** A digit in base 32. */
  type Digit = d: nat | d < 32

  datatype Result<T> = Ok(value: T) | Err(error: Problem)

  datatype Problem = NotACode | NoSuchCharacter(c: char) | Incomplete | DoesNotAddUp | NoAddress | AddressUnreadable

  // -- numbers --------------------------------------------------------------------------

  function FromBytes(bs: Bytes): nat
  {
    if bs == [] then 0 else 256 * FromBytes(bs[..|bs| - 1]) + bs[|bs| - 1]
  }

  function ToBytes(n: nat, length: nat): (bs: Bytes)
    ensures |bs| == length
  {
    if length == 0 then [] else ToBytes(n / 256, length - 1) + [n % 256]
  }

  function BitLength(n: nat): nat
  {
    if n == 0 then 0 else 1 + BitLength(n / 2)
  }

  /** How many bytes a number is written in: at least one. */
  function ByteLength(n: nat): nat
  {
    var bytes := (BitLength(n) + 7) / 8;
    if bytes < 1 then 1 else bytes
  }

  lemma {:induction false} BitLengthOfByte(b: nat)
    requires 0 < b < 256
    ensures 1 <= BitLength(b) <= 8
  {
    assert b / 2 / 2 / 2 / 2 / 2 / 2 / 2 / 2 == 0;
    Halves(b, 4);
    Halves(b / 2 / 2 / 2 / 2, 4);
  }

  lemma {:induction false} Halves(n: nat, k: nat)
    requires k == 4
    ensures BitLength(n) <= 4 + BitLength(n / 2 / 2 / 2 / 2)
    ensures 8 <= n ==> BitLength(n) == 4 + BitLength(n / 2 / 2 / 2 / 2)
  {
    assert BitLength(n / 2) == if n / 2 == 0 then 0 else 1 + BitLength(n / 2 / 2);
    assert BitLength(n / 2 / 2) == if n / 2 / 2 == 0 then 0 else 1 + BitLength(n / 2 / 2 / 2);
    assert BitLength(n / 2 / 2 / 2) == if n / 2 / 2 / 2 == 0 then 0 else 1 + BitLength(n / 2 / 2 / 2 / 2);
  }

  /** A byte more on the right is eight bits more. */
  lemma {:induction false} OneByteMore(n: nat, b: Byte)
    requires 0 < n
    ensures BitLength(256 * n + b) == 8 + BitLength(n)
  {
    var m := 256 * n + b;
    Halves(m, 4);
    var q := m / 2 / 2 / 2 / 2;
    assert q == 16 * n + b / 16;
    Halves(q, 4);
    assert q / 2 / 2 / 2 / 2 == n;
  }

  lemma {:induction false} BytesRoundTrip(bs: Bytes)
    ensures ToBytes(FromBytes(bs), |bs|) == bs
  {
    if bs != [] {
      var rest, last := bs[..|bs| - 1], bs[|bs| - 1];
      BytesRoundTrip(rest);
      assert (256 * FromBytes(rest) + last) / 256 == FromBytes(rest);
      assert bs == rest + [last];
    }
  }

  lemma {:induction false} NumberRoundTrip(n: nat, length: nat)
    requires BitLength(n) <= 8 * length
    ensures FromBytes(ToBytes(n, length)) == n
  {
    if length == 0 {
      assert n == 0;
    } else {
      if 256 <= n {
        OneByteMore(n / 256, n % 256);
      } else {
        assert n / 256 == 0;
      }
      NumberRoundTrip(n / 256, length - 1);
      var bs := ToBytes(n, length);
      assert bs[..|bs| - 1] == ToBytes(n / 256, length - 1);
    }
  }

  /** No byte is lost as long as the first one is not zero. */
  lemma {:induction false} LengthKept(bs: Bytes)
    requires bs != [] && bs[0] != 0
    ensures 0 < FromBytes(bs) && ByteLength(FromBytes(bs)) == |bs|
    ensures 8 * |bs| - 7 <= BitLength(FromBytes(bs)) <= 8 * |bs|
  {
    var rest, last := bs[..|bs| - 1], bs[|bs| - 1];
    if rest == [] {
      assert FromBytes(rest) == 0;
      BitLengthOfByte(last);
    } else {
      LengthKept(rest);
      OneByteMore(FromBytes(rest), last);
    }
  }

  // -- base 32 --------------------------------------------------------------------------

  const ALPHABET := "0123456789ABCDEFGHJKMNPQRSTVWXYZ"

  const PREFIX := "SW"

  function Digits(n: nat): seq<Digit>
  {
    if n == 0 then [] else Digits(n / 32) + [n % 32]
  }

  function FromDigits(ds: seq<Digit>): nat
  {
    if ds == [] then 0 else 32 * FromDigits(ds[..|ds| - 1]) + ds[|ds| - 1]
  }

  lemma {:induction false} DigitsRoundTrip(n: nat)
    ensures FromDigits(Digits(n)) == n
  {
    if n != 0 {
      DigitsRoundTrip(n / 32);
      var ds := Digits(n);
      assert ds[..|ds| - 1] == Digits(n / 32);
    }
  }

  function Text(ds: seq<Digit>): (s: string)
    ensures |s| == |ds|
  {
    seq(|ds|, i requires 0 <= i < |ds| => ALPHABET[ds[i]])
  }

  /** Where a character stands in the alphabet: 32 when it does not. */
  function IndexOf(c: char): (d: nat)
    ensures d <= 32 && (d < 32 ==> ALPHABET[d] == c)
    ensures d == 32 ==> c !in ALPHABET
  {
    IndexFrom(c, 0)
  }

  function IndexFrom(c: char, i: nat): (d: nat)
    requires i <= 32
    ensures i <= d <= 32 && (d < 32 ==> ALPHABET[d] == c)
    ensures forall k: nat :: i <= k < d && k < 32 ==> ALPHABET[k] != c
    decreases 32 - i
  {
    if i == 32 || ALPHABET[i] == c then i else IndexFrom(c, i + 1)
  }

  lemma {:induction false} IndexOfDigit(d: nat)
    requires d < 32
    ensures IndexOf(ALPHABET[d]) == d
  {
    var e := IndexOf(ALPHABET[d]);
    AlphabetOnce(d, e);
  }

  /** The alphabet's characters ascend, so none stands in it twice. */
  lemma {:induction false} AlphabetAscends(d: nat, e: nat)
    requires d < e < 32
    ensures ALPHABET[d] < ALPHABET[e]
  {
    if d + 1 < e {
      AlphabetAscends(d, e - 1);
    }
    NextInAlphabet(e);
  }

  lemma {:induction false} NextInAlphabet(e: nat)
    requires 1 <= e < 32
    ensures ALPHABET[e - 1] < ALPHABET[e]
  {
  }

  lemma {:induction false} AlphabetOnce(d: nat, e: nat)
    requires d < 32 && e < 32 && ALPHABET[d] == ALPHABET[e]
    ensures d == e
  {
    if d < e {
      AlphabetAscends(d, e);
    } else if e < d {
      AlphabetAscends(e, d);
    }
  }

  /** The digits of a text, up to its first character that is none. */
  function Read(text: string): Result<seq<Digit>>
  {
    if text == [] then Ok([])
    else
      match Read(text[..|text| - 1])
      case Err(e) => Err(e)
      case Ok(ds) => if IndexOf(text[|text| - 1]) < 32 then Ok(ds + [IndexOf(text[|text| - 1])]) else Err(NoSuchCharacter(text[|text| - 1]))
  }

  lemma {:induction false} ReadText(ds: seq<Digit>)
    ensures Read(Text(ds)) == Ok(ds)
  {
    if ds != [] {
      var rest, last := ds[..|ds| - 1], ds[|ds| - 1];
      ReadText(rest);
      IndexOfDigit(last);
      assert Text(ds)[..|ds| - 1] == Text(rest);
      assert ds == rest + [last];
    }
  }

  // -- what is written on it ------------------------------------------------------------

  /** Groups of four, a dash between them. */
  function Grouped(text: string): string
  {
    if |text| <= 4 then text else text[..4] + "-" + Grouped(text[4..])
  }

  function Upper(c: char): char
  {
    if 'a' <= c <= 'z' then (c as int - 'a' as int + 'A' as int) as char else c
  }

  function Lookalike(c: char): char
  {
    if c == 'O' then '0' else if c == 'I' || c == 'L' then '1' else c
  }

  predicate Separator(c: char)
  {
    c == '-' || c == ' '
  }

  function Without(code: string): string
  {
    if code == [] then []
    else Without(code[..|code| - 1]) + if Separator(code[|code| - 1]) then [] else [code[|code| - 1]]
  }

  function Mapped(code: string): (s: string)
    ensures |s| == |code|
  {
    seq(|code|, i requires 0 <= i < |code| => Lookalike(Upper(code[i])))
  }

  /** What a code comes to however it was typed. */
  function Normal(code: string): string
  {
    Without(Mapped(code))
  }

  lemma {:induction false} WithoutJoin(a: string, b: string)
    ensures Without(a + b) == Without(a) + Without(b)
  {
    if b == [] {
      assert a + b == a;
    } else {
      var rest := b[..|b| - 1];
      WithoutJoin(a, rest);
      assert (a + b)[..|a + b| - 1] == a + rest;
    }
  }

  lemma {:induction false} MappedJoin(a: string, b: string)
    ensures Mapped(a + b) == Mapped(a) + Mapped(b)
  {
  }

  lemma {:induction false} NormalJoin(a: string, b: string)
    ensures Normal(a + b) == Normal(a) + Normal(b)
  {
    MappedJoin(a, b);
    WithoutJoin(Mapped(a), Mapped(b));
  }

  /** A character a code is printed with. */
  predicate Printed(c: char)
  {
    c in ALPHABET || c in PREFIX
  }

  lemma {:induction false} PrintedStays(c: char)
    requires Printed(c)
    ensures Lookalike(Upper(c)) == c && !Separator(c)
  {
    PrintedIs(c);
  }

  /** Digits and capitals, but for the three that look like others. */
  lemma {:induction false} PrintedIs(c: char)
    requires Printed(c)
    ensures '0' <= c <= '9' || ('A' <= c <= 'Z' && c != 'O' && c != 'I' && c != 'L')
  {
    if c in ALPHABET {
      var d: nat :| d < |ALPHABET| && ALPHABET[d] == c;
      if d < 8 {
      } else if d < 16 {
      } else if d < 24 {
      }
    }
  }

  lemma {:induction false} NormalPrinted(text: string)
    requires forall c :: c in text ==> Printed(c)
    ensures Normal(text) == text
  {
    if text != [] {
      var rest, last := text[..|text| - 1], text[|text| - 1];
      assert text == rest + [last];
      assert last in text;
      NormalPrinted(rest);
      NormalJoin(rest, [last]);
      PrintedStays(last);
      assert Mapped([last]) == [last];
      assert Without([last]) == [last];
    }
  }

  lemma {:induction false} NormalDash()
    ensures Normal("-") == ""
  {
    assert Mapped("-") == "-";
  }

  lemma {:induction false} NormalGrouped(text: string)
    requires forall c :: c in text ==> Printed(c)
    ensures Normal(Grouped(text)) == text
  {
    if |text| <= 4 {
      NormalPrinted(text);
    } else {
      var first, rest := text[..4], text[4..];
      NormalPrinted(first);
      NormalGrouped(rest);
      NormalDash();
      NormalJoin(first, "-");
      NormalJoin(first + "-", Grouped(rest));
      assert text == first + rest;
    }
  }

  /** White space around a code is nobody's business. */
  predicate Blank(c: char)
  {
    c in " \t\n\r"
  }

  function Stripped(code: string): string
  {
    if code != [] && Blank(code[0]) then Stripped(code[1..])
    else if code != [] && Blank(code[|code| - 1]) then Stripped(code[..|code| - 1])
    else code
  }

  /** Where no other white space is, the blanks around a code are the separators they are anywhere. */
  lemma {:induction false} StrippedNormal(code: string)
    requires forall c :: c in code && Blank(c) ==> c == ' '
    ensures Normal(Stripped(code)) == Normal(code)
    ensures forall c :: c in Stripped(code) ==> c in code
    decreases |code|
  {
    assert Mapped(" ") == " " && Normal(" ") == "";
    if code != [] && Blank(code[0]) {
      StrippedNormal(code[1..]);
      assert code == " " + code[1..];
      NormalJoin(" ", code[1..]);
    } else if code != [] && Blank(code[|code| - 1]) {
      StrippedNormal(code[..|code| - 1]);
      assert code == code[..|code| - 1] + " ";
      NormalJoin(code[..|code| - 1], " ");
    }
  }

  // -- the address ----------------------------------------------------------------------

  /** An address as it was parsed; text is bytes, and a path's end has no slash any more. */
  datatype Address =
    | V4(secure: bool, ip: Bytes, port: nat)
    | Nearby(port: nat)
    | Relay(secure: bool, host: Bytes, room: Bytes)
    | Url(text: Bytes)

  /** The addresses a code can carry: a host's length is one byte, a port's number two. */
  predicate Representable(a: Address)
  {
    match a
    case V4(_, ip, port) => |ip| == 4 && port < 0x10000
    case Nearby(port) => port < 0x10000
    case Relay(_, host, room) => 0 < |host| < 256 && |room| == 16
    case Url(_) => true
  }

  /** `_pack_address`. */
  function PackAddress(a: Address): Bytes
    requires Representable(a)
  {
    match a
    case V4(secure, ip, port) => [if secure then 2 else 1] + ip + ToBytes(port, 2)
    case Nearby(port) => [4] + ToBytes(port, 2)
    case Relay(secure, host, room) => [if secure then 5 else 6, |host|] + host + room
    case Url(text) => [3] + text
  }

  /** `_unpack_address`. */
  function UnpackAddress(packed: Bytes): Result<Address>
  {
    if packed == [] then Err(NoAddress)
    else
      var kind, rest := packed[0], packed[1..];
      if (kind == 1 || kind == 2) && |rest| == 6 then Ok(V4(kind == 2, rest[..4], FromBytes(rest[4..])))
      else if kind == 3 then Ok(Url(rest))
      else if kind == 4 && |rest| == 2 then Ok(Nearby(FromBytes(rest)))
      else if (kind == 5 || kind == 6) && rest != [] && |rest| == HostEnd(rest) + 16
      then Ok(Relay(kind == 5, rest[1..HostEnd(rest)], rest[HostEnd(rest)..]))
      else Err(AddressUnreadable)
  }

  /** Where the host after its length byte ends. */
  function HostEnd(rest: Bytes): (n: nat)
    requires rest != []
    ensures 1 <= n
  {
    var length: nat := rest[0];
    1 + length
  }

  lemma {:induction false} PortRoundTrip(port: nat)
    requires port < 0x10000
    ensures FromBytes(ToBytes(port, 2)) == port
  {
    var bs := ToBytes(port, 2);
    assert bs == [port / 256 % 256, port % 256] by {
      assert ToBytes(port / 256, 1) == ToBytes(port / 256 / 256, 0) + [port / 256 % 256];
    }
    assert bs[..1] == [port / 256] && bs[..1][..0] == [];
    assert FromBytes(bs[..1]) == port / 256;
  }

  lemma {:induction false} AddressRoundTrip(a: Address)
    requires Representable(a)
    ensures UnpackAddress(PackAddress(a)) == Ok(a)
  {
    var packed := PackAddress(a);
    match a
    case V4(secure, ip, port) =>
      PortRoundTrip(port);
      assert packed[1..][..4] == ip && packed[1..][4..] == ToBytes(port, 2);
    case Nearby(port) =>
      PortRoundTrip(port);
      assert packed[1..] == ToBytes(port, 2);
    case Relay(_, host, room) =>
      var rest := packed[1..];
      assert rest == [|host|] + host + room;
      assert rest[1..1 + |host|] == host && rest[1 + |host|..] == room;
    case Url(text) => assert packed[1..] == text;
  }

  /** Nothing but an address's own bytes unpack to it. */
  lemma {:induction false} AddressFromItsBytes(packed: Bytes, a: Address)
    requires UnpackAddress(packed) == Ok(a)
    ensures (a.Relay? ==> a.host != []) ==> Representable(a) && PackAddress(a) == packed
  {
    var kind, rest := packed[0], packed[1..];
    assert packed == [kind] + rest;
    match a
    case V4(_, ip, port) =>
      BytesRoundTrip(rest[4..]);
      TwoBytes(rest[4..]);
      assert rest == ip + rest[4..];
    case Nearby(port) =>
      BytesRoundTrip(rest);
      TwoBytes(rest);
    case Relay(_, host, room) => assert rest == [rest[0]] + host + room;
    case Url(_) =>
  }

  lemma {:induction false} TwoBytes(bs: Bytes)
    requires |bs| == 2
    ensures FromBytes(bs) < 0x10000
  {
    assert bs[..1][..0] == [];
    assert FromBytes(bs[..1]) == bs[0];
  }

  // -- the code -------------------------------------------------------------------------

  const VERSION: Byte := 1

  const SECRET_BYTES := 10

  /** The check byte of the bytes before it. */
  type Check = Bytes -> Byte

  function Payload(check: Check, a: Address, secret: Bytes): Bytes
    requires Representable(a)
  {
    var body := [VERSION] + PackAddress(a) + secret;
    body + [check(body)]
  }

  /** `pack`, as one expression. */
  function Code(check: Check, a: Address, secret: Bytes): string
    requires Representable(a)
  {
    PREFIX + "-" + Grouped(Text(Digits(FromBytes(Payload(check, a, secret)))))
  }

  /** The number a code stands for. */
  function Number(code: string): Result<nat>
  {
    var text := Normal(Stripped(code));
    if !(PREFIX <= text) then Err(NotACode)
    else
      match Read(text[|PREFIX|..])
      case Err(e) => Err(e)
      case Ok(ds) => Ok(FromDigits(ds))
  }

  /** What a payload carries, if it adds up. */
  function Opened(check: Check, payload: Bytes): Result<(Address, Bytes)>
  {
    if |payload| < 2 + SECRET_BYTES + 1 || payload[0] != VERSION then Err(Incomplete)
    else
      var body := payload[..|payload| - 1];
      if check(body) != payload[|payload| - 1] then Err(DoesNotAddUp)
      else
        match UnpackAddress(body[1..|body| - SECRET_BYTES])
        case Err(e) => Err(e)
        case Ok(a) => Ok((a, body[|body| - SECRET_BYTES..]))
  }

  /** `unpack`, as one expression. */
  function Uncoded(check: Check, code: string): Result<(Address, Bytes)>
  {
    match Number(code)
    case Err(e) => Err(e)
    case Ok(n) => Opened(check, ToBytes(n, ByteLength(n)))
  }

  lemma {:induction false} OpenedPayload(check: Check, a: Address, secret: Bytes)
    requires Representable(a) && |secret| == SECRET_BYTES
    ensures Opened(check, Payload(check, a, secret)) == Ok((a, secret))
  {
    var payload := Payload(check, a, secret);
    var body := payload[..|payload| - 1];
    assert body == [VERSION] + PackAddress(a) + secret;
    assert body[1..|body| - SECRET_BYTES] == PackAddress(a);
    assert body[|body| - SECRET_BYTES..] == secret;
    AddressRoundTrip(a);
  }

  lemma {:induction false} NumberOfCode(check: Check, a: Address, secret: Bytes)
    requires Representable(a)
    ensures Number(Code(check, a, secret)) == Ok(FromBytes(Payload(check, a, secret)))
  {
    var n := FromBytes(Payload(check, a, secret));
    var text := Text(Digits(n));
    var code := Code(check, a, secret);
    GroupedPrinted(text);
    CodeHasNoBlanks(code, text);
    StrippedNormal(code);
    NormalPrinted(PREFIX);
    NormalDash();
    NormalGrouped(text);
    NormalJoin(PREFIX, "-");
    NormalJoin(PREFIX + "-", Grouped(text));
    assert Normal(code) == PREFIX + text;
    assert (PREFIX + text)[|PREFIX|..] == text;
    ReadText(Digits(n));
    DigitsRoundTrip(n);
  }

  lemma {:induction false} GroupedPrinted(text: string)
    requires forall c :: c in text ==> c in ALPHABET
    ensures forall c :: c in Grouped(text) ==> c in ALPHABET || c == '-'
  {
    if 4 < |text| {
      GroupedPrinted(text[4..]);
    }
  }

  lemma {:induction false} CodeHasNoBlanks(code: string, text: string)
    requires code == PREFIX + "-" + Grouped(text) && forall c :: c in Grouped(text) ==> c in ALPHABET || c == '-'
    ensures forall c :: c in code && Blank(c) ==> c == ' '
  {
    forall c | c in code ensures !Blank(c) {
      assert c in PREFIX || c == '-' || c in Grouped(text);
    }
  }

  /** A code reads back as what was packed into it, whatever the secret and the address. */
  lemma {:induction false} CodeRoundTrip(check: Check, a: Address, secret: Bytes)
    requires Representable(a) && |secret| == SECRET_BYTES
    ensures Uncoded(check, Code(check, a, secret)) == Ok((a, secret))
  {
    var payload := Payload(check, a, secret);
    NumberOfCode(check, a, secret);
    LengthKept(payload);
    BytesRoundTrip(payload);
    OpenedPayload(check, a, secret);
  }

  /** And nothing else reads as that: a text that does stands for the same number. */
  lemma {:induction false} OnlyThatNumber(check: Check, code: string, a: Address, secret: Bytes)
    requires Uncoded(check, code) == Ok((a, secret)) && (a.Relay? ==> a.host != [])
    ensures Representable(a) && |secret| == SECRET_BYTES && Number(code) == Number(Code(check, a, secret))
  {
    var n := Number(code).value;
    OpenedIsPayload(check, ToBytes(n, ByteLength(n)), a, secret);
    NumberRoundTrip(n, ByteLength(n));
    NumberOfCode(check, a, secret);
  }

  lemma {:induction false} OpenedIsPayload(check: Check, payload: Bytes, a: Address, secret: Bytes)
    requires Opened(check, payload) == Ok((a, secret)) && (a.Relay? ==> a.host != [])
    ensures Representable(a) && |secret| == SECRET_BYTES && Payload(check, a, secret) == payload
  {
    var body := payload[..|payload| - 1];
    var packed := body[1..|body| - SECRET_BYTES];
    AddressFromItsBytes(packed, a);
    Parts(body);
    assert payload == body + [payload[|payload| - 1]];
  }

  lemma {:induction false} Parts(body: Bytes)
    requires 1 + SECRET_BYTES <= |body|
    ensures body == [body[0]] + body[1..|body| - SECRET_BYTES] + body[|body| - SECRET_BYTES..]
  {
  }

  // -- typed by hand --------------------------------------------------------------------

  /** How a printed character may be typed: in either case, and O, I or L for what looks like it. */
  predicate Alike(printed: char, typed: char)
  {
    Cased(printed, typed) || (printed == '0' && Cased('O', typed)) || (printed == '1' && (Cased('I', typed) || Cased('L', typed)))
  }

  /** The character itself, or the small letter of a capital. */
  predicate Cased(printed: char, typed: char)
  {
    typed == printed || ('A' <= printed <= 'Z' && typed as int == printed as int + 32)
  }

  /** `typed` is `printed` with dashes and spaces put in or left out anywhere, and its
      characters typed any way they may be. */
  predicate TypedAs(printed: string, typed: string)
  {
    if printed != [] && Separator(printed[|printed| - 1]) then TypedAs(printed[..|printed| - 1], typed)
    else if typed != [] && Separator(typed[|typed| - 1]) then TypedAs(printed, typed[..|typed| - 1])
    else if printed == [] || typed == [] then printed == typed
    else Alike(printed[|printed| - 1], typed[|typed| - 1]) && TypedAs(printed[..|printed| - 1], typed[..|typed| - 1])
  }

  lemma {:induction false} NormalOne(s: string)
    requires s != []
    ensures Normal(s) == Normal(s[..|s| - 1]) + Normal([s[|s| - 1]])
    ensures Separator(s[|s| - 1]) ==> Normal([s[|s| - 1]]) == []
  {
    assert s == s[..|s| - 1] + [s[|s| - 1]];
    NormalJoin(s[..|s| - 1], [s[|s| - 1]]);
    var last := s[|s| - 1];
    assert Mapped([last]) == [Lookalike(Upper(last))];
    if Separator(last) {
      assert Lookalike(Upper(last)) == last;
      assert Mapped([last]) == [last] && [last][..|[last]| - 1] == [];
      assert Without([last]) == Without([]);
    }
  }

  lemma {:induction false} TypedNormal(printed: string, typed: string)
    requires TypedAs(printed, typed) && forall c :: c in printed ==> Printed(c) || Separator(c)
    ensures Normal(typed) == Normal(printed)
    decreases |printed| + |typed|
  {
    if printed != [] && Separator(printed[|printed| - 1]) {
      NormalOne(printed);
      TypedNormal(printed[..|printed| - 1], typed);
    } else if typed != [] && Separator(typed[|typed| - 1]) {
      NormalOne(typed);
      TypedNormal(printed, typed[..|typed| - 1]);
    } else if printed != [] {
      NormalOne(printed);
      NormalOne(typed);
      TypedNormal(printed[..|printed| - 1], typed[..|typed| - 1]);
      AlikeNormal(printed[|printed| - 1], typed[|typed| - 1]);
    }
  }

  lemma {:induction false} AlikeNormal(printed: char, typed: char)
    requires Printed(printed) && Alike(printed, typed)
    ensures Normal([typed]) == Normal([printed])
  {
    PrintedStays(printed);
    assert Mapped([typed]) == [Lookalike(Upper(typed))] && Mapped([printed]) == [printed];
    assert printed != 'O' && printed != 'I' && printed != 'L';
  }

  /** However a printed code is typed, it reads back the same. */
  lemma {:induction false} TypedReadsTheSame(check: Check, a: Address, secret: Bytes, typed: string)
    requires Representable(a) && |secret| == SECRET_BYTES && TypedAs(Code(check, a, secret), typed)
    requires forall c :: c in typed && Blank(c) ==> c == ' '
    ensures Uncoded(check, typed) == Ok((a, secret))
  {
    var code := Code(check, a, secret);
    var text := Text(Digits(FromBytes(Payload(check, a, secret))));
    GroupedPrinted(text);
    CodeHasNoBlanks(code, text);
    CodePrinted(code, text);
    TypedNormal(code, typed);
    StrippedNormal(code);
    StrippedNormal(typed);
    CodeRoundTrip(check, a, secret);
  }

  lemma {:induction false} CodePrinted(code: string, text: string)
    requires code == PREFIX + "-" + Grouped(text) && forall c :: c in Grouped(text) ==> c in ALPHABET || c == '-'
    ensures forall c :: c in code ==> Printed(c) || Separator(c)
  {
    forall c | c in code ensures Printed(c) || Separator(c) {
      assert c in PREFIX || c == '-' || c in Grouped(text);
    }
  }

  // -- the loops ------------------------------------------------------------------------

  /** `pack`: the digits come off the number one by one, the last first. */
  method Pack(check: Check, a: Address, secret: Bytes) returns (code: string)
    requires Representable(a)
    ensures code == Code(check, a, secret)
  {
    var body := [VERSION] + PackAddress(a) + secret;
    var chars := DigitsOf(FromBytes(body + [check(body)]));
    code := PREFIX + "-" + Grouped(Text(chars));
  }

  method DigitsOf(number: nat) returns (chars: seq<Digit>)
    ensures chars == Digits(number)
  {
    chars := [];
    var left := number;
    while 0 < left
      invariant Digits(number) == Digits(left) + chars
    {
      chars := [left % 32] + chars;
      left := left / 32;
    }
  }

  /** `unpack`: the digits are put together again, up to one that is none. */
  method Unpack(check: Check, code: string) returns (read: Result<(Address, Bytes)>)
    ensures read == Uncoded(check, code)
  {
    var text := Normal(Stripped(code));
    if !(PREFIX <= text) {
      return Err(NotACode);
    }
    text := text[|PREFIX|..];
    var number, i := 0, 0;
    while i < |text|
      invariant i <= |text| && Read(text[..i]).Ok? && number == FromDigits(Read(text[..i]).value)
    {
      var digit := IndexOf(text[i]);
      ReadOne(text, i);
      if digit == 32 {
        ReadStops(text, i + 1);
        return Err(NoSuchCharacter(text[i]));
      }
      number := 32 * number + digit;
      i := i + 1;
    }
    assert text[..|text|] == text;
    return Opened(check, ToBytes(number, ByteLength(number)));
  }

  lemma {:induction false} ReadOne(text: string, i: nat)
    requires i < |text| && Read(text[..i]).Ok?
    ensures var ds := Read(text[..i]).value;
      if IndexOf(text[i]) == 32 then Read(text[..i + 1]) == Err(NoSuchCharacter(text[i]))
      else Read(text[..i + 1]).Ok? && FromDigits(Read(text[..i + 1]).value) == 32 * FromDigits(ds) + IndexOf(text[i])
  {
    assert text[..i + 1][..i] == text[..i];
    var ds := Read(text[..i]).value;
    if IndexOf(text[i]) < 32 {
      assert (ds + [IndexOf(text[i])])[..|ds|] == ds;
    }
  }

  lemma {:induction false} ReadStops(text: string, i: nat)
    requires i <= |text| && Read(text[..i]).Err?
    ensures Read(text) == Err(Read(text[..i]).error)
    decreases |text| - i
  {
    if i < |text| {
      assert text[..i + 1][..i] == text[..i];
      ReadStops(text, i + 1);
    } else {
      assert text[..i] == text;
    }
  }
}
