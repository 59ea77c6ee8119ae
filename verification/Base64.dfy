/** Base64 with padding, as in section 4 of RFC 4648, decoded the way Go's standard encoding does:
    line breaks are ignored and the unused bits of the last group are not looked at. */
module Base64 {
  import opened Wrappers

  type Byte = b: int | 0 <= b < 256

  type Sextet = x: int | 0 <= x < 64

  function Symbol(x: Sextet): (c: char)
    ensures InAlphabet(c) && SextetOf(c) == x
  {
    if x < 26 then (x + 65) as char
    else if x < 52 then (x + 71) as char
    else if x < 62 then (x - 4) as char
    else if x == 62 then '+'
    else '/'
  }

  predicate InAlphabet(c: char) {
    'A' <= c <= 'Z' || 'a' <= c <= 'z' || '0' <= c <= '9' || c == '+' || c == '/'
  }

  function SextetOf(c: char): Sextet
    requires InAlphabet(c)
  {
    if 'A' <= c <= 'Z' then c as int - 65
    else if 'a' <= c <= 'z' then c as int - 71
    else if '0' <= c <= '9' then c as int + 4
    else if c == '+' then 62
    else 63
  }

  // ---- Three bytes as four sextets and back ----

  function Sextet1(x: Byte): Sextet {
    x / 4
  }

  function Sextet2(x: Byte, y: Byte): Sextet {
    x % 4 * 16 + y / 16
  }

  function Sextet3(y: Byte, z: Byte): Sextet {
    y % 16 * 4 + z / 64
  }

  function Sextet4(z: Byte): Sextet {
    z % 64
  }

  function First(a: Sextet, b: Sextet): Byte {
    a * 4 + b / 16
  }

  function Second(b: Sextet, c: Sextet): Byte {
    b % 16 * 16 + c / 4
  }

  function Third(c: Sextet, d: Sextet): Byte {
    c % 4 * 64 + d
  }

  lemma GroupBits(x: Byte, y: Byte, z: Byte)
    ensures First(Sextet1(x), Sextet2(x, y)) == x
    ensures Second(Sextet2(x, y), Sextet3(y, z)) == y
    ensures Third(Sextet3(y, z), Sextet4(z)) == z
  {
  }

  /** One or two bytes left over are padded. */
  function Encode(bytes: seq<Byte>): (s: string) {
    if bytes == [] then ""
    else
      var x := bytes[0];
      if |bytes| == 1 then [Symbol(Sextet1(x)), Symbol(Sextet2(x, 0)), '=', '=']
      else
        var y := bytes[1];
        if |bytes| == 2 then [Symbol(Sextet1(x)), Symbol(Sextet2(x, y)), Symbol(Sextet3(y, 0)), '=']
        else
          var z := bytes[2];
          [Symbol(Sextet1(x)), Symbol(Sextet2(x, y)), Symbol(Sextet3(y, z)), Symbol(Sextet4(z))] + Encode(bytes[3..])
  }

  predicate LineBreak(c: char) {
    c == '\r' || c == '\n'
  }

  function Unbroken(s: string): string {
    if s == "" then ""
    else if LineBreak(s[0]) then Unbroken(s[1..])
    else [s[0]] + Unbroken(s[1..])
  }

  function DecodeGroups(s: string): Option<seq<Byte>> {
    if s == "" then Some([])
    else if |s| < 4 || !InAlphabet(s[0]) || !InAlphabet(s[1]) then None
    else
      var a, b := SextetOf(s[0]), SextetOf(s[1]);
      if s[2..] == "==" then Some([First(a, b)])
      else if !InAlphabet(s[2]) then None
      else
        var c := SextetOf(s[2]);
        if s[3..] == "=" then Some([First(a, b), Second(b, c)])
        else if !InAlphabet(s[3]) then None
        else
          match DecodeGroups(s[4..])
          case None => None
          case Some(rest) => Some([First(a, b), Second(b, c), Third(c, SextetOf(s[3]))] + rest)
  }

  function Decode(s: string): Option<seq<Byte>> {
    DecodeGroups(Unbroken(s))
  }

  lemma {:induction false} UnbrokenKeeps(s: string)
    requires forall c | c in s :: InAlphabet(c) || c == '='
    ensures Unbroken(s) == s
  {
    if s != "" {
      assert s[0] in s;
      UnbrokenKeeps(s[1..]);
    }
  }

  lemma {:induction false} EncodedSymbols(bytes: seq<Byte>)
    ensures forall c | c in Encode(bytes) :: InAlphabet(c) || c == '='
    ensures |Encode(bytes)| == (|bytes| + 2) / 3 * 4
  {
    if |bytes| >= 3 {
      EncodedSymbols(bytes[3..]);
    }
  }

  lemma FullGroup(a: Sextet, b: Sextet, c: Sextet, d: Sextet, rest: string, bytes: seq<Byte>)
    requires DecodeGroups(rest) == Some(bytes)
    ensures DecodeGroups([Symbol(a), Symbol(b), Symbol(c), Symbol(d)] + rest)
            == Some([First(a, b), Second(b, c), Third(c, d)] + bytes)
  {
    var s := [Symbol(a), Symbol(b), Symbol(c), Symbol(d)] + rest;
    assert s[4..] == rest;
    assert s[2..][0] == Symbol(c) != '=' && s[3..][0] == Symbol(d) != '=';
  }

  lemma LastGroup(a: Sextet, b: Sextet, c: Sextet)
    ensures DecodeGroups([Symbol(a), Symbol(b), '=', '=']) == Some([First(a, b)])
    ensures DecodeGroups([Symbol(a), Symbol(b), Symbol(c), '=']) == Some([First(a, b), Second(b, c)])
  {
    var s, t := [Symbol(a), Symbol(b), '=', '='], [Symbol(a), Symbol(b), Symbol(c), '='];
    assert s[2..] == "==";
    assert t[2..][0] == Symbol(c) != '=' && t[3..] == "=";
  }

  lemma {:induction false} GroupsRoundTrip(bytes: seq<Byte>)
    ensures DecodeGroups(Encode(bytes)) == Some(bytes)
  {
    hide DecodeGroups, First, Second, Third, Sextet1, Sextet2, Sextet3, Sextet4, Symbol;
    if bytes == [] {
      NoGroups();
    } else {
      var x, y, z := bytes[0], if |bytes| > 1 then bytes[1] else 0, if |bytes| > 2 then bytes[2] else 0;
      GroupBits(x, y, z);
      if |bytes| <= 2 {
        LastGroup(Sextet1(x), Sextet2(x, y), Sextet3(y, 0));
        assert bytes == if |bytes| == 1 then [x] else [x, y];
      } else {
        GroupsRoundTrip(bytes[3..]);
        FullGroup(Sextet1(x), Sextet2(x, y), Sextet3(y, z), Sextet4(z), Encode(bytes[3..]), bytes[3..]);
        assert bytes == [x, y, z] + bytes[3..];
      }
    }
  }

  lemma NoGroups()
    ensures DecodeGroups("") == Some([])
  {
  }

  /** Decoding undoes encoding, wherever line breaks have been added since. */
  lemma RoundTrip(bytes: seq<Byte>, stored: string)
    requires Unbroken(stored) == Encode(bytes)
    ensures Decode(stored) == Some(bytes)
  {
    GroupsRoundTrip(bytes);
  }

  lemma EncodedIsUnbroken(bytes: seq<Byte>)
    ensures Unbroken(Encode(bytes)) == Encode(bytes)
  {
    EncodedSymbols(bytes);
    assert forall c | c in Encode(bytes) :: InAlphabet(c) || c == '=';
    UnbrokenKeeps(Encode(bytes));
  }

  const UPPER := "ABCDEFGHIJKLMNOPQRSTUVWXYZ"
  const LOWER := "abcdefghijklmnopqrstuvwxyz"
  const DIGITS := "0123456789"
  const ALPHABET := UPPER + LOWER + DIGITS + "+/"

  /** The symbols are those of Table 1 of RFC 4648, in its order. */
  lemma SymbolsAreTheTable(x: Sextet)
    ensures |ALPHABET| == 64 && Symbol(x) == ALPHABET[x]
  {
    assert forall i | 0 <= i < 26 :: UPPER[i] == (i + 65) as char;
    assert forall i | 0 <= i < 26 :: LOWER[i] == (i + 97) as char;
    assert forall i | 0 <= i < 10 :: DIGITS[i] == (i + 48) as char;
    if x < 26 {
      assert ALPHABET[x] == UPPER[x];
    } else if x < 52 {
      assert ALPHABET[x] == LOWER[x - 26];
    } else if x < 62 {
      assert ALPHABET[x] == DIGITS[x - 52];
    }
  }

  /** The examples of section 10 of RFC 4648: "f", "fo", "foo" and "foobar". */
  lemma KnownEncodings()
    ensures Encode([102]) == "Zg==" && Encode([102, 111]) == "Zm8=" && Encode([102, 111, 111]) == "Zm9v"
    ensures Encode([102, 111, 111, 98, 97, 114]) == "Zm9vYmFy"
  {
    assert [102 as Byte, 111, 111, 98, 97, 114][3..] == [98, 97, 114];
    assert Encode([]) == "";
  }
}
