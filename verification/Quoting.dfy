/** JSON strings (section 7 of RFC 8259): `json.dumps` as a printer of ASCII, and a reader for what it prints. */
module Quoting {
  import opened Basics

  function Digit(n: nat): char
    requires n < 16
  {
    if n < 10 then ('0' as int + n) as char else ('a' as int + n - 10) as char
  }

  function DigitValue(c: char): Option<nat>
  {
    if '0' <= c <= '9' then Some(c as int - '0' as int)
    else if 'a' <= c <= 'f' then Some(c as int - 'a' as int + 10)
    else if 'A' <= c <= 'F' then Some(c as int - 'A' as int + 10)
    else None
  }

  function Hex4(n: nat): (r: string)
    requires n < 0x1_0000
    ensures |r| == 4
  {
    [Digit(n / 16 / 16 / 16), Digit(n / 16 / 16 % 16), Digit(n / 16 % 16), Digit(n % 16)]
  }

  function FourDigits(t: string): Option<nat>
    requires |t| >= 4
  {
    var (a, b, c, d) := (DigitValue(t[0]), DigitValue(t[1]), DigitValue(t[2]), DigitValue(t[3]));
    if a.Some? && b.Some? && c.Some? && d.Some?
    then Some(0x1000 * a.value + 0x100 * b.value + 16 * c.value + d.value) else None
  }

  function Unit(n: nat): (r: string)
    requires n < 0x1_0000
    ensures |r| == 6
  {
    ['\\', 'u'] + Hex4(n)
  }

  /** The letter of a two-character escape. */
  function Letter(c: char): Option<char>
  {
    if c == '"' || c == '\\' then Some(c)
    else if c == '\n' then Some('n')
    else if c == '\r' then Some('r')
    else if c == '\t' then Some('t')
    else if c == 12 as char then Some('f')
    else if c == 8 as char then Some('b')
    else None
  }

  /** One character; beyond the basic plane as a surrogate pair. */
  function Escape(c: char): (r: string)
    ensures r != []
  {
    if Letter(c).Some? then ['\\', Letter(c).value]
    else if ' ' <= c <= '~' then [c]
    else if c as int < 0x1_0000 then Unit(c as int)
    else Unit(0xD800 + (c as int - 0x1_0000) / 0x400) + Unit(0xDC00 + (c as int - 0x1_0000) % 0x400)
  }

  function Body(s: string): string
  {
    if s == [] then [] else Escape(s[0]) + Body(s[1..])
  }

  function Quote(s: string): string
  {
    ['"'] + Body(s) + ['"']
  }

  // ---- reading ----------------------------------------------------------------------------------

  /** The character a letter escape stands for; `/` may be escaped too. */
  function Meant(letter: char): Option<char>
  {
    if letter == '"' || letter == '\\' || letter == '/' then Some(letter)
    else if letter == 'n' then Some('\n')
    else if letter == 'r' then Some('\r')
    else if letter == 't' then Some('\t')
    else if letter == 'f' then Some(12 as char)
    else if letter == 'b' then Some(8 as char)
    else None
  }

  function UnitAt(t: string): Option<nat>
  {
    if |t| >= 6 && t[0] == '\\' && t[1] == 'u' then FourDigits(t[2..]) else None
  }

  /** A character and how much of `t` it takes; a surrogate alone is no character. */
  function Next(t: string): (r: Option<(char, nat)>)
    requires t != []
    ensures r.Some? ==> 0 < r.value.1 <= |t|
  {
    if t[0] != '\\' then (if t[0] < ' ' || t[0] == '"' then None else Some((t[0], 1)))
    else if |t| < 2 then None
    else if t[1] != 'u' then (if Meant(t[1]).Some? then Some((Meant(t[1]).value, 2)) else None)
    else if UnitAt(t).None? then None
    else
      var n := UnitAt(t).value;
      if n < 0xD800 || 0xE000 <= n < 0x1_0000 then Some((n as char, 6))
      else if n < 0xDC00 && UnitAt(t[6..]).Some? && 0xDC00 <= UnitAt(t[6..]).value < 0xE000
      then Some(((0x1_0000 + (n - 0xD800) * 0x400 + (UnitAt(t[6..]).value - 0xDC00)) as char, 12))
      else None
  }

  /** A quoted string's content, from behind the opening quote, and what follows the closing one. */
  function ReadBody(t: string): Option<(string, string)>
    decreases |t|
  {
    if t == [] then None
    else if t[0] == '"' then Some(([], t[1..]))
    else match Next(t)
      case None => None
      case Some((c, n)) =>
        match ReadBody(t[n..])
        case None => None
        case Some((s, rest)) => Some(([c] + s, rest))
  }

  /** A quoted string at the front of `t`, and what follows it. */
  function ReadQuoted(t: string): Option<(string, string)>
  {
    if t != [] && t[0] == '"' then ReadBody(t[1..]) else None
  }

  lemma DigitReads(d: nat)
    requires d < 16
    ensures DigitValue(Digit(d)) == Some(d)
  {}

  lemma DigitsRead(n: nat)
    requires n < 0x1_0000
    ensures FourDigits(Hex4(n)) == Some(n)
  {
    var (a, b, c) := (n / 16, n / 16 / 16, n / 16 / 16 / 16);
    DigitReads(n % 16);
    DigitReads(a % 16);
    DigitReads(b % 16);
    DigitReads(c);
    assert n == 16 * a + n % 16 && a == 16 * b + a % 16 && b == 16 * c + b % 16;
  }

  lemma UnitReads(n: nat, rest: string)
    requires n < 0x1_0000
    ensures UnitAt(Unit(n) + rest) == Some(n)
  {
    DigitsRead(n);
    assert forall i :: 0 <= i < 4 ==> (Unit(n) + rest)[2..][i] == Hex4(n)[i];
  }

  lemma EscapeReads(c: char, rest: string)
    ensures Escape(c)[0] != '"'
    ensures Next(Escape(c) + rest) == Some((c, |Escape(c)|))
  {
    var t := Escape(c) + rest;
    if Letter(c).None? && !(' ' <= c <= '~') {
      if c as int < 0x1_0000 {
        UnitReads(c as int, rest);
      } else {
        PairReads(c, rest);
      }
    }
  }

  lemma PairReads(c: char, rest: string)
    requires c as int >= 0x1_0000
    ensures Escape(c)[0] == '\\' && Next(Escape(c) + rest) == Some((c, |Escape(c)|))
  {
    var n := c as int - 0x1_0000;
    var (high, low) := (0xD800 + n / 0x400, 0xDC00 + n % 0x400);
    UnitReads(high, Unit(low) + rest);
    UnitReads(low, rest);
    var t := Escape(c) + rest;
    assert Escape(c) == Unit(high) + Unit(low);
    Associate(Unit(high), Unit(low), rest);
    assert UnitAt(t) == Some(high) && t[6..] == Unit(low) + rest;
    assert 0x1_0000 + (high - 0xD800) * 0x400 + (low - 0xDC00) == c as int;
  }

  lemma {:induction false} BodyReads(s: string, rest: string)
    ensures ReadBody(Body(s) + ['"'] + rest) == Some((s, rest))
  {
    var t := Body(s) + ['"'] + rest;
    if s == [] {
      assert t[1..] == rest;
    } else {
      var more := Body(s[1..]) + ['"'] + rest;
      assert t == Escape(s[0]) + more;
      EscapeReads(s[0], more);
      BodyReads(s[1..], rest);
      assert t[|Escape(s[0])|..] == more;
      assert t[0] == Escape(s[0])[0] && [s[0]] + s[1..] == s;
    }
  }

  /** Every string comes back from its quotation, whatever it holds and whatever follows it. */
  lemma QuotedReadsBack(s: string, rest: string)
    ensures ReadQuoted(Quote(s) + rest) == Some((s, rest))
  {
    BodyReads(s, rest);
    assert (Quote(s) + rest)[1..] == Body(s) + ['"'] + rest;
  }

  predicate Printable(s: string)
  {
    forall i :: 0 <= i < |s| ==> ' ' <= s[i] <= '~'
  }

  lemma UnitIsPrintable(n: nat)
    requires n < 0x1_0000
    ensures Printable(Unit(n))
  {
    assert forall d :: 0 <= d < 16 ==> ' ' <= Digit(d) <= '~';
  }

  lemma EscapeIsPrintable(c: char)
    ensures Printable(Escape(c))
  {
    if Letter(c).None? && !(' ' <= c <= '~') {
      if c as int < 0x1_0000 {
        UnitIsPrintable(c as int);
      } else {
        UnitIsPrintable(0xD800 + (c as int - 0x1_0000) / 0x400);
        UnitIsPrintable(0xDC00 + (c as int - 0x1_0000) % 0x400);
      }
    }
  }

  lemma {:induction false} BodyIsPrintable(s: string)
    ensures Printable(Body(s))
  {
    if s != [] {
      EscapeIsPrintable(s[0]);
      BodyIsPrintable(s[1..]);
    }
  }

  /** A quotation is printable ASCII: it never breaks a line. */
  lemma QuotedIsPrintable(s: string)
    ensures Printable(Quote(s))
  {
    BodyIsPrintable(s);
  }
}
