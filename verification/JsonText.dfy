/** How json.dumps writes a string: in double quotes, and in printable ASCII only. Reading it back
    shows that the encoding tells strings apart, also when more text follows.

    The identifier of a transcript message is a digest of such a text, of the provider's item and
    its content index. An escape has two characters, six, or twelve where a character outside the
    basic plane takes a surrogate pair; what the first characters are decides which. */
module JsonText {
  import opened Basics

  function HexChar(n: nat): char
    requires n < 16
  {
    if n < 10 then ('0' as int + n) as char else ('a' as int + n - 10) as char
  }

  function Hex4(n: nat): (s: string)
    requires n < 0x1_0000
    ensures |s| == 4
  {
    [HexChar(n / 0x1000), HexChar(n / 0x100 % 16), HexChar(n / 16 % 16), HexChar(n % 16)]
  }

  /** Six characters for a code unit of 16 bits. */
  function Unit(n: nat): (s: string)
    requires n < 0x1_0000
    ensures |s| == 6 && s[0] == '\\' && s[1] == 'u'
  {
    "\\u" + Hex4(n)
  }

  /** A surrogate pair. */
  function Pair(n: nat): (s: string)
    requires 0x1_0000 <= n < 0x11_0000
    ensures |s| == 12 && s[0] == '\\'
  {
    Unit(0xD800 + (n - 0x1_0000) / 0x400) + Unit(0xDC00 + (n - 0x1_0000) % 0x400)
  }

  /** A quote and a backslash are escaped, as are line breaks and the like; other printable ASCII
      stands for itself, and anything else is written as one or two code units. */
  function Escape(c: char): (s: string)
    ensures |s| > 0 && s[0] != '"'
  {
    if c == '"' then "\\\""
    else if c == '\\' then "\\\\"
    else if c == '\n' then "\\n"
    else if c == '\r' then "\\r"
    else if c == '\t' then "\\t"
    else if c as int == 8 then "\\b"
    else if c as int == 12 then "\\f"
    else if ' ' <= c <= '~' then [c]
    else if c as int < 0x1_0000 then Unit(c as int)
    else Pair(c as int)
  }

  function Escaped(s: string): string {
    if s == [] then [] else Escape(s[0]) + Escaped(s[1..])
  }

  function Quoted(s: string): string {
    "\"" + Escaped(s) + "\""
  }

  // ---------------------------------------------------------------- reading back

  function HexValue(c: char): int {
    if '0' <= c <= '9' then c as int - '0' as int else c as int - 'a' as int + 10
  }

  function UnitValue(s: string): int
    requires |s| >= 6
  {
    ((HexValue(s[2]) * 16 + HexValue(s[3])) * 16 + HexValue(s[4])) * 16 + HexValue(s[5])
  }

  /** The code of the first escaped character, and how many characters its escape takes. */
  function FirstCode(s: string): (int, int)
    requires |s| > 0
  {
    if s[0] != '\\' || |s| < 2 then (s[0] as int, 1)
    else if s[1] == 'n' then ('\n' as int, 2)
    else if s[1] == 'r' then ('\r' as int, 2)
    else if s[1] == 't' then ('\t' as int, 2)
    else if s[1] == 'b' then (8, 2)
    else if s[1] == 'f' then (12, 2)
    else if s[1] != 'u' || |s| < 6 then (s[1] as int, 2)
    else
      var v := UnitValue(s);
      if 0xD800 <= v < 0xDC00 && |s| >= 12 then (0x1_0000 + (v - 0xD800) * 0x400 + (UnitValue(s[6..]) - 0xDC00), 12) else (v, 6)
  }

  lemma HexReads(n: nat)
    requires n < 16
    ensures HexValue(HexChar(n)) == n
  {
  }

  lemma Nibbles(n: nat)
    requires n < 0x1_0000
    ensures ((n / 0x1000 * 16 + n / 0x100 % 16) * 16 + n / 16 % 16) * 16 + n % 16 == n
    ensures n / 0x1000 < 16
  {
    assert n / 16 / 16 == n / 0x100 && n / 0x100 / 16 == n / 0x1000;
  }

  lemma UnitReads(n: nat, rest: string)
    requires n < 0x1_0000
    ensures UnitValue(Unit(n) + rest) == n
  {
    Nibbles(n);
    HexReads(n / 0x1000);
    HexReads(n / 0x100 % 16);
    HexReads(n / 16 % 16);
    HexReads(n % 16);
    hide HexChar, HexValue;
    var s := Unit(n) + rest;
    assert s[2..6] == Hex4(n);
    assert s[2] == s[2..6][0] && s[3] == s[2..6][1] && s[4] == s[2..6][2] && s[5] == s[2..6][3];
  }

  predicate Short(c: char) {
    ' ' <= c <= '~' || c == '\n' || c == '\r' || c == '\t' || c as int == 8 || c as int == 12
  }

  lemma ShortReads(c: char, rest: string)
    requires Short(c)
    ensures FirstCode(Escape(c) + rest) == (c as int, |Escape(c)|)
  {
    hide Unit, UnitValue;
  }

  lemma LongReads(c: char, rest: string)
    requires !Short(c) && c as int < 0x1_0000
    ensures FirstCode(Escape(c) + rest) == (c as int, |Escape(c)|)
  {
    UnitReads(c as int, rest);
    hide Unit, UnitValue;
  }

  lemma EscapesAsPair(c: char)
    requires c as int >= 0x1_0000
    ensures Escape(c) == Pair(c as int)
  {
  }

  lemma PairReads(n: nat, rest: string)
    requires 0x1_0000 <= n < 0x11_0000
    ensures FirstCode(Pair(n) + rest) == (n, 12)
  {
    var high, low := 0xD800 + (n - 0x1_0000) / 0x400, 0xDC00 + (n - 0x1_0000) % 0x400;
    UnitReads(high, Unit(low) + rest);
    UnitReads(low, rest);
    hide UnitValue;
    assert Pair(n) + rest == Unit(high) + (Unit(low) + rest);
    assert (Pair(n) + rest)[6..] == Unit(low) + rest;
  }

  lemma FirstReads(c: char, rest: string)
    ensures FirstCode(Escape(c) + rest) == (c as int, |Escape(c)|)
  {
    hide FirstCode, Escape;
    if Short(c) {
      ShortReads(c, rest);
    } else if c as int < 0x1_0000 {
      LongReads(c, rest);
    } else {
      PairReads(c as int, rest);
      EscapesAsPair(c);
    }
  }

  /** A quoted string is told from what follows it. */
  lemma {:induction false} EscapedReads(a: string, b: string, x: string, y: string)
    requires Escaped(a) + "\"" + x == Escaped(b) + "\"" + y
    ensures a == b && x == y
    decreases |a|
  {
    hide Escape, FirstCode;
    var s, t := Escaped(a) + "\"" + x, Escaped(b) + "\"" + y;
    if a != [] {
      assert s == Escape(a[0]) + (Escaped(a[1..]) + "\"" + x);
      FirstReads(a[0], Escaped(a[1..]) + "\"" + x);
    }
    if b != [] {
      assert t == Escape(b[0]) + (Escaped(b[1..]) + "\"" + y);
      FirstReads(b[0], Escaped(b[1..]) + "\"" + y);
    }
    if a == [] || b == [] {
      assert a == [] ==> s[0] == '"';
      assert b == [] ==> t[0] == '"';
      assert x == s[1..] && y == t[1..];
    } else {
      assert a[0] as int == b[0] as int;
      var n := |Escape(a[0])|;
      assert s[n..] == Escaped(a[1..]) + "\"" + x && t[n..] == Escaped(b[1..]) + "\"" + y;
      EscapedReads(a[1..], b[1..], x, y);
      assert a == [a[0]] + a[1..] && b == [b[0]] + b[1..];
    }
  }

  lemma QuotedReads(a: string, b: string, x: string, y: string)
    requires Quoted(a) + x == Quoted(b) + y
    ensures a == b && x == y
  {
    assert (Quoted(a) + x)[1..] == Escaped(a) + "\"" + x && (Quoted(b) + y)[1..] == Escaped(b) + "\"" + y;
    EscapedReads(a, b, x, y);
  }
}
