/** The Python built-ins the three instrument wrappers lean on, as pure functions:
    `str(int)`, `int(str)`, `int(float)`, `str.strip`, `str.replace("  ", "")`,
    `str.split(',')` and `','.join`. */
module Text {

  datatype Option<T> = None | Some(value: T)

  /** Number of occurrences of `c` in `s`. */
  function Count<T(==)>(s: seq<T>, c: T): nat
    decreases |s|
  {
    if s == [] then 0 else (if s[0] == c then 1 else 0) + Count(s[1..], c)
  }

  lemma {:induction false} CountConcat<T>(a: seq<T>, b: seq<T>, c: T)
    ensures Count(a + b, c) == Count(a, c) + Count(b, c)
    decreases |a|
  {
    if a != [] {
      assert (a + b)[1..] == a[1..] + b;
      CountConcat(a[1..], b, c);
    } else {
      assert a + b == b;
    }
  }

  lemma {:induction false} CountAbsent<T>(s: seq<T>, c: T)
    requires forall k :: 0 <= k < |s| ==> s[k] != c
    ensures Count(s, c) == 0
    decreases |s|
  {
    if s != [] {
      CountAbsent(s[1..], c);
    }
  }

  // ---------------------------------------------------------------------------
  // Decimal integers: str(int) and int(str)

  predicate IsDigit(c: char) { '0' <= c <= '9' }

  predicate AllDigits(s: string) { forall k :: 0 <= k < |s| ==> IsDigit(s[k]) }

  function DigitChar(d: nat): (c: char)
    requires d < 10
    ensures IsDigit(c) && c as int - '0' as int == d
  {
    ('0' as int + d) as char
  }

  /** Python's `str(n)` for a non-negative integer: no leading zeros, at least one digit. */
  function NatToString(n: nat): (s: string)
    ensures |s| > 0 && AllDigits(s)
    ensures |s| > 1 ==> s[0] != '0'
    decreases n
  {
    if n < 10 then [DigitChar(n)] else NatToString(n / 10) + [DigitChar(n % 10)]
  }

  /** Python's `str(i)` for an integer. */
  function IntToString(i: int): (s: string)
    ensures |s| > 0
    ensures forall k :: 0 <= k < |s| ==> IsDigit(s[k]) || (k == 0 && s[k] == '-')
  {
    if i < 0 then "-" + NatToString(-i) else NatToString(i)
  }

  /** A decimal integer holds only digits and a sign. */
  lemma IntStringAvoids(n: int, c: char)
    requires !IsDigit(c) && c != '-'
    ensures c !in IntToString(n)
  {
  }

  /** The value of a non-empty string of decimal digits, most significant first;
      `None` when some character is not a digit. */
  function ParseDigits(s: string): Option<nat>
    decreases |s|
  {
    if s == [] || !IsDigit(s[|s| - 1]) then None
    else
      var d := s[|s| - 1] as int - '0' as int;
      if |s| == 1 then Some(d)
      else match ParseDigits(s[..|s| - 1])
        case None => None
        case Some(v) => Some(10 * v + d)
  }

  lemma {:induction false} ParseDigitsOfNat(n: nat)
    ensures ParseDigits(NatToString(n)) == Some(n)
    decreases n
  {
    var s := NatToString(n);
    if n >= 10 {
      assert s[..|s| - 1] == NatToString(n / 10);
      ParseDigitsOfNat(n / 10);
    }
  }

  /** The characters Python's `int()` ignores around the digits. Of the ASCII
      characters only the six C-locale spaces count (tab to carriage return and
      space; the information separators 0x1C to 0x1F do not, although `str.isspace`
      accepts them). Of the others, every one `str.isspace` accepts counts: next line
      0x85, and the Unicode space separators and line and paragraph separators. */
  const Whitespace: set<char> := {
    '\t', '\n', 11 as char, 12 as char, '\r', ' ', 0x85 as char, 0xA0 as char, 0x1680 as char,
    0x2000 as char, 0x2001 as char, 0x2002 as char, 0x2003 as char, 0x2004 as char, 0x2005 as char,
    0x2006 as char, 0x2007 as char, 0x2008 as char, 0x2009 as char, 0x200A as char,
    0x2028 as char, 0x2029 as char, 0x202F as char, 0x205F as char, 0x3000 as char}

  /** Python's `int(s)` on a string: surrounding whitespace, an optional sign and
      at least one decimal digit. `None` is the `ValueError` Python raises. The
      whitespace is peeled one character at a time, first from the front, then from the back. */
  function ParseInt(s: string): Option<int>
    decreases |s|
  {
    if |s| > 0 && s[0] in Whitespace then ParseInt(s[1..])
    else if |s| > 0 && s[|s| - 1] in Whitespace then ParseInt(s[..|s| - 1])
    else if |s| > 0 && (s[0] == '-' || s[0] == '+') then
      match ParseDigits(s[1..])
      case None => None
      case Some(v) => var n: int := v; Some(if s[0] == '-' then -n else n)
    else ParseDigits(s)
  }

  /** `int()` reads a string exactly as it reads the string stripped of surrounding whitespace. */
  lemma {:induction false} ParseIntStrip(s: string)
    ensures ParseInt(s) == ParseInt(Strip(s, Whitespace))
    decreases |s|
  {
    if |s| > 0 && s[0] in Whitespace {
      ParseIntStrip(s[1..]);
    } else if |s| > 0 && s[|s| - 1] in Whitespace {
      ParseIntStrip(s[..|s| - 1]);
    } else {
      var t := Strip(s, Whitespace);
      assert t == s;
    }
  }

  /** `int(str(i)) == i`: every integer the wrappers format is read back unchanged. */
  lemma ParseIntOfString(i: int)
    ensures ParseInt(IntToString(i)) == Some(i)
  {
    if i < 0 {
      var t := NatToString(-i);
      var s := "-" + t;
      DigitIsNoSpace(t[|t| - 1]);
      assert s[|s| - 1] == t[|t| - 1] && s[1..] == t;
      ParseDigitsOfNat(-i);
    } else {
      ParseIntOfNat(i);
    }
  }

  lemma ParseIntOfNat(n: nat)
    ensures ParseInt(NatToString(n)) == Some(n)
  {
    var s := NatToString(n);
    DigitIsNoSpace(s[0]);
    DigitIsNoSpace(s[|s| - 1]);
    ParseDigitsOfNat(n);
  }

  /** Non-ASCII whitespace around the digits is ignored too: `int('\xa07 ') == 7`
      and `int('\u20035') == 5`. */
  lemma UnicodeSpaceIgnored()
    ensures ParseInt([0xA0 as char, '7', ' ']) == Some(7)
    ensures ParseInt([0x2003 as char, '5']) == Some(5)
  {
    assert [0xA0 as char, '7', ' '][1..] == ['7', ' '];
    assert ['7', ' '][..1] == ['7'];
    assert [0x2003 as char, '5'][1..] == ['5'];
  }

  /** An ASCII information separator is not ignored: `int('\x1c5')` raises `ValueError`. */
  lemma SeparatorRejected()
    ensures ParseInt([0x1C as char, '5']) == None
    ensures ParseInt([0x1D as char, '5']) == None
    ensures ParseInt(['5', 0x1E as char]) == None
    ensures ParseInt(['5', 0x1F as char]) == None
  {
    assert ParseDigits([0x1C as char, '5']) == None;
    assert ParseDigits([0x1D as char, '5']) == None;
    assert ParseDigits(['5', 0x1E as char]) == None;
    assert ParseDigits(['5', 0x1F as char]) == None;
  }

  /** A decimal digit is neither whitespace nor a sign. */
  lemma DigitIsNoSpace(c: char)
    requires IsDigit(c)
    ensures c !in Whitespace && c != '-' && c != '+'
  {
  }

  /** Python's `int(x)` on a float: truncation toward zero. */
  function Trunc(x: real): (r: int)
    ensures 0.0 <= x ==> 0 <= r && r as real <= x < r as real + 1.0
    ensures x < 0.0 ==> r <= 0 && r as real - 1.0 < x <= r as real
  {
    if x >= 0.0 then x.Floor else -((-x).Floor)
  }

  // ---------------------------------------------------------------------------
  // str.strip(chars)

  /** Python's `s.strip(cs)`: characters of `cs` removed from the start, then from the end. */
  function Strip(s: string, cs: set<char>): (r: string)
    ensures |r| <= |s|
    ensures r == [] || (r[0] !in cs && r[|r| - 1] !in cs)
    decreases |s|
  {
    if |s| > 0 && s[0] in cs then Strip(s[1..], cs)
    else if |s| > 0 && s[|s| - 1] in cs then Strip(s[..|s| - 1], cs)
    else s
  }

  /** Strip removes characters of `cs` only: every other character keeps its count. */
  lemma {:induction false} StripKeeps(s: string, cs: set<char>, c: char)
    requires c !in cs
    ensures Count(Strip(s, cs), c) == Count(s, c)
    decreases |s|
  {
    if |s| > 0 && s[0] in cs {
      StripKeeps(s[1..], cs, c);
    } else if |s| > 0 && s[|s| - 1] in cs {
      StripKeeps(s[..|s| - 1], cs, c);
      assert s == s[..|s| - 1] + [s[|s| - 1]];
      CountConcat(s[..|s| - 1], [s[|s| - 1]], c);
    }
  }

  // ---------------------------------------------------------------------------
  // str.replace("  ", "")

  /** Python's `s.replace("  ", "")`: non-overlapping pairs of spaces deleted left to right. */
  function DeleteDoubleSpaces(s: string): string
    decreases |s|
  {
    if |s| >= 2 && s[0] == ' ' && s[1] == ' ' then DeleteDoubleSpaces(s[2..])
    else if s == [] then []
    else [s[0]] + DeleteDoubleSpaces(s[1..])
  }

  predicate NoDoubleSpace(s: string)
  {
    forall k :: 0 <= k < |s| - 1 ==> !(s[k] == ' ' && s[k + 1] == ' ')
  }

  /** After the replace no two spaces are adjacent, and the first character is kept
      whenever it is not a space. */
  lemma {:induction false} DeleteDoubleSpacesLeavesNone(s: string)
    ensures NoDoubleSpace(DeleteDoubleSpaces(s))
    ensures |s| > 0 && s[0] != ' ' ==> DeleteDoubleSpaces(s) == [s[0]] + DeleteDoubleSpaces(s[1..])
    decreases |s|
  {
    if |s| >= 2 && s[0] == ' ' && s[1] == ' ' {
      DeleteDoubleSpacesLeavesNone(s[2..]);
    } else if s != [] {
      var rest := DeleteDoubleSpaces(s[1..]);
      DeleteDoubleSpacesLeavesNone(s[1..]);
      if s[0] == ' ' && |s| >= 2 {
        DeleteDoubleSpacesLeavesNone(s[2..]);
        assert rest == [s[1]] + DeleteDoubleSpaces(s[2..]);
      }
    }
  }

  /** The replace deletes spaces only: every other character keeps its count. */
  lemma {:induction false} DeleteDoubleSpacesKeeps(s: string, c: char)
    requires c != ' '
    ensures Count(DeleteDoubleSpaces(s), c) == Count(s, c)
    decreases |s|
  {
    if |s| >= 2 && s[0] == ' ' && s[1] == ' ' {
      DeleteDoubleSpacesKeeps(s[2..], c);
      assert s[1..][1..] == s[2..];
    } else if s != [] {
      DeleteDoubleSpacesKeeps(s[1..], c);
      assert ([s[0]] + DeleteDoubleSpaces(s[1..]))[1..] == DeleteDoubleSpaces(s[1..]);
    }
  }

  // ---------------------------------------------------------------------------
  // str.split(sep) and sep.join(ts)

  /** Python's `s.split(sep)` for a one-character separator (`"".split(",") == [""]`). */
  function Split(s: string, sep: char): (r: seq<string>)
    ensures |r| > 0
    decreases |s|
  {
    if s == [] then [""]
    else
      var rest := Split(s[1..], sep);
      if s[0] == sep then [""] + rest else [[s[0]] + rest[0]] + rest[1..]
  }

  /** A split yields one piece more than there are separators, and no piece holds one. */
  lemma {:induction false} SplitShape(s: string, sep: char)
    ensures |Split(s, sep)| == Count(s, sep) + 1
    ensures forall k :: 0 <= k < |Split(s, sep)| ==> sep !in Split(s, sep)[k]
    decreases |s|
  {
    if s != [] {
      SplitShape(s[1..], sep);
      var rest := Split(s[1..], sep);
      if s[0] != sep {
        var r := Split(s, sep);
        assert r[0] == [s[0]] + rest[0];
        forall k | 0 <= k < |r|
          ensures sep !in r[k]
        {
          if k > 0 {
            assert r[k] == rest[k];
          }
        }
      }
    }
  }

  /** Python's `sep.join(ts)`. */
  function Join(ts: seq<string>, sep: char): string
    decreases |ts|
  {
    if |ts| == 0 then "" else if |ts| == 1 then ts[0] else ts[0] + [sep] + Join(ts[1..], sep)
  }

  /** Joining the pieces of a split gives back the string. */
  lemma {:induction false} JoinSplit(s: string, sep: char)
    ensures Join(Split(s, sep), sep) == s
    decreases |s|
  {
    if s != [] {
      var rest := Split(s[1..], sep);
      JoinSplit(s[1..], sep);
      if s[0] == sep {
        assert ([""] + rest)[1..] == rest;
      } else {
        var r := [[s[0]] + rest[0]] + rest[1..];
        assert r[1..] == rest[1..];
        if |rest| > 1 {
          assert Join(rest, sep) == rest[0] + [sep] + Join(rest[1..], sep);
        }
      }
    }
  }

  /** Splitting a string that starts with a separator-free part `a`. */
  lemma {:induction false} SplitPrefix(a: string, b: string, sep: char)
    requires sep !in a
    ensures Split(a + b, sep) == [a + Split(b, sep)[0]] + Split(b, sep)[1..]
    decreases |a|
  {
    if a != [] {
      assert (a + b)[1..] == a[1..] + b;
      SplitPrefix(a[1..], b, sep);
      assert [a[0]] + (a[1..] + Split(b, sep)[0]) == a + Split(b, sep)[0];
    } else {
      assert a + b == b;
      assert a + Split(b, sep)[0] == Split(b, sep)[0];
    }
  }

  /** Splitting the join of separator-free pieces gives back the pieces. */
  lemma {:induction false} SplitJoin(ts: seq<string>, sep: char)
    requires |ts| > 0
    requires forall k :: 0 <= k < |ts| ==> sep !in ts[k]
    ensures Split(Join(ts, sep), sep) == ts
    decreases |ts|
  {
    if |ts| == 1 {
      SplitPrefix(ts[0], "", sep);
      assert ts[0] + "" == ts[0];
    } else {
      var tail := Join(ts[1..], sep);
      SplitJoin(ts[1..], sep);
      assert ts[0] + [sep] + tail == ts[0] + ([sep] + tail);
      SplitPrefix(ts[0], [sep] + tail, sep);
      assert ([sep] + tail)[1..] == tail;
      assert ts[0] + "" == ts[0];
    }
  }

  /** The join of `n` separator-free pieces holds exactly `n - 1` separators. */
  lemma JoinCount(ts: seq<string>, sep: char)
    requires forall k :: 0 <= k < |ts| ==> sep !in ts[k]
    ensures Count(Join(ts, sep), sep) == if ts == [] then 0 else |ts| - 1
  {
    if ts != [] {
      SplitJoin(ts, sep);
      SplitShape(Join(ts, sep), sep);
    }
  }

  // ---------------------------------------------------------------------------
  // Finding a character

  /** Index of the first `c` in `s`, or `|s|` when there is none (`s.find(c)` with -1 mapped to the length). */
  function IndexOf(s: string, c: char): (r: nat)
    ensures r <= |s|
    ensures r < |s| ==> s[r] == c
    ensures forall k :: 0 <= k < r ==> s[k] != c
    decreases |s|
  {
    if s == [] then 0 else if s[0] == c then 0 else 1 + IndexOf(s[1..], c)
  }

  /** The first `c` of `a + [c] + b`, when `a` holds none, is right after `a`. */
  lemma IndexOfAfter(a: string, b: string, c: char)
    requires c !in a
    ensures IndexOf(a + [c] + b, c) == |a|
  {
    var s := a + [c] + b;
    var r := IndexOf(s, c);
    assert s[|a|] == c;
  }
}
