/** String operations the panel performs through JavaScript's built-ins:
    `trim`, `split`, `join`, `replace` with a string pattern (first match
    only) and with a global regular expression, the `\b\w` capitalisation,
    `substring` and `Number.prototype.toString`. */
module Text {

  /** The characters `String.prototype.trim` removes that this model knows. */
  predicate IsWhitespace(c: char)
  {
    c == ' ' || c == '\t' || c == '\n' || c == '\r' || c == '\U{000B}' || c == '\U{000C}'
  }

  /** A string made of whitespace only (the empty string included). */
  predicate IsBlank(s: string)
  {
    forall i :: 0 <= i < |s| ==> IsWhitespace(s[i])
  }

  /** The number of whitespace characters `s` starts with. */
  function LeadingBlanks(s: string): (n: nat)
    ensures n <= |s|
    ensures forall i :: 0 <= i < n ==> IsWhitespace(s[i])
    ensures n == |s| || !IsWhitespace(s[n])
  {
    if s != [] && IsWhitespace(s[0]) then 1 + LeadingBlanks(s[1..]) else 0
  }

  /** The index where the whitespace `s` ends with begins. */
  function TrailingStart(s: string): (n: nat)
    ensures n <= |s|
    ensures forall i :: n <= i < |s| ==> IsWhitespace(s[i])
    ensures n == 0 || !IsWhitespace(s[n - 1])
  {
    if s != [] && IsWhitespace(s[|s| - 1]) then TrailingStart(s[..|s| - 1]) else |s|
  }

  /** Removes leading whitespace. */
  function TrimStart(s: string): (r: string)
    ensures |r| <= |s| && r == s[|s| - |r|..]
    ensures r == [] || !IsWhitespace(r[0])
    ensures forall i :: 0 <= i < |s| - |r| ==> IsWhitespace(s[i])
  {
    s[LeadingBlanks(s)..]
  }

  /** Removes trailing whitespace. */
  function TrimEnd(s: string): (r: string)
    ensures |r| <= |s| && r == s[..|r|]
    ensures r == [] || !IsWhitespace(r[|r| - 1])
    ensures forall i :: |r| <= i < |s| ==> IsWhitespace(s[i])
  {
    s[..TrailingStart(s)]
  }

  /** `s.trim()`: the middle of `s` between its leading and its trailing
      whitespace, everything inside kept. */
  function Trim(s: string): (r: string)
    ensures |r| <= |s|
    ensures r == [] || (!IsWhitespace(r[0]) && !IsWhitespace(r[|r| - 1]))
    ensures LeadingBlanks(s) + |r| <= |s| && r == s[LeadingBlanks(s)..LeadingBlanks(s) + |r|]
    ensures forall i :: 0 <= i < |s| && !(LeadingBlanks(s) <= i < LeadingBlanks(s) + |r|) ==> IsWhitespace(s[i])
  {
    TrimEnd(TrimStart(s))
  }

  /** A string trims to nothing exactly when it is blank. */
  lemma TrimEmptyIffBlank(s: string)
    ensures Trim(s) == [] <==> IsBlank(s)
  {
    var t := TrimStart(s);
    var k := |s| - |t|;
    if Trim(s) != [] {
      assert t[0] == s[k];
    }
  }

  /** Trimming removes only whitespace: every other character stays. */
  lemma TrimKeeps(s: string, c: char)
    requires c in s && !IsWhitespace(c)
    ensures c in Trim(s)
  {
    var t := TrimStart(s);
    var k := |s| - |t|;
    var i :| 0 <= i < |s| && s[i] == c;
    assert k <= i;
    assert t[i - k] == c;
    var r := TrimEnd(t);
    assert i - k < |r|;
    assert r[i - k] == c;
  }

  /** How often `c` occurs in `s`. */
  function CountChar(s: string, c: char): (n: nat)
    ensures n <= |s|
    ensures n == 0 <==> c !in s
  {
    if s == [] then 0 else (if s[0] == c then 1 else 0) + CountChar(s[1..], c)
  }

  lemma {:induction false} CountCharAppend(a: string, b: string, c: char)
    ensures CountChar(a + b, c) == CountChar(a, c) + CountChar(b, c)
  {
    if a != [] {
      assert (a + b)[1..] == a[1..] + b;
      CountCharAppend(a[1..], b, c);
    } else {
      assert a + b == b;
    }
  }

  /** `s.split(sep)` for a one-character separator: the pieces between the
      separators, so there is always one more piece than separators and no
      piece is dropped, not even an empty one. */
  function Split(s: string, sep: char): (r: seq<string>)
    ensures |r| == CountChar(s, sep) + 1
    ensures forall i :: 0 <= i < |r| ==> sep !in r[i]
  {
    if s == [] then [""]
    else if s[0] == sep then [""] + Split(s[1..], sep)
    else
      var rest := Split(s[1..], sep);
      [[s[0]] + rest[0]] + rest[1..]
  }

  /** `parts.join(sep)`: the text starts with the first piece. */
  function Join(parts: seq<string>, sep: string): (r: string)
    ensures |parts| > 0 ==> parts[0] <= r
  {
    if |parts| == 0 then ""
    else if |parts| == 1 then parts[0]
    else parts[0] + sep + Join(parts[1..], sep)
  }

  /** Splitting a string by its first character. */
  lemma SplitStep(c: char, t: string, sep: char)
    ensures Split([c] + t, sep) ==
      if c == sep then [""] + Split(t, sep) else [[c] + Split(t, sep)[0]] + Split(t, sep)[1..]
  {
    var s := [c] + t;
    assert s[0] == c && s[1..] == t;
  }

  /** Joining a list by its first piece. */
  lemma JoinCons(a: string, rest: seq<string>, sep: string)
    requires rest != []
    ensures Join([a] + rest, sep) == a + sep + Join(rest, sep)
  {
    assert ([a] + rest)[0] == a && ([a] + rest)[1..] == rest;
  }

  /** Joining the pieces of a split with the same separator gives the
      string back. */
  lemma {:induction false} JoinSplit(s: string, sep: char)
    ensures Join(Split(s, sep), [sep]) == s
  {
    if s != [] {
      var c, t := s[0], s[1..];
      assert s == [c] + t;
      var rest := Split(t, sep);
      JoinSplit(t, sep);
      SplitStep(c, t, sep);
      if c == sep {
        JoinCons("", rest, [sep]);
      } else if |rest| == 1 {
        assert Split(s, sep) == [[c] + rest[0]];
      } else {
        assert rest == [rest[0]] + rest[1..];
        JoinCons([c] + rest[0], rest[1..], [sep]);
        JoinCons(rest[0], rest[1..], [sep]);
      }
    }
  }

  /** Splitting `piece + sep + tail`, where `piece` holds no separator. */
  lemma {:induction false} SplitAfterPiece(piece: string, sep: char, tail: string)
    requires sep !in piece
    ensures Split(piece + [sep] + tail, sep) == [piece] + Split(tail, sep)
  {
    if piece == [] {
      assert piece + [sep] + tail == [sep] + tail;
      SplitStep(sep, tail, sep);
    } else {
      var p := piece[1..];
      assert piece + [sep] + tail == [piece[0]] + (p + [sep] + tail);
      SplitStep(piece[0], p + [sep] + tail, sep);
      SplitAfterPiece(p, sep, tail);
      var rest := [p] + Split(tail, sep);
      assert rest[0] == p && rest[1..] == Split(tail, sep);
      assert [piece[0]] + p == piece;
    }
  }

  /** Splitting a joined list of separator-free pieces gives the list back:
      the partner of `JoinSplit`. */
  lemma {:induction false} SplitJoin(parts: seq<string>, sep: char)
    requires |parts| > 0
    requires forall i :: 0 <= i < |parts| ==> sep !in parts[i]
    ensures Split(Join(parts, [sep]), sep) == parts
  {
    if |parts| == 1 {
      SplitWithout(parts[0], sep);
    } else {
      SplitJoin(parts[1..], sep);
      SplitAfterPiece(parts[0], sep, Join(parts[1..], [sep]));
      assert [parts[0]] + parts[1..] == parts;
    }
  }

  /** A string without the separator splits into itself alone. */
  lemma {:induction false} SplitWithout(s: string, sep: char)
    requires sep !in s
    ensures Split(s, sep) == [s]
  {
    if s != [] {
      SplitWithout(s[1..], sep);
      assert [s[0]] + s[1..] == s;
    }
  }

  /** Joining with a one-character separator puts one separator between
      every two pieces. */
  lemma {:induction false} JoinCountsSeparators(parts: seq<string>, c: char)
    ensures CountChar(Join(parts, [c]), c) >= |parts| - 1
  {
    if |parts| > 1 {
      JoinCountsSeparators(parts[1..], c);
      CountCharAppend(parts[0] + [c], Join(parts[1..], [c]), c);
      CountCharAppend(parts[0], [c], c);
    }
  }

  /** A join of pieces that avoid `c`, with a separator that avoids `c`,
      avoids `c` too. */
  lemma {:induction false} JoinAvoids(parts: seq<string>, sep: string, c: char)
    requires c !in sep
    requires forall i :: 0 <= i < |parts| ==> c !in parts[i]
    ensures c !in Join(parts, sep)
  {
    if |parts| > 1 {
      JoinAvoids(parts[1..], sep, c);
    }
  }

  /** `s.split(sep).map(x => x.trim())`. */
  function SplitTrimmed(s: string, sep: char): (r: seq<string>)
    ensures |r| == CountChar(s, sep) + 1
    ensures forall i :: 0 <= i < |r| ==> r[i] == Trim(Split(s, sep)[i])
  {
    var pieces := Split(s, sep);
    seq(|pieces|, i requires 0 <= i < |pieces| => Trim(pieces[i]))
  }

  /** The first index of `c` in `s`. */
  function IndexOf(s: string, c: char): (i: nat)
    requires c in s
    ensures i < |s| && s[i] == c && c !in s[..i]
  {
    if s[0] == c then 0 else 1 + IndexOf(s[1..], c)
  }

  /** `s.replace(from, to)` with a one-character string pattern: JavaScript
      replaces the first occurrence only. */
  function ReplaceFirst(s: string, from: char, to: char): (r: string)
    ensures |r| == |s|
    ensures from !in s ==> r == s
    ensures from in s ==> r[IndexOf(s, from)] == to
    ensures forall j :: 0 <= j < |s| && (from !in s || j != IndexOf(s, from)) ==> r[j] == s[j]
  {
    if from in s then s[..IndexOf(s, from)] + [to] + s[IndexOf(s, from) + 1..] else s
  }

  /** Replacing the first occurrence removes exactly one of them, when
      there is one. */
  lemma ReplaceFirstRemovesOne(s: string, from: char, to: char)
    requires from != to
    ensures from in s ==> CountChar(ReplaceFirst(s, from, to), from) == CountChar(s, from) - 1
  {
    if from in s {
      var i := IndexOf(s, from);
      assert s == s[..i] + [from] + s[i + 1..];
      CountCharAppend(s[..i] + [from], s[i + 1..], from);
      CountCharAppend(s[..i], [from], from);
      CountCharAppend(s[..i] + [to], s[i + 1..], from);
      CountCharAppend(s[..i], [to], from);
    }
  }

  /** `s.replace(/x/g, to)`: every occurrence replaced. */
  function ReplaceAll(s: string, from: char, to: char): (r: string)
    ensures |r| == |s|
    ensures forall i :: 0 <= i < |s| ==> r[i] == (if s[i] == from then to else s[i])
  {
    if s == [] then [] else [if s[0] == from then to else s[0]] + ReplaceAll(s[1..], from, to)
  }

  /** A character `\w` matches. */
  predicate IsWordChar(c: char)
  {
    ('a' <= c <= 'z') || ('A' <= c <= 'Z') || ('0' <= c <= '9') || c == '_'
  }

  /** `toUpperCase` on one character (ASCII letters). */
  function ToUpper(c: char): (u: char)
    ensures 'a' <= c <= 'z' ==> 'A' <= u <= 'Z'
    ensures !('a' <= c <= 'z') ==> u == c
    ensures IsWordChar(u) == IsWordChar(c)
  {
    if 'a' <= c <= 'z' then (c as int - 32) as char else c
  }

  /** Position `i` of `s` is where `\b\w` matches: a word character that is
      the first of the string or follows a non-word character. */
  predicate WordStart(s: string, i: int)
    requires 0 <= i < |s|
  {
    IsWordChar(s[i]) && (i == 0 || !IsWordChar(s[i - 1]))
  }

  /** The word starts of `s` past its second character are those of its
      tail, one position further on. */
  lemma WordStartTail(s: string)
    requires s != []
    ensures forall i :: 2 <= i < |s| ==> WordStart(s, i) == WordStart(s[1..], i - 1)
    ensures |s| > 1 ==> WordStart(s, 1) == (IsWordChar(s[1]) && !IsWordChar(s[0]))
  {
    forall i | 2 <= i < |s| ensures WordStart(s, i) == WordStart(s[1..], i - 1) {
      assert s[1..][i - 1] == s[i] && s[1..][i - 2] == s[i - 1];
    }
  }

  /** Upper-cases word starts; `afterWord` says whether the character before
      `s` was a word character. */
  function CapitalizeAfter(s: string, afterWord: bool): (r: string)
    ensures |r| == |s|
    ensures s != [] ==> r[0] == (if IsWordChar(s[0]) && !afterWord then ToUpper(s[0]) else s[0])
    ensures forall i :: 1 <= i < |s| ==> r[i] == (if WordStart(s, i) then ToUpper(s[i]) else s[i])
  {
    if s == [] then []
    else
      var rest := CapitalizeAfter(s[1..], IsWordChar(s[0]));
      WordStartTail(s);
      [if IsWordChar(s[0]) && !afterWord then ToUpper(s[0]) else s[0]] + rest
  }

  /** `s.replace(/\b\w/g, l => l.toUpperCase())`: the first character of
      every word is upper-cased and nothing else changes. */
  function CapitalizeWords(s: string): (r: string)
    ensures |r| == |s|
    ensures forall i :: 0 <= i < |s| ==> r[i] == (if WordStart(s, i) then ToUpper(s[i]) else s[i])
  {
    CapitalizeAfter(s, false)
  }

  /** Capitalising leaves the word starts where they were, and no word
      start lower-case. */
  lemma CapitalizeWordsStarts(s: string)
    ensures forall i :: 0 <= i < |s| ==> WordStart(CapitalizeWords(s), i) == WordStart(s, i)
    ensures forall i :: 0 <= i < |s| && WordStart(s, i) ==> !('a' <= CapitalizeWords(s)[i] <= 'z')
  {
    var r := CapitalizeWords(s);
    forall i | 0 <= i < |s| ensures WordStart(r, i) == WordStart(s, i) {
      assert IsWordChar(r[i]) == IsWordChar(s[i]);
      if i > 0 {
        assert IsWordChar(r[i - 1]) == IsWordChar(s[i - 1]);
      }
    }
  }

  /** `s.charAt(0).toUpperCase() + s.slice(1)`. */
  function CapitalizeFirst(s: string): (r: string)
    ensures |r| == |s|
    ensures s != [] ==> r[0] == ToUpper(s[0]) && r[1..] == s[1..]
  {
    if s == [] then [] else [ToUpper(s[0])] + s[1..]
  }

  /** `s.substring(0, n)`. */
  function Prefix(s: string, n: nat): (r: string)
    ensures |r| == if |s| < n then |s| else n
    ensures r <= s
  {
    if |s| <= n then s else s[..n]
  }

  /** `"${s}"`: a CSV cell wrapped in double quotes. Embedded quotes are not
      doubled, as the panel does not double them. */
  function Quote(s: string): (r: string)
    ensures |r| == |s| + 2 && r[0] == '"' && r[|r| - 1] == '"' && r[1..|r| - 1] == s
  {
    "\"" + s + "\""
  }

  function Digit(d: nat): (c: char)
    requires d < 10
    ensures '0' <= c <= '9' && (c as int) - ('0' as int) == d
  {
    ('0' as int + d) as char
  }

  /** `n.toString()` for a non-negative integer. */
  function NatToString(n: nat): (r: string)
    ensures |r| >= 1
    ensures forall i :: 0 <= i < |r| ==> '0' <= r[i] <= '9'
  {
    if n < 10 then [Digit(n)] else NatToString(n / 10) + [Digit(n % 10)]
  }

  /** `n.toString()` for any integer. */
  function IntToString(n: int): (r: string)
    ensures |r| >= 1
    ensures (r[0] == '-') <==> n < 0
    ensures forall i :: 0 <= i < |r| ==> r[i] == '-' || '0' <= r[i] <= '9'
    ensures forall i :: 1 <= i < |r| ==> '0' <= r[i] <= '9'
  {
    if n < 0 then "-" + NatToString(-n) else NatToString(n)
  }

  /** The value of a string of decimal digits. */
  function DigitsValue(s: string): nat
    requires forall i :: 0 <= i < |s| ==> '0' <= s[i] <= '9'
  {
    if s == [] then 0 else 10 * DigitsValue(s[..|s| - 1]) + ((s[|s| - 1] as int) - ('0' as int))
  }

  /** The decimal text of a number reads back as that number, so the query
      strings the panel sends for `page` and `limit` carry the numbers
      exactly. */
  lemma {:induction false} NatToStringValue(n: nat)
    ensures DigitsValue(NatToString(n)) == n
  {
    if n >= 10 {
      NatToStringValue(n / 10);
      var s := NatToString(n);
      assert s[..|s| - 1] == NatToString(n / 10);
    }
  }

  /** The text of any integer reads back as that integer: the digits after
      the minus sign spell its magnitude, and without a sign the number. */
  lemma {:induction false} IntToStringValue(n: int)
    ensures n < 0 ==> DigitsValue(IntToString(n)[1..]) == -n
    ensures n >= 0 ==> DigitsValue(IntToString(n)) == n
  {
    if n < 0 {
      NatToStringValue(-n);
      assert IntToString(n)[1..] == NatToString(-n);
    } else {
      NatToStringValue(n);
    }
  }
}
