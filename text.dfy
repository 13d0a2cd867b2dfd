/**
 * String helpers the message builders and the catalog search rely on: decimal
 * rendering of integers (`${n}`), splitting a text into lines, `join`,
 * `toLowerCase` and `includes`.
 */
module Text {
  predicate IsDigit(c: char) {
    '0' <= c <= '9'
  }

  function DigitChar(d: nat): (c: char)
    requires d < 10
    ensures IsDigit(c) && c as int - '0' as int == d
  {
    ('0' as int + d) as char
  }

  /** The decimal digits of `n`, without leading zeros. */
  function NatToDecimal(n: nat): (r: string)
    ensures r != [] && (r[0] == '0' ==> n == 0)
    ensures forall k :: 0 <= k < |r| ==> IsDigit(r[k])
  {
    if n < 10 then [DigitChar(n)] else NatToDecimal(n / 10) + [DigitChar(n % 10)]
  }

  /** How an integral JavaScript number is written in a template literal. */
  function IntToDecimal(n: int): string {
    if n < 0 then "-" + NatToDecimal(-n) else NatToDecimal(n)
  }

  /** The value of a string of decimal digits (the inverse of NatToDecimal). */
  function DecimalValue(s: string): nat
    requires forall k :: 0 <= k < |s| ==> IsDigit(s[k])
  {
    if s == [] then 0
    else
      assert IsDigit(s[|s| - 1]);
      DecimalValue(s[..|s| - 1]) * 10 + (s[|s| - 1] as int - '0' as int)
  }

  /** Reading back the digits gives the number. */
  lemma {:induction false} DecimalRoundTrip(n: nat)
    ensures DecimalValue(NatToDecimal(n)) == n
  {
    if n >= 10 {
      var s := NatToDecimal(n);
      DecimalRoundTrip(n / 10);
      assert s[..|s| - 1] == NatToDecimal(n / 10);
    }
  }

  /** A rendered integer holds only digits and possibly a leading minus sign. */
  lemma DecimalChars(n: int, c: char)
    requires c in IntToDecimal(n)
    ensures IsDigit(c) || c == '-'
  {
  }

  /** The text split at every newline, as `s.split('\n')`. */
  function Lines(s: string): (r: seq<string>)
    ensures |r| >= 1
    ensures forall k :: 0 <= k < |r| ==> '\n' !in r[k]
  {
    if s == [] then [""]
    else
      var rest := Lines(s[1..]);
      if s[0] == '\n' then [""] + rest else [[s[0]] + rest[0]] + rest[1..]
  }

  /** The lines joined back with newlines. */
  function JoinLines(lines: seq<string>): string
    requires |lines| >= 1
  {
    if |lines| == 1 then lines[0] else lines[0] + "\n" + JoinLines(lines[1..])
  }

  /** Splitting into lines loses nothing. */
  lemma {:induction false} LinesRoundTrip(s: string)
    ensures JoinLines(Lines(s)) == s
  {
    if s != [] {
      LinesRoundTrip(s[1..]);
      var rest := Lines(s[1..]);
      if s[0] != '\n' {
        var r := Lines(s);
        assert r[1..] == rest[1..];
        if |rest| > 1 {
          assert JoinLines(rest) == rest[0] + "\n" + JoinLines(rest[1..]);
        }
      }
    }
  }

  /** Text without a newline is one line. */
  lemma {:induction false} LinesSingle(x: string)
    requires '\n' !in x
    ensures Lines(x) == [x]
  {
    if x != [] {
      LinesSingle(x[1..]);
      assert [x[0]] + x[1..] == x;
    }
  }

  /** A newline-free prefix followed by a newline is the first line. */
  lemma {:induction false} LinesCons(x: string, rest: string)
    requires '\n' !in x
    ensures Lines(x + "\n" + rest) == [x] + Lines(rest)
  {
    if x == [] {
      assert x + "\n" + rest == "\n" + rest;
      assert ("\n" + rest)[1..] == rest;
    } else {
      LinesCons(x[1..], rest);
      assert (x + "\n" + rest)[0] == x[0];
      assert (x + "\n" + rest)[1..] == x[1..] + "\n" + rest;
      assert [x[0]] + x[1..] == x;
    }
  }

  /** Each text followed by a newline, concatenated. */
  function Unlines(texts: seq<string>): string {
    if texts == [] then "" else texts[0] + "\n" + Unlines(texts[1..])
  }

  /** Appending a text appends its line. */
  lemma {:induction false} UnlinesSnoc(texts: seq<string>, x: string)
    ensures Unlines(texts + [x]) == Unlines(texts) + x + "\n"
  {
    if texts == [] {
      assert [x][1..] == [];
      assert Unlines([x]) == x + "\n" + "";
    } else {
      assert (texts + [x])[1..] == texts[1..] + [x];
      UnlinesSnoc(texts[1..], x);
    }
  }

  /** Writing two lists of lines is writing their concatenation. */
  lemma {:induction false} UnlinesAppend(a: seq<string>, b: seq<string>)
    ensures Unlines(a + b) == Unlines(a) + Unlines(b)
  {
    if a == [] {
      assert a + b == b;
    } else {
      assert (a + b)[1..] == a[1..] + b;
      UnlinesAppend(a[1..], b);
    }
  }

  /** Appending one more piece to a text that already ends with `b`. */
  lemma AppendAssoc(a: string, b: string, c: string)
    ensures a + b + c == a + (b + c)
  {
  }

  /** A line and a blank line. */
  lemma UnlinesPair(x: string)
    ensures x + "\n\n" == Unlines([x, ""])
  {
    assert [x, ""][1..] == [""] && [""][1..] == [];
    assert Unlines([""]) == "\n";
  }

  /** `+= x + "\n"` appends the line `x`. */
  lemma UnlinesLine(lines: seq<string>, x: string)
    ensures Unlines(lines) + (x + "\n") == Unlines(lines + [x])
  {
    UnlinesSnoc(lines, x);
  }

  /** `+= "\n" + x + "\n"` appends a blank line and the line `x`. */
  lemma UnlinesBlankLine(lines: seq<string>, x: string)
    ensures Unlines(lines) + ("\n" + x + "\n") == Unlines(lines + ["", x])
  {
    UnlinesSnoc(lines, "");
    UnlinesSnoc(lines + [""], x);
    assert lines + [""] + [x] == lines + ["", x];
  }

  /** `+= x + "\n\n"` appends the line `x` and a blank line. */
  lemma UnlinesLineBlank(lines: seq<string>, x: string)
    ensures Unlines(lines) + (x + "\n\n") == Unlines(lines + [x, ""])
  {
    UnlinesSnoc(lines, x);
    UnlinesSnoc(lines + [x], "");
    assert lines + [x] + [""] == lines + [x, ""];
  }

  /** `+= "\n" + x + "\n\n"` appends a blank line, the line `x` and a blank line. */
  lemma UnlinesBlankLineBlank(lines: seq<string>, x: string)
    ensures Unlines(lines) + ("\n" + x + "\n\n") == Unlines(lines + ["", x, ""])
  {
    UnlinesBlankLine(lines, x);
    UnlinesSnoc(lines + ["", x], "");
    assert lines + ["", x] + [""] == lines + ["", x, ""];
    var u := Unlines(lines);
    assert u + ("\n" + x + "\n\n") == u + ("\n" + x + "\n") + "" + "\n";
  }

  /** The lines of a text made of whole lines, followed by a last line without newline. */
  lemma LinesOfText(lines: seq<string>, last: string)
    requires forall k :: 0 <= k < |lines| ==> '\n' !in lines[k]
    requires '\n' !in last
    ensures Lines(Unlines(lines) + last) == lines + [last]
  {
    LinesOfUnlines(lines, last);
    LinesSingle(last);
  }

  /** Newline-free texts written as lines, then `rest`, split back into those texts and the lines of `rest`. */
  lemma {:induction false} LinesOfUnlines(texts: seq<string>, rest: string)
    requires forall k :: 0 <= k < |texts| ==> '\n' !in texts[k]
    ensures Lines(Unlines(texts) + rest) == texts + Lines(rest)
  {
    if texts == [] {
      assert Unlines(texts) + rest == rest;
    } else {
      LinesOfUnlines(texts[1..], rest);
      LinesConsAppend(texts[0], Unlines(texts[1..]), rest);
      assert texts == [texts[0]] + texts[1..];
    }
  }

  /** A newline-free line, then more text: the line comes first. */
  lemma LinesConsAppend(x: string, tail: string, rest: string)
    requires '\n' !in x
    ensures Lines(x + "\n" + tail + rest) == [x] + Lines(tail + rest)
  {
    AppendAssoc(x + "\n", tail, rest);
    LinesCons(x, tail + rest);
  }

  /** `parts.join(sep)`. */
  function Join(parts: seq<string>, sep: string): string {
    if parts == [] then ""
    else if |parts| == 1 then parts[0]
    else parts[0] + sep + Join(parts[1..], sep)
  }

  /** A joined string is made of the parts' and separator's characters. */
  lemma {:induction false} JoinChars(parts: seq<string>, sep: string, c: char)
    requires c in Join(parts, sep)
    ensures c in sep || exists k :: 0 <= k < |parts| && c in parts[k]
  {
    if |parts| > 1 {
      if c !in parts[0] && c !in sep {
        JoinChars(parts[1..], sep, c);
        var k :| 0 <= k < |parts[1..]| && c in parts[1..][k];
        assert parts[k + 1] == parts[1..][k];
      }
    }
  }

  /** An upper-case letter of Basic Latin or Latin-1 (A-Z, À-Þ without ×). */
  predicate IsUpper(c: char) {
    ('A' <= c <= 'Z') || ('À' <= c <= 'Þ' && c != '×')
  }

  /** `toLowerCase` on one character, for Basic Latin and Latin-1 letters. */
  function LowerChar(c: char): (r: char)
    ensures !IsUpper(r)
    ensures !IsUpper(c) ==> r == c
  {
    if IsUpper(c) then (c as int + 32) as char else c
  }

  /** `toLowerCase`, restricted to Basic Latin and Latin-1 letters. */
  function ToLower(s: string): (r: string)
    ensures |r| == |s|
    ensures forall k :: 0 <= k < |s| ==> r[k] == LowerChar(s[k])
  {
    seq(|s|, k requires 0 <= k < |s| => LowerChar(s[k]))
  }

  /** Lower-casing a lower-cased string changes nothing. */
  lemma ToLowerIdempotent(s: string)
    ensures ToLower(ToLower(s)) == ToLower(s)
  {
  }

  /** `t` occurs in `s` at position `i`. */
  ghost predicate OccursAt(s: string, t: string, i: int) {
    0 <= i && i + |t| <= |s| && s[i..i + |t|] == t
  }

  /** `s.includes(t)`: the search slides a window over `s`. */
  function Includes(s: string, t: string): (r: bool)
    ensures r <==> exists i :: OccursAt(s, t, i)
    decreases |s|
  {
    if |t| > |s| then false
    else if s[..|t|] == t then (assert OccursAt(s, t, 0); true)
    else
      ShiftOccurrence(s, t);
      Includes(s[1..], t)
  }

  /** When `t` is not at the front of `s`, it occurs in `s` exactly when it occurs in `s[1..]`. */
  lemma ShiftOccurrence(s: string, t: string)
    requires |t| <= |s| && s[..|t|] != t
    ensures (exists i :: OccursAt(s, t, i)) <==> exists i :: OccursAt(s[1..], t, i)
  {
    forall i | OccursAt(s[1..], t, i) ensures OccursAt(s, t, i + 1) {
      assert s[i + 1..i + 1 + |t|] == s[1..][i..i + |t|];
    }
    forall i | OccursAt(s, t, i) ensures OccursAt(s[1..], t, i - 1) {
      assert s[1..][i - 1..i - 1 + |t|] == s[i..i + |t|];
    }
  }

  /** The empty string occurs in every string. */
  lemma IncludesEmpty(s: string)
    ensures Includes(s, "")
  {
    assert OccursAt(s, "", 0);
  }
}
