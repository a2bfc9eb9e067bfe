/** The text operations of the certificate tool, and what they mean for texts
    made of lines. */
module CertText {
  import opened Prelude

  /** Unicode white space. */
  predicate White(c: char) {
    var n := c as int;
    9 <= n <= 13 || n == 0x20 || n == 0x85 || n == 0xA0 || n == 0x1680 || 0x2000 <= n <= 0x200A
    || n == 0x2028 || n == 0x2029 || n == 0x202F || n == 0x205F || n == 0x3000
  }

  function TrimStart(s: string): string {
    if s != [] && White(s[0]) then TrimStart(s[1..]) else s
  }

  function TrimEnd(s: string): string {
    if s != [] && White(s[|s| - 1]) then TrimEnd(s[..|s| - 1]) else s
  }

  function Trim(s: string): string {
    TrimEnd(TrimStart(s))
  }

  function QuotesOffStart(s: string): string {
    if s != [] && s[0] == '"' then QuotesOffStart(s[1..]) else s
  }

  function QuotesOffEnd(s: string): string {
    if s != [] && s[|s| - 1] == '"' then QuotesOffEnd(s[..|s| - 1]) else s
  }

  /** `trim_matches('"')` */
  function QuotesOff(s: string): string {
    QuotesOffEnd(QuotesOffStart(s))
  }

  /** Where `c` first occurs, or the length. */
  function IndexOf(s: string, c: char): (i: nat)
    ensures i <= |s| && c !in s[..i] && (i < |s| ==> s[i] == c)
  {
    if s == [] || s[0] == c then 0
    else
      var i := 1 + IndexOf(s[1..], c);
      assert s[..i] == [s[0]] + s[1..][..i - 1];
      i
  }

  function WithoutReturn(line: string): string {
    if line != [] && line[|line| - 1] == '\r' then line[..|line| - 1] else line
  }

  /** The lines of a text: each ends at a line feed, with a carriage return
      before it dropped; what follows the last line feed is a line if not empty. */
  function Lines(text: string): seq<string>
    decreases |text|
  {
    var i := IndexOf(text, '\n');
    if text == [] then []
    else if i == |text| then [text]
    else [WithoutReturn(text[..i])] + Lines(text[i + 1..])
  }

  function Join(lines: seq<string>): string {
    if lines == [] then [] else lines[0] + "\n" + Join(lines[1..])
  }

  /** A text to which whole lines can be added. */
  function Ended(text: string): string {
    if text != [] && text[|text| - 1] != '\n' then text + "\n" else text
  }

  // --- Trimming -----------------------------------------------------------

  lemma TrimFits(s: string)
    requires s != [] ==> !White(s[0]) && !White(s[|s| - 1])
    ensures Trim(s) == s
  {
  }

  lemma {:induction false} TrimStartMore(s: string, c: char)
    requires White(c)
    ensures TrimStart(s + [c]) == TrimStart(s) + [c] || (TrimStart(s) == [] && TrimStart(s + [c]) == [])
  {
    if s == [] {
      assert s + [c] == [c] && [c][1..] == [];
    } else if White(s[0]) {
      assert (s + [c])[1..] == s[1..] + [c];
      TrimStartMore(s[1..], c);
    }
  }

  lemma TrimMore(s: string, c: char)
    requires White(c)
    ensures Trim(s + [c]) == Trim(s)
  {
    TrimStartMore(s, c);
    var t := TrimStart(s);
    assert (t + [c])[..|t|] == t;
  }

  lemma TrimWithoutReturn(line: string)
    ensures Trim(WithoutReturn(line)) == Trim(line)
  {
    if line != [] && line[|line| - 1] == '\r' {
      var s := line[..|line| - 1];
      assert line == s + ['\r'];
      TrimMore(s, '\r');
    }
  }

  // --- Lines --------------------------------------------------------------

  lemma {:induction false} IndexIn(line: string, c: char, rest: string)
    requires c !in line
    ensures IndexOf(line + [c] + rest, c) == |line|
  {
    if line == [] {
      assert line + [c] + rest == [c] + rest;
    } else {
      assert (line + [c] + rest)[1..] == line[1..] + [c] + rest;
      IndexIn(line[1..], c, rest);
    }
  }

  lemma LinesOfOne(line: string, rest: string)
    requires '\n' !in line
    ensures Lines(line + "\n" + rest) == [WithoutReturn(line)] + Lines(rest)
  {
    var text := line + "\n" + rest;
    IndexIn(line, '\n', rest);
    assert text == line + ['\n'] + rest;
    assert text[..|line|] == line && text[|line| + 1..] == rest;
  }

  /** Both line ends are read alike, and neither is part of the line. */
  lemma EitherLineEnd(line: string, rest: string)
    requires '\n' !in line && (line != [] ==> line[|line| - 1] != '\r')
    ensures Lines(line + "\n" + rest) == [line] + Lines(rest)
    ensures Lines(line + "\r\n" + rest) == [line] + Lines(rest)
  {
    LinesOfOne(line, rest);
    LinesOfOne(line + "\r", rest);
    assert line + "\r\n" + rest == line + "\r" + "\n" + rest;
    assert WithoutReturn(line + "\r") == line;
  }

  ghost predicate OneLiners(lines: seq<string>) {
    forall i :: 0 <= i < |lines| ==> '\n' !in lines[i]
  }

  function WithoutReturns(lines: seq<string>): seq<string> {
    if lines == [] then [] else [WithoutReturn(lines[0])] + WithoutReturns(lines[1..])
  }

  lemma {:induction false} LinesOfJoin(lines: seq<string>)
    requires OneLiners(lines)
    ensures Lines(Join(lines)) == WithoutReturns(lines)
  {
    if lines != [] {
      LinesOfOne(lines[0], Join(lines[1..]));
      LinesOfJoin(lines[1..]);
    }
  }

  lemma {:induction false} LinesAreOneLiners(text: string)
    ensures OneLiners(Lines(text))
    decreases |text|
  {
    var i := IndexOf(text, '\n');
    if text != [] && i < |text| {
      LinesAreOneLiners(text[i + 1..]);
    }
  }

  /** The lines as the reader sees them. */
  function Trims(lines: seq<string>): (r: seq<string>)
    ensures |r| == |lines|
  {
    if lines == [] then [] else [Trim(lines[0])] + Trims(lines[1..])
  }

  lemma {:induction false} TrimsAppend(a: seq<string>, b: seq<string>)
    ensures Trims(a + b) == Trims(a) + Trims(b)
  {
    if a == [] {
      assert a + b == b;
    } else {
      assert (a + b)[1..] == a[1..] + b;
      TrimsAppend(a[1..], b);
    }
  }

  lemma {:induction false} TrimsWithoutReturns(lines: seq<string>)
    ensures Trims(WithoutReturns(lines)) == Trims(lines)
  {
    if lines != [] {
      TrimWithoutReturn(lines[0]);
      TrimsWithoutReturns(lines[1..]);
    }
  }

  lemma SplitAt(text: string, i: nat)
    requires i < |text| && text[i] == '\n'
    ensures text == text[..i] + "\n" + text[i + 1..]
  {
  }

  lemma EndedLater(first: string, later: string)
    ensures Ended(first + "\n" + later) == first + "\n" + Ended(later)
  {
    if later != [] {
      assert (first + "\n" + later)[|first| + 1 + |later| - 1] == later[|later| - 1];
    }
  }

  lemma Regroup<T>(a: seq<T>, b: seq<T>, c: seq<T>, d: seq<T>)
    ensures a + b + c + d == a + b + (c + d)
  {
  }

  lemma TrimsOfOne(line: string, rest: string)
    requires '\n' !in line
    ensures Trims(Lines(line + "\n" + rest)) == [Trim(line)] + Trims(Lines(rest))
  {
    LinesOfOne(line, rest);
    TrimWithoutReturn(line);
  }

  lemma MoreAfterLast(text: string, rest: string)
    requires text != [] && '\n' !in text
    ensures Trims(Lines(Ended(text) + rest)) == [Trim(text)] + Trims(Lines(rest))
  {
    TrimsOfOne(text, rest);
  }

  lemma LastLine(text: string)
    requires text != [] && '\n' !in text
    ensures Lines(text) == [text]
  {
  }

  lemma MoreAfterFirst(first: string, later: string, rest: string)
    requires '\n' !in first
    requires Trims(Lines(Ended(later) + rest)) == Trims(Lines(later)) + Trims(Lines(rest))
    ensures Trims(Lines(Ended(first + "\n" + later) + rest))
         == Trims(Lines(first + "\n" + later)) + Trims(Lines(rest))
  {
    var whole, longer := first + "\n" + later, Ended(later) + rest;
    assert Ended(whole) + rest == first + "\n" + longer by {
      EndedLater(first, later);
      Regroup(first, "\n", Ended(later), rest);
    }
    assert Trims(Lines(first + "\n" + longer)) == [Trim(first)] + Trims(Lines(longer)) by {
      TrimsOfOne(first, longer);
    }
    assert Trims(Lines(whole)) == [Trim(first)] + Trims(Lines(later)) by {
      TrimsOfOne(first, later);
    }
    AppendAssociates([Trim(first)], Trims(Lines(later)), Trims(Lines(rest)));
  }

  /** Lines added to an ended text come after its own. */
  lemma {:induction false} LinesOfMore(text: string, rest: string)
    ensures Trims(Lines(Ended(text) + rest)) == Trims(Lines(text)) + Trims(Lines(rest))
    decreases |text|
  {
    var i := IndexOf(text, '\n');
    if text == [] {
      assert Ended(text) + rest == rest;
    } else if i == |text| {
      assert text[..i] == text;
      LastLine(text);
      MoreAfterLast(text, rest);
    } else {
      SplitAt(text, i);
      LinesOfMore(text[i + 1..], rest);
      MoreAfterFirst(text[..i], text[i + 1..], rest);
    }
  }
}
