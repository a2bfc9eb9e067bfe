/** What the certificate file keeps: writing a waiver or a seal, seen through
    the reader, changes exactly the waiver it names. */
module CertLaws {
  import opened Prelude
  import opened CertText
  import opened CertFile

  predicate Has(lines: seq<string>, header: string) {
    header in lines
  }

  /** Whether the section of `header` is still open where the lines end. */
  predicate OpenAtEnd(lines: seq<string>, header: string, inside: bool) {
    if lines == [] then inside
    else if lines[0] == header then OpenAtEnd(lines[1..], header, true)
    else if inside && StartsWith(lines[0], "[") then false
    else OpenAtEnd(lines[1..], header, inside)
  }

  /** The region of a section after a waiver has been put in. */
  function PutRegion(region: seq<string>, id: string, entry: string): seq<string> {
    if region == [] then [entry]
    else if StartsWith(region[0], id + " =") then [entry] + region[1..]
    else [region[0]] + PutRegion(region[1..], id, entry)
  }

  predicate IdOk(id: string) {
    && id != [] && id[0] != '[' && !White(id[0]) && !White(id[|id| - 1]) && '=' !in id && '\n' !in id
  }

  predicate ReasonOk(reason: string) {
    '\n' !in reason && (reason != [] ==> reason[0] != '"' && reason[|reason| - 1] != '"')
  }

  // --- Headers and entries ------------------------------------------------

  lemma HeaderLine(path: string)
    ensures StartsWith(WaiverHeader(path), "[") && StartsWith(FileHeader(path), "[")
    ensures Trim(WaiverHeader(path)) == WaiverHeader(path) && Trim(FileHeader(path)) == FileHeader(path)
  {
    var h, f := WaiverHeader(path), FileHeader(path);
    assert h[0] == '[' && h[|h| - 1] == ']' && f[0] == '[' && f[|f| - 1] == ']';
  }

  lemma HeadersDiffer(p: string, q: string)
    ensures WaiverHeader(p) != FileHeader(q)
    ensures p != q ==> WaiverHeader(p) != WaiverHeader(q) && FileHeader(p) != FileHeader(q)
  {
    var h, f := WaiverHeader(p), FileHeader(q);
    assert h[|h| - 2] == 's' && f[|f| - 2] == '"';
    assert p == WaiverHeader(p)[8..8 + |p|] == FileHeader(p)[8..8 + |p|];
    assert q == WaiverHeader(q)[8..8 + |q|] == FileHeader(q)[8..8 + |q|];
    assert |WaiverHeader(p)| == |p| + 18 && |WaiverHeader(q)| == |q| + 18;
    assert |FileHeader(p)| == |p| + 10 && |FileHeader(q)| == |q| + 10;
  }

  lemma EntryLine(id: string, reason: string)
    requires IdOk(id)
    ensures Trim(Entry(id, reason)) == Entry(id, reason) && !StartsWith(Entry(id, reason), "[")
    ensures Entry(id, reason) != [] && StartsWith(Entry(id, reason), id + " =")
    ensures ReasonOk(reason) ==> '\n' !in Entry(id, reason)
  {
    var e := Entry(id, reason);
    assert e[0] == id[0] && e[|e| - 1] == '"';
    assert e[..|id| + 2] == id + " =";
  }

  lemma IdLineIsNoHeader(line: string, id: string)
    requires IdOk(id) && StartsWith(line, id + " =")
    ensures !StartsWith(line, "[")
  {
    assert line[0] == (line[..|id| + 2])[0] == id[0];
  }

  // --- Writing a waiver, line by line -------------------------------------

  lemma TrimsOf(line: string, rest: seq<string>)
    ensures Trims([line] + rest) == [Trim(line)] + Trims(rest)
  {
    assert ([line] + rest)[1..] == rest;
  }

  /** The section written to reads as it did with the waiver put in. */
  lemma {:induction false} PutReads(lines: seq<string>, path: string, id: string, entry: string, inside: bool)
    requires IdOk(id) && Trim(entry) == entry && !StartsWith(entry, "[")
    ensures var header := WaiverHeader(path);
      Region(Trims(PutLines(lines, header, id, entry, inside)), header, inside)
      == if inside || Has(Trims(lines), header) then PutRegion(Region(Trims(lines), header, inside), id, entry) else []
  {
    var header := WaiverHeader(path);
    HeaderLine(path);
    if lines == [] {
      TrimsOf(entry, []);
    } else {
      var line, rest := lines[0], lines[1..];
      var t := Trim(line);
      if t == header {
        TrimsOf(line, PutLines(rest, header, id, entry, true));
        PutReads(rest, path, id, entry, true);
      } else if inside && StartsWith(t, id + " =") {
        IdLineIsNoHeader(t, id);
        TrimsOf(entry, rest);
      } else if inside && StartsWith(t, "[") {
        TrimsOf(entry, lines);
      } else {
        TrimsOf(line, PutLines(rest, header, id, entry, inside));
        PutReads(rest, path, id, entry, inside);
      }
    }
  }

  /** Every other section reads as it did; only a header that no line holds
      sends the entry into whatever section is open at the end. */
  lemma {:induction false} PutKeeps(lines: seq<string>, p: string, other: string, id: string, entry: string,
                                    inP: bool, inOther: bool)
    requires other != WaiverHeader(p) && StartsWith(other, "[") && !(inP && inOther)
    requires IdOk(id) && Trim(entry) == entry && !StartsWith(entry, "[")
    ensures var ts := Trims(lines);
      Region(Trims(PutLines(lines, WaiverHeader(p), id, entry, inP)), other, inOther)
      == Region(ts, other, inOther)
         + (if !inP && !Has(ts, WaiverHeader(p)) && OpenAtEnd(ts, other, inOther) then [entry] else [])
  {
    var mine := WaiverHeader(p);
    HeaderLine(p);
    if lines == [] {
      TrimsOf(entry, []);
    } else {
      var line, rest := lines[0], lines[1..];
      var t := Trim(line);
      if t == mine {
        TrimsOf(line, PutLines(rest, mine, id, entry, true));
        if !inOther {
          PutKeeps(rest, p, other, id, entry, true, false);
        }
      } else if inP && StartsWith(t, id + " =") {
        IdLineIsNoHeader(t, id);
        TrimsOf(entry, rest);
      } else if inP && StartsWith(t, "[") {
        TrimsOf(entry, lines);
      } else {
        TrimsOf(line, PutLines(rest, mine, id, entry, inP));
        if t == other {
          PutKeeps(rest, p, other, id, entry, inP, true);
        } else if !(inOther && StartsWith(t, "[")) {
          PutKeeps(rest, p, other, id, entry, inP, inOther);
        }
      }
    }
  }

  function Count(lines: seq<string>, header: string): nat {
    if lines == [] then 0 else (if lines[0] == header then 1 else 0) + Count(lines[1..], header)
  }

  lemma {:induction false} CountAppend(a: seq<string>, b: seq<string>, header: string)
    ensures Count(a + b, header) == Count(a, header) + Count(b, header)
  {
    if a == [] {
      assert a + b == b;
    } else {
      assert (a + b)[1..] == a[1..] + b;
      CountAppend(a[1..], b, header);
    }
  }

  lemma {:induction false} CountNone(lines: seq<string>, header: string)
    ensures Count(lines, header) == 0 <==> !Has(lines, header)
  {
    if lines != [] {
      CountNone(lines[1..], header);
    }
  }

  lemma CountFirst(line: string, rest: seq<string>, header: string)
    ensures Count([line] + rest, header) == (if line == header then 1 else 0) + Count(rest, header)
  {
    assert ([line] + rest)[1..] == rest;
  }

  /** No header is written or lost by a waiver. */
  lemma {:induction false} PutCounts(lines: seq<string>, p: string, id: string, entry: string, inside: bool, header: string)
    requires IdOk(id) && Trim(entry) == entry && !StartsWith(entry, "[") && StartsWith(header, "[")
    ensures Count(Trims(PutLines(lines, WaiverHeader(p), id, entry, inside)), header) == Count(Trims(lines), header)
  {
    var mine := WaiverHeader(p);
    if lines == [] {
      TrimsOf(entry, []);
      CountFirst(entry, [], header);
    } else {
      var line, rest := lines[0], lines[1..];
      if Trim(line) == mine {
        TrimsOf(line, PutLines(rest, mine, id, entry, true));
        CountFirst(Trim(line), Trims(PutLines(rest, mine, id, entry, true)), header);
        PutCounts(rest, p, id, entry, true, header);
      } else if inside && StartsWith(Trim(line), id + " =") {
        TrimsOf(entry, rest);
        CountFirst(entry, Trims(rest), header);
        IdLineIsNoHeader(Trim(line), id);
      } else if inside && StartsWith(Trim(line), "[") {
        TrimsOf(entry, lines);
        CountFirst(entry, Trims(lines), header);
      } else {
        TrimsOf(line, PutLines(rest, mine, id, entry, inside));
        CountFirst(Trim(line), Trims(PutLines(rest, mine, id, entry, inside)), header);
        PutCounts(rest, p, id, entry, inside, header);
      }
    }
  }

  // --- Sealing, line by line ----------------------------------------------

  /** Seal lines as the reader sees them: a header and lines that open nothing. */
  predicate SealShape(seal: seq<string>, header: string) {
    |seal| == 3 && seal[0] == header && !StartsWith(seal[1], "[") && !StartsWith(seal[2], "[")
  }

  /** A seal ends the section it comes after and belongs to no other. */
  lemma SealReads(seal: seq<string>, rest: seq<string>, header: string, p: string, inside: bool)
    requires SealShape(seal, FileHeader(p)) && header != FileHeader(p) && StartsWith(header, "[")
    ensures Region(seal + rest, header, inside) == if inside then [] else Region(rest, header, false)
  {
    HeaderLine(p);
    var all := seal + rest;
    assert all[1..][0] == seal[1] && all[1..][1..][0] == seal[2] && all[1..][1..][1..] == rest;
    assert Region(all[1..], header, false) == Region(all[1..][1..], header, false);
  }

  /** No other section reads differently after a seal. */
  lemma {:induction false} SealKeeps(lines: seq<string>, p: string, header: string, seal: seq<string>,
                                     inF: bool, replaced: bool, inside: bool)
    requires !(inF && inside) && SealShape(Trims(seal), FileHeader(p))
    requires header != FileHeader(p) && StartsWith(header, "[")
    requires Count(Trims(lines), FileHeader(p)) <= if replaced then 0 else 1
    ensures Region(Trims(Resealed(lines, FileHeader(p), seal, inF, replaced)), header, inside)
         == Region(Trims(lines), header, inside)
  {
    var file := FileHeader(p);
    HeaderLine(p);
    if lines != [] {
      var line, rest := lines[0], lines[1..];
      var t := Trim(line);
      if t == file {
        TrimsAppend(seal, Resealed(rest, file, seal, true, true));
        SealReads(Trims(seal), Trims(Resealed(rest, file, seal, true, true)), header, p, inside);
        SealKeeps(rest, p, header, seal, true, true, false);
      } else if inF && !StartsWith(t, "[") {
        SealKeeps(rest, p, header, seal, true, replaced, false);
      } else {
        TrimsOf(line, Resealed(rest, file, seal, false, replaced));
        if t == header {
          SealKeeps(rest, p, header, seal, false, replaced, true);
        } else if !(inside && StartsWith(t, "[")) {
          SealKeeps(rest, p, header, seal, false, replaced, inside);
        }
      }
    }
  }

  lemma SealCountsOnce(seal: seq<string>, p: string, header: string)
    requires SealShape(seal, FileHeader(p)) && StartsWith(header, "[")
    ensures Count(seal, header) == if header == FileHeader(p) then 1 else 0
  {
    assert seal == [seal[0]] + seal[1..];
    CountFirst(seal[0], seal[1..], header);
    CountNone(seal[1..], header);
  }

  /** A seal keeps how often every other header occurs, and leaves its own once. */
  lemma {:induction false} ResealedCounts(lines: seq<string>, p: string, seal: seq<string>,
                                          inF: bool, replaced: bool, header: string)
    requires SealShape(Trims(seal), FileHeader(p)) && StartsWith(header, "[")
    ensures Count(Trims(Resealed(lines, FileHeader(p), seal, inF, replaced)), header)
      == if header != FileHeader(p) then Count(Trims(lines), header)
         else if replaced || !Has(Trims(lines), header) then 0 else 1
  {
    if lines != [] {
      var line, rest, file := lines[0], lines[1..], FileHeader(p);
      if Trim(line) == file {
        ResealedCounts(rest, p, seal, true, true, header);
        SealCountsOnce(Trims(seal), p, header);
        TrimsAppend(seal, Resealed(rest, file, seal, true, true));
        CountAppend(Trims(seal), Trims(Resealed(rest, file, seal, true, true)), header);
        assert [] + Resealed(rest, file, seal, true, true) == Resealed(rest, file, seal, true, true);
      } else if inF && !StartsWith(Trim(line), "[") {
        ResealedCounts(rest, p, seal, true, replaced, header);
      } else {
        ResealedCounts(rest, p, seal, false, replaced, header);
        TrimsOf(line, Resealed(rest, file, seal, false, replaced));
        CountFirst(Trim(line), Trims(Resealed(rest, file, seal, false, replaced)), header);
      }
    }
  }

  // --- Lines added at the end ---------------------------------------------

  lemma {:induction false} MoreReads(lines: seq<string>, more: seq<string>, header: string, inside: bool)
    ensures Region(lines + more, header, inside)
         == Region(lines, header, inside)
            + if OpenAtEnd(lines, header, inside) then Region(more, header, true)
              else if inside || Has(lines, header) then []
              else Region(more, header, false)
  {
    if lines == [] {
      assert lines + more == more;
    } else {
      assert (lines + more)[1..] == lines[1..] + more;
      if lines[0] == header {
        MoreReads(lines[1..], more, header, true);
      } else if !(inside && StartsWith(lines[0], "[")) {
        MoreReads(lines[1..], more, header, inside);
      }
    }
  }

  lemma {:induction false} AbsorbMore(m: map<string, string>, a: seq<string>, b: seq<string>)
    ensures AbsorbAll(m, a + b) == AbsorbAll(AbsorbAll(m, a), b)
    decreases |a|
  {
    if a == [] {
      assert a + b == b;
    } else {
      assert (a + b)[1..] == a[1..] + b;
      AbsorbMore(Absorb(m, a[0]), a[1..], b);
    }
  }

  /** A blank line and a section of another kind add at most the blank line. */
  lemma OtherSectionRegion(lines: seq<string>, section: seq<string>, header: string)
    requires section != [] && StartsWith(section[0], "[") && section[0] != header && header != ""
    requires Region(section[1..], header, false) == []
    ensures Region(lines + ([""] + section), header, false)
         == Region(lines, header, false) + if OpenAtEnd(lines, header, false) then [""] else []
  {
    var more := [""] + section;
    assert more[1..] == section;
    assert Region(section, header, true) == [] && Region(section, header, false) == [];
    assert Region(more, header, true) == [""] && Region(more, header, false) == [];
    MoreReads(lines, more, header, false);
  }

  lemma OtherSectionReads(lines: seq<string>, section: seq<string>, header: string)
    requires section != [] && StartsWith(section[0], "[") && section[0] != header && header != ""
    requires Region(section[1..], header, false) == []
    ensures AbsorbAll(map[], Region(lines + ([""] + section), header, false))
         == AbsorbAll(map[], Region(lines, header, false))
  {
    OtherSectionRegion(lines, section, header);
    var region := Region(lines, header, false);
    AbsorbMore(map[], region, [""]);
    assert region + [] == region;
    assert Absorb(AbsorbAll(map[], region), "") == AbsorbAll(map[], region);
  }

  // --- Texts --------------------------------------------------------------

  /** The rewritten lines come back as they were written. */
  lemma JoinedReads(lines: seq<string>)
    requires OneLiners(lines)
    ensures Trims(Lines(Join(lines))) == Trims(lines)
  {
    LinesOfJoin(lines);
    TrimsWithoutReturns(lines);
  }

  lemma {:induction false} PutLinesAreOneLiners(lines: seq<string>, header: string, id: string, entry: string, inside: bool)
    requires OneLiners(lines) && '\n' !in entry
    ensures OneLiners(PutLines(lines, header, id, entry, inside))
  {
    if lines != [] && Trim(lines[0]) == header {
      PutLinesAreOneLiners(lines[1..], header, id, entry, true);
    } else if lines != [] && !(inside && (StartsWith(Trim(lines[0]), id + " =") || StartsWith(Trim(lines[0]), "["))) {
      PutLinesAreOneLiners(lines[1..], header, id, entry, inside);
    }
  }

  lemma {:induction false} ResealedAreOneLiners(lines: seq<string>, header: string, seal: seq<string>, inside: bool, replaced: bool)
    requires OneLiners(lines) && OneLiners(seal)
    ensures OneLiners(Resealed(lines, header, seal, inside, replaced))
  {
    if lines != [] {
      var rest := lines[1..];
      if Trim(lines[0]) == header {
        ResealedAreOneLiners(rest, header, seal, true, true);
      } else if inside && !StartsWith(Trim(lines[0]), "[") {
        ResealedAreOneLiners(rest, header, seal, true, replaced);
      } else {
        ResealedAreOneLiners(rest, header, seal, false, replaced);
      }
    }
  }

  /** The lines of a text, as the reader sees them. */
  function Seen(text: string): seq<string> {
    Trims(Lines(text))
  }

  lemma PutSeen(text: string, path: string, id: string, reason: string)
    requires IdOk(id) && ReasonOk(reason) && Contains(text, WaiverHeader(path))
    ensures Seen(WaiverText(text, path, id, reason))
         == Trims(PutLines(Lines(text), WaiverHeader(path), id, Entry(id, reason), false))
  {
    EntryLine(id, reason);
    LinesAreOneLiners(text);
    PutLinesAreOneLiners(Lines(text), WaiverHeader(path), id, Entry(id, reason), false);
    JoinedReads(PutLines(Lines(text), WaiverHeader(path), id, Entry(id, reason), false));
  }

  lemma TrimmedSection(header: string, entry: string)
    requires Trim(header) == header && Trim(entry) == entry
    ensures Trims(["", header, entry]) == [""] + [header, entry]
  {
    TrimsOfThree("", header, entry);
  }

  lemma TrimsOfThree(a: string, b: string, c: string)
    ensures Trims([a, b, c]) == [Trim(a), Trim(b), Trim(c)]
  {
    assert [a, b, c] == [a] + ([b] + [c]);
    TrimsOf(a, [b] + [c]);
    TrimsOf(b, [c]);
    assert [c] == [c] + [];
    TrimsOf(c, []);
  }

  lemma HeaderIsOneLine(path: string)
    requires '\n' !in path
    ensures '\n' !in WaiverHeader(path) && '\n' !in FileHeader(path)
  {
  }

  lemma AddedSeen(text: string, path: string, id: string, reason: string)
    requires IdOk(id) && ReasonOk(reason) && '\n' !in path && !Contains(text, WaiverHeader(path))
    ensures Seen(WaiverText(text, path, id, reason))
         == Seen(text) + ([""] + [WaiverHeader(path), Entry(id, reason)])
  {
    var header, entry := WaiverHeader(path), Entry(id, reason);
    EntryLine(id, reason);
    HeaderLine(path);
    HeaderIsOneLine(path);
    AddedLines(text, header, entry);
  }

  lemma AddedLines(text: string, header: string, entry: string)
    requires Trim(header) == header && Trim(entry) == entry && '\n' !in header && '\n' !in entry
    ensures Seen(Ended(text) + Join(["", header, entry])) == Seen(text) + ([""] + [header, entry])
  {
    var more := ["", header, entry];
    LinesOfMore(text, Join(more));
    JoinedReads(more);
    TrimmedSection(header, entry);
  }

  lemma SealLinesSeen(p: string, sha: string, date: string)
    requires '\n' !in p && '\n' !in sha && '\n' !in date
    ensures OneLiners(SealLines(p, sha, date)) && Trims(SealLines(p, sha, date)) == SealLines(p, sha, date)
    ensures SealShape(SealLines(p, sha, date), FileHeader(p))
  {
    var seal := SealLines(p, sha, date);
    HeaderLine(p);
    assert seal[1][0] == 's' && seal[1][|seal[1]| - 1] == '"';
    assert seal[2][0] == 's' && seal[2][|seal[2]| - 1] == '"';
    TrimsOfThree(seal[0], seal[1], seal[2]);
    HeaderIsOneLine(p);
  }

  lemma SealReplaced(text: string, p: string, sha: string, date: string)
    requires '\n' !in p && '\n' !in sha && '\n' !in date && Contains(text, FileHeader(p))
    ensures Seen(SealText(text, p, sha, date))
         == Trims(Resealed(Lines(text), FileHeader(p), SealLines(p, sha, date), false, false))
  {
    SealLinesSeen(p, sha, date);
    LinesAreOneLiners(text);
    ResealedAreOneLiners(Lines(text), FileHeader(p), SealLines(p, sha, date), false, false);
    JoinedReads(Resealed(Lines(text), FileHeader(p), SealLines(p, sha, date), false, false));
  }

  lemma SealAppended(text: string, p: string, sha: string, date: string)
    requires '\n' !in p && '\n' !in sha && '\n' !in date && !Contains(text, FileHeader(p))
    ensures Seen(SealText(text, p, sha, date)) == Seen(text) + ([""] + SealLines(p, sha, date))
  {
    var seal := SealLines(p, sha, date);
    SealLinesSeen(p, sha, date);
    LinesOfMore(text, Join([""] + seal));
    JoinedReads([""] + seal);
    TrimsOf("", seal);
  }

  /** Sealing a file, in a text that seals it at most once, changes no waiver
      of any file. */
  lemma SealKeepsWaivers(text: string, p: string, sha: string, date: string, path: string)
    requires '\n' !in p && '\n' !in sha && '\n' !in date
    requires Count(Seen(text), FileHeader(p)) <= 1
    ensures Waivers(SealText(text, p, sha, date), path) == Waivers(text, path)
  {
    var seal, file := SealLines(p, sha, date), FileHeader(p);
    SealLinesSeen(p, sha, date);
    HeaderLine(p);
    HeaderLine(path);
    HeadersDiffer(path, p);
    if Contains(text, file) {
      SealReplaced(text, p, sha, date);
      SealKeeps(Lines(text), p, WaiverHeader(path), seal, false, false, false);
    } else {
      SealAppended(text, p, sha, date);
      SealReads(seal, [], WaiverHeader(path), p, false);
      assert seal + [] == seal;
      OtherSectionReads(Seen(text), seal, WaiverHeader(path));
    }
  }
}
