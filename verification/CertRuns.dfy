/** Any run of waiver and seal writes from an empty file: the text always reads
    as the plain record of the waivers granted. */
module CertRuns {
  import opened Prelude
  import opened CertText
  import opened CertFile
  import opened CertLaws
  import opened CertWaivers

  datatype Write =
    | Waive(path: string, id: string, reason: string)
    | Seal(path: string, sha: string, date: string)

  function Rewrite(text: string, w: Write): string {
    match w
    case Waive(path, id, reason) => WaiverText(text, path, id, reason)
    case Seal(path, sha, date) => SealText(text, path, sha, date)
  }

  function TextAfter(writes: seq<Write>): string {
    if writes == [] then "" else Rewrite(TextAfter(writes[..|writes| - 1]), writes[|writes| - 1])
  }

  /** What the waivers of a file should be. */
  function Granted(writes: seq<Write>, path: string): map<string, string> {
    if writes == [] then map[]
    else
      var before, w := Granted(writes[..|writes| - 1], path), writes[|writes| - 1];
      if w.Waive? && w.path == path then before[w.id := w.reason] else before
  }

  const MARK := "[files.\""

  predicate PathOk(path: string) {
    '\n' !in path && '"' !in path
  }

  /** Lines that the tool can tell from section headers. */
  predicate WriteOk(w: Write) {
    && PathOk(w.path)
    && match w
       case Waive(_, id, reason) => IdOk(id) && ReasonOk(reason) && !Contains(Entry(id, reason), MARK)
       case Seal(path, sha, date) =>
         '\n' !in sha && '\n' !in date && forall i :: 1 <= i < 3 ==> !Contains(SealLines(path, sha, date)[i], MARK)
  }

  // --- Texts built by writes ----------------------------------------------

  predicate HeaderOf(line: string, path: string) {
    PathOk(path) && (line == WaiverHeader(path) || line == FileHeader(path))
  }

  ghost predicate LineOk(line: string) {
    && '\n' !in line && Trim(line) == line && WithoutReturn(line) == line
    && (Contains(line, MARK) ==> exists path :: HeaderOf(line, path))
  }

  ghost predicate LinesOk(lines: seq<string>) {
    forall i :: 0 <= i < |lines| ==> LineOk(lines[i])
  }

  ghost predicate Built(lines: seq<string>) {
    && LinesOk(lines)
    && (forall p :: Count(lines, FileHeader(p)) <= 1)
    && (forall p :: Tidy(Region(lines, WaiverHeader(p), false)))
  }

  lemma {:induction false} JoinEnds(lines: seq<string>)
    ensures Ended(Join(lines)) == Join(lines)
  {
    if lines != [] {
      JoinEnds(lines[1..]);
      var rest := Join(lines[1..]);
      assert Join(lines) == lines[0] + "\n" + rest;
      if rest != [] {
        assert Join(lines)[|Join(lines)| - 1] == rest[|rest| - 1];
      }
    }
  }

  lemma {:induction false} SeenAsWritten(lines: seq<string>)
    requires LinesOk(lines)
    ensures Trims(lines) == lines && WithoutReturns(lines) == lines && OneLiners(lines)
  {
    if lines != [] {
      assert LineOk(lines[0]);
      SeenAsWritten(lines[1..]);
    }
  }

  lemma Reread(lines: seq<string>)
    requires LinesOk(lines)
    ensures Lines(Join(lines)) == lines && Seen(Join(lines)) == lines
  {
    SeenAsWritten(lines);
    LinesOfJoin(lines);
  }

  // --- Headers found in a text --------------------------------------------

  lemma PartAt(s: string, i: nat, part: string, j: nat)
    requires i <= |s| && StartsWith(s[i..], part) && j < |part|
    ensures i + j < |s| && part[j] == s[i + j]
  {
    assert part[j] == s[i..][..|part|][j];
  }

  lemma InFirstOrRest(line: string, rest: string, part: string)
    requires '\n' !in part && part != [] && Contains(line + "\n" + rest, part)
    ensures Contains(line, part) || Contains(rest, part)
  {
    var s := line + "\n" + rest;
    var i :| 0 <= i <= |s| && StartsWith(s[i..], part);
    if i <= |line| < i + |part| {
      PartAt(s, i, part, |line| - i);
    } else if i > |line| {
      var j := i - |line| - 1;
      assert rest[j..] == s[i..];
      assert StartsWith(rest[j..], part);
    } else {
      assert line[i..][..|part|] == s[i..][..|part|];
      assert StartsWith(line[i..], part);
    }
  }

  lemma EmptyHolds(part: string)
    requires Contains([], part)
    ensures part == []
  {
  }

  lemma {:induction false} InSomeLine(lines: seq<string>, part: string)
    requires '\n' !in part && part != [] && Contains(Join(lines), part)
    ensures exists i :: 0 <= i < |lines| && Contains(lines[i], part)
  {
    if lines == [] {
      EmptyHolds(part);
    } else {
      InFirstOrRest(lines[0], Join(lines[1..]), part);
      if !Contains(lines[0], part) {
        InSomeLine(lines[1..], part);
        var i :| 0 <= i < |lines[1..]| && Contains(lines[1..][i], part);
        assert Contains(lines[i + 1], part);
      }
    }
  }

  lemma MarkInHeader(line: string, header: string, path: string)
    requires HeaderOf(header, path) && Contains(line, header)
    ensures Contains(line, MARK)
  {
    var i :| 0 <= i <= |line| && StartsWith(line[i..], header);
    assert line[i..][..|MARK|] == line[i..][..|header|][..|MARK|] == MARK;
    assert StartsWith(line[i..], MARK);
  }

  /** A header has two quotation marks, around its path. */
  lemma QuotesOf(line: string, path: string)
    requires HeaderOf(line, path)
    ensures forall j :: 0 <= j < |line| && line[j] == '"' ==> j == 7 || j == 8 + |path|
  {
    assert |MARK| == 8;
    forall j | 8 <= j < 8 + |path|
      ensures line[j] != '"'
    {
      assert line[j] == path[j - 8];
    }
  }

  /** Names without quotation marks end where the first one is. */
  lemma NamesAgree(line: string, p: string, q: string)
    requires '"' !in p && '"' !in q && |line| > |p| && |line| > |q|
    requires line[..|p|] == p && line[|p|] == '"' && line[..|q|] == q && line[|q|] == '"'
    ensures p == q
  {
    IndexIn(p, '"', line[|p| + 1..]);
    IndexIn(q, '"', line[|q| + 1..]);
    assert line == p + ['"'] + line[|p| + 1..];
    assert line == q + ['"'] + line[|q| + 1..];
  }

  lemma HeaderInHeader(line: string, q: string, header: string, p: string)
    requires HeaderOf(line, q) && HeaderOf(header, p) && Contains(line, header)
    ensures line == header
  {
    var i :| 0 <= i <= |line| && StartsWith(line[i..], header);
    HeaderShape(header, p);
    HeaderShape(line, q);
    PartAt(line, i, header, 7);
    PartAt(line, i, header, 8 + |p|);
    PartAt(line, i, header, 9 + |p|);
    QuotesOf(line, q);
    assert i == 0 && line[..|header|] == header;
    var name := line[8..];
    assert name[..|q|] == q && name[|q|] == '"';
    assert name[..|p|] == header[8..8 + |p|] == p && name[|p|] == header[8 + |p|] == '"';
    NamesAgree(name, p, q);
  }

  /** What tells the two headers of a file apart. */
  lemma HeaderShape(header: string, p: string)
    requires HeaderOf(header, p)
    ensures |header| > 9 + |p| && header[..8] == MARK && header[8..8 + |p|] == p && header[7] == header[8 + |p|] == '"'
    ensures header == if header[9 + |p|] == ']' then FileHeader(p) else WaiverHeader(p)
  {
    assert |MARK| == 8;
    assert FileHeader(p)[9 + |p|] == ']' && WaiverHeader(p)[9 + |p|] == '.';
  }

  /** A text made of such lines contains a header only where a line is it. */
  lemma HeaderFound(lines: seq<string>, header: string, p: string)
    requires LinesOk(lines) && HeaderOf(header, p)
    ensures Contains(Join(lines), header) <==> Has(lines, header)
  {
    Reread(lines);
    HeaderIsOneLine(p);
    if Has(lines, header) {
      SeenIsContained(Join(lines), header);
    }
    if Contains(Join(lines), header) {
      InSomeLine(lines, header);
      var i :| 0 <= i < |lines| && Contains(lines[i], header);
      MarkInHeader(lines[i], header, p);
      assert LineOk(lines[i]);
      var q :| HeaderOf(lines[i], q);
      HeaderInHeader(lines[i], q, header, p);
    }
  }

  // --- One write ----------------------------------------------------------

  lemma {:induction false} PutLinesOk(lines: seq<string>, p: string, id: string, entry: string, inside: bool)
    requires LinesOk(lines) && LineOk(entry)
    ensures LinesOk(PutLines(lines, WaiverHeader(p), id, entry, inside))
  {
    if lines != [] {
      var header := WaiverHeader(p);
      assert LineOk(lines[0]);
      if Trim(lines[0]) == header {
        PutLinesOk(lines[1..], p, id, entry, true);
      } else if !(inside && (StartsWith(Trim(lines[0]), id + " =") || StartsWith(Trim(lines[0]), "["))) {
        PutLinesOk(lines[1..], p, id, entry, inside);
      }
    }
  }

  lemma {:induction false} ResealedOk(lines: seq<string>, header: string, seal: seq<string>, inside: bool, replaced: bool)
    requires LinesOk(lines) && LinesOk(seal)
    ensures LinesOk(Resealed(lines, header, seal, inside, replaced))
  {
    if lines != [] {
      assert LineOk(lines[0]);
      if Trim(lines[0]) == header {
        ResealedOk(lines[1..], header, seal, true, true);
      } else if inside && !StartsWith(Trim(lines[0]), "[") {
        ResealedOk(lines[1..], header, seal, true, replaced);
      } else {
        ResealedOk(lines[1..], header, seal, false, replaced);
      }
    }
  }

  lemma {:induction false} TidyBlank(region: seq<string>)
    requires Tidy(region)
    ensures Tidy(region + [""])
  {
    if region == [] {
      assert region + [""] == [""] && [""][1..] == [];
    } else {
      TidyBlank(region[1..]);
      assert (region + [""])[1..] == region[1..] + [""];
      if region[0] != "" {
        assert Lacks(region[1..] + [""], Key(region[0]));
      }
    }
  }

  lemma EndsInQuote(line: string)
    requires line != [] && line[|line| - 1] == '"' && !White(line[0]) && '\n' !in line && !Contains(line, MARK)
    ensures LineOk(line)
  {
  }

  lemma HeaderLineOk(p: string)
    requires PathOk(p)
    ensures LineOk(WaiverHeader(p)) && LineOk(FileHeader(p))
  {
    HeaderLine(p);
    HeaderIsOneLine(p);
    assert HeaderOf(WaiverHeader(p), p) && HeaderOf(FileHeader(p), p);
  }

  lemma EntryLineOk(id: string, reason: string)
    requires IdOk(id) && ReasonOk(reason) && !Contains(Entry(id, reason), MARK)
    ensures LineOk(Entry(id, reason))
  {
    var e := Entry(id, reason);
    EntryLine(id, reason);
    assert e[0] == id[0] && e[|e| - 1] == '"';
    EndsInQuote(e);
  }

  lemma SealLinesOk(p: string, sha: string, date: string)
    requires WriteOk(Seal(p, sha, date))
    ensures LinesOk([""] + SealLines(p, sha, date)) && LinesOk(SealLines(p, sha, date))
  {
    var seal := SealLines(p, sha, date);
    HeaderLineOk(p);
    SealLinesSeen(p, sha, date);
    assert seal[1][0] == 's' && seal[1][|seal[1]| - 1] == '"';
    assert seal[2][0] == 's' && seal[2][|seal[2]| - 1] == '"';
    EndsInQuote(seal[1]);
    EndsInQuote(seal[2]);
    BlankOk();
  }

  lemma BlankOk()
    ensures LineOk("")
  {
  }

  function WaiverLines(lines: seq<string>, p: string, id: string, reason: string): seq<string> {
    var header, entry := WaiverHeader(p), Entry(id, reason);
    if Has(lines, header) then PutLines(lines, header, id, entry, false)
    else lines + ([""] + [header, entry])
  }

  /** On a built text the search decides rightly. */
  lemma WaiverWritten(lines: seq<string>, p: string, id: string, reason: string)
    requires LinesOk(lines) && PathOk(p)
    ensures WaiverText(Join(lines), p, id, reason) == Join(WaiverLines(lines, p, id, reason))
    ensures FoundAsLine(Join(lines), p)
  {
    Reread(lines);
    HeaderFound(lines, WaiverHeader(p), p);
    JoinEnds(lines);
    var more := ["", WaiverHeader(p), Entry(id, reason)];
    JoinAppend(lines, more);
    assert [""] + [WaiverHeader(p), Entry(id, reason)] == more;
  }

  lemma WaiverLinesOk(lines: seq<string>, p: string, id: string, reason: string)
    requires LinesOk(lines) && WriteOk(Waive(p, id, reason))
    ensures LinesOk(WaiverLines(lines, p, id, reason))
  {
    EntryLineOk(id, reason);
    HeaderLineOk(p);
    BlankOk();
    PutLinesOk(lines, p, id, Entry(id, reason), false);
  }

  lemma WaiverLinesCount(lines: seq<string>, p: string, id: string, reason: string, f: string)
    requires LinesOk(lines) && WriteOk(Waive(p, id, reason))
    ensures Count(WaiverLines(lines, p, id, reason), FileHeader(f)) == Count(lines, FileHeader(f))
  {
    var header, entry := WaiverHeader(p), Entry(id, reason);
    EntryLine(id, reason);
    EntryLineOk(id, reason);
    HeaderLine(f);
    HeadersDiffer(p, f);
    PutCounts(lines, p, id, entry, false, FileHeader(f));
    PutLinesOk(lines, p, id, entry, false);
    SeenAsWritten(lines);
    SeenAsWritten(PutLines(lines, header, id, entry, false));
    CountAppend(lines, [""] + [header, entry], FileHeader(f));
    CountNone([""] + [header, entry], FileHeader(f));
  }

  lemma WaiverRegions(lines: seq<string>, p: string, id: string, reason: string, q: string)
    requires Built(lines) && WriteOk(Waive(p, id, reason))
    ensures Tidy(Region(WaiverLines(lines, p, id, reason), WaiverHeader(q), false))
  {
    var header, entry := WaiverHeader(p), Entry(id, reason);
    var region := Region(lines, WaiverHeader(q), false);
    EntryLine(id, reason);
    SeenAsWritten(lines);
    WaiverLinesOk(lines, p, id, reason);
    SeenAsWritten(WaiverLines(lines, p, id, reason));
    if Has(lines, header) {
      if q == p {
        PutReads(lines, p, id, entry, false);
        PutStaysTidy(region, id, reason);
      } else {
        HeaderLine(q);
        HeadersDiffer(p, q);
        PutKeeps(lines, p, WaiverHeader(q), id, entry, false, false);
        assert region + [] == region;
      }
    } else {
      WaiverRegionAdded(lines, p, id, reason, q);
    }
  }

  lemma WaiverRegionAdded(lines: seq<string>, p: string, id: string, reason: string, q: string)
    requires Tidy(Region(lines, WaiverHeader(q), false)) && IdOk(id) && ReasonOk(reason) && !Has(lines, WaiverHeader(p))
    ensures Tidy(Region(lines + ([""] + [WaiverHeader(p), Entry(id, reason)]), WaiverHeader(q), false))
  {
    var header, entry := WaiverHeader(p), Entry(id, reason);
    var region := Region(lines, WaiverHeader(q), false);
    EntryLine(id, reason);
    HeaderLine(p);
    HeaderLine(q);
    if q == p {
      NewSectionReads(lines, header, entry);
      assert IsEntry(entry, id, reason) && [entry][1..] == [];
    } else {
      HeadersDiffer(p, q);
      assert [header, entry][1..] == [entry];
      OtherSectionRegion(lines, [header, entry], WaiverHeader(q));
      TidyBlank(region);
      assert region + [] == region;
    }
  }

  lemma WaiverBuilds(lines: seq<string>, p: string, id: string, reason: string)
    requires Built(lines) && WriteOk(Waive(p, id, reason))
    ensures Built(WaiverLines(lines, p, id, reason))
  {
    WaiverLinesOk(lines, p, id, reason);
    forall f {
      WaiverLinesCount(lines, p, id, reason, f);
    }
    forall q {
      WaiverRegions(lines, p, id, reason, q);
    }
  }

  function SealedLines(lines: seq<string>, p: string, sha: string, date: string): seq<string> {
    var header, seal := FileHeader(p), SealLines(p, sha, date);
    if Contains(Join(lines), header) then Resealed(lines, header, seal, false, false) else lines + ([""] + seal)
  }

  lemma SealWritten(lines: seq<string>, p: string, sha: string, date: string)
    requires LinesOk(lines)
    ensures SealText(Join(lines), p, sha, date) == Join(SealedLines(lines, p, sha, date))
  {
    Reread(lines);
    JoinEnds(lines);
    JoinAppend(lines, [""] + SealLines(p, sha, date));
  }

  lemma SealCounts(lines: seq<string>, p: string, sha: string, date: string, f: string)
    requires LinesOk(lines) && WriteOk(Seal(p, sha, date)) && Count(lines, FileHeader(f)) <= 1
    ensures Count(SealedLines(lines, p, sha, date), FileHeader(f)) <= 1
  {
    var header, seal := FileHeader(p), SealLines(p, sha, date);
    SealLinesSeen(p, sha, date);
    HeaderLine(f);
    HeadersDiffer(f, p);
    if Contains(Join(lines), header) {
      SealLinesOk(p, sha, date);
      ResealedOk(lines, header, seal, false, false);
      SeenAsWritten(lines);
      SeenAsWritten(Resealed(lines, header, seal, false, false));
      ResealedCounts(lines, p, seal, false, false, FileHeader(f));
    } else {
      Reread(lines);
      if Has(lines, header) {
        SeenIsContained(Join(lines), header);
      }
      CountNone(lines, header);
      SealCountsOnce(seal, p, FileHeader(f));
      CountAppend(lines, [""] + seal, FileHeader(f));
      CountFirst("", seal, FileHeader(f));
    }
  }

  lemma SealRegions(lines: seq<string>, p: string, sha: string, date: string, q: string)
    requires Built(lines) && WriteOk(Seal(p, sha, date))
    ensures Tidy(Region(SealedLines(lines, p, sha, date), WaiverHeader(q), false))
  {
    var header, seal := FileHeader(p), SealLines(p, sha, date);
    SealLinesSeen(p, sha, date);
    SealLinesOk(p, sha, date);
    SeenAsWritten(lines);
    HeaderLine(q);
    HeadersDiffer(q, p);
    if Contains(Join(lines), header) {
      ResealedOk(lines, header, seal, false, false);
      SeenAsWritten(Resealed(lines, header, seal, false, false));
      SealKeeps(lines, p, WaiverHeader(q), seal, false, false, false);
    } else {
      SealRegionAdded(lines, seal, p, q);
    }
  }

  lemma SealRegionAdded(lines: seq<string>, seal: seq<string>, p: string, q: string)
    requires Tidy(Region(lines, WaiverHeader(q), false)) && SealShape(seal, FileHeader(p))
    ensures Tidy(Region(lines + ([""] + seal), WaiverHeader(q), false))
  {
    var region := Region(lines, WaiverHeader(q), false);
    HeaderLine(p);
    HeaderLine(q);
    HeadersDiffer(q, p);
    SealReads(seal, [], WaiverHeader(q), p, false);
    assert seal + [] == seal;
    OtherSectionRegion(lines, seal, WaiverHeader(q));
    TidyBlank(region);
    assert region + [] == region;
  }

  lemma SealBuilds(lines: seq<string>, p: string, sha: string, date: string)
    requires Built(lines) && WriteOk(Seal(p, sha, date))
    ensures Built(SealedLines(lines, p, sha, date))
  {
    SealLinesOk(p, sha, date);
    ResealedOk(lines, FileHeader(p), SealLines(p, sha, date), false, false);
    forall f {
      SealCounts(lines, p, sha, date, f);
    }
    forall q {
      SealRegions(lines, p, sha, date, q);
    }
  }

  // --- Any run ------------------------------------------------------------

  ghost predicate AllOk(writes: seq<Write>) {
    forall i :: 0 <= i < |writes| ==> WriteOk(writes[i])
  }

  lemma {:induction false} RunsBuild(writes: seq<Write>) returns (lines: seq<string>)
    requires AllOk(writes)
    ensures Built(lines) && TextAfter(writes) == Join(lines)
  {
    if writes == [] {
      lines := [];
    } else {
      var before := RunsBuild(writes[..|writes| - 1]);
      match writes[|writes| - 1]
      case Waive(path, id, reason) =>
        lines := WaiverLines(before, path, id, reason);
        WaiverWritten(before, path, id, reason);
        WaiverBuilds(before, path, id, reason);
      case Seal(path, sha, date) =>
        lines := SealedLines(before, path, sha, date);
        SealWritten(before, path, sha, date);
        SealBuilds(before, path, sha, date);
    }
  }

  /** After any run of well-formed writes, in any order and for any number of
      files, each file reads exactly the waivers granted to it, with the last
      reason given for each: a write is read back, keeps every other waiver,
      and no seal changes one. */
  lemma {:induction false} FileTellsWaivers(writes: seq<Write>, path: string)
    requires AllOk(writes)
    ensures Waivers(TextAfter(writes), path) == Granted(writes, path)
  {
    if writes != [] {
      var init, w := writes[..|writes| - 1], writes[|writes| - 1];
      FileTellsWaivers(init, path);
      var lines := RunsBuild(init);
      Reread(lines);
      match w
      case Waive(p, id, reason) =>
        WaiverWritten(lines, p, id, reason);
        if p == path {
          WaiverReadsBack(Join(lines), p, id, reason);
        } else {
          OthersStay(Join(lines), p, id, reason, path);
        }
      case Seal(p, sha, date) =>
        SealKeepsWaivers(Join(lines), p, sha, date, path);
    }
  }

  /** The condition on entries is needed: once a reason spells out the section
      header of another file, that file's first waiver is filed under the wrong
      one and not read back. */
  lemma ReasonHidesSection(p: string, q: string, id: string, id2: string, reason2: string)
    requires p != q && PathOk(p) && PathOk(q) && IdOk(id) && IdOk(id2) && ReasonOk(reason2)
    ensures var text := WaiverText(WaiverText("", p, id, WaiverHeader(q)), q, id2, reason2);
      && Waivers(text, q) == map[]
      && Waivers(text, p) == map[id := WaiverHeader(q)][id2 := reason2]
  {
    var reason, header := WaiverHeader(q), WaiverHeader(p);
    var entry := Entry(id, reason);
    var first := WaiverText("", p, id, reason);
    HeaderIsOneLine(q);
    assert reason[0] == '[' && reason[|reason| - 1] == ']';
    EmptyHasNoHeader(p);
    AddedSeen("", p, id, reason);
    NewSection("", p, id, reason);
    FirstSeen(header, entry);
    EntryLine(id, reason);
    HeadersDiffer(p, q);
    HeaderLine(q);
    ReasonInText(first, id, p, reason);
    assert !FoundAsLine(first, q);
    assert Region(Seen(first), reason, false) == [] by {
      NoRegion(Seen(first), reason);
    }
    WaiverReadsBack(first, q, id2, reason2);
    HeaderLine(p);
    OpenAfterFirst(header, entry);
    OthersStay(first, q, id2, reason2, p);
  }

  lemma EmptyHasNoHeader(p: string)
    ensures !Contains("", WaiverHeader(p))
  {
    if Contains("", WaiverHeader(p)) {
      EmptyHolds(WaiverHeader(p));
    }
  }

  lemma FirstSeen(header: string, entry: string)
    ensures Seen("") + ([""] + [header, entry]) == ["", header, entry]
  {
  }

  lemma OpenAfterFirst(header: string, entry: string)
    requires header != "" && entry != header && !StartsWith(entry, "[")
    ensures OpenAtEnd(["", header, entry], header, false)
  {
    assert ["", header, entry][1..] == [header, entry] && [header, entry][1..] == [entry] && [entry][1..] == [];
    assert OpenAtEnd([entry], header, true);
    assert OpenAtEnd([header, entry], header, false);
  }

  lemma ReasonInText(text: string, id: string, p: string, reason: string)
    requires text == WaiverText("", p, id, reason) && !Contains("", WaiverHeader(p))
    ensures Contains(text, reason)
  {
    var header := WaiverHeader(p);
    JoinThree("", header, Entry(id, reason));
    var before, after := "\n" + header + "\n" + id + " = \"", "\"\n";
    assert text == before + reason + after;
    ContainsItself(reason);
    ContainsInside(before, reason, after, reason);
  }
}
