/** Whether a file is sealed after sealing it: exactly when, for any text, and
    what every file's seal is after any run of writes. */
module CertSeals {
  import opened Prelude
  import opened CertText
  import opened CertFile
  import opened CertLaws
  import opened CertWaivers
  import opened CertRuns

  /** The lines of a section that are not blank. */
  function Filled(region: seq<string>): seq<string> {
    if region == [] then []
    else (if region[0] == "" then [] else [region[0]]) + Filled(region[1..])
  }

  /** What stands in the section of a file. */
  function SealOf(text: string, p: string): seq<string> {
    Filled(Region(Seen(text), FileHeader(p), false))
  }

  /** The text has one section for the file, which holds this sha and this date
      and nothing else. */
  predicate Sealed(text: string, p: string, sha: string, date: string) {
    && Count(Seen(text), FileHeader(p)) == 1
    && SealOf(text, p) == ["sealed_sha256 = \"" + sha + "\"", "sealed_date = \"" + date + "\""]
  }

  predicate Unsealed(text: string, p: string) {
    Count(Seen(text), FileHeader(p)) == 0
  }

  /** The search for the section finds it in the text only where a line is it. */
  predicate FoundAsSection(text: string, p: string) {
    Contains(text, FileHeader(p)) ==> Has(Seen(text), FileHeader(p))
  }

  lemma {:induction false} FilledConcat(a: seq<string>, b: seq<string>)
    ensures Filled(a + b) == Filled(a) + Filled(b)
  {
    if a == [] {
      assert a + b == b;
    } else {
      assert (a + b)[1..] == a[1..] + b;
      FilledConcat(a[1..], b);
    }
  }

  lemma FilledOne(line: string)
    ensures Filled([line]) == if line == "" then [] else [line]
  {
    assert [line][1..] == [];
  }

  // --- One seal, any text -------------------------------------------------

  /** Behind a seal, nothing is left in the section. */
  lemma {:induction false} NothingBehind(lines: seq<string>, p: string, seal: seq<string>)
    ensures Region(Trims(Resealed(lines, FileHeader(p), seal, true, true)), FileHeader(p), true) == []
  {
    if lines != [] {
      var line, rest := lines[0], lines[1..];
      if Trim(line) == FileHeader(p) || !StartsWith(Trim(line), "[") {
        NothingBehind(rest, p, seal);
        assert [] + Resealed(rest, FileHeader(p), seal, true, true) == Resealed(rest, FileHeader(p), seal, true, true);
      } else {
        TrimsOf(line, Resealed(rest, FileHeader(p), seal, false, true));
      }
    }
  }

  lemma SealStands(seal: seq<string>, rest: seq<string>, p: string, inside: bool)
    requires SealShape(seal, FileHeader(p)) && Region(rest, FileHeader(p), true) == []
    ensures Region(seal + rest, FileHeader(p), inside) == seal[1..]
  {
    HeaderLine(p);
    var all := seal + rest;
    assert all[1..][0] == seal[1] && all[1..][1..][0] == seal[2] && all[1..][1..][1..] == rest;
    assert Region(all, FileHeader(p), inside) == Region(all[1..], FileHeader(p), true);
    assert Region(all[1..][1..], FileHeader(p), true) == [seal[2]] + [];
    assert Region(all[1..], FileHeader(p), true) == [seal[1]] + [seal[2]];
    assert seal[1..] == [seal[1]] + [seal[2]];
  }

  /** The section found holds the seal. */
  lemma {:induction false} SealTakes(lines: seq<string>, p: string, seal: seq<string>)
    requires SealShape(Trims(seal), FileHeader(p))
    ensures Region(Trims(Resealed(lines, FileHeader(p), seal, false, false)), FileHeader(p), false)
         == if Has(Trims(lines), FileHeader(p)) then Trims(seal)[1..] else []
  {
    if lines != [] {
      var line, rest, file := lines[0], lines[1..], FileHeader(p);
      if Trim(line) == file {
        NothingBehind(rest, p, seal);
        TrimsAppend(seal, Resealed(rest, file, seal, true, true));
        SealStands(Trims(seal), Trims(Resealed(rest, file, seal, true, true)), p, false);
      } else {
        TrimsOf(line, Resealed(rest, file, seal, false, false));
        SealTakes(rest, p, seal);
      }
    }
  }

  lemma {:induction false} NothingResealed(lines: seq<string>, header: string, seal: seq<string>)
    requires !Has(Trims(lines), header)
    ensures Resealed(lines, header, seal, false, false) == lines
  {
    if lines != [] {
      NothingResealed(lines[1..], header, seal);
    }
  }

  lemma SealIsFilled(p: string, sha: string, date: string)
    ensures Filled(SealLines(p, sha, date)[1..]) == SealLines(p, sha, date)[1..]
  {
    var seal := SealLines(p, sha, date);
    assert seal[1..] == [seal[1]] + [seal[2]];
    FilledConcat([seal[1]], [seal[2]]);
    FilledOne(seal[1]);
    FilledOne(seal[2]);
  }

  lemma SealsFound(text: string, p: string, sha: string, date: string)
    requires '\n' !in p && '\n' !in sha && '\n' !in date && Contains(text, FileHeader(p))
    ensures if Has(Seen(text), FileHeader(p)) then Sealed(SealText(text, p, sha, date), p, sha, date)
            else SealText(text, p, sha, date) == Join(Lines(text)) && Unsealed(SealText(text, p, sha, date), p)
  {
    var seal := SealLines(p, sha, date);
    SealLinesSeen(p, sha, date);
    SealReplaced(text, p, sha, date);
    SealTakes(Lines(text), p, seal);
    HeaderLine(p);
    ResealedCounts(Lines(text), p, seal, false, false, FileHeader(p));
    SealIsFilled(p, sha, date);
    if !Has(Seen(text), FileHeader(p)) {
      NothingResealed(Lines(text), FileHeader(p), seal);
    }
  }

  lemma SealsNew(text: string, p: string, sha: string, date: string)
    requires '\n' !in p && '\n' !in sha && '\n' !in date && !Contains(text, FileHeader(p))
    ensures Sealed(SealText(text, p, sha, date), p, sha, date)
  {
    var seal, file := SealLines(p, sha, date), FileHeader(p);
    SealLinesSeen(p, sha, date);
    SealAppended(text, p, sha, date);
    if Has(Seen(text), file) {
      SeenIsContained(text, file);
    }
    HeaderLine(p);
    CountNone(Seen(text), file);
    CountAppend(Seen(text), [""] + seal, file);
    CountFirst("", seal, file);
    SealCountsOnce(seal, p, file);
    NoRegion(Seen(text), file);
    MoreReads(Seen(text), [""] + seal, file, false);
    assert ([""] + seal)[1..] == seal && seal + [] == seal;
    SealStands(seal, [], p, false);
    assert Region([""] + seal, file, false) == seal[1..] && [] + seal[1..] == seal[1..];
    SealIsFilled(p, sha, date);
  }

  /** Sealing a file leaves it sealed with this sha and date, in one section,
      exactly when the section's header is found as a line. Otherwise the text is
      what it was, but for its line ends, and the seal is lost without a word. */
  lemma SealReadsBack(text: string, p: string, sha: string, date: string)
    requires '\n' !in p && '\n' !in sha && '\n' !in date
    ensures Sealed(SealText(text, p, sha, date), p, sha, date) <==> FoundAsSection(text, p)
    ensures !FoundAsSection(text, p) ==>
              SealText(text, p, sha, date) == Join(Lines(text)) && Unsealed(SealText(text, p, sha, date), p)
  {
    if Contains(text, FileHeader(p)) {
      SealsFound(text, p, sha, date);
    } else {
      SealsNew(text, p, sha, date);
    }
  }

  // --- What other writes do to a seal -------------------------------------

  /** A seal of another file, in a text that seals that one at most once, leaves
      the section as it was. */
  lemma SealKeepsSeals(text: string, q: string, sha: string, date: string, p: string)
    requires p != q && '\n' !in q && '\n' !in sha && '\n' !in date
    requires Count(Seen(text), FileHeader(q)) <= 1
    ensures Count(Seen(SealText(text, q, sha, date)), FileHeader(p)) == Count(Seen(text), FileHeader(p))
    ensures SealOf(SealText(text, q, sha, date), p) == SealOf(text, p)
  {
    var seal, file := SealLines(q, sha, date), FileHeader(p);
    SealLinesSeen(q, sha, date);
    HeaderLine(p);
    HeaderLine(q);
    HeadersDiffer(p, q);
    if Contains(text, FileHeader(q)) {
      SealReplaced(text, q, sha, date);
      SealKeeps(Lines(text), q, file, seal, false, false, false);
      ResealedCounts(Lines(text), q, seal, false, false, file);
    } else {
      SealAppended(text, q, sha, date);
      SealCountsOnce(seal, q, file);
      SealReads(seal, [], file, q, false);
      assert seal + [] == seal;
      AddedKeepsSeals(Seen(text), seal, file);
    }
  }

  /** A blank line and a section of another kind behind the lines. */
  lemma AddedKeepsSeals(lines: seq<string>, section: seq<string>, file: string)
    requires section != [] && StartsWith(section[0], "[") && section[0] != file && file != ""
    requires Region(section[1..], file, false) == [] && Count(section, file) == 0
    ensures Count(lines + ([""] + section), file) == Count(lines, file)
    ensures Filled(Region(lines + ([""] + section), file, false)) == Filled(Region(lines, file, false))
  {
    CountAppend(lines, [""] + section, file);
    CountFirst("", section, file);
    OtherSectionRegion(lines, section, file);
    FilledConcat(Region(lines, file, false), [""]);
    FilledConcat(Region(lines, file, false), []);
    FilledOne("");
  }

  /** A waiver leaves every seal as it was, but for the section left open at the
      end of a text that holds the waiver's header other than as a line. */
  lemma WaiverKeepsSeals(text: string, q: string, id: string, reason: string, p: string)
    requires IdOk(id) && ReasonOk(reason) && '\n' !in q
    ensures Count(Seen(WaiverText(text, q, id, reason)), FileHeader(p)) == Count(Seen(text), FileHeader(p))
    ensures SealOf(WaiverText(text, q, id, reason), p) == SealOf(text, p)
         + if !FoundAsLine(text, q) && OpenAtEnd(Seen(text), FileHeader(p), false) then [Entry(id, reason)] else []
  {
    var header, entry, file := WaiverHeader(q), Entry(id, reason), FileHeader(p);
    EntryLine(id, reason);
    HeaderLine(p);
    HeaderLine(q);
    HeadersDiffer(q, p);
    if Contains(text, header) {
      PutSeen(text, q, id, reason);
      PutCounts(Lines(text), q, id, entry, false, file);
      PutKeeps(Lines(text), q, file, id, entry, false, false);
      FilledConcat(Region(Seen(text), file, false), [entry]);
      FilledConcat(Region(Seen(text), file, false), []);
      FilledOne(entry);
    } else {
      AddedSeen(text, q, id, reason);
      assert [header, entry][1..] == [entry];
      CountNone([header, entry], file);
      AddedKeepsSeals(Seen(text), [header, entry], file);
    }
  }

  // --- Any run ------------------------------------------------------------

  /** The last seal given to a file. */
  function LastSeal(writes: seq<Write>, p: string): Option<(string, string)> {
    if writes == [] then None
    else
      var w := writes[|writes| - 1];
      if w.Seal? && w.path == p then Some((w.sha, w.date)) else LastSeal(writes[..|writes| - 1], p)
  }

  ghost predicate Tells(text: string, p: string, seal: Option<(string, string)>) {
    match seal
    case None => Unsealed(text, p)
    case Some((sha, date)) => Sealed(text, p, sha, date)
  }

  /** After any run of well-formed writes, in any order and for any number of
      files, each file that was sealed has one section, with the sha and date of
      its last seal, and no other file has one. */
  lemma {:induction false} FileTellsSeals(writes: seq<Write>, p: string)
    requires AllOk(writes)
    ensures Tells(TextAfter(writes), p, LastSeal(writes, p))
  {
    if writes != [] {
      var init, w := writes[..|writes| - 1], writes[|writes| - 1];
      FileTellsSeals(init, p);
      var lines := RunsBuild(init);
      Reread(lines);
      match w
      case Waive(q, id, reason) =>
        WaiverWritten(lines, q, id, reason);
        WaiverKeepsSeals(Join(lines), q, id, reason, p);
      case Seal(q, sha, date) =>
        if q == p {
          HeaderFound(lines, FileHeader(p), p);
          SealReadsBack(Join(lines), p, sha, date);
        } else {
          SealKeepsSeals(Join(lines), q, sha, date, p);
        }
    }
  }

  /** The condition on entries is needed here, too: once a reason spells out the
      section header of a file, that file cannot be sealed for the first time. */
  lemma ReasonHidesSeal(p: string, q: string, id: string, sha: string, date: string)
    requires PathOk(p) && PathOk(q) && IdOk(id) && '\n' !in sha && '\n' !in date
    ensures var text := WaiverText("", p, id, FileHeader(q));
            SealText(text, q, sha, date) == text && Unsealed(text, q)
  {
    var reason, header := FileHeader(q), WaiverHeader(p);
    var entry, text := Entry(id, reason), WaiverText("", p, id, reason);
    HeaderIsOneLine(q);
    HeaderIsOneLine(p);
    assert reason[0] == '[' && reason[|reason| - 1] == ']';
    EmptyHasNoHeader(p);
    EntryLine(id, reason);
    HeaderLine(q);
    HeadersDiffer(p, q);
    AddedSeen("", p, id, reason);
    FirstSeen(header, entry);
    CountNone(["", header, entry], reason);
    CountNone(Seen(text), reason);
    ReasonInText(text, id, p, reason);
    SealReadsBack(text, q, sha, date);
    WrittenAgain(header, entry);
    assert text == Join(["", header, entry]);
  }

  /** A text written by the tool is what its lines make. */
  lemma WrittenAgain(header: string, entry: string)
    requires '\n' !in header && '\n' !in entry && WithoutReturn(header) == header && WithoutReturn(entry) == entry
    ensures var text := Join(["", header, entry]); Join(Lines(text)) == text
  {
    var lines := ["", header, entry];
    LinesOfJoin(lines);
    assert lines[1..] == [header, entry] && lines[1..][1..] == [entry] && lines[1..][1..][1..] == [];
    assert WithoutReturns([entry]) == [entry];
    assert WithoutReturns([header, entry]) == [header] + [entry];
  }
}
