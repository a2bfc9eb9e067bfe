/** The certificate file: seals and waivers of source files, kept as sections
    of a text that is rewritten line by line. */
module CertFile {
  import opened Prelude
  import opened CertText

  function WaiverHeader(path: string): string {
    "[files.\"" + path + "\".waivers]"
  }

  function FileHeader(path: string): string {
    "[files.\"" + path + "\"]"
  }

  function Entry(id: string, reason: string): string {
    id + " = \"" + reason + "\""
  }

  /** The lines of one file's waivers: those after its header, up to a line that
      opens another section. `inside` says whether the header has been seen. */
  function Region(lines: seq<string>, header: string, inside: bool): seq<string> {
    if lines == [] then []
    else if lines[0] == header then Region(lines[1..], header, true)
    else if inside && StartsWith(lines[0], "[") then []
    else if inside then [lines[0]] + Region(lines[1..], header, true)
    else Region(lines[1..], header, false)
  }

  /** One line of a waiver section added to the waivers read so far. */
  function Absorb(waivers: map<string, string>, line: string): map<string, string> {
    var i := IndexOf(line, '=');
    if i == |line| then waivers
    else waivers[Trim(line[..i]) := QuotesOff(Trim(line[i + 1..]))]
  }

  function AbsorbAll(waivers: map<string, string>, lines: seq<string>): map<string, string>
    decreases |lines|
  {
    if lines == [] then waivers else AbsorbAll(Absorb(waivers, lines[0]), lines[1..])
  }

  function Waivers(text: string, path: string): map<string, string> {
    AbsorbAll(map[], Region(Trims(Lines(text)), WaiverHeader(path), false))
  }

  lemma TrimsAt(lines: seq<string>, i: nat)
    requires i < |lines|
    ensures Trims(lines[i..]) == [Trim(lines[i])] + Trims(lines[i + 1..])
  {
    assert lines[i..][1..] == lines[i + 1..];
  }

  method ReadWaivers(text: string, path: string) returns (waivers: map<string, string>)
    ensures waivers == Waivers(text, path)
  {
    var section := WaiverHeader(path);
    waivers := map[];
    var inSection := false;
    var lines := Lines(text);
    assert lines[0..] == lines;
    var i := 0;
    while i < |lines|
      invariant i <= |lines|
      invariant AbsorbAll(waivers, Region(Trims(lines[i..]), section, inSection)) == Waivers(text, path)
    {
      TrimsAt(lines, i);
      var t := Trim(lines[i]);
      if t == section {
        inSection := true;
      } else if inSection {
        if StartsWith(t, "[") {
          return;
        }
        var at := IndexOf(t, '=');
        if at < |t| {
          waivers := waivers[Trim(t[..at]) := QuotesOff(Trim(t[at + 1..]))];
        }
      }
      i := i + 1;
    }
  }

  /** The lines after a waiver has been put into the section of `header`: over
      the line of the same id, else before the next section or at the end. */
  function PutLines(lines: seq<string>, header: string, id: string, entry: string, inside: bool): seq<string> {
    if lines == [] then [entry]
    else if Trim(lines[0]) == header then [lines[0]] + PutLines(lines[1..], header, id, entry, true)
    else if inside && StartsWith(Trim(lines[0]), id + " =") then [entry] + lines[1..]
    else if inside && StartsWith(Trim(lines[0]), "[") then [entry] + lines
    else [lines[0]] + PutLines(lines[1..], header, id, entry, inside)
  }

  function WaiverText(existing: string, path: string, id: string, reason: string): string {
    var header, entry := WaiverHeader(path), Entry(id, reason);
    if Contains(existing, header) then Join(PutLines(Lines(existing), header, id, entry, false))
    else Ended(existing) + Join(["", header, entry])
  }

  lemma PushLine(out: string, line: string, rest: seq<string>)
    ensures (out + line + "\n") + Join(rest) == out + Join([line] + rest)
  {
    assert ([line] + rest)[1..] == rest;
  }

  lemma {:induction false} JoinAppend(a: seq<string>, b: seq<string>)
    ensures Join(a + b) == Join(a) + Join(b)
  {
    if a == [] {
      assert a + b == b;
    } else {
      assert (a + b)[1..] == a[1..] + b;
      JoinAppend(a[1..], b);
    }
  }

  lemma JoinThree(a: string, b: string, c: string)
    ensures Join([a, b, c]) == a + "\n" + (b + "\n" + (c + "\n"))
  {
    assert [a, b, c][1..] == [b, c] && [b, c][1..] == [c] && [c][1..] == [];
    assert Join([c]) == c + "\n" + Join([]) == c + "\n";
    assert Join([b, c]) == b + "\n" + Join([c]);
  }

  method WriteWaiver(existing: string, path: string, id: string, reason: string) returns (out: string)
    ensures out == WaiverText(existing, path, id, reason)
  {
    var section := WaiverHeader(path);
    if Contains(existing, section) {
      out := InsertWaiver(existing, section, id, Entry(id, reason));
    } else {
      out := existing;
      if out != [] && out[|out| - 1] != '\n' {
        out := out + "\n";
      }
      assert out == Ended(existing);
      var added := "\n" + section + "\n" + (Entry(id, reason) + "\n");
      JoinThree("", section, Entry(id, reason));
      assert added == Join(["", section, Entry(id, reason)]);
      out := out + added;
    }
  }

  method InsertWaiver(existing: string, section: string, id: string, entry: string) returns (out: string)
    ensures out == Join(PutLines(Lines(existing), section, id, entry, false))
  {
    out := "";
    var inSection, inserted := false, false;
    var lines := Lines(existing);
    ghost var all := Join(PutLines(lines, section, id, entry, false));
    assert lines[0..] == lines;
    var i := 0;
    while i < |lines|
      invariant i <= |lines|
      invariant all == out + Join(if inserted then lines[i..] else PutLines(lines[i..], section, id, entry, inSection))
    {
      var line := lines[i];
      ghost var later := lines[i + 1..];
      assert lines[i..] == [line] + later;
      i := i + 1;
      if Trim(line) == section {
        PushLine(out, line, if inserted then later else PutLines(later, section, id, entry, true));
        inSection := true;
        out := out + line + "\n";
      } else if inSection && !inserted && StartsWith(Trim(line), id + " =") {
        PushLine(out, entry, later);
        inserted := true;
        out := out + entry + "\n";
      } else {
        if inSection && !inserted && StartsWith(Trim(line), "[") {
          PushLine(out, entry, [line] + later);
          out := out + entry + "\n";
          inserted := true;
          inSection := false;
        }
        PushLine(out, line, if inserted then later else PutLines(later, section, id, entry, inSection));
        out := out + line + "\n";
      }
    }
    if !inserted {
      PushLine(out, entry, []);
      out := out + entry + "\n";
    }
  }

  function SealLines(path: string, sha: string, date: string): seq<string> {
    [FileHeader(path), "sealed_sha256 = \"" + sha + "\"", "sealed_date = \"" + date + "\""]
  }

  /** The lines after the first section of `header` has become `seal` and its
      other sections are gone. */
  function Resealed(lines: seq<string>, header: string, seal: seq<string>, inside: bool, replaced: bool): seq<string> {
    if lines == [] then []
    else if Trim(lines[0]) == header then
      (if replaced then [] else seal) + Resealed(lines[1..], header, seal, true, true)
    else if inside && !StartsWith(Trim(lines[0]), "[") then Resealed(lines[1..], header, seal, true, replaced)
    else [lines[0]] + Resealed(lines[1..], header, seal, false, replaced)
  }

  function SealText(existing: string, path: string, sha: string, date: string): string {
    var header, seal := FileHeader(path), SealLines(path, sha, date);
    if Contains(existing, header) then Join(Resealed(Lines(existing), header, seal, false, false))
    else Ended(existing) + Join([""] + seal)
  }

  method WriteSeal(existing: string, path: string, sha: string, date: string) returns (out: string)
    ensures out == SealText(existing, path, sha, date)
  {
    var section := FileHeader(path);
    ghost var seal := SealLines(path, sha, date);
    var newSeal := section + "\n" + ("sealed_sha256 = \"" + sha + "\"" + "\n" + ("sealed_date = \"" + date + "\"" + "\n"));
    JoinThree(seal[0], seal[1], seal[2]);
    if Contains(existing, section) {
      out := ReplaceSeal(existing, section, newSeal, seal);
    } else {
      out := AppendSeal(existing, newSeal, seal);
    }
  }

  method AppendSeal(existing: string, newSeal: string, ghost seal: seq<string>) returns (out: string)
    requires newSeal == Join(seal)
    ensures out == Ended(existing) + Join([""] + seal)
  {
    out := existing;
    if out != [] && out[|out| - 1] != '\n' {
      out := out + "\n";
    }
    PushLine(out, "", seal);
    out := out + "\n";
    out := out + newSeal;
  }

  lemma PushSeal(out: string, seal: seq<string>, rest: seq<string>)
    ensures (out + Join(seal)) + Join(rest) == out + Join(seal + rest)
  {
    JoinAppend(seal, rest);
  }

  method ReplaceSeal(existing: string, section: string, newSeal: string, ghost seal: seq<string>) returns (out: string)
    requires newSeal == Join(seal)
    ensures out == Join(Resealed(Lines(existing), section, seal, false, false))
  {
    out := "";
    var inSection, replaced := false, false;
    var lines := Lines(existing);
    ghost var all := Join(Resealed(lines, section, seal, false, false));
    assert lines[0..] == lines;
    var i := 0;
    while i < |lines|
      invariant i <= |lines|
      invariant all == out + Join(Resealed(lines[i..], section, seal, inSection, replaced))
    {
      var line := lines[i];
      ghost var later := lines[i + 1..];
      assert lines[i..] == [line] + later;
      i := i + 1;
      if Trim(line) == section {
        if !replaced {
          PushSeal(out, seal, Resealed(later, section, seal, true, true));
          out := out + newSeal;
        } else {
          assert [] + Resealed(later, section, seal, true, true) == Resealed(later, section, seal, true, true);
        }
        inSection := true;
        replaced := true;
      } else if !inSection || StartsWith(Trim(line), "[") {
        PushLine(out, line, Resealed(later, section, seal, false, replaced));
        inSection := false;
        out := out + line + "\n";
      }
    }
  }
}
