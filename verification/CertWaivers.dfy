/** Reading a waiver back after writing it: exactly when it works, for any text. */
module CertWaivers {
  import opened Prelude
  import opened CertText
  import opened CertFile
  import opened CertLaws

  // --- Entries as the reader parses them ----------------------------------

  lemma {:induction false} StartIsBare(s: string)
    ensures var r := QuotesOffStart(s); r != [] ==> r[0] != '"'
  {
    if s != [] && s[0] == '"' {
      StartIsBare(s[1..]);
    }
  }

  lemma {:induction false} EndIsBare(s: string)
    ensures var r := QuotesOffEnd(s); |r| <= |s| && r == s[..|r|] && (r != [] ==> r[|r| - 1] != '"')
  {
    if s != [] && s[|s| - 1] == '"' {
      EndIsBare(s[..|s| - 1]);
    }
  }

  /** A quoted reason comes back unless it has a quotation mark at either end. */
  lemma ReasonSurvives(reason: string)
    ensures QuotesOff("\"" + reason + "\"") == reason <==>
      (reason != [] ==> reason[0] != '"' && reason[|reason| - 1] != '"')
  {
    var quoted := "\"" + reason + "\"";
    var open := reason + "\"";
    assert quoted[0] == '"' && quoted[1..] == open;
    StartIsBare(quoted);
    EndIsBare(QuotesOffStart(quoted));
    if reason == [] {
      assert quoted == ['"', '"'] && open == ['"'] && open[1..] == [];
      assert QuotesOffStart(open) == QuotesOffStart([]) == [];
    } else if reason[0] != '"' {
      assert QuotesOffStart(quoted) == open;
      assert open[..|open| - 1] == reason;
    }
  }

  lemma ValueParses(reason: string)
    ensures Trim(" \"" + reason + "\"") == "\"" + reason + "\""
  {
    var quoted := "\"" + reason + "\"";
    var s := " \"" + reason + "\"";
    assert s[0] == ' ' && s[1..] == quoted;
    assert quoted[0] == '"' && quoted[|quoted| - 1] == '"';
    assert TrimStart(s) == TrimStart(quoted) == quoted;
    assert TrimEnd(quoted) == quoted;
  }

  lemma KeyParses(id: string)
    requires IdOk(id)
    ensures Trim(id + " ") == id
  {
    assert id + " " == id + [' '];
    TrimMore(id, ' ');
    TrimFits(id);
  }

  lemma EqualsAt(id: string, rest: string)
    requires '=' !in id
    ensures IndexOf(id + " =" + rest, '=') == |id| + 1
  {
    IndexIn(id + " ", '=', rest);
    assert id + " =" + rest == (id + " ") + ['='] + rest;
  }

  function Key(line: string): string {
    Trim(line[..IndexOf(line, '=')])
  }

  lemma EntryParses(id: string, reason: string, m: map<string, string>)
    requires IdOk(id) && ReasonOk(reason)
    ensures Absorb(m, Entry(id, reason)) == m[id := reason] && Key(Entry(id, reason)) == id
  {
    var value := " \"" + reason + "\"";
    var line := Entry(id, reason);
    assert line == id + " =" + value;
    EqualsAt(id, value);
    assert line[..|id| + 1] == id + " " && line[|id| + 2..] == value;
    KeyParses(id);
    ValueParses(reason);
    ReasonSurvives(reason);
  }

  /** The test for an existing line finds the entries of the id and no others. */
  lemma MatchIsKey(k: string, reason: string, id: string)
    requires IdOk(k) && IdOk(id)
    ensures StartsWith(Entry(k, reason), id + " =") <==> k == id
  {
    var line := Entry(k, reason);
    EntryLine(k, reason);
    if StartsWith(line, id + " =") {
      assert line == id + " =" + line[|id| + 2..];
      EqualsAt(id, line[|id| + 2..]);
      assert line == k + " =" + (" \"" + reason + "\"");
      EqualsAt(k, " \"" + reason + "\"");
      assert k == line[..|k|] == id;
    }
  }

  // --- Tidy sections ------------------------------------------------------

  predicate IsEntry(line: string, id: string, reason: string) {
    IdOk(id) && ReasonOk(reason) && line == Entry(id, reason)
  }

  ghost predicate TidyLine(line: string) {
    line == "" || exists id, reason :: IsEntry(line, id, reason)
  }

  predicate Lacks(region: seq<string>, id: string) {
    forall i :: 0 <= i < |region| ==> region[i] != "" ==> Key(region[i]) != id
  }

  /** Blank lines and well-formed entries, no id twice. */
  ghost predicate Tidy(region: seq<string>) {
    region == [] ||
    (TidyLine(region[0]) && (region[0] != "" ==> Lacks(region[1..], Key(region[0]))) && Tidy(region[1..]))
  }

  lemma {:induction false} Overrides(m: map<string, string>, region: seq<string>, id: string, value: string)
    requires Tidy(region) && Lacks(region, id)
    ensures AbsorbAll(m[id := value], region) == AbsorbAll(m, region)[id := value]
    decreases |region|
  {
    if region != [] {
      var line := region[0];
      if line == "" {
        Overrides(m, region[1..], id, value);
      } else {
        var k, reason :| IsEntry(line, k, reason);
        EntryParses(k, reason, m);
        EntryParses(k, reason, m[id := value]);
        assert m[id := value][k := reason] == m[k := reason][id := value];
        Overrides(m[k := reason], region[1..], id, value);
      }
    }
  }

  lemma BlankIsNoEntry(id: string)
    ensures !StartsWith("", id + " =")
  {
  }

  lemma AbsorbTwice(m: map<string, string>, k: string, was: string, id: string, reason: string)
    requires k == id
    ensures m[k := was][id := reason] == m[id := reason]
  {
  }

  /** The first line of a region is an entry: it is the one rewritten, or not. */
  lemma PutReadsFirst(m: map<string, string>, rest: seq<string>, k: string, was: string, id: string, reason: string)
    requires Tidy(rest) && Lacks(rest, k) && IdOk(k) && ReasonOk(was) && IdOk(id) && ReasonOk(reason)
    requires AbsorbAll(m[k := was], PutRegion(rest, id, Entry(id, reason))) == AbsorbAll(m[k := was], rest)[id := reason]
    ensures var region := [Entry(k, was)] + rest;
      AbsorbAll(m, PutRegion(region, id, Entry(id, reason))) == AbsorbAll(m, region)[id := reason]
  {
    var region, entry := [Entry(k, was)] + rest, Entry(id, reason);
    assert region[1..] == rest;
    EntryParses(k, was, m);
    MatchIsKey(k, was, id);
    if k == id {
      EntryParses(id, reason, m);
      assert PutRegion(region, id, entry) == [entry] + rest;
      assert ([entry] + rest)[1..] == rest;
      Overrides(m, rest, id, was);
      Overrides(m, rest, id, reason);
      AbsorbTwice(AbsorbAll(m, rest), k, was, id, reason);
    } else {
      assert PutRegion(region, id, entry) == [Entry(k, was)] + PutRegion(rest, id, entry);
      assert ([Entry(k, was)] + PutRegion(rest, id, entry))[1..] == PutRegion(rest, id, entry);
    }
  }

  lemma {:induction false} PutReadsBack(m: map<string, string>, region: seq<string>, id: string, reason: string)
    requires Tidy(region) && IdOk(id) && ReasonOk(reason)
    ensures AbsorbAll(m, PutRegion(region, id, Entry(id, reason))) == AbsorbAll(m, region)[id := reason]
    decreases |region|
  {
    if region == [] {
      EntryParses(id, reason, m);
    } else if region[0] == "" {
      BlankIsNoEntry(id);
      PutReadsBack(m, region[1..], id, reason);
    } else {
      var k, was :| IsEntry(region[0], k, was);
      EntryParses(k, was, m);
      PutReadsBack(m[k := was], region[1..], id, reason);
      PutReadsFirst(m, region[1..], k, was, id, reason);
      assert region == [Entry(k, was)] + region[1..];
    }
  }

  lemma {:induction false} PutLacks(region: seq<string>, id: string, entry: string, k: string)
    requires Lacks(region, k) && (entry != "" ==> Key(entry) != k)
    ensures Lacks(PutRegion(region, id, entry), k)
  {
    if region != [] && !StartsWith(region[0], id + " =") {
      assert Lacks(region[1..], k);
      PutLacks(region[1..], id, entry, k);
    }
  }

  lemma {:induction false} PutStaysTidy(region: seq<string>, id: string, reason: string)
    requires Tidy(region) && IdOk(id) && ReasonOk(reason)
    ensures Tidy(PutRegion(region, id, Entry(id, reason)))
  {
    var entry := Entry(id, reason);
    assert IsEntry(entry, id, reason);
    EntryParses(id, reason, map[]);
    if region != [] {
      if region[0] == "" {
        BlankIsNoEntry(id);
      } else {
        var k, was :| IsEntry(region[0], k, was);
        EntryParses(k, was, map[]);
        MatchIsKey(k, was, id);
        if k != id {
          PutLacks(region[1..], id, entry, k);
        }
      }
      PutStaysTidy(region[1..], id, reason);
    }
  }

  // --- A header that a line holds is in the text --------------------------

  lemma ContainsInside(a: string, b: string, c: string, part: string)
    requires Contains(b, part)
    ensures Contains(a + b + c, part)
  {
    var i :| 0 <= i <= |b| && StartsWith(b[i..], part);
    assert (a + b + c)[|a| + i..][..|part|] == b[i..][..|part|];
    assert StartsWith((a + b + c)[|a| + i..], part);
  }

  lemma {:induction false} TrimStartContained(s: string)
    ensures exists a :: s == a + TrimStart(s)
  {
    if s != [] && White(s[0]) {
      TrimStartContained(s[1..]);
      var a :| s[1..] == a + TrimStart(s[1..]);
      assert s == ([s[0]] + a) + TrimStart(s);
    } else {
      assert s == [] + TrimStart(s);
    }
  }

  lemma {:induction false} TrimEndContained(s: string)
    ensures exists c :: s == TrimEnd(s) + c
  {
    if s != [] && White(s[|s| - 1]) {
      TrimEndContained(s[..|s| - 1]);
      var c :| s[..|s| - 1] == TrimEnd(s[..|s| - 1]) + c;
      assert s == TrimEnd(s) + (c + [s[|s| - 1]]);
    } else {
      assert s == TrimEnd(s) + [];
    }
  }

  lemma ContainsItself(s: string)
    ensures Contains(s, s)
  {
    assert s[0..] == s && StartsWith(s[0..], s);
  }

  lemma TrimContained(s: string)
    ensures Contains(s, Trim(s))
  {
    TrimStartContained(s);
    TrimEndContained(TrimStart(s));
    var a :| s == a + TrimStart(s);
    var c :| TrimStart(s) == Trim(s) + c;
    ContainsItself(Trim(s));
    ContainsInside(a, Trim(s), c, Trim(s));
    assert s == a + Trim(s) + c;
  }

  lemma ContainsFirst(line: string, rest: string, part: string)
    requires Contains(line, part)
    ensures Contains(line + "\n" + rest, part)
  {
    ContainsInside([], line, "\n" + rest, part);
    assert line + "\n" + rest == [] + line + ("\n" + rest);
  }

  lemma ContainsLater(line: string, rest: string, part: string)
    requires Contains(rest, part)
    ensures Contains(line + "\n" + rest, part)
  {
    ContainsInside(line + "\n", rest, [], part);
    assert line + "\n" + rest == (line + "\n") + rest + [];
  }

  lemma {:induction false} SeenIsContained(text: string, header: string)
    requires Has(Seen(text), header)
    ensures Contains(text, header)
    decreases |text|
  {
    var i := IndexOf(text, '\n');
    if text != [] && i == |text| {
      TrimContained(text);
    } else if text != [] {
      var line, rest := text[..i], text[i + 1..];
      SplitAt(text, i);
      TrimWithoutReturn(line);
      if Trim(line) == header {
        TrimContained(line);
        ContainsFirst(line, rest, header);
      } else {
        SeenIsContained(rest, header);
        ContainsLater(line, rest, header);
      }
    }
  }

  // --- One write, any text ------------------------------------------------

  /** The search for the section finds it in the text only where a line is it. */
  predicate FoundAsLine(text: string, path: string) {
    Contains(text, WaiverHeader(path)) ==> Has(Seen(text), WaiverHeader(path))
  }

  lemma {:induction false} NoRegion(lines: seq<string>, header: string)
    requires !Has(lines, header)
    ensures Region(lines, header, false) == [] && !OpenAtEnd(lines, header, false)
  {
    if lines != [] {
      NoRegion(lines[1..], header);
    }
  }

  lemma NewSectionReads(lines: seq<string>, header: string, entry: string)
    requires !Has(lines, header) && header != "" && entry != header && !StartsWith(entry, "[")
    ensures Region(lines, header, false) == []
    ensures Region(lines + ([""] + [header, entry]), header, false) == [entry]
  {
    NoRegion(lines, header);
    var more := [""] + [header, entry];
    MoreReads(lines, more, header, false);
    assert more[1..] == [header, entry] && [header, entry][1..] == [entry] && [entry][1..] == [];
    assert Region([entry], header, true) == [entry];
    assert Region([header, entry], header, false) == [entry];
  }

  lemma NewSection(text: string, path: string, id: string, reason: string)
    requires IdOk(id) && ReasonOk(reason) && '\n' !in path && !Contains(text, WaiverHeader(path))
    ensures Waivers(text, path) == map[] && Waivers(WaiverText(text, path, id, reason), path) == map[id := reason]
  {
    var header, entry := WaiverHeader(path), Entry(id, reason);
    EntryLine(id, reason);
    HeaderLine(path);
    AddedSeen(text, path, id, reason);
    if Has(Seen(text), header) {
      SeenIsContained(text, header);
    }
    NewSectionReads(Seen(text), header, entry);
    EntryParses(id, reason, map[]);
    assert AbsorbAll(map[], [entry]) == AbsorbAll(Absorb(map[], entry), []);
  }

  lemma OldSection(text: string, path: string, id: string, reason: string)
    requires IdOk(id) && ReasonOk(reason) && Contains(text, WaiverHeader(path))
    requires Tidy(Region(Seen(text), WaiverHeader(path), false))
    ensures Waivers(WaiverText(text, path, id, reason), path)
         == if Has(Seen(text), WaiverHeader(path)) then Waivers(text, path)[id := reason] else map[]
  {
    EntryLine(id, reason);
    PutSeen(text, path, id, reason);
    PutReads(Lines(text), path, id, Entry(id, reason), false);
    PutReadsBack(map[], Region(Seen(text), WaiverHeader(path), false), id, reason);
  }

  /** A waiver written into a tidy section is read back, and the others of the
      file with it, exactly when the section's header is found as a line. */
  lemma WaiverReadsBack(text: string, path: string, id: string, reason: string)
    requires IdOk(id) && ReasonOk(reason) && '\n' !in path
    requires Tidy(Region(Seen(text), WaiverHeader(path), false))
    ensures Waivers(WaiverText(text, path, id, reason), path) == Waivers(text, path)[id := reason]
       <==> FoundAsLine(text, path)
    ensures !FoundAsLine(text, path) ==> Waivers(WaiverText(text, path, id, reason), path) == map[]
  {
    if Contains(text, WaiverHeader(path)) {
      OldSection(text, path, id, reason);
      assert id in Waivers(text, path)[id := reason];
    } else {
      NewSection(text, path, id, reason);
    }
  }

  lemma OthersStayWhenAdded(text: string, p: string, id: string, reason: string, q: string)
    requires p != q && IdOk(id) && ReasonOk(reason) && '\n' !in p && !Contains(text, WaiverHeader(p))
    ensures Waivers(WaiverText(text, p, id, reason), q) == Waivers(text, q)
  {
    var header, entry := WaiverHeader(p), Entry(id, reason);
    EntryLine(id, reason);
    AddedSeen(text, p, id, reason);
    HeaderLine(p);
    HeaderLine(q);
    HeadersDiffer(p, q);
    assert [header, entry][1..] == [entry];
    OtherSectionReads(Seen(text), [header, entry], WaiverHeader(q));
  }

  /** Whatever the text, the waivers of other files stay, but for the section
      left open at the end of a text that holds the header other than as a line. */
  lemma OthersStay(text: string, p: string, id: string, reason: string, q: string)
    requires p != q && IdOk(id) && ReasonOk(reason) && '\n' !in p
    ensures Waivers(WaiverText(text, p, id, reason), q)
         == if !FoundAsLine(text, p) && OpenAtEnd(Seen(text), WaiverHeader(q), false)
            then Waivers(text, q)[id := reason] else Waivers(text, q)
  {
    if Contains(text, WaiverHeader(p)) {
      var entry := Entry(id, reason);
      var region := Region(Seen(text), WaiverHeader(q), false);
      EntryLine(id, reason);
      PutSeen(text, p, id, reason);
      HeaderLine(q);
      HeadersDiffer(p, q);
      PutKeeps(Lines(text), p, WaiverHeader(q), id, entry, false, false);
      AbsorbMore(map[], region, [entry]);
      EntryParses(id, reason, AbsorbAll(map[], region));
      assert region + [] == region;
    } else {
      OthersStayWhenAdded(text, p, id, reason, q);
    }
  }
}
