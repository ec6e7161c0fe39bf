/**
  * What `from_dia_format` does to any text, not only to written documents: the lines it passes
  * over, how the series grows (and how a bad value leaves it), and how conservatively the
  * Settings, DiaInfo and CustomColors sections update their fields.
  */
module DiaReading {
  import opened Wrappers
  import opened Text
  import Numeral
  import opened DiaFormat
  import opened DiaLaws

  // ---------------------------------------------------------------------------
  // Lines the reader passes over.

  /** A comment, a blank line or the format header, once stripped. */
  predicate Ignorable(raw: string) {
    var line := Strip(raw);
    line == [] || line[0] == '#' || (IsBracketed(line) && Inner(line) == TypeMarker)
  }

  /** The sections whose lines the reader acts on. */
  predicate KnownSection(section: Option<string>) {
    section == Some(SettingsSection) || section == Some(DataSection)
    || section == Some(InfoSection) || section == Some(CustomSection)
  }

  lemma StepIgnorable(scan: Scan, raw: string)
    requires Ignorable(raw)
    ensures Step(scan, raw) == Running(scan)
  {
  }

  /** An ignorable line may be inserted anywhere in a text without changing what is read. */
  lemma RunIgnorable(scan: Scan, a: seq<string>, x: string, b: seq<string>)
    requires Ignorable(x)
    ensures Run(scan, a + [x] + b) == Run(scan, a + b)
  {
    RunAppend(scan, a + [x], b);
    RunAppend(scan, a, b);
    RunSnoc(scan, a, x);
    match Run(scan, a) {
      case Failed(p) =>
      case Running(s) =>
        RunOne(s, x);
        StepIgnorable(s, x);
    }
  }

  /**
    * Before the first section marker, or inside a section the reader does not know, no line changes
    * the project: it is skipped or, if it is a `[__X__]` line, changes the current section.
    */
  lemma OutsideSectionsKeepProject(scan: Scan, raw: string)
    requires !KnownSection(scan.section)
    ensures Step(scan, raw).Running?
    ensures Step(scan, raw).scan.project == scan.project
  {
  }

  /** Only a `[__X__]` line changes the current section, and it makes `__X__` current. */
  lemma SectionChangesOnlyAtMarkers(scan: Scan, raw: string)
    ensures Step(scan, raw).Running? && Step(scan, raw).scan.section != scan.section
            ==> Classify(Strip(raw)).Marker? && Step(scan, raw).scan.section == Some(Classify(Strip(raw)).section)
  {
  }

  // ---------------------------------------------------------------------------
  // The series: appended to, never rewritten.

  /** The series of `q` continues that of `p`. */
  predicate SeriesExtends(p: Project, q: Project) {
    p.labels <= q.labels && p.values <= q.values && p.colors <= q.colors
  }

  /**
    * One line keeps aligned lists aligned, or, when `float()` rejects the value of a data line,
    * stops the read with the label of that line appended and nothing else.
    */
  lemma StepSeries(scan: Scan, raw: string)
    requires Aligned(scan.project)
    ensures match Step(scan, raw)
      case Running(s) => Aligned(s.project) && SeriesExtends(scan.project, s.project)
      case Failed(q) =>
        && |q.labels| == |scan.project.labels| + 1
        && q == scan.project.(labels := q.labels)
        && SeriesExtends(scan.project, q)
  {
    var line := Strip(raw);
    var p := scan.project;
    if Classify(line) == Content {
      if scan.section == Some(SettingsSection) {
        SettingsKeepsSeries(p, line);
      } else if scan.section == Some(DataSection) {
        DataStepSeries(scan, line);
      } else if scan.section == Some(InfoSection) {
        InfoKeepsSeries(p, line);
      } else if scan.section == Some(CustomSection) {
        CustomKeepsSeries(p, line);
      }
    }
  }

  lemma SettingsKeepsSeries(p: Project, line: string)
    ensures var r := SettingsStep(p, line); r.labels == p.labels && r.values == p.values && r.colors == p.colors
  {
  }

  lemma InfoKeepsSeries(p: Project, line: string)
    ensures var r := InfoStep(p, line); r.labels == p.labels && r.values == p.values && r.colors == p.colors
  {
  }

  lemma CustomKeepsSeries(p: Project, line: string)
    ensures var r := CustomStep(p, line); r.labels == p.labels && r.values == p.values && r.colors == p.colors
  {
  }

  lemma DataStepSeries(scan: Scan, line: string)
    requires Aligned(scan.project)
    ensures match DataStep(scan, line)
      case Running(s) => Aligned(s.project) && SeriesExtends(scan.project, s.project) && s.section == scan.section
      case Failed(q) =>
        && |q.labels| == |scan.project.labels| + 1
        && q == scan.project.(labels := q.labels)
        && SeriesExtends(scan.project, q)
  {
  }

  /**
    * A whole read from an aligned project: if it gets to the end, the lists are still aligned;
    * if a value is rejected, `labels` is one longer than `values` and `colors`. Either way the old
    * series is a prefix of the new one.
    */
  lemma {:induction false} RunSeries(scan: Scan, lines: seq<string>)
    requires Aligned(scan.project)
    ensures match Run(scan, lines)
      case Running(s) => Aligned(s.project) && SeriesExtends(scan.project, s.project)
      case Failed(q) =>
        && |q.labels| == |q.values| + 1 && |q.labels| == |q.colors| + 1
        && SeriesExtends(scan.project, q)
    decreases |lines|
  {
    if lines != [] {
      var init := lines[..|lines| - 1];
      RunSeries(scan, init);
      match Run(scan, init) {
        case Failed(q) =>
        case Running(s) => StepSeries(s, lines[|lines| - 1]);
      }
    }
  }

  /**
    * `from_dia_format` on an aligned project appends to its series. It returns True with the
    * lists still aligned, or False with one label more than there are values and colours.
    */
  lemma FromDiaSeries(p: Project, text: string)
    requires Aligned(p)
    ensures var (q, ok) := FromDia(p, text);
      && SeriesExtends(p, q)
      && (ok ==> Aligned(q))
      && (!ok ==> |q.labels| == |q.values| + 1 && |q.labels| == |q.colors| + 1)
  {
    RunSeries(Scan(p, None), Split(text, '\n'));
  }

  /** In the Data section a line that is not bracketed, or does not split into exactly three `|`-parts, is skipped. */
  lemma DataLineSkipped(scan: Scan, raw: string)
    requires scan.section == Some(DataSection) && Classify(Strip(raw)) == Content
    requires !IsBracketed(Strip(raw)) || |StripAll(Split(Inner(Strip(raw)), '|'))| != 3
    ensures Step(scan, raw) == Running(scan)
  {
  }

  /**
    * A data line whose middle part is not a number ends the read at once: the label of that line
    * has been appended, and no later line is looked at.
    */
  lemma BadValueStops(scan: Scan, a: seq<string>, s: Scan, raw: string, b: seq<string>)
    requires Run(scan, a) == Running(s) && s.section == Some(DataSection)
    requires Classify(Strip(raw)) == Content && IsBracketed(Strip(raw))
    requires var parts := StripAll(Split(Inner(Strip(raw)), '|'));
      |parts| == 3 && Numeral.Parse(parts[1]).None?
    ensures var parts := StripAll(Split(Inner(Strip(raw)), '|'));
      Run(scan, a + [raw] + b) == Failed(s.project.(labels := s.project.labels + [parts[0]]))
  {
    RunSnocStep(scan, a, s, raw);
    RunAppend(scan, a + [raw], b);
  }

  /** Once the read has failed, no later line is looked at. */
  lemma RunStopped(scan: Scan, lines: seq<string>, k: nat)
    requires k <= |lines| && Run(scan, lines[..k]).Failed?
    ensures Run(scan, lines) == Run(scan, lines[..k])
  {
    assert lines == lines[..k] + lines[k..];
    RunAppend(scan, lines[..k], lines[k..]);
  }

  // ---------------------------------------------------------------------------
  // Conservative updates of the other sections.

  /** A value captured by `"([^"]+)"`: non-empty and free of double quotes. */
  predicate Captured(v: string) {
    v != [] && '"' !in v
  }

  lemma {:induction false} SettingsMatchCaptures(s: string, i: nat)
    ensures SettingsMatchAt(s, i).Some? ==> Captured(SettingsMatchAt(s, i).value.0) && Captured(SettingsMatchAt(s, i).value.1)
  {
  }

  lemma {:induction false} SearchSettingsCaptures(s: string, i: nat)
    requires i <= |s|
    ensures SearchSettings(s, i).Some? ==> Captured(SearchSettings(s, i).value.0) && Captured(SearchSettings(s, i).value.1)
    decreases |s| - i
  {
    if i < |s| {
      SettingsMatchCaptures(s, i);
      SearchSettingsCaptures(s, i + 1);
    }
  }

  /** `created="C" modified="M"`: the text the Settings pattern matches, with groups `C` and `M`. */
  function SettingsText(created: string, modified: string): string {
    CreatedOpen + created + ModifiedInfix + modified + "\""
  }

  lemma SettingsMatchText(s: string, i: nat)
    ensures SettingsMatchAt(s, i).Some? ==>
      OccursAt(s, SettingsText(SettingsMatchAt(s, i).value.0, SettingsMatchAt(s, i).value.1), i)
  {
    if SettingsMatchAt(s, i).Some? {
      var j := i + |CreatedOpen|;
      var e := QuoteFrom(s, j);
      var k := e + |ModifiedInfix|;
      var f := QuoteFrom(s, k);
      assert SettingsMatchAt(s, i) == Some((s[j..e], s[k..f]));
      assert s[i..j] == CreatedOpen && s[e..k] == ModifiedInfix;
      SettingsPieces(s, i, j, e, k, f);
    }
  }

  /** The five pieces the Settings pattern matches, laid end to end from index `i`. */
  lemma SettingsPieces(s: string, i: nat, j: nat, e: nat, k: nat, f: nat)
    requires i <= j <= e <= k <= f < |s|
    requires s[i..j] == CreatedOpen && s[e..k] == ModifiedInfix && s[f] == '"'
    ensures OccursAt(s, SettingsText(s[j..e], s[k..f]), i)
  {
    assert s[f..f + 1] == "\"";
    SliceFive(s, i, j, e, k, f, f + 1);
  }

  lemma {:induction false} SearchSettingsText(s: string, i: nat)
    requires i <= |s|
    ensures SearchSettings(s, i).Some? ==>
      Contains(s, SettingsText(SearchSettings(s, i).value.0, SearchSettings(s, i).value.1))
    decreases |s| - i
  {
    if i < |s| {
      SettingsMatchText(s, i);
      SearchSettingsText(s, i + 1);
    }
  }

  /**
    * A Settings line changes both timestamps or neither. When it changes them, the line mentions
    * `Project Settings:` and contains `created="C" modified="M"` for the new values `C` and `M`,
    * both non-empty and free of quotes; a line missing `created="` or `" modified="` changes nothing.
    */
  lemma SettingsBothOrNeither(p: Project, line: string)
    ensures var r := SettingsStep(p, line);
      || r == p
      || (&& r == p.(created := r.created, modified := r.modified)
          && Captured(r.created) && Captured(r.modified)
          && Contains(line, SettingsKey) && Contains(line, SettingsText(r.created, r.modified)))
    ensures !Contains(line, CreatedOpen) || !Contains(line, ModifiedInfix) ==> SettingsStep(p, line) == p
  {
    if Contains(line, SettingsKey) && SearchSettings(line, 0).Some? {
      var m := SearchSettings(line, 0).value;
      SearchSettingsCaptures(line, 0);
      SearchSettingsText(line, 0);
      var t := SettingsText(m.0, m.1);
      assert t == [] + CreatedOpen + (m.0 + ModifiedInfix + m.1 + "\"");
      assert t == (CreatedOpen + m.0) + ModifiedInfix + (m.1 + "\"");
      ContainsMiddle(line, [], CreatedOpen, m.0 + ModifiedInfix + m.1 + "\"");
      ContainsMiddle(line, CreatedOpen + m.0, ModifiedInfix, m.1 + "\"");
    }
  }

  lemma AttributeMatchCaptures(s: string, key: string, i: nat)
    ensures AttributeMatchAt(s, key, i).Some? ==> Captured(AttributeMatchAt(s, key, i).value) && '"' in s
  {
  }

  lemma {:induction false} SearchAttributeCaptures(s: string, key: string, i: nat)
    requires i <= |s|
    ensures SearchAttribute(s, key, i).Some? ==> Captured(SearchAttribute(s, key, i).value) && '"' in s
    decreases |s| - i
  {
    if i < |s| {
      AttributeMatchCaptures(s, key, i);
      SearchAttributeCaptures(s, key, i + 1);
    }
  }

  /**
    * `key`, then optional white space, then `"v"`, somewhere in `s`: an occurrence that the pattern
    * `key\s*"([^"]+)"` matches with the group `v`.
    */
  predicate QuotedAfter(s: string, key: string, v: string) {
    exists i: nat | i + |key| <= |s| :: OccursAt(s, key, i) && StartsWith(TrimLeft(s[i + |key|..]), "\"" + v + "\"")
  }

  lemma AttributeMatchQuoted(s: string, key: string, i: nat)
    ensures AttributeMatchAt(s, key, i).Some? ==> QuotedAfter(s, key, AttributeMatchAt(s, key, i).value)
  {
    if AttributeMatchAt(s, key, i).Some? {
      var j := i + |key|;
      TrimLeftTail(s, j);
      var k := |s| - |TrimLeft(s[j..])|;
      var f := QuoteFrom(s, k + 1);
      assert AttributeMatchAt(s, key, i) == Some(s[k + 1..f]);
      QuotedWitness(s, key, i, k, f);
    }
  }

  /** `key` at `i`, white space, then a quote at `k` closed at `f`: a `QuotedAfter` occurrence. */
  lemma QuotedWitness(s: string, key: string, i: nat, k: nat, f: nat)
    requires OccursAt(s, key, i) && i + |key| <= k < f < |s|
    requires TrimLeft(s[i + |key|..]) == s[k..]
    requires s[k] == '"' && s[f] == '"'
    ensures QuotedAfter(s, key, s[k + 1..f])
  {
    var quoted := "\"" + s[k + 1..f] + "\"";
    SliceThree(s, k, k + 1, f, f + 1);
    assert s[k..k + 1] == "\"" && s[f..f + 1] == "\"";
    assert s[k..][..|quoted|] == s[k..f + 1];
    assert StartsWith(TrimLeft(s[i + |key|..]), quoted);
  }

  lemma {:induction false} SearchAttributeQuoted(s: string, key: string, i: nat)
    requires i <= |s|
    ensures SearchAttribute(s, key, i).Some? ==> QuotedAfter(s, key, SearchAttribute(s, key, i).value)
    decreases |s| - i
  {
    if i < |s| {
      AttributeMatchQuoted(s, key, i);
      SearchAttributeQuoted(s, key, i + 1);
    }
  }

  /**
    * A DiaInfo line sets at most one of the four attributes, and only to a captured value: with
    * missing or empty quotes it leaves the project as it was.
    */
  lemma InfoConservative(p: Project, line: string)
    ensures var r := InfoStep(p, line);
      && r == p.(name := r.name, chartType := r.chartType, colorScheme := r.colorScheme, title := r.title)
      && (r.name == p.name || (r.chartType == p.chartType && r.colorScheme == p.colorScheme && r.title == p.title))
      && (r.chartType == p.chartType || (r.colorScheme == p.colorScheme && r.title == p.title))
      && (r.colorScheme == p.colorScheme || r.title == p.title)
      && (r.name == p.name || Captured(r.name))
      && (r.chartType == p.chartType || Captured(r.chartType))
      && (r.colorScheme == p.colorScheme || Captured(r.colorScheme))
      && (r.title == p.title || Captured(r.title))
      && ('"' !in line ==> r == p)
    ensures var r := InfoStep(p, line);
      && (r.name != p.name ==> IsBracketed(line) && QuotedAfter(Inner(line), "Name:", r.name))
      && (r.chartType != p.chartType ==>
            IsBracketed(line) && !Contains(Inner(line), "Name:") && QuotedAfter(Inner(line), "Type:", r.chartType))
      && (r.colorScheme != p.colorScheme ==>
            IsBracketed(line) && !Contains(Inner(line), "Name:") && !Contains(Inner(line), "Type:")
            && QuotedAfter(Inner(line), "ColorScheme:", r.colorScheme))
      && (r.title != p.title ==>
            IsBracketed(line) && !Contains(Inner(line), "Name:") && !Contains(Inner(line), "Type:")
            && !Contains(Inner(line), "ColorScheme:") && QuotedAfter(Inner(line), "Title:", r.title))
  {
    if IsBracketed(line) {
      var info := Inner(line);
      assert forall c | c in info :: c in line by {
        forall c | c in info ensures c in line {
          var k :| 0 <= k < |info| && info[k] == c;
          assert line[k + 1] == c;
        }
      }
      SearchAttributeCaptures(info, "Name:", 0);
      SearchAttributeCaptures(info, "Type:", 0);
      SearchAttributeCaptures(info, "ColorScheme:", 0);
      SearchAttributeCaptures(info, "Title:", 0);
      SearchAttributeQuoted(info, "Name:", 0);
      SearchAttributeQuoted(info, "Type:", 0);
      SearchAttributeQuoted(info, "ColorScheme:", 0);
      SearchAttributeQuoted(info, "Title:", 0);
    }
  }

  /** An empty quote sets nothing: `[Name: ""]` leaves the project as it was. */
  lemma EmptyQuoteKeeps(p: Project)
    ensures InfoStep(p, "[Name: \"\"]") == p
  {
    var info := Inner("[Name: \"\"]");
    assert info == "Name: \"\"";
    assert info[..5] == "Name:";
    assert OccursAt(info, "Name:", 0);
    forall v | Captured(v) ensures !QuotedAfter(info, "Name:", v) {
      forall i: nat | i + 5 <= |info| && OccursAt(info, "Name:", i)
        ensures !StartsWith(TrimLeft(info[i + 5..]), "\"" + v + "\"")
      {
        assert info[i] == 'N';
        assert i == 0;
        assert info[5..][1..] == info[6..] == "\"\"";
        assert TrimLeft(info[5..]) == "\"\"";
      }
    }
    InfoConservative(p, "[Name: \"\"]");
  }

  /** An unclosed quote sets nothing: `[Name: "Sales]` leaves the project as it was. */
  lemma UnclosedQuoteKeeps(p: Project)
    ensures InfoStep(p, "[Name: \"Sales]") == p
  {
    var info := Inner("[Name: \"Sales]");
    assert info == "Name: \"Sales";
    assert info[..5] == "Name:";
    assert OccursAt(info, "Name:", 0);
    forall v | Captured(v) ensures !QuotedAfter(info, "Name:", v) {
      forall i: nat | i + 5 <= |info| && OccursAt(info, "Name:", i)
        ensures !StartsWith(TrimLeft(info[i + 5..]), "\"" + v + "\"")
      {
        assert info[i] == 'N';
        assert i == 0;
        var t := info[6..];
        assert info[5..][1..] == t == "\"Sales";
        assert TrimLeft(info[5..]) == t;
        assert ("\"" + v + "\"")[|v| + 1] == '"';
        assert forall j | 1 <= j < |t| :: t[j] != '"';
      }
    }
    InfoConservative(p, "[Name: \"Sales]");
  }

  /**
    * A CustomColors line is split at its first `:` only: everything after it, colons included,
    * is the colour, and both sides are stripped.
    */
  lemma CustomFirstColon(p: Project, key: string, rest: string)
    requires ':' !in key
    ensures CustomStep(p, "[" + key + ":" + rest + "]")
         == p.(customColors := Put(p.customColors, Strip(key), Strip(rest)))
  {
    var content := key + ":" + rest;
    assert "[" + key + ":" + rest + "]" == "[" + content + "]";
    BracketedTrimmed(content);
    ColonSplit(key, rest);
    CustomStepAt(p, "[" + content + "]");
  }

  lemma ColonSplit(key: string, rest: string)
    requires ':' !in key
    ensures var content := key + ":" + rest;
      IndexOf(content, ':') == |key| && content[..|key|] == key && content[|key| + 1..] == rest
  {
    assert key + ":" + rest == key + [':'] + rest;
    IndexOfAt(key, rest, ':');
  }

  lemma CustomStepAt(p: Project, line: string)
    requires IsBracketed(line) && IndexOf(Inner(line), ':') < |Inner(line)|
    ensures var content, k := Inner(line), IndexOf(Inner(line), ':');
      CustomStep(p, line) == p.(customColors := Put(p.customColors, Strip(content[..k]), Strip(content[k + 1..])))
  {
  }

  /** The value of the last write to `key` among `writes`, if there is one. */
  function LastWrite(writes: seq<(string, string)>, key: string): Option<string> {
    if writes == [] then None
    else if writes[|writes| - 1].0 == key then Some(writes[|writes| - 1].1)
    else LastWrite(writes[..|writes| - 1], key)
  }

  /** After a run of assignments, each key holds the value of its last assignment: later lines win. */
  lemma {:induction false} PutAllLastWins(entries: seq<(string, string)>, writes: seq<(string, string)>, key: string)
    ensures Lookup(PutAll(entries, writes), key)
         == if LastWrite(writes, key).Some? then LastWrite(writes, key) else Lookup(entries, key)
  {
    if writes != [] {
      PutAllLastWins(entries, writes[..|writes| - 1], key);
    }
  }

  // ---------------------------------------------------------------------------
  // Whether a read succeeds does not depend on the project it reads into.

  /** Two scans in the same section take a line the same way: both fail, or both go on in one section. */
  lemma StepFailsAlike(a: Scan, b: Scan, raw: string)
    requires a.section == b.section
    ensures Step(a, raw).Failed? == Step(b, raw).Failed?
    ensures Step(a, raw).Running? ==> Step(a, raw).scan.section == Step(b, raw).scan.section
  {
  }

  lemma {:induction false} RunFailsAlike(a: Scan, b: Scan, lines: seq<string>)
    requires a.section == b.section
    ensures Run(a, lines).Failed? == Run(b, lines).Failed?
    ensures Run(a, lines).Running? ==> Run(a, lines).scan.section == Run(b, lines).scan.section
    decreases |lines|
  {
    if lines != [] {
      var init := lines[..|lines| - 1];
      RunFailsAlike(a, b, init);
      if Run(a, init).Running? {
        StepFailsAlike(Run(a, init).scan, Run(b, init).scan, lines[|lines| - 1]);
      }
    }
  }

  /**
    * `from_dia_format` returns the same flag whichever project it reads into, so a trial read into
    * a fresh `DiagramProject()` tells whether the read into any other project will succeed.
    */
  lemma FromDiaFlagAlike(p: Project, q: Project, text: string)
    ensures FromDia(p, text).1 == FromDia(q, text).1
  {
    RunFailsAlike(Scan(p, None), Scan(q, None), Split(text, '\n'));
  }
}
