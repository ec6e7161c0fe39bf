/**
  * What the `.dia` writer and reader promise about each other: the shape of a written document,
  * the lines the reader ignores, how it treats each section, and the round trip.
  */
module DiaLaws {
  import opened Wrappers
  import opened Text
  import Numeral
  import opened DiaFormat

  // ---------------------------------------------------------------------------
  // Which projects survive a round trip.

  /** A value written between double quotes and read back by `"([^"]+)"`. */
  predicate QuotedValue(s: string) {
    s != [] && '"' !in s && '\n' !in s
  }

  /** A label or colour cell of a data line: split on `|` and stripped on the way back. */
  predicate Cell(s: string) {
    '|' !in s && '\n' !in s && Trimmed(s)
  }

  /** A data record whose line is neither mistaken for a section marker nor altered by reading. */
  predicate SafeRecord(pointLabel: string, color: string) {
    Cell(pointLabel) && Cell(color) && !(StartsWith(pointLabel, "__") && EndsWith(color, "__"))
  }

  /** A custom colour whose line splits back, on its first `:`, into the same key and colour. */
  predicate SafeCustom(key: string, color: string) {
    ':' !in key && '\n' !in key && '\n' !in color && Trimmed(key) && Trimmed(color)
    && !(StartsWith(key, "__") && EndsWith(color, "__"))
  }

  /**
    * The projects that `to_dia_format` writes faithfully: quoted fields are non-empty and free of
    * `"`, a DiaInfo value does not name an attribute tested before its own, cells are free of `|`
    * and of surrounding whitespace, custom-colour keys of `:`, and nothing holds a newline.
    */
  predicate WellFormed(p: Project) {
    && Aligned(p)
    && QuotedValue(p.created) && QuotedValue(p.modified) && QuotedValue(p.name)
    && QuotedValue(p.chartType) && !Contains(p.chartType, "Name:")
    && QuotedValue(p.colorScheme) && !Contains(p.colorScheme, "Name:") && !Contains(p.colorScheme, "Type:")
    && QuotedValue(p.title) && !Contains(p.title, "Name:") && !Contains(p.title, "Type:")
    && !Contains(p.title, "ColorScheme:")
    && (forall i | 0 <= i < |p.labels| :: SafeRecord(p.labels[i], p.colors[i]))
    && DistinctKeys(p.customColors)
    && (forall i | 0 <= i < |p.customColors| :: SafeCustom(p.customColors[i].0, p.customColors[i].1))
  }

  // ---------------------------------------------------------------------------
  // Running the reader over consecutive pieces of a document.

  /** Continue an outcome with more lines. */
  function Then(o: Outcome, lines: seq<string>): Outcome {
    match o
    case Failed(p) => Failed(p)
    case Running(s) => Run(s, lines)
  }

  lemma RunSnoc(scan: Scan, lines: seq<string>, x: string)
    ensures Run(scan, lines + [x]) == Then(Run(scan, lines), [x])
  {
    var l := lines + [x];
    assert l[..|l| - 1] == lines && l[|l| - 1] == x;
    match Run(scan, lines) {
      case Failed(p) =>
      case Running(s) =>
        assert [x][..0] == [];
        assert Run(s, [x]) == Step(s, x);
    }
  }

  /** One more line after a run that is still going is one more step. */
  lemma RunSnocStep(scan: Scan, lines: seq<string>, t: Scan, x: string)
    requires Run(scan, lines) == Running(t)
    ensures Run(scan, lines + [x]) == Step(t, x)
  {
    RunSnoc(scan, lines, x);
    assert [x][..0] == [];
    assert Run(t, [x]) == Step(t, x);
  }

  /** Reading `a + b` is reading `a`, then `b` from where `a` left off. */
  lemma {:induction false} RunAppend(scan: Scan, a: seq<string>, b: seq<string>)
    ensures Run(scan, a + b) == Then(Run(scan, a), b)
    decreases |b|
  {
    if b == [] {
      assert a + b == a;
    } else {
      var b' := b[..|b| - 1];
      var x := b[|b| - 1];
      assert a + b == (a + b') + [x];
      assert b == b' + [x];
      RunAppend(scan, a, b');
      RunSnoc(scan, a + b', x);
      match Run(scan, a) {
        case Failed(p) =>
        case Running(s) => RunSnoc(s, b', x);
      }
    }
  }

  // ---------------------------------------------------------------------------
  // What one written line does to the reader.

  /** A bracketed line is left alone by `strip()` and its inner part is what was bracketed. */
  lemma BracketedTrimmed(s: string)
    ensures var line := "[" + s + "]"; Trimmed(line) && IsBracketed(line) && Inner(line) == s
  {
    var line := "[" + s + "]";
    assert line[0] == '[' && line[|line| - 1] == ']';
  }

  /** A stripped bracketed line that is neither the header nor a marker goes to the current section. */
  lemma ClassifyContent(line: string)
    requires IsBracketed(line) && Inner(line) != TypeMarker && !IsSectionMarker(Inner(line))
    ensures Classify(line) == Content
  {
  }

  lemma StepContent(scan: Scan, line: string)
    requires Trimmed(line) && IsBracketed(line)
    requires Inner(line) != TypeMarker && !IsSectionMarker(Inner(line))
    ensures Step(scan, line) == SectionStep(scan, line)
  {
    StripTrimmed(line);
    ClassifyContent(line);
  }


  lemma SectionSettings(scan: Scan, line: string)
    requires scan.section == Some(SettingsSection)
    ensures SectionStep(scan, line) == Running(scan.(project := SettingsStep(scan.project, line)))
  {
  }

  lemma SectionData(scan: Scan, line: string)
    requires scan.section == Some(DataSection)
    ensures SectionStep(scan, line) == DataStep(scan, line)
  {
  }

  lemma SectionInfo(scan: Scan, line: string)
    requires scan.section == Some(InfoSection)
    ensures SectionStep(scan, line) == Running(scan.(project := InfoStep(scan.project, line)))
  {
  }

  lemma SectionCustom(scan: Scan, line: string)
    requires scan.section == Some(CustomSection)
    ensures SectionStep(scan, line) == Running(scan.(project := CustomStep(scan.project, line)))
  {
  }

  /** A stripped `[__X__]` line makes `__X__` the current section. */
  lemma ClassifyMarker(line: string)
    requires IsBracketed(line) && IsSectionMarker(Inner(line))
    ensures Classify(line) == Marker(Inner(line))
  {
    assert TypeMarker[0] == '<';
  }

  lemma StepMarker(scan: Scan, line: string)
    requires Trimmed(line) && IsBracketed(line) && IsSectionMarker(Inner(line))
    ensures Step(scan, line) == Running(scan.(section := Some(Inner(line))))
  {
    StripTrimmed(line);
    ClassifyMarker(line);
  }


  /** The section heading lines written by `to_dia_format` switch sections. */
  lemma StepSectionLine(scan: Scan, section: string)
    requires section in [SettingsSection, DataSection, InfoSection, CustomSection]
    ensures Step(scan, SectionLine(section)) == Running(scan.(section := Some(section)))
  {
    BracketedTrimmed(section);
    assert IsSectionMarker(section);
    StepMarker(scan, SectionLine(section));
  }

  /** The header line, blank lines and the footer comment leave the reader as it was. */
  lemma ClassifySkipped()
    ensures Classify(Header) == Skipped && Classify("") == Skipped && Classify(Footer) == Skipped
  {
    BracketedTrimmed(TypeMarker);
    assert Header == "[" + TypeMarker + "]";
    assert Footer[0] == '#';
  }

  lemma StepSkipped(scan: Scan)
    ensures Step(scan, Header) == Running(scan)
    ensures Step(scan, "") == Running(scan)
    ensures Step(scan, Footer) == Running(scan)
  {
    BracketedTrimmed(TypeMarker);
    assert Header == "[" + TypeMarker + "]";
    StripTrimmed(Header);
    StripTrimmed(Footer);
    ClassifySkipped();
  }


  /** Only content starting and ending with `__` around its middle can be a marker. */
  lemma MarkerNeedsBothEnds(a: string, mid: string, b: string)
    requires |mid| >= 1 && mid[0] != '_' && mid[|mid| - 1] != '_'
    requires IsSectionMarker(a + mid + b)
    ensures StartsWith(a, "__") && EndsWith(b, "__")
  {
    var s := a + mid + b;
    if |a| >= 2 && |b| >= 2 {
      assert a[..2] == [s[0], s[1]];
      assert b[|b| - 2..] == [s[|s| - 2], s[|s| - 1]];
    }
  }


  lemma FormatCell(v: int)
    ensures '|' !in Numeral.Format(v) && '\n' !in Numeral.Format(v) && '"' !in Numeral.Format(v)
    ensures Trimmed(Numeral.Format(v))
  {
    Numeral.FormatShape(v);
  }

  /** A Data-section line whose stripped parts are a label, a number and a colour appends that record. */
  lemma DataStepParts(scan: Scan, line: string, pointLabel: string, v: int, color: string)
    requires IsBracketed(line)
    requires StripAll(Split(Inner(line), '|')) == [pointLabel, Numeral.Format(v), color]
    ensures DataStep(scan, line)
         == Running(scan.(project := scan.project.(labels := scan.project.labels + [pointLabel],
                                                   values := scan.project.values + [v],
                                                   colors := scan.project.colors + [color])))
  {
    Numeral.ParseFormat(v);
  }

  lemma StripAllThree(x: string, y: string, z: string)
    ensures StripAll([x, y, z]) == [Strip(x), Strip(y), Strip(z)]
  {
  }

  lemma DataPieces(pointLabel: string, f: string, color: string)
    ensures pointLabel + " | " + f + " | " + color
         == (pointLabel + " ") + ['|'] + (" " + f + " ") + ['|'] + (" " + color)
  {
  }

  /** The inside of a written data line splits on `|` and strips back into its three cells. */
  lemma DataCells(pointLabel: string, f: string, color: string)
    requires Cell(pointLabel) && Cell(color) && '|' !in f && Trimmed(f)
    ensures StripAll(Split(pointLabel + " | " + f + " | " + color, '|')) == [pointLabel, f, color]
  {
    var a, b, c := pointLabel + " ", " " + f + " ", " " + color;
    DataPieces(pointLabel, f, color);
    SplitThree(a, b, c, '|');
    StripSpaced(pointLabel);
    StripSpaced(f);
    StripSpaced(color);
    StripAllThree(a, b, c);
  }

  lemma DataLineBracketed(pointLabel: string, v: int, color: string)
    ensures var line := DataLine(pointLabel, v, color);
      Trimmed(line) && IsBracketed(line) && Inner(line) == DataContent(pointLabel, v, color)
  {
    var content := DataContent(pointLabel, v, color);
    assert DataLine(pointLabel, v, color) == "[" + content + "]";
    BracketedTrimmed(content);
  }

  /** The inside of a data line with safe cells is neither the header nor a section marker. */
  lemma DataContentPlain(pointLabel: string, v: int, color: string)
    requires SafeRecord(pointLabel, color)
    ensures var content := DataContent(pointLabel, v, color);
      content != TypeMarker && !IsSectionMarker(content)
  {
    var mid := " | " + Numeral.Format(v) + " | ";
    DataMiddle(pointLabel, Numeral.Format(v), color);
    PipeNotTypeMarker(pointLabel + mid + color, |pointLabel| + 1);
    if IsSectionMarker(pointLabel + mid + color) {
      MarkerNeedsBothEnds(pointLabel, mid, color);
    }
  }

  /** The middle of a data line, between the label and the colour, is padded with spaces. */
  lemma DataMiddle(pointLabel: string, f: string, color: string)
    ensures var mid := " | " + f + " | ";
      && pointLabel + " | " + f + " | " + color == pointLabel + mid + color
      && |mid| >= 3 && mid[0] == ' ' && mid[1] == '|' && mid[|mid| - 1] == ' '
  {
  }

  lemma PipeNotTypeMarker(s: string, i: nat)
    requires i < |s| && s[i] == '|'
    ensures s != TypeMarker
  {
    assert TypeMarker == "<TYPE dia>";
  }

  /** A written data line appends its record to all three lists. */
  lemma DataLineStep(scan: Scan, pointLabel: string, v: int, color: string)
    requires scan.section == Some(DataSection) && SafeRecord(pointLabel, color)
    ensures Step(scan, DataLine(pointLabel, v, color))
         == Running(scan.(project := scan.project.(labels := scan.project.labels + [pointLabel],
                                                   values := scan.project.values + [v],
                                                   colors := scan.project.colors + [color])))
  {
    var line := DataLine(pointLabel, v, color);
    DataLineBracketed(pointLabel, v, color);
    DataContentPlain(pointLabel, v, color);
    FormatCell(v);
    DataCells(pointLabel, Numeral.Format(v), color);
    StepContent(scan, line);
    SectionData(scan, line);
    DataStepParts(scan, line, pointLabel, v, color);
  }

  // ---------------------------------------------------------------------------
  // DiaInfo lines.

  /** The text after an attribute name: a space, then the value in double quotes. */
  function Quoted(value: string): string {
    " \"" + value + "\""
  }

  /** `re.search(key + r'\s*"([^"]+)"', key + ' "value"')` finds the value. */
  lemma AttributeFound(key: string, value: string)
    requires key != [] && QuotedValue(value)
    ensures SearchAttribute(key + Quoted(value), key, 0) == Some(value)
  {
    var s := key + Quoted(value);
    var y := "\"" + value + "\"";
    var j := |key|;
    assert OccursAt(s, key, 0) by {
      assert s[..|key|] == key;
    }
    assert s[j..] == " " + y;
    TrimLeftPadded(" ", y);
    var k := j + 1;
    assert |s| - |TrimLeft(s[j..])| == k;
    assert s[k] == '"';
    assert s[k + 1..] == value + ['"'] + [];
    IndexOfAt(value, [], '"');
    assert QuoteFrom(s, k + 1) == |s| - 1;
    assert s[k + 1..|s| - 1] == value;
  }

  /** `key + ": \"" + value + "\""`, the inside of a DiaInfo line. */
  lemma InfoLineShape(key: string, value: string)
    requires key in ["Name", "Type", "ColorScheme", "Title"]
    ensures var line := InfoLine(key, value);
      && Trimmed(line) && IsBracketed(line) && Inner(line) == (key + ":") + Quoted(value)
      && Inner(line) != TypeMarker && !IsSectionMarker(Inner(line))
  {
    var content := (key + ":") + Quoted(value);
    assert InfoLine(key, value) == "[" + content + "]";
    BracketedTrimmed(content);
    assert content[0] == key[0];
    assert TypeMarker[0] == '<';
    assert content[0] == content[..2][0];
  }

  /** In the DiaInfo section, a stripped bracketed non-marker line is handed to `InfoStep`. */
  lemma StepInfo(scan: Scan, line: string)
    requires scan.section == Some(InfoSection)
    requires Trimmed(line) && IsBracketed(line) && Inner(line) != TypeMarker && !IsSectionMarker(Inner(line))
    ensures Step(scan, line) == Running(scan.(project := InfoStep(scan.project, line)))
  {
    StepContent(scan, line);
    SectionInfo(scan, line);
  }

  /** What `InfoStep` does with a line whose inside mentions exactly one attribute, `key`. */
  lemma InfoStepOnly(p: Project, line: string, key: string, value: string)
    requires IsBracketed(line) && key in ["Name:", "Type:", "ColorScheme:", "Title:"]
    requires key == "Name:" || !Contains(Inner(line), "Name:")
    requires key in ["Name:", "Type:"] || !Contains(Inner(line), "Type:")
    requires key != "Title:" || !Contains(Inner(line), "ColorScheme:")
    requires Contains(Inner(line), key) && SearchAttribute(Inner(line), key, 0) == Some(value)
    ensures InfoStep(p, line) == (if key == "Name:" then p.(name := value)
                                  else if key == "Type:" then p.(chartType := value)
                                  else if key == "ColorScheme:" then p.(colorScheme := value)
                                  else p.(title := value))
  {
  }

  /** An attribute name absent from the value is absent from a later attribute's line. */
  lemma InfoValueHides(key: string, value: string, pat: string)
    requires key in ["Type", "ColorScheme", "Title"] && pat in ["Name:", "Type:", "ColorScheme:"]
    requires key + ":" != pat && !Contains(value, pat)
    ensures !Contains((key + ":") + Quoted(value), pat)
  {
    var pre := key + ": \"";
    assert (key + ":") + Quoted(value) == pre + value + "\"";
    NotContainsWrapped(pre, value, "\"", pat);
  }

  /** A written `Name` line sets the name. */
  lemma InfoNameStep(p: Project, value: string)
    requires QuotedValue(value)
    ensures InfoStep(p, InfoLine("Name", value)) == p.(name := value)
  {
    InfoLineShape("Name", value);
    var info := "Name:" + Quoted(value);
    assert ("Name" + ":") + Quoted(value) == info;
    PrefixContains(info, "Name:");
    AttributeFound("Name:", value);
    InfoStepOnly(p, InfoLine("Name", value), "Name:", value);
  }

  /** A written `Type` line sets the chart type, unless its value mentions `Name:`. */
  lemma InfoTypeStep(p: Project, value: string)
    requires QuotedValue(value) && !Contains(value, "Name:")
    ensures InfoStep(p, InfoLine("Type", value)) == p.(chartType := value)
  {
    InfoLineShape("Type", value);
    var info := "Type:" + Quoted(value);
    assert ("Type" + ":") + Quoted(value) == info;
    InfoValueHides("Type", value, "Name:");
    PrefixContains(info, "Type:");
    AttributeFound("Type:", value);
    InfoStepOnly(p, InfoLine("Type", value), "Type:", value);
  }

  /** A written `ColorScheme` line sets the scheme, unless its value mentions an earlier attribute. */
  lemma InfoColorSchemeStep(p: Project, value: string)
    requires QuotedValue(value) && !Contains(value, "Name:") && !Contains(value, "Type:")
    ensures InfoStep(p, InfoLine("ColorScheme", value)) == p.(colorScheme := value)
  {
    InfoLineShape("ColorScheme", value);
    var info := "ColorScheme:" + Quoted(value);
    assert ("ColorScheme" + ":") + Quoted(value) == info;
    InfoValueHides("ColorScheme", value, "Name:");
    InfoValueHides("ColorScheme", value, "Type:");
    PrefixContains(info, "ColorScheme:");
    AttributeFound("ColorScheme:", value);
    InfoStepOnly(p, InfoLine("ColorScheme", value), "ColorScheme:", value);
  }

  /** A written `Title` line sets the title, unless its value mentions an earlier attribute. */
  lemma InfoTitleStep(p: Project, value: string)
    requires QuotedValue(value) && !Contains(value, "Name:") && !Contains(value, "Type:")
    requires !Contains(value, "ColorScheme:")
    ensures InfoStep(p, InfoLine("Title", value)) == p.(title := value)
  {
    InfoLineShape("Title", value);
    var info := "Title:" + Quoted(value);
    assert ("Title" + ":") + Quoted(value) == info;
    InfoValueHides("Title", value, "Name:");
    InfoValueHides("Title", value, "Type:");
    InfoValueHides("Title", value, "ColorScheme:");
    PrefixContains(info, "Title:");
    AttributeFound("Title:", value);
    InfoStepOnly(p, InfoLine("Title", value), "Title:", value);
  }

  // ---------------------------------------------------------------------------
  // The Settings line.

  /** The first `"` at or after `j` closes the quote-free text `a` that starts there. */
  lemma QuoteFromAt(s: string, j: nat, a: string)
    requires j + |a| < |s| && s[j..j + |a|] == a && '"' !in a && s[j + |a|] == '"'
    ensures QuoteFrom(s, j) == j + |a|
  {
    assert s[j..] == a + ['"'] + s[j + |a| + 1..];
    IndexOfAt(a, s[j + |a| + 1..], '"');
  }

  /** `re.search` moves past the starts where `created="` does not occur. */
  lemma {:induction false} SearchSettingsSkip(s: string, i: nat, k: nat)
    requires i <= k <= |s|
    requires forall x: nat | i <= x < k :: !OccursAt(s, CreatedOpen, x)
    ensures SearchSettings(s, i) == SearchSettings(s, k)
    decreases k - i
  {
    if i < k {
      SearchSettingsSkip(s, i + 1, k);
    }
  }

  lemma SettingsLineShape(created: string, modified: string)
    ensures var line := SettingsLine(created, modified);
      && Trimmed(line) && IsBracketed(line) && Inner(line) != TypeMarker && !IsSectionMarker(Inner(line))
  {
    var content := SettingsKey + " " + CreatedOpen + created + ModifiedInfix + modified + "\"";
    assert SettingsLine(created, modified) == "[" + content + "]";
    BracketedTrimmed(content);
    assert content[0] == SettingsKey[0] == 'P';
    assert content[0] == content[..2][0];
    assert TypeMarker[0] == '<';
  }

  lemma SettingsConstants()
    ensures |SettingsKey| == 17 && |CreatedOpen| == 9 && |ModifiedInfix| == 12 && ModifiedInfix[0] == '"'
    ensures '"' !in "[" + SettingsKey + " " && '"' !in CreatedOpen[..8]
  {
  }

  /** Where the pieces of a written Settings line sit. */
  lemma SettingsLayout(created: string, modified: string)
    ensures var s := SettingsLine(created, modified);
      var e := 28 + |created|;
      var k := e + 12;
      && |s| == k + |modified| + 2
      && '"' !in s[..27] && s[19..28] == CreatedOpen
      && s[28..e] == created && s[e] == '"' && s[e..k] == ModifiedInfix
      && s[k..k + |modified|] == modified && s[k + |modified|] == '"'
  {
    SettingsConstants();
    var lead := "[" + SettingsKey + " ";
    var s := SettingsLine(created, modified);
    assert s == lead + CreatedOpen + created + ModifiedInfix + modified + "\"]";
    assert s[..27] == lead + CreatedOpen[..8];
  }

  /** The Settings pattern finds the two timestamps of a written Settings line. */
  lemma SettingsFound(created: string, modified: string)
    requires QuotedValue(created) && QuotedValue(modified)
    ensures SearchSettings(SettingsLine(created, modified), 0) == Some((created, modified))
  {
    var s := SettingsLine(created, modified);
    var e := 28 + |created|;
    var k := e + 12;
    SettingsLayout(created, modified);
    assert |CreatedOpen| == 9 && CreatedOpen[8] == '"';
    NoEarlyOccurrence(s, CreatedOpen, 19);
    SearchSettingsSkip(s, 0, 19);
    assert OccursAt(s, CreatedOpen, 19);
    assert |ModifiedInfix| == 12;
    QuoteFromAt(s, 28, created);
    QuoteFromAt(s, k, modified);
  }

  /** A written Settings line sets both timestamps. */
  lemma SettingsLineRead(p: Project, created: string, modified: string)
    requires QuotedValue(created) && QuotedValue(modified)
    ensures SettingsStep(p, SettingsLine(created, modified)) == p.(created := created, modified := modified)
  {
    var line := SettingsLine(created, modified);
    SettingsConstants();
    assert OccursAt(line, SettingsKey, 1) by {
      assert line == "[" + SettingsKey + (" " + CreatedOpen + created + ModifiedInfix + modified + "\"]");
      assert line[1..18] == SettingsKey;
    }
    SettingsFound(created, modified);
  }

  /** In the Settings section, a written Settings line sets both timestamps. */
  lemma SettingsLineStep(scan: Scan, created: string, modified: string)
    requires scan.section == Some(SettingsSection) && QuotedValue(created) && QuotedValue(modified)
    ensures Step(scan, SettingsLine(created, modified))
         == Running(scan.(project := scan.project.(created := created, modified := modified)))
  {
    var line := SettingsLine(created, modified);
    SettingsLineShape(created, modified);
    StepContent(scan, line);
    SectionSettings(scan, line);
    SettingsLineRead(scan.project, created, modified);
  }

  // ---------------------------------------------------------------------------
  // CustomColors lines.

  lemma CustomLineBracketed(key: string, color: string)
    ensures var line := CustomLine(key, color);
      Trimmed(line) && IsBracketed(line) && Inner(line) == CustomContent(key, color)
  {
    var content := CustomContent(key, color);
    assert CustomLine(key, color) == "[" + content + "]";
    BracketedTrimmed(content);
  }

  /** The inside of a safe custom-colour line is neither the header nor a marker. */
  lemma CustomContentPlain(key: string, color: string)
    requires SafeCustom(key, color)
    ensures var content := CustomContent(key, color);
      content != TypeMarker && !IsSectionMarker(content)
  {
    var mid := ": ";
    var content := key + mid + color;
    assert CustomContent(key, color) == content;
    assert content[|key|] == ':';
    assert TypeMarker == "<TYPE dia>";
    if IsSectionMarker(content) {
      MarkerNeedsBothEnds(key, mid, color);
    }
  }

  /** The inside of a safe custom-colour line splits on its first `:` into the key and the colour. */
  lemma CustomContentSplits(key: string, color: string)
    requires SafeCustom(key, color)
    ensures var content := CustomContent(key, color);
      && IndexOf(content, ':') == |key|
      && Strip(content[..|key|]) == key && Strip(content[|key| + 1..]) == color
  {
    var rest := " " + color;
    var content := key + [':'] + rest;
    assert CustomContent(key, color) == content;
    IndexOfAt(key, rest, ':');
    assert content[..|key|] == key;
    assert content[|key| + 1..] == rest;
    StripTrimmed(key);
    StripSpaced(color);
  }

  /** In the CustomColors section, a stripped bracketed non-marker line is handed to `CustomStep`. */
  lemma StepCustom(scan: Scan, line: string)
    requires scan.section == Some(CustomSection)
    requires Trimmed(line) && IsBracketed(line) && Inner(line) != TypeMarker && !IsSectionMarker(Inner(line))
    ensures Step(scan, line) == Running(scan.(project := CustomStep(scan.project, line)))
  {
    StepContent(scan, line);
    SectionCustom(scan, line);
  }

  /** A written custom-colour line assigns its colour to its key. */
  lemma CustomLineStep(scan: Scan, key: string, color: string)
    requires scan.section == Some(CustomSection) && SafeCustom(key, color)
    ensures Step(scan, CustomLine(key, color))
         == Running(scan.(project := scan.project.(customColors := Put(scan.project.customColors, key, color))))
  {
    CustomLineBracketed(key, color);
    CustomContentPlain(key, color);
    CustomContentSplits(key, color);
    StepCustom(scan, CustomLine(key, color));
  }

  // ---------------------------------------------------------------------------
  // The sections of a written document, one at a time.

  lemma RunOne(scan: Scan, x: string)
    ensures Run(scan, [x]) == Step(scan, x)
  {
    assert [x][..0] == [];
  }

  /** Three lines, each of which the reader takes in its stride. */
  lemma RunThree(s0: Scan, a: string, s1: Scan, b: string, s2: Scan, c: string, s3: Scan)
    requires Step(s0, a) == Running(s1) && Step(s1, b) == Running(s2) && Step(s2, c) == Running(s3)
    ensures Run(s0, [a, b, c]) == Running(s3)
  {
    var l1 := [a];
    var l2 := l1 + [b];
    RunOne(s0, a);
    RunSnocStep(s0, l1, s1, b);
    RunSnocStep(s0, l2, s2, c);
    assert l2 + [c] == [a, b, c];
  }

  /** Header, Settings section and Data heading: the timestamps are set and the Data section begins. */
  lemma RunPreamble(q: Project, p: Project)
    requires QuotedValue(p.created) && QuotedValue(p.modified)
    ensures Run(Scan(q, None), Preamble(p))
         == Running(Scan(q.(created := p.created, modified := p.modified), Some(DataSection)))
  {
    var s0 := Scan(q, None);
    var s2 := Scan(q, Some(SettingsSection));
    var s3 := Scan(q.(created := p.created, modified := p.modified), Some(SettingsSection));
    var s4 := s3.(section := Some(DataSection));
    var settings := SettingsLine(p.created, p.modified);
    StepSkipped(s0);
    StepSkipped(s3);
    StepSectionLine(s0, SettingsSection);
    SettingsLineStep(s2, p.created, p.modified);
    StepSectionLine(s3, DataSection);
    RunThree(s0, Header, s0, "", s0, SectionLine(SettingsSection), s2);
    RunThree(s2, settings, s3, "", s3, SectionLine(DataSection), s4);
    PreambleLines(p);
    RunAppend(s0, [Header, "", SectionLine(SettingsSection)], [settings, "", SectionLine(DataSection)]);
  }

  lemma PreambleLines(p: Project)
    ensures Preamble(p) == [Header, "", SectionLine(SettingsSection)]
                           + [SettingsLine(p.created, p.modified), "", SectionLine(DataSection)]
  {
  }
  /** `r` with the first `n` records of `p` appended to its series. */
  function WithRecords(r: Project, p: Project, n: nat): Project
    requires n <= ZipLength(p)
  {
    r.(labels := r.labels + p.labels[..n], values := r.values + p.values[..n], colors := r.colors + p.colors[..n])
  }

  /** Appending one more record is appending the first `n + 1`. */
  lemma WithRecordsSnoc(r: Project, p: Project, n: nat)
    requires n < ZipLength(p)
    ensures var t := WithRecords(r, p, n);
      t.(labels := t.labels + [p.labels[n]], values := t.values + [p.values[n]], colors := t.colors + [p.colors[n]])
      == WithRecords(r, p, n + 1)
  {
    assert p.labels[..n + 1] == p.labels[..n] + [p.labels[n]];
    assert p.values[..n + 1] == p.values[..n] + [p.values[n]];
    assert p.colors[..n + 1] == p.colors[..n] + [p.colors[n]];
  }

  /** The records of the first `n` data lines are appended, in order. */
  lemma {:induction false} RunData(r: Project, p: Project, n: nat)
    requires WellFormed(p) && n <= |p.labels|
    ensures Run(Scan(r, Some(DataSection)), DataLines(p, n)) == Running(Scan(WithRecords(r, p, n), Some(DataSection)))
  {
    var s := Scan(r, Some(DataSection));
    if n == 0 {
      assert r.labels + p.labels[..0] == r.labels;
      assert r.values + p.values[..0] == r.values;
      assert r.colors + p.colors[..0] == r.colors;
    } else {
      var m := n - 1;
      RunData(r, p, m);
      var t := Scan(WithRecords(r, p, m), Some(DataSection));
      var x := DataLine(p.labels[m], p.values[m], p.colors[m]);
      assert DataLines(p, n) == DataLines(p, m) + [x];
      RunSnocStep(s, DataLines(p, m), t, x);
      assert SafeRecord(p.labels[m], p.colors[m]);
      DataLineStep(t, p.labels[m], p.values[m], p.colors[m]);
      WithRecordsSnoc(r, p, m);
    }
  }

  /** The DiaInfo attributes of `p` copied onto `r`. */
  function WithInfo(r: Project, p: Project): Project {
    r.(name := p.name, chartType := p.chartType, colorScheme := p.colorScheme, title := p.title)
  }

  /** The first three lines of the DiaInfo block: a blank line, the heading and the name. */
  lemma RunInfoHead(r: Project, p: Project)
    requires WellFormed(p)
    ensures Run(Scan(r, Some(DataSection)), ["", SectionLine(InfoSection), InfoLine("Name", p.name)])
         == Running(Scan(r.(name := p.name), Some(InfoSection)))
  {
    var s0 := Scan(r, Some(DataSection));
    var s1 := Scan(r, Some(InfoSection));
    StepSkipped(s0);
    StepSectionLine(s0, InfoSection);
    InfoLineShape("Name", p.name);
    StepInfo(s1, InfoLine("Name", p.name));
    InfoNameStep(r, p.name);
    RunThree(s0, "", s0, SectionLine(InfoSection), s1, InfoLine("Name", p.name), Scan(r.(name := p.name), Some(InfoSection)));
  }

  /** The type, colour scheme and title lines of the DiaInfo block. */
  lemma RunInfoTail(r: Project, p: Project)
    requires WellFormed(p)
    ensures Run(Scan(r, Some(InfoSection)),
                [InfoLine("Type", p.chartType), InfoLine("ColorScheme", p.colorScheme), InfoLine("Title", p.title)])
         == Running(Scan(r.(chartType := p.chartType, colorScheme := p.colorScheme, title := p.title), Some(InfoSection)))
  {
    var r1 := r.(chartType := p.chartType);
    var r2 := r1.(colorScheme := p.colorScheme);
    var r3 := r2.(title := p.title);
    InfoLineShape("Type", p.chartType);
    InfoLineShape("ColorScheme", p.colorScheme);
    InfoLineShape("Title", p.title);
    StepInfo(Scan(r, Some(InfoSection)), InfoLine("Type", p.chartType));
    StepInfo(Scan(r1, Some(InfoSection)), InfoLine("ColorScheme", p.colorScheme));
    StepInfo(Scan(r2, Some(InfoSection)), InfoLine("Title", p.title));
    InfoTypeStep(r, p.chartType);
    InfoColorSchemeStep(r1, p.colorScheme);
    InfoTitleStep(r2, p.title);
    RunThree(Scan(r, Some(InfoSection)), InfoLine("Type", p.chartType), Scan(r1, Some(InfoSection)),
             InfoLine("ColorScheme", p.colorScheme), Scan(r2, Some(InfoSection)),
             InfoLine("Title", p.title), Scan(r3, Some(InfoSection)));
  }

  lemma InfoBlockLines(p: Project)
    ensures InfoBlock(p) == ["", SectionLine(InfoSection), InfoLine("Name", p.name)]
                            + [InfoLine("Type", p.chartType), InfoLine("ColorScheme", p.colorScheme), InfoLine("Title", p.title)]
                            + [""]
  {
  }

  /** The DiaInfo block sets the four attributes and leaves the reader in the DiaInfo section. */
  lemma RunInfo(r: Project, p: Project)
    requires WellFormed(p)
    ensures Run(Scan(r, Some(DataSection)), InfoBlock(p)) == Running(Scan(WithInfo(r, p), Some(InfoSection)))
  {
    var head := ["", SectionLine(InfoSection), InfoLine("Name", p.name)];
    var tail := [InfoLine("Type", p.chartType), InfoLine("ColorScheme", p.colorScheme), InfoLine("Title", p.title)];
    var s0 := Scan(r, Some(DataSection));
    var s1 := Scan(r.(name := p.name), Some(InfoSection));
    var s2 := Scan(WithInfo(r, p), Some(InfoSection));
    RunInfoHead(r, p);
    RunInfoTail(r.(name := p.name), p);
    RunAppend(s0, head, tail);
    StepSkipped(s2);
    RunSnocStep(s0, head + tail, s2, "");
    InfoBlockLines(p);
  }

  /** `r` with the first `n` custom colours of `es` assigned over its own. */
  function WithCustom(r: Project, es: seq<(string, string)>, n: nat): Project
    requires n <= |es|
  {
    r.(customColors := PutAll(r.customColors, es[..n]))
  }

  lemma WithCustomSnoc(r: Project, es: seq<(string, string)>, m: nat)
    requires m < |es|
    ensures var t := WithCustom(r, es, m);
      t.(customColors := Put(t.customColors, es[m].0, es[m].1)) == WithCustom(r, es, m + 1)
  {
    assert es[..m + 1][..m] == es[..m];
  }

  /** The first `n` custom-colour lines assign their colours in order. */
  lemma {:induction false} RunCustomLines(r: Project, es: seq<(string, string)>, n: nat)
    requires n <= |es| && forall i | 0 <= i < |es| :: SafeCustom(es[i].0, es[i].1)
    ensures Run(Scan(r, Some(CustomSection)), CustomLines(es, n)) == Running(Scan(WithCustom(r, es, n), Some(CustomSection)))
  {
    if n == 0 {
      assert es[..0] == [];
    } else {
      RunCustomLines(r, es, n - 1);
      RunCustomLine(r, es, n - 1);
    }
  }

  /** One more custom-colour line assigns one more colour. */
  lemma RunCustomLine(r: Project, es: seq<(string, string)>, m: nat)
    requires m < |es| && SafeCustom(es[m].0, es[m].1)
    requires Run(Scan(r, Some(CustomSection)), CustomLines(es, m)) == Running(Scan(WithCustom(r, es, m), Some(CustomSection)))
    ensures Run(Scan(r, Some(CustomSection)), CustomLines(es, m + 1)) == Running(Scan(WithCustom(r, es, m + 1), Some(CustomSection)))
  {
    var t := Scan(WithCustom(r, es, m), Some(CustomSection));
    var x := CustomLine(es[m].0, es[m].1);
    assert CustomLines(es, m + 1) == CustomLines(es, m) + [x];
    RunSnocStep(Scan(r, Some(CustomSection)), CustomLines(es, m), t, x);
    CustomLineStep(t, es[m].0, es[m].1);
    WithCustomSnoc(r, es, m);
  }

  /** The CustomColors block, present or not, assigns every custom colour of `p` in order. */
  lemma RunCustomBlock(r: Project, p: Project)
    requires WellFormed(p)
    ensures Run(Scan(r, Some(InfoSection)), CustomBlock(p))
         == Running(Scan(r.(customColors := PutAll(r.customColors, p.customColors)),
                         if p.customColors == [] then Some(InfoSection) else Some(CustomSection)))
  {
    var es := p.customColors;
    if es != [] {
      var s0 := Scan(r, Some(InfoSection));
      var s1 := Scan(r, Some(CustomSection));
      var s2 := Scan(WithCustom(r, es, |es|), Some(CustomSection));
      StepSectionLine(s0, CustomSection);
      RunOne(s0, SectionLine(CustomSection));
      RunCustomLines(r, es, |es|);
      assert es[..|es|] == es;
      RunAppend(s0, [SectionLine(CustomSection)], CustomLines(es, |es|));
      StepSkipped(s2);
      RunSnocStep(s0, [SectionLine(CustomSection)] + CustomLines(es, |es|), s2, "");
    }
  }

  /**
    * What reading a written project into `q` leaves behind: the timestamps and the DiaInfo
    * attributes of `p`, the series of `q` followed by that of `p`, and the custom colours of `p`
    * assigned over those of `q`.
    */
  function Absorb(q: Project, p: Project): Project {
    q.(created := p.created, modified := p.modified,
       labels := q.labels + p.labels, values := q.values + p.values, colors := q.colors + p.colors,
       name := p.name, chartType := p.chartType, colorScheme := p.colorScheme, title := p.title,
       customColors := PutAll(q.customColors, p.customColors))
  }

  /** The lines of a written document, read in order from a project `q`. */
  lemma RunRendered(q: Project, p: Project)
    requires WellFormed(p)
    ensures Run(Scan(q, None), RenderLines(p)).Running?
    ensures Run(Scan(q, None), RenderLines(p)).scan.project == Absorb(q, p)
  {
    var n := |p.labels|;
    var s0 := Scan(q, None);
    var r1 := q.(created := p.created, modified := p.modified);
    var r2 := WithRecords(r1, p, n);
    var r3 := WithInfo(r2, p);
    var r4 := r3.(customColors := PutAll(r3.customColors, p.customColors));
    var sec := if p.customColors == [] then Some(InfoSection) else Some(CustomSection);
    var pre, data, info, custom := Preamble(p), DataLines(p, ZipLength(p)), InfoBlock(p), CustomBlock(p);
    RunPreamble(q, p);
    RunData(r1, p, n);
    RunInfo(r2, p);
    RunCustomBlock(r3, p);
    StepSkipped(Scan(r4, sec));
    RunAppend(s0, pre, data);
    RunAppend(s0, pre + data, info);
    RunAppend(s0, pre + data + info, custom);
    RunSnocStep(s0, pre + data + info + custom, Scan(r4, sec), Footer);
    AbsorbInSteps(q, p);
  }

  /** `Absorb` is the effect of the preamble, the data lines, the DiaInfo block and the custom colours in turn. */
  lemma AbsorbInSteps(q: Project, p: Project)
    requires Aligned(p)
    ensures var r3 := WithInfo(WithRecords(q.(created := p.created, modified := p.modified), p, |p.labels|), p);
      Absorb(q, p) == r3.(customColors := PutAll(r3.customColors, p.customColors))
  {
    var n := |p.labels|;
    assert p.labels[..n] == p.labels && p.values[..n] == p.values && p.colors[..n] == p.colors;
  }
}
