/**
  * `DiagramProject`: the object the editor and the start menu share. Its fields are updated in
  * place; `Snapshot` reads them into the `Project` value that the format functions describe.
  */
module Diagram {
  import opened Wrappers
  import opened Text
  import Numeral
  import Palette
  import opened DiaFormat
  import opened DiaLaws
  import opened DiaReading

  class DiagramProject {
    var name: string
    var created: string
    var modified: string
    /** `data["labels"]`, `data["values"]` and `data["colors"]`. */
    var labels: seq<string>
    var values: seq<int>
    var colors: seq<string>
    var chartType: string
    var colorScheme: string
    var title: string
    /** The `custom_colors` dict, as its entries in insertion order. */
    var customColors: seq<(string, string)>
    /** The fixed diagram size; it is no longer written to or read from the format. */
    const width: nat
    const height: nat

    function Snapshot(): Project
      reads this
    {
      Project(name, created, modified, labels, values, colors, chartType, colorScheme, title, customColors)
    }

    /** `DiagramProject(name)`, both timestamps taken from the clock reading `now`. */
    constructor (name: string, now: string)
      ensures Snapshot() == NewProject(name, now)
      ensures width == 10 && height == 6
    {
      this.name := name;
      created := now;
      modified := now;
      labels := [];
      values := [];
      colors := [];
      chartType := "Bar";
      colorScheme := Palette.DefaultScheme;
      title := "My Chart";
      customColors := [];
      width := 10;
      height := 6;
    }

    /** `to_dia_format()`: the lines are collected one by one, then joined with newlines. */
    method ToDiaFormat() returns (text: string)
      ensures text == ToDia(Snapshot())
    {
      ghost var p := Snapshot();
      var content := [Header, ""];
      content := content + [SectionLine(SettingsSection)];
      content := content + [SettingsLine(created, modified)];
      content := content + [""];
      content := content + [SectionLine(DataSection)];
      WrittenPreamble(p);
      // `zip` stops at the shortest of the three lists.
      var n := |labels|;
      if |values| < n { n := |values|; }
      if |colors| < n { n := |colors|; }
      assert n == ZipLength(p);
      var i := 0;
      while i < n
        invariant 0 <= i <= n
        invariant content == Preamble(p) + DataLines(p, i)
      {
        WrittenDataLine(Preamble(p), p, i);
        content := content + [DataLine(labels[i], values[i], colors[i])];
        i := i + 1;
      }
      ghost var upToData := content;
      content := content + [""];
      content := content + [SectionLine(InfoSection)];
      content := content + [InfoLine("Name", name)];
      content := content + [InfoLine("Type", chartType)];
      content := content + [InfoLine("ColorScheme", colorScheme)];
      content := content + [InfoLine("Title", title)];
      content := content + [""];
      WrittenInfoBlock(upToData, p);
      ghost var upToInfo := content;
      if customColors != [] {
        content := content + [SectionLine(CustomSection)];
        var j := 0;
        while j < |customColors|
          invariant 0 <= j <= |customColors|
          invariant content == upToInfo + [SectionLine(CustomSection)] + CustomLines(customColors, j)
        {
          WrittenCustomLine(upToInfo + [SectionLine(CustomSection)], customColors, j);
          content := content + [CustomLine(customColors[j].0, customColors[j].1)];
          j := j + 1;
        }
        content := content + [""];
      }
      WrittenCustomBlock(upToInfo, p, content);
      content := content + [Footer];
      text := Join(content, '\n');
    }

    /**
      * `from_dia_format(text)`: the text is read line by line into this project, which is not
      * reset first. The result is the state and flag `FromDia` describes; on a rejected value the
      * fields keep what the lines before it (and the label of that line) put there.
      */
    method FromDiaFormat(text: string) returns (ok: bool)
      modifies this
      ensures (Snapshot(), ok) == FromDia(old(Snapshot()), text)
    {
      ghost var start := Scan(Snapshot(), None);
      var lines := Split(text, '\n');
      var section: Option<string> := None;
      var i := 0;
      while i < |lines|
        invariant 0 <= i <= |lines|
        invariant Run(start, lines[..i]) == Running(Scan(Snapshot(), section))
      {
        ghost var before := Scan(Snapshot(), section);
        RunNext(start, lines, i, before);
        var line := Strip(lines[i]);
        if line == [] || line[0] == '#' {
          // A comment or a blank line.
        } else if IsBracketed(line) && Inner(line) == TypeMarker {
          // The format header.
        } else if IsBracketed(line) && IsSectionMarker(Inner(line)) {
          section := Some(Inner(line));
        } else if section == Some(SettingsSection) {
          ReadSettingsLine(line);
        } else if section == Some(DataSection) {
          var read := ReadDataLine(line);
          if !read {
            RunStopped(start, lines, i + 1);
            return false;
          }
        } else if section == Some(InfoSection) {
          ReadInfoLine(line);
        } else if section == Some(CustomSection) {
          ReadCustomLine(line);
        }
        i := i + 1;
      }
      assert lines[..|lines|] == lines;
      return true;
    }

    /** A line of the Settings section: both timestamps are taken from one match, or neither. */
    method ReadSettingsLine(line: string)
      modifies this
      ensures Snapshot() == SettingsStep(old(Snapshot()), line)
    {
      if Contains(line, SettingsKey) {
        var found := SearchSettings(line, 0);
        if found.Some? {
          created := found.value.0;
          modified := found.value.1;
        }
      }
    }

    /**
      * A line of the Data section. The label is appended before the value is converted, so when
      * the conversion fails (`ok` is false) the label stays appended.
      */
    method ReadDataLine(line: string) returns (ok: bool)
      modifies this
      ensures ok ==> DataStep(Scan(old(Snapshot()), Some(DataSection)), line) == Running(Scan(Snapshot(), Some(DataSection)))
      ensures !ok ==> DataStep(Scan(old(Snapshot()), Some(DataSection)), line) == Failed(Snapshot())
    {
      if IsBracketed(line) {
        var dataLine := Inner(line);
        var parts := StripAll(Split(dataLine, '|'));
        if |parts| == 3 {
          labels := labels + [parts[0]];
          var value := Numeral.Parse(parts[1]);
          if value.None? {
            return false;
          }
          values := values + [value.value];
          colors := colors + [parts[2]];
        }
      }
      return true;
    }

    /**
      * A line of the DiaInfo section: of `Name:`, `Type:`, `ColorScheme:` and `Title:`, taken in
      * that order, the first one the line contains is the only attribute it may set.
      */
    method ReadInfoLine(line: string)
      modifies this
      ensures Snapshot() == InfoStep(old(Snapshot()), line)
    {
      if IsBracketed(line) {
        var info := Inner(line);
        if Contains(info, "Name:") {
          var found := SearchAttribute(info, "Name:", 0);
          if found.Some? { name := found.value; }
        } else if Contains(info, "Type:") {
          var found := SearchAttribute(info, "Type:", 0);
          if found.Some? { chartType := found.value; }
        } else if Contains(info, "ColorScheme:") {
          var found := SearchAttribute(info, "ColorScheme:", 0);
          if found.Some? { colorScheme := found.value; }
        } else if Contains(info, "Title:") {
          var found := SearchAttribute(info, "Title:", 0);
          if found.Some? { title := found.value; }
        }
      }
    }

    /** A line of the CustomColors section: `key: color`, split at the first colon. */
    method ReadCustomLine(line: string)
      modifies this
      ensures Snapshot() == CustomStep(old(Snapshot()), line)
    {
      if IsBracketed(line) {
        var colorLine := Inner(line);
        var k := IndexOf(colorLine, ':');
        if k < |colorLine| {
          var key, color := colorLine[..k], colorLine[k + 1..];
          customColors := Put(customColors, Strip(key), Strip(color));
        }
      }
    }
  }

  // ---------------------------------------------------------------------------
  // The writer's appends, one group of lines at a time.

  lemma WrittenPreamble(p: Project)
    ensures [Header, ""] + [SectionLine(SettingsSection)] + [SettingsLine(p.created, p.modified)] + [""]
            + [SectionLine(DataSection)] == Preamble(p)
  {
  }

  lemma WrittenDataLine(pre: seq<string>, p: Project, i: nat)
    requires i < ZipLength(p)
    ensures pre + DataLines(p, i) + [DataLine(p.labels[i], p.values[i], p.colors[i])] == pre + DataLines(p, i + 1)
  {
  }

  lemma WrittenInfoBlock(pre: seq<string>, p: Project)
    ensures pre + [""] + [SectionLine(InfoSection)] + [InfoLine("Name", p.name)] + [InfoLine("Type", p.chartType)]
            + [InfoLine("ColorScheme", p.colorScheme)] + [InfoLine("Title", p.title)] + [""] == pre + InfoBlock(p)
  {
  }

  lemma WrittenCustomLine(pre: seq<string>, es: seq<(string, string)>, j: nat)
    requires j < |es|
    ensures pre + CustomLines(es, j) + [CustomLine(es[j].0, es[j].1)] == pre + CustomLines(es, j + 1)
  {
  }

  lemma WrittenCustomBlock(pre: seq<string>, p: Project, content: seq<string>)
    requires p.customColors == [] ==> content == pre
    requires p.customColors != [] ==>
      content == pre + [SectionLine(CustomSection)] + CustomLines(p.customColors, |p.customColors|) + [""]
    ensures content == pre + CustomBlock(p)
  {
  }

  /** The reader after one more line is one `Step` further. */
  lemma RunNext(start: Scan, lines: seq<string>, i: nat, before: Scan)
    requires i < |lines| && Run(start, lines[..i]) == Running(before)
    ensures Run(start, lines[..i + 1]) == Step(before, lines[i])
  {
    assert lines[..i + 1] == lines[..i] + [lines[i]];
    RunSnocStep(start, lines[..i], before, lines[i]);
  }
}
