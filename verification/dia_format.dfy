/**
  * The `.dia` text format of a DiaDrop project: what `DiagramProject.to_dia_format` writes and
  * what `DiagramProject.from_dia_format` reads, stated as functions over a value snapshot of the
  * project. The class in project.dfy runs these steps in place; the laws are in dia_laws.dfy.
  */
module DiaFormat {
  import opened Wrappers
  import opened Text
  import Numeral
  import Palette

  /**
    * Everything a project persists. The series is kept, as in the program, as three parallel
    * lists (`data["labels"]`, `data["values"]`, `data["colors"]`), and `customColors` as the
    * insertion-ordered entries of a Python dict.
    */
  datatype Project = Project(
    name: string,
    created: string,
    modified: string,
    labels: seq<string>,
    values: seq<int>,
    colors: seq<string>,
    chartType: string,
    colorScheme: string,
    title: string,
    customColors: seq<(string, string)>)

  /** The three series lists describe one list of records: they have the same length. */
  predicate Aligned(p: Project) {
    |p.labels| == |p.values| == |p.colors|
  }

  /** `DiagramProject(name)` with both timestamps read from the clock as `now`. */
  function NewProject(name: string, now: string): (p: Project)
    ensures Aligned(p) && p.labels == [] && p.customColors == []
  {
    Project(name, now, now, [], [], [], "Bar", Palette.DefaultScheme, "My Chart", [])
  }

  // ---------------------------------------------------------------------------
  // The custom-colour dict.

  /** `d.get(key)`. */
  function Lookup(entries: seq<(string, string)>, key: string): (r: Option<string>)
    ensures r.None? <==> forall i | 0 <= i < |entries| :: entries[i].0 != key
  {
    if entries == [] then None
    else if entries[0].0 == key then Some(entries[0].1)
    else
      var r := Lookup(entries[1..], key);
      assert forall i | 1 <= i < |entries| :: entries[i] == entries[1..][i - 1];
      r
  }

  predicate DistinctKeys(entries: seq<(string, string)>) {
    forall i, j | 0 <= i < j < |entries| :: entries[i].0 != entries[j].0
  }

  /** `d[key] = value`: a key already present keeps its place and takes the new value; a new key goes last. */
  function Put(entries: seq<(string, string)>, key: string, value: string): (r: seq<(string, string)>)
    ensures Lookup(r, key) == Some(value)
    ensures forall k | k != key :: Lookup(r, k) == Lookup(entries, k)
    ensures Lookup(entries, key).None? ==> r == entries + [(key, value)]
    ensures Lookup(entries, key).Some? ==> |r| == |entries|
  {
    if entries == [] then [(key, value)]
    else if entries[0].0 == key then [(key, value)] + entries[1..]
    else
      var rest := Put(entries[1..], key, value);
      assert ([entries[0]] + rest)[1..] == rest;
      [entries[0]] + rest
  }

  /** Assigning each entry in turn, as the parser does for the lines of a CustomColors section. */
  function PutAll(entries: seq<(string, string)>, writes: seq<(string, string)>): seq<(string, string)> {
    if writes == [] then entries
    else
      var last := writes[|writes| - 1];
      Put(PutAll(entries, writes[..|writes| - 1]), last.0, last.1)
  }

  // ---------------------------------------------------------------------------
  // Writing: `to_dia_format`.

  const TypeMarker: string := "<TYPE dia>"
  const Header: string := "[<TYPE dia>]"
  const Footer: string := "# .dia File - DiaDrop Chart Format"
  const SettingsSection: string := "__Settings__"
  const DataSection: string := "__Data__"
  const InfoSection: string := "__DiaInfo__"
  const CustomSection: string := "__CustomColors__"

  function SectionLine(section: string): string {
    "[" + section + "]"
  }

  const SettingsKey: string := "Project Settings:"
  const CreatedOpen: string := "created=\""
  const SettingsPrefix: string := "[" + SettingsKey + " " + CreatedOpen
  const ModifiedInfix: string := "\" modified=\""

  function SettingsLine(created: string, modified: string): string {
    SettingsPrefix + created + ModifiedInfix + modified + "\"]"
  }

  /** The inside of a data line: label, value and colour separated by ` | `. */
  function DataContent(pointLabel: string, value: int, color: string): string {
    pointLabel + " | " + Numeral.Format(value) + " | " + color
  }

  function DataLine(pointLabel: string, value: int, color: string): string {
    "[" + DataContent(pointLabel, value, color) + "]"
  }

  /** One `[Key: "value"]` line of the DiaInfo section. */
  function InfoLine(key: string, value: string): string {
    "[" + key + ": \"" + value + "\"]"
  }

  function CustomContent(key: string, color: string): string {
    key + ": " + color
  }

  function CustomLine(key: string, color: string): string {
    "[" + CustomContent(key, color) + "]"
  }

  /** How many records `zip(labels, values, colors)` yields: the shortest list's length. */
  function ZipLength(p: Project): (n: nat)
    ensures n <= |p.labels| && n <= |p.values| && n <= |p.colors|
    ensures Aligned(p) ==> n == |p.labels|
  {
    if |p.labels| <= |p.values| && |p.labels| <= |p.colors| then |p.labels|
    else if |p.values| <= |p.colors| then |p.values|
    else |p.colors|
  }

  /** The data lines of the first `n` records. */
  function DataLines(p: Project, n: nat): (lines: seq<string>)
    requires n <= ZipLength(p)
    ensures |lines| == n
  {
    if n == 0 then []
    else DataLines(p, n - 1) + [DataLine(p.labels[n - 1], p.values[n - 1], p.colors[n - 1])]
  }

  /** The lines of the first `n` custom-colour entries. */
  function CustomLines(entries: seq<(string, string)>, n: nat): (lines: seq<string>)
    requires n <= |entries|
    ensures |lines| == n
  {
    if n == 0 then []
    else CustomLines(entries, n - 1) + [CustomLine(entries[n - 1].0, entries[n - 1].1)]
  }

  /** Header, the Settings section and the Data section heading. */
  function Preamble(p: Project): seq<string> {
    [Header, "", SectionLine(SettingsSection), SettingsLine(p.created, p.modified), "", SectionLine(DataSection)]
  }

  /** The end of the Data section and the whole DiaInfo section. */
  function InfoBlock(p: Project): seq<string> {
    ["", SectionLine(InfoSection), InfoLine("Name", p.name), InfoLine("Type", p.chartType),
     InfoLine("ColorScheme", p.colorScheme), InfoLine("Title", p.title), ""]
  }

  /** The CustomColors section, left out when there are no custom colours. */
  function CustomBlock(p: Project): seq<string> {
    if p.customColors == [] then []
    else [SectionLine(CustomSection)] + CustomLines(p.customColors, |p.customColors|) + [""]
  }

  /** The lines `to_dia_format` collects before joining them. */
  function RenderLines(p: Project): seq<string> {
    Preamble(p) + DataLines(p, ZipLength(p)) + InfoBlock(p) + CustomBlock(p) + [Footer]
  }

  /** `to_dia_format()`: the lines joined with newlines. */
  function ToDia(p: Project): string {
    Join(RenderLines(p), '\n')
  }

  // ---------------------------------------------------------------------------
  // The fixed regular expressions, as scanners. In each pattern a greedy `[^"]+` must be followed
  // by `"`, so at a given start the only possible match runs to the next `"`; `re.search` takes the
  // leftmost start that matches.

  /** The index of the first `"` at or after `j`, or `|s|`. */
  function QuoteFrom(s: string, j: nat): (e: nat)
    requires j <= |s|
    ensures j <= e <= |s| && (e < |s| ==> s[e] == '"')
    ensures '"' !in s[j..e]
  {
    var k := IndexOf(s[j..], '"');
    assert s[j..j + k] == s[j..][..k];
    j + k
  }

  /** `created="([^"]+)" modified="([^"]+)"` matched at index `i`: the two groups. */
  function SettingsMatchAt(s: string, i: nat): Option<(string, string)> {
    if !OccursAt(s, CreatedOpen, i) then None
    else
      var j := i + |CreatedOpen|;
      var e := QuoteFrom(s, j);
      if e == j || !OccursAt(s, ModifiedInfix, e) then None
      else
        var k := e + |ModifiedInfix|;
        var f := QuoteFrom(s, k);
        if f == k || f == |s| then None
        else Some((s[j..e], s[k..f]))
  }

  /** `re.search` of the Settings pattern from index `i` on. */
  function SearchSettings(s: string, i: nat): Option<(string, string)>
    requires i <= |s|
    decreases |s| - i
  {
    if i == |s| then None
    else if SettingsMatchAt(s, i).Some? then SettingsMatchAt(s, i)
    else SearchSettings(s, i + 1)
  }

  /** `<key>\s*"([^"]+)"` matched at index `i` (`key` is `Name:`, `Type:`, ...): the group. */
  function AttributeMatchAt(s: string, key: string, i: nat): Option<string> {
    if !OccursAt(s, key, i) then None
    else
      var j := i + |key|;
      var k := |s| - |TrimLeft(s[j..])|;
      if k == |s| || s[k] != '"' then None
      else
        var f := QuoteFrom(s, k + 1);
        if f == k + 1 || f == |s| then None
        else Some(s[k + 1..f])
  }

  /** `re.search` of an attribute pattern from index `i` on. */
  function SearchAttribute(s: string, key: string, i: nat): Option<string>
    requires i <= |s|
    decreases |s| - i
  {
    if i == |s| then None
    else if AttributeMatchAt(s, key, i).Some? then AttributeMatchAt(s, key, i)
    else SearchAttribute(s, key, i + 1)
  }

  // ---------------------------------------------------------------------------
  // Reading: `from_dia_format`, one line at a time.

  /** `line.startswith('[') and line.endswith(']')`. */
  predicate IsBracketed(line: string) {
    |line| > 0 && line[0] == '[' && line[|line| - 1] == ']'
  }

  /** `line[1:-1]` of a bracketed line. */
  function Inner(line: string): string
    requires IsBracketed(line)
  {
    line[1..|line| - 1]
  }

  /** `content.startswith('__') and content.endswith('__')`, character by character. */
  predicate IsSectionMarker(content: string) {
    |content| >= 2 && content[0] == '_' && content[1] == '_'
    && content[|content| - 2] == '_' && content[|content| - 1] == '_'
  }

  function StripAll(parts: seq<string>): (r: seq<string>)
    ensures |r| == |parts|
    ensures forall i | 0 <= i < |parts| :: r[i] == Strip(parts[i])
  {
    if parts == [] then [] else [Strip(parts[0])] + StripAll(parts[1..])
  }

  /** The parser's variables: the project it fills and `current_section`. */
  datatype Scan = Scan(project: Project, section: Option<string>)

  /** After a line: parsing goes on, or `float()` raised and the project is left as it was then. */
  datatype Outcome = Running(scan: Scan) | Failed(project: Project)

  /** A line of the Settings section: both timestamps change together, or neither does. */
  function SettingsStep(p: Project, line: string): Project {
    if !Contains(line, SettingsKey) then p
    else
      match SearchSettings(line, 0)
      case Some(m) => p.(created := m.0, modified := m.1)
      case None => p
  }

  /**
    * A line of the Data section. A bracketed line of exactly three `|`-parts appends its label;
    * then its value is parsed, and if that fails the parse stops with the label already appended.
    */
  function DataStep(scan: Scan, line: string): Outcome {
    if !IsBracketed(line) then Running(scan)
    else
      var parts := StripAll(Split(Inner(line), '|'));
      if |parts| != 3 then Running(scan)
      else
        var p := scan.project.(labels := scan.project.labels + [parts[0]]);
        match Numeral.Parse(parts[1])
        case None => Failed(p)
        case Some(v) => Running(scan.(project := p.(values := p.values + [v], colors := p.colors + [parts[2]])))
  }

  /** A line of the DiaInfo section: the first attribute name it mentions decides which field it may set. */
  function InfoStep(p: Project, line: string): Project {
    if !IsBracketed(line) then p
    else
      var info := Inner(line);
      if Contains(info, "Name:") then
        match SearchAttribute(info, "Name:", 0) case Some(v) => p.(name := v) case None => p
      else if Contains(info, "Type:") then
        match SearchAttribute(info, "Type:", 0) case Some(v) => p.(chartType := v) case None => p
      else if Contains(info, "ColorScheme:") then
        match SearchAttribute(info, "ColorScheme:", 0) case Some(v) => p.(colorScheme := v) case None => p
      else if Contains(info, "Title:") then
        match SearchAttribute(info, "Title:", 0) case Some(v) => p.(title := v) case None => p
      else p
  }

  /** A line of the CustomColors section: split on the first `:`, both sides stripped. */
  function CustomStep(p: Project, line: string): Project {
    if !IsBracketed(line) then p
    else
      var content := Inner(line);
      var k := IndexOf(content, ':');
      if k == |content| then p
      else p.(customColors := Put(p.customColors, Strip(content[..k]), Strip(content[k + 1..])))
  }

  /** A line that is neither skipped nor a marker, handled according to `current_section`. */
  function SectionStep(scan: Scan, line: string): Outcome {
    if scan.section == Some(SettingsSection) then Running(scan.(project := SettingsStep(scan.project, line)))
    else if scan.section == Some(DataSection) then DataStep(scan, line)
    else if scan.section == Some(InfoSection) then Running(scan.(project := InfoStep(scan.project, line)))
    else if scan.section == Some(CustomSection) then Running(scan.(project := CustomStep(scan.project, line)))
    else Running(scan)
  }

  /** How the loop treats a stripped line before it looks at the current section. */
  datatype LineKind = Skipped | Marker(section: string) | Content

  /**
    * Comments (`#...`) and blank lines are skipped, and so is the format header `[<TYPE dia>]`;
    * a bracketed `[__X__]` names a section; everything else is content for the current section.
    */
  function Classify(line: string): LineKind {
    if line == [] || line[0] == '#' then Skipped
    else if IsBracketed(line) && Inner(line) == TypeMarker then Skipped
    else if IsBracketed(line) && IsSectionMarker(Inner(line)) then Marker(Inner(line))
    else Content
  }

  /** One iteration of the parser's loop, on the line with surrounding whitespace stripped. */
  function Step(scan: Scan, raw: string): Outcome {
    var line := Strip(raw);
    match Classify(line)
    case Skipped => Running(scan)
    case Marker(section) => Running(scan.(section := Some(section)))
    case Content => SectionStep(scan, line)
  }

  /** The parser's loop over `lines`, stopping at the first failure. */
  function Run(scan: Scan, lines: seq<string>): Outcome
    decreases |lines|
  {
    if lines == [] then Running(scan)
    else
      match Run(scan, lines[..|lines| - 1])
      case Failed(p) => Failed(p)
      case Running(s) => Step(s, lines[|lines| - 1])
  }

  /**
    * `p.from_dia_format(text)` on a project whose state is `p`: the state afterwards and the
    * returned flag. Nothing is reset first, so the series and the custom colours are added to.
    */
  function FromDia(p: Project, text: string): (Project, bool) {
    match Run(Scan(p, None), Split(text, '\n'))
    case Running(s) => (s.project, true)
    case Failed(q) => (q, false)
  }

  /** A fresh `DiagramProject()` read from `text`, kept only when the read succeeds. */
  function Parse(text: string, now: string): Option<Project> {
    var (q, ok) := FromDia(NewProject("New Project", now), text);
    if ok then Some(q) else None
  }
}
