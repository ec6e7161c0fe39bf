/**
  * The editor's operations on the open project (`DiagramCreator`): adding, deleting, recolouring
  * and clearing records, choosing a colour scheme, the chart-title default and applying edited
  * `.dia` code; and the cyclic colouring the Excel import gives a new project. Each operation
  * works in place on a `DiagramProject`; the function beside it says what the new state is, and
  * the lemmas what that state keeps.
  *
  * A project usually reaches the editor with aligned series (three lists of one length): a new
  * project starts empty, and a project read from a file is kept only when the read succeeds,
  * which leaves the lists aligned (`DiaReading.FromDiaSeries`). The operations below keep them
  * so. A spreadsheet import whose value column does not convert is the exception: it leaves the
  * labels set and the other two lists empty (`FailedImportMisaligned`), and `Deleted` describes
  * what `delete_data` does to such a project too.
  */
module Editor {
  import opened Wrappers
  import opened Text
  import Numeral
  import Palette
  import opened DiaFormat
  import opened DiaLaws
  import opened DiaDocument
  import opened DiaReading
  import opened Diagram

  // ---------------------------------------------------------------------------
  // add_data

  /** The entry texts `add_data` accepts: a label and a number once stripped, and a known colour scheme. */
  predicate Accepted(p: Project, labelText: string, valueText: string) {
    Strip(labelText) != [] && Strip(valueText) != [] && Numeral.Parse(Strip(valueText)).Some?
    && Palette.Scheme(p.colorScheme).Some?
  }

  /**
    * The project after `add_data` with the two entry texts: one more record, coloured by the
    * scheme's palette at the old length, or no change where the program warns, fails to convert
    * the value, or looks up a scheme that is not in the table.
    */
  function Added(p: Project, labelText: string, valueText: string): (q: Project)
    ensures Accepted(p, labelText, valueText) <==> |q.labels| == |p.labels| + 1
    ensures !Accepted(p, labelText, valueText) ==> q == p
    ensures Accepted(p, labelText, valueText) ==>
      var palette := Palette.Scheme(p.colorScheme).value;
      && q.labels == p.labels + [Strip(labelText)]
      && q.values == p.values + [Numeral.Parse(Strip(valueText)).value]
      && q.colors == p.colors + [palette[|p.labels| % |palette|]]
      && q.(labels := p.labels, values := p.values, colors := p.colors) == p
  {
    var pointLabel, entry := Strip(labelText), Strip(valueText);
    if pointLabel == [] || entry == [] then p
    else
      match Numeral.Parse(entry)
      case None => p
      case Some(v) =>
        match Palette.Scheme(p.colorScheme)
        case None => p
        case Some(palette) =>
          p.(labels := p.labels + [pointLabel], values := p.values + [v],
             colors := p.colors + [palette[|p.labels| % |palette|]])
  }

  /** `add_data` keeps the series aligned. */
  lemma AddKeepsAligned(p: Project, labelText: string, valueText: string)
    requires Aligned(p)
    ensures Aligned(Added(p, labelText, valueText))
  {
  }

  /**
    * A series coloured cyclically from its scheme's palette stays so when `add_data` appends to it:
    * the colour it picks is the one the scheme selector would give the new record.
    */
  lemma AddKeepsCyclic(p: Project, labelText: string, valueText: string, palette: seq<string>)
    requires Palette.Scheme(p.colorScheme) == Some(palette)
    requires p.colors == Palette.CyclicColors(palette, |p.labels|)
    ensures var q := Added(p, labelText, valueText);
      q.colors == Palette.CyclicColors(palette, |q.labels|)
  {
  }

  method AddData(project: DiagramProject, labelText: string, valueText: string)
    modifies project
    ensures project.Snapshot() == Added(old(project.Snapshot()), labelText, valueText)
  {
    var pointLabel := Strip(labelText);
    var entry := Strip(valueText);
    if pointLabel == [] || entry == [] {
      // "Please enter both label and value!"
      return;
    }
    var value := Numeral.Parse(entry);
    if value.None? {
      // "Value must be a number!"
      return;
    }
    var palette := Palette.Scheme(project.colorScheme);
    if palette.None? {
      // `COLOR_SCHEMES[...]` raises before the lists are touched.
      return;
    }
    var color := palette.value[|project.labels| % |palette.value|];
    project.labels := project.labels + [pointLabel];
    project.values := project.values + [value.value];
    project.colors := project.colors + [color];
  }

  // ---------------------------------------------------------------------------
  // delete_data

  /** `r` is `s` with its element at `i` taken out and the rest kept in order. */
  ghost predicate RemovedAt<T>(r: seq<T>, s: seq<T>, i: nat) {
    i < |s| && |r| == |s| - 1 && forall k | 0 <= k < |r| :: r[k] == if k < i then s[k] else s[k + 1]
  }

  /** `s.pop(i)`: `s` without its element at `i`. */
  function Without<T>(s: seq<T>, i: nat): (r: seq<T>)
    requires i < |s|
    ensures RemovedAt(r, s, i)
  {
    s[..i] + s[i + 1..]
  }

  /**
    * The project after `delete_data(index)`. The guard looks at the labels only; then the three
    * lists are popped in turn, and a list too short for `index` raises, which ends the operation
    * with the lists before it already popped.
    */
  function Deleted(p: Project, index: int): (q: Project)
    ensures 0 <= index < |p.labels| <==> |q.labels| == |p.labels| - 1
    ensures !(0 <= index < |p.labels|) ==> q == p
    ensures 0 <= index < |p.labels| ==> RemovedAt(q.labels, p.labels, index)
    ensures 0 <= index < |p.labels| && index < |p.values| ==> RemovedAt(q.values, p.values, index)
    ensures 0 <= index < |p.labels| && index < |p.values| && index < |p.colors| ==> RemovedAt(q.colors, p.colors, index)
    ensures !(0 <= index < |p.labels| && index < |p.values|) ==> q.values == p.values
    ensures !(0 <= index < |p.labels| && index < |p.values| && index < |p.colors|) ==> q.colors == p.colors
    ensures Aligned(p) ==> Aligned(q)
    ensures q.(labels := p.labels, values := p.values, colors := p.colors) == p
  {
    if !(0 <= index < |p.labels|) then p
    else
      var popped := p.(labels := Without(p.labels, index));
      if index >= |p.values| then popped
      else if index >= |p.colors| then popped.(values := Without(p.values, index))
      else popped.(values := Without(p.values, index), colors := Without(p.colors, index))
  }

  /** Deleting the record `add_data` just appended gives back the project as it was. */
  lemma DeleteUndoesAdd(p: Project, labelText: string, valueText: string)
    requires Aligned(p) && Accepted(p, labelText, valueText)
    ensures Deleted(Added(p, labelText, valueText), |p.labels|) == p
  {
    var q := Added(p, labelText, valueText);
    var n := |p.labels|;
    assert Without(q.labels, n) == p.labels;
    assert Without(q.values, n) == p.values;
    assert Without(q.colors, n) == p.colors;
  }

  method DeleteData(project: DiagramProject, index: int)
    modifies project
    ensures project.Snapshot() == Deleted(old(project.Snapshot()), index)
  {
    if 0 <= index < |project.labels| {
      project.labels := project.labels[..index] + project.labels[index + 1..];
      if index >= |project.values| {
        // `pop` raises an IndexError.
        return;
      }
      project.values := project.values[..index] + project.values[index + 1..];
      if index >= |project.colors| {
        return;
      }
      project.colors := project.colors[..index] + project.colors[index + 1..];
    }
  }

  // ---------------------------------------------------------------------------
  // change_data_color

  /**
    * The project after `change_data_color(index)` when the colour dialog returns `chosen` (`None`
    * when it is cancelled): the colour at `index` replaced by a non-empty choice, nothing else
    * changed. An index past the colours raises while the dialog is being set up, before any change.
    */
  function Recolored(p: Project, index: nat, chosen: Option<string>): (q: Project)
    ensures |q.colors| == |p.colors|
    ensures index < |p.colors| ==>
      q.colors[index] == if chosen.Some? && chosen.value != [] then chosen.value else p.colors[index]
    ensures forall k | 0 <= k < |q.colors| && k != index :: q.colors[k] == p.colors[k]
    ensures index >= |p.colors| || chosen.None? || chosen.value == [] ==> q == p
    ensures q.(colors := p.colors) == p
  {
    if index < |p.colors| && chosen.Some? && chosen.value != [] then p.(colors := p.colors[index := chosen.value]) else p
  }

  method ChangeDataColor(project: DiagramProject, index: nat, chosen: Option<string>)
    modifies project
    ensures project.Snapshot() == Recolored(old(project.Snapshot()), index, chosen)
  {
    if index >= |project.colors| {
      // `colors[index]` raises an IndexError.
      return;
    }
    if chosen.Some? && chosen.value != [] {
      project.colors := project.colors[index := chosen.value];
    }
  }

  // ---------------------------------------------------------------------------
  // clear_data

  /** `clear_data` empties the series; the custom colours and every other field stay. */
  method ClearData(project: DiagramProject)
    modifies project
    ensures project.Snapshot() == old(project.Snapshot()).(labels := [], values := [], colors := [])
    ensures Aligned(project.Snapshot())
  {
    project.labels := [];
    project.values := [];
    project.colors := [];
  }

  // ---------------------------------------------------------------------------
  // change_color_scheme and the Excel import

  /**
    * The project after `change_color_scheme(choice)`: the scheme name is stored first; then, for a
    * scheme in the table, every record is recoloured `palette[i % len(palette)]`. For an unknown
    * name the lookup raises and the colours stay.
    */
  function Reschemed(p: Project, choice: string): (q: Project)
    ensures q.colorScheme == choice
    ensures q.labels == p.labels && q.values == p.values
    ensures Palette.Scheme(choice).None? ==> q.colors == p.colors
    ensures Palette.Scheme(choice).Some? ==>
      var palette := Palette.Scheme(choice).value;
      |q.colors| == |p.labels| && forall k | 0 <= k < |q.colors| :: q.colors[k] == palette[k % |palette|]
    ensures q.(colorScheme := p.colorScheme, colors := p.colors) == p
  {
    match Palette.Scheme(choice)
    case None => p.(colorScheme := choice)
    case Some(palette) => p.(colorScheme := choice, colors := Palette.CyclicColors(palette, |p.labels|))
  }

  /** Choosing a scheme keeps an aligned series aligned. */
  lemma ReschemeKeepsAligned(p: Project, choice: string)
    requires Aligned(p)
    ensures Aligned(Reschemed(p, choice))
  {
  }

  /** Choosing the same scheme twice is choosing it once. */
  lemma ReschemeIdempotent(p: Project, choice: string)
    ensures Reschemed(Reschemed(p, choice), choice) == Reschemed(p, choice)
  {
  }

  method ChangeColorScheme(project: DiagramProject, choice: string)
    modifies project
    ensures project.Snapshot() == Reschemed(old(project.Snapshot()), choice)
  {
    project.colorScheme := choice;
    var palette := Palette.Scheme(choice);
    if palette.Some? {
      project.colors := Palette.CyclicColors(palette.value, |project.labels|);
    }
  }

  /**
    * What the spreadsheet import reads: nothing it can use (a file that does not open, or fewer
    * than two columns), or the first column as text with the second column converted to numbers,
    * `None` when a cell of the second column is not a number.
    */
  datatype Sheet = Unusable | Columns(pointLabels: seq<string>, values: Option<seq<int>>)

  /**
    * The new project after the spreadsheet import. The labels are assigned first; a value column
    * that does not convert raises before the values and colours are, and the error is caught. A
    * full import colours the records cyclically from the new project's (default) scheme.
    */
  function Imported(name: string, now: string, sheet: Sheet): (p: Project)
    requires sheet.Columns? && sheet.values.Some? ==> |sheet.values.value| == |sheet.pointLabels|
    ensures sheet.Unusable? ==> p == NewProject(name, now)
    ensures sheet.Columns? ==> p.labels == sheet.pointLabels
    ensures sheet.Columns? && sheet.values.Some? ==> Aligned(p) && p.values == sheet.values.value
    ensures sheet.Columns? && sheet.values.None? ==> p.values == [] && p.colors == []
    ensures p.(labels := [], values := [], colors := []) == NewProject(name, now)
  {
    var p := NewProject(name, now);
    match sheet
    case Unusable => p
    case Columns(pointLabels, None) => p.(labels := pointLabels)
    case Columns(pointLabels, Some(values)) =>
      var palette := Palette.Scheme(p.colorScheme).value;
      p.(labels := pointLabels, values := values, colors := Palette.CyclicColors(palette, |pointLabels|))
  }

  /** A full import colours the series exactly as choosing the project's own scheme would. */
  lemma ImportedColorsAsScheme(name: string, now: string, pointLabels: seq<string>, values: seq<int>)
    requires |pointLabels| == |values|
    ensures var p := Imported(name, now, Columns(pointLabels, Some(values)));
      Reschemed(p, p.colorScheme) == p
  {
  }

  /** An import whose value column does not convert hands the editor labels without values or colours. */
  lemma FailedImportMisaligned(name: string, now: string, pointLabels: seq<string>)
    requires pointLabels != []
    ensures !Aligned(Imported(name, now, Columns(pointLabels, None)))
  {
  }

  // ---------------------------------------------------------------------------
  // The chart title

  /** The title `update_chart` stores: the entry text, or "My Chart" when the entry is empty. */
  function ChartTitle(entry: string): (title: string)
    ensures title != []
    ensures entry != [] ==> title == entry
    ensures entry == [] ==> title == "My Chart"
  {
    if entry == [] then "My Chart" else entry
  }

  // ---------------------------------------------------------------------------
  // apply_dia_code

  /**
    * `apply_dia_code` as written: the code is first read into a fresh project, and when that
    * succeeds it is read again into the open project, which is not reset, so its series and
    * custom colours are added to rather than replaced.
    */
  function ApplyAsWritten(p: Project, text: string, now: string): Project {
    if Parse(text, now).Some? then FromDia(p, text).0 else p
  }

  /** Applying the code tab's own, unchanged text doubles the series. */
  lemma ApplyAsWrittenDoubles(p: Project, now: string)
    requires WellFormed(p)
    ensures ApplyAsWritten(p, ToDia(p), now).labels == p.labels + p.labels
    ensures ApplyAsWritten(p, ToDia(p), now).values == p.values + p.values
  {
    RoundTrip(p, now);
    FromDiaToDia(p, p);
  }

  /** Hence applying the unchanged code to a project with at least one record changes it. */
  lemma ApplyAsWrittenChangesProject(p: Project, now: string)
    requires WellFormed(p) && p.labels != []
    ensures ApplyAsWritten(p, ToDia(p), now) != p
  {
    ApplyAsWrittenDoubles(p, now);
    assert |p.labels + p.labels| > |p.labels|;
  }

  /**
    * Even as written, valid code keeps an aligned series aligned: the second read succeeds as the
    * trial read did, and a successful read of aligned lists leaves them aligned.
    */
  lemma ApplyAsWrittenKeepsAligned(p: Project, text: string, now: string)
    requires Aligned(p)
    ensures Aligned(ApplyAsWritten(p, text, now))
  {
    if Parse(text, now).Some? {
      FromDiaFlagAlike(p, NewProject("New Project", now), text);
      FromDiaSeries(p, text);
    }
  }

  /** The open project with its series and custom colours emptied, ready to take the code's. */
  function Reset(p: Project): (q: Project)
    ensures Aligned(q) && q.labels == [] && q.customColors == []
    ensures q.(labels := p.labels, values := p.values, colors := p.colors, customColors := p.customColors) == p
  {
    p.(labels := [], values := [], colors := [], customColors := [])
  }

  /** `apply_dia_code` as intended: valid code replaces the series and the custom colours. */
  function Apply(p: Project, text: string, now: string): Project {
    if Parse(text, now).Some? then FromDia(Reset(p), text).0 else p
  }

  /** Applying the code tab's own, unchanged text leaves the project as it is. */
  lemma ApplyOwnCode(p: Project, now: string)
    requires WellFormed(p)
    ensures Apply(p, ToDia(p), now) == p
  {
    RoundTrip(p, now);
    FromDiaToDia(Reset(p), p);
    PutAllFresh(p.customColors);
    assert [] + p.labels == p.labels && [] + p.values == p.values && [] + p.colors == p.colors;
  }

  /**
    * Valid code leaves an aligned series: the trial read tells that the read into the open project
    * succeeds too, and a successful read keeps the lists aligned.
    */
  lemma ApplyKeepsAligned(p: Project, text: string, now: string)
    ensures Parse(text, now).Some? ==> Aligned(Apply(p, text, now))
  {
    if Parse(text, now).Some? {
      FromDiaFlagAlike(Reset(p), NewProject("New Project", now), text);
      FromDiaSeries(Reset(p), text);
    }
  }

  /**
    * `apply_dia_code` as written, on the text of the code tab: `applied` says whether the trial
    * read into a fresh project succeeded, and then the code is read a second time into the open
    * project, which is left as `ApplyAsWritten` describes.
    */
  method ApplyDiaCode(project: DiagramProject, text: string, now: string) returns (applied: bool)
    modifies project
    ensures applied <==> Parse(text, now).Some?
    ensures project.Snapshot() == ApplyAsWritten(old(project.Snapshot()), text, now)
  {
    var trial := new DiagramProject("New Project", now);
    applied := trial.FromDiaFormat(text);
    if applied {
      var _ := project.FromDiaFormat(text);
    }
  }

  /** The corrected `apply_dia_code`: valid code replaces the series and custom colours, as `Apply` describes. */
  method ApplyDiaCodeReplacing(project: DiagramProject, text: string, now: string) returns (applied: bool)
    modifies project
    ensures applied <==> Parse(text, now).Some?
    ensures project.Snapshot() == Apply(old(project.Snapshot()), text, now)
  {
    var trial := new DiagramProject("New Project", now);
    applied := trial.FromDiaFormat(text);
    if applied {
      project.labels := [];
      project.values := [];
      project.colors := [];
      project.customColors := [];
      var _ := project.FromDiaFormat(text);
    }
  }
}
