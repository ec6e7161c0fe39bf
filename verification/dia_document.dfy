/**
  * Laws about whole `.dia` documents: the shape of what `to_dia_format` writes, the round trip
  * through `from_dia_format`, the lines the reader passes over, and what a read does to the series.
  */
module DiaDocument {
  import opened Wrappers
  import opened Text
  import Numeral
  import opened DiaFormat
  import opened DiaLaws

  // ---------------------------------------------------------------------------
  // The shape of a written document.

  /** The index of the first data line: after the header, the Settings section and `[__Data__]`. */
  const FirstDataLine: nat := 6

  /**
    * A written document opens with the format header and closes with the footer comment, holds one
    * data line per record of `zip(labels, values, colors)` in series order, and has a CustomColors
    * section exactly when there are custom colours, one line per entry in dict order.
    */
  lemma DocumentShape(p: Project)
    ensures var lines, n := RenderLines(p), ZipLength(p);
      && |lines| == FirstDataLine + n + 7 + (if p.customColors == [] then 0 else |p.customColors| + 2) + 1
      && lines[0] == Header && lines[|lines| - 1] == Footer
      && lines[FirstDataLine - 1] == SectionLine(DataSection)
      && (forall i | 0 <= i < n :: lines[FirstDataLine + i] == DataLine(p.labels[i], p.values[i], p.colors[i]))
      && lines[FirstDataLine + n + 1] == SectionLine(InfoSection)
      && (SectionLine(CustomSection) in lines <==> p.customColors != [])
  {
    RenderParts(p);
    var n := ZipLength(p);
    forall i | 0 <= i < n
      ensures RenderLines(p)[FirstDataLine + i] == DataLine(p.labels[i], p.values[i], p.colors[i])
    {
      DataLineAt(p, n, i);
    }
    CustomSectionOnlyInBlock(p);
  }

  /** Where the parts of a written document sit in its lines. */
  lemma RenderParts(p: Project)
    ensures var lines, n := RenderLines(p), ZipLength(p);
      && |lines| == FirstDataLine + n + 7 + |CustomBlock(p)| + 1
      && |CustomBlock(p)| == (if p.customColors == [] then 0 else |p.customColors| + 2)
      && lines[0] == Header && lines[|lines| - 1] == Footer
      && lines[FirstDataLine - 1] == SectionLine(DataSection)
      && (forall i | 0 <= i < n :: lines[FirstDataLine + i] == DataLines(p, n)[i])
      && lines[FirstDataLine + n + 1] == SectionLine(InfoSection)
  {
    var n := ZipLength(p);
    var pre, data, info, custom := Preamble(p), DataLines(p, n), InfoBlock(p), CustomBlock(p);
    assert |pre| == FirstDataLine && pre[0] == Header && pre[FirstDataLine - 1] == SectionLine(DataSection);
    assert |info| == 7 && info[1] == SectionLine(InfoSection);
    FiveParts(pre, data, info, custom, Footer);
  }

  /** Indexing into `pre + data + info + custom + [last]`. */
  lemma FiveParts(pre: seq<string>, data: seq<string>, info: seq<string>, custom: seq<string>, last: string)
    requires |pre| >= 1 && |info| >= 2
    ensures var lines := pre + data + info + custom + [last];
      && |lines| == |pre| + |data| + |info| + |custom| + 1
      && lines[0] == pre[0] && lines[|pre| - 1] == pre[|pre| - 1] && lines[|lines| - 1] == last
      && (forall i | 0 <= i < |data| :: lines[|pre| + i] == data[i])
      && lines[|pre| + |data| + 1] == info[1]
  {
    var lines := pre + data + info + custom + [last];
    forall i | 0 <= i < |data| ensures lines[|pre| + i] == data[i] {
      assert lines[|pre| + i] == (pre + data)[|pre| + i];
    }
    assert lines[|pre| + |data| + 1] == (pre + data + info)[|pre| + |data| + 1];
  }

  /** The `i`-th data line is the line of the `i`-th record. */
  lemma DataLineAt(p: Project, n: nat, i: nat)
    requires i < n <= ZipLength(p)
    ensures DataLines(p, n)[i] == DataLine(p.labels[i], p.values[i], p.colors[i])
  {
    DataLinesStable(p, n, i);
  }

  /** Writing more records does not change the lines of the earlier ones. */
  lemma {:induction false} DataLinesStable(p: Project, n: nat, i: nat)
    requires i < n <= ZipLength(p)
    ensures DataLines(p, n)[i] == DataLines(p, i + 1)[i]
  {
    if i < n - 1 {
      DataLinesStable(p, n - 1, i);
    }
  }

  /** `[__CustomColors__]` is written by the custom-colour block and by no other part of the document. */
  lemma CustomSectionOnlyInBlock(p: Project)
    ensures SectionLine(CustomSection) in RenderLines(p) <==> p.customColors != []
  {
    var marker := SectionLine(CustomSection);
    var n := ZipLength(p);
    assert marker == "[__CustomColors__]";
    assert marker !in Preamble(p);
    assert marker !in InfoBlock(p) by {
      InfoLineNotMarker("Name", p.name);
      InfoLineNotMarker("Type", p.chartType);
      InfoLineNotMarker("ColorScheme", p.colorScheme);
      InfoLineNotMarker("Title", p.title);
    }
    DataLinesNotMarker(p, n);
    assert RenderLines(p) == Preamble(p) + DataLines(p, n) + InfoBlock(p) + CustomBlock(p) + [Footer];
    if p.customColors != [] {
      assert CustomBlock(p)[0] == marker;
    }
  }

  lemma InfoLineNotMarker(key: string, value: string)
    requires key in ["Name", "Type", "ColorScheme", "Title"]
    ensures InfoLine(key, value) != SectionLine(CustomSection)
  {
    var line := InfoLine(key, value);
    assert line[1] == key[0];
  }

  lemma {:induction false} DataLinesNotMarker(p: Project, n: nat)
    requires n <= ZipLength(p)
    ensures SectionLine(CustomSection) !in DataLines(p, n)
  {
    if n > 0 {
      DataLinesNotMarker(p, n - 1);
      var line := DataLine(p.labels[n - 1], p.values[n - 1], p.colors[n - 1]);
      DataLineNotMarker(p.labels[n - 1], p.values[n - 1], p.colors[n - 1]);
      assert DataLines(p, n) == DataLines(p, n - 1) + [line];
    }
  }

  /** A data line holds two ` | ` separators, which `[__CustomColors__]` does not. */
  lemma DataLineNotMarker(pointLabel: string, v: int, color: string)
    ensures DataLine(pointLabel, v, color) != SectionLine(CustomSection)
  {
    var line := DataLine(pointLabel, v, color);
    var i := 1 + |pointLabel| + 1;
    assert line[i] == '|';
    assert '|' !in SectionLine(CustomSection);
  }

  // ---------------------------------------------------------------------------
  // The round trip.

  /** No line of `lines` holds the separator `"\n"`. */
  predicate NoBreaks(lines: seq<string>) {
    forall i | 0 <= i < |lines| :: '\n' !in lines[i]
  }

  lemma NoBreaksAppend(a: seq<string>, b: seq<string>)
    requires NoBreaks(a) && NoBreaks(b)
    ensures NoBreaks(a + b)
  {
    forall i | 0 <= i < |a + b| ensures '\n' !in (a + b)[i] {
      if i >= |a| {
        assert (a + b)[i] == b[i - |a|];
      }
    }
  }

  lemma {:induction false} DataLinesNoBreaks(p: Project, n: nat)
    requires n <= ZipLength(p)
    requires forall i | 0 <= i < n :: '\n' !in p.labels[i] && '\n' !in p.colors[i]
    ensures NoBreaks(DataLines(p, n))
  {
    if n > 0 {
      var m := n - 1;
      DataLinesNoBreaks(p, m);
      DataLineNoBreak(p.labels[m], p.values[m], p.colors[m]);
      NoBreaksAppend(DataLines(p, m), [DataLine(p.labels[m], p.values[m], p.colors[m])]);
    }
  }

  lemma DataLineNoBreak(pointLabel: string, v: int, color: string)
    requires '\n' !in pointLabel && '\n' !in color
    ensures '\n' !in DataLine(pointLabel, v, color)
  {
    FormatCell(v);
  }

  lemma {:induction false} CustomLinesNoBreaks(es: seq<(string, string)>, n: nat)
    requires n <= |es| && forall i | 0 <= i < n :: '\n' !in es[i].0 && '\n' !in es[i].1
    ensures NoBreaks(CustomLines(es, n))
  {
    if n > 0 {
      var m := n - 1;
      CustomLinesNoBreaks(es, m);
      CustomLineNoBreak(es[m].0, es[m].1);
      NoBreaksAppend(CustomLines(es, m), [CustomLine(es[m].0, es[m].1)]);
    }
  }

  lemma CustomLineNoBreak(key: string, color: string)
    requires '\n' !in key && '\n' !in color
    ensures '\n' !in CustomLine(key, color)
  {
  }

  lemma InfoLineNoBreak(key: string, value: string)
    requires '\n' !in key && '\n' !in value
    ensures '\n' !in InfoLine(key, value)
  {
  }

  lemma PreambleNoBreaks(p: Project)
    requires '\n' !in p.created && '\n' !in p.modified
    ensures NoBreaks(Preamble(p))
  {
    assert '\n' !in SettingsLine(p.created, p.modified);
  }

  lemma InfoBlockNoBreaks(p: Project)
    requires '\n' !in p.name && '\n' !in p.chartType && '\n' !in p.colorScheme && '\n' !in p.title
    ensures NoBreaks(InfoBlock(p))
  {
    InfoLineNoBreak("Name", p.name);
    InfoLineNoBreak("Type", p.chartType);
    InfoLineNoBreak("ColorScheme", p.colorScheme);
    InfoLineNoBreak("Title", p.title);
  }

  lemma CustomBlockNoBreaks(p: Project)
    requires forall i | 0 <= i < |p.customColors| :: '\n' !in p.customColors[i].0 && '\n' !in p.customColors[i].1
    ensures NoBreaks(CustomBlock(p))
  {
    var es := p.customColors;
    if es != [] {
      CustomLinesNoBreaks(es, |es|);
      NoBreaksAppend([SectionLine(CustomSection)], CustomLines(es, |es|));
      NoBreaksAppend([SectionLine(CustomSection)] + CustomLines(es, |es|), [""]);
    }
  }

  /** No line that `to_dia_format` writes for a well-formed project holds a newline. */
  lemma RenderedNoBreaks(p: Project)
    requires WellFormed(p)
    ensures NoBreaks(RenderLines(p))
  {
    var n := ZipLength(p);
    var pre, data, info, custom := Preamble(p), DataLines(p, n), InfoBlock(p), CustomBlock(p);
    PreambleNoBreaks(p);
    forall i | 0 <= i < n ensures '\n' !in p.labels[i] && '\n' !in p.colors[i] {
      assert SafeRecord(p.labels[i], p.colors[i]);
    }
    DataLinesNoBreaks(p, n);
    InfoBlockNoBreaks(p);
    forall i | 0 <= i < |p.customColors| ensures '\n' !in p.customColors[i].0 && '\n' !in p.customColors[i].1 {
      assert SafeCustom(p.customColors[i].0, p.customColors[i].1);
    }
    CustomBlockNoBreaks(p);
    NoBreaksAppend(pre, data);
    NoBreaksAppend(pre + data, info);
    NoBreaksAppend(pre + data + info, custom);
    NoBreaksAppend(pre + data + info + custom, [Footer]);
  }

  /** `text.split('\n')` of a written document gives back the lines that were joined. */
  lemma SplitRendered(p: Project)
    requires WellFormed(p)
    ensures Split(ToDia(p), '\n') == RenderLines(p)
  {
    RenderedNoBreaks(p);
    SplitJoin(RenderLines(p), '\n');
  }

  /**
    * Reading a written well-formed project into any project `q` succeeds and leaves `Absorb(q, p)`:
    * the fields of `p`, with the series of `p` appended to that of `q` and the custom colours of
    * `p` assigned over those of `q`.
    */
  lemma FromDiaToDia(q: Project, p: Project)
    requires WellFormed(p)
    ensures FromDia(q, ToDia(p)) == (Absorb(q, p), true)
  {
    SplitRendered(p);
    RunRendered(q, p);
  }

  /** Assigning entries with distinct keys, one by one, into an empty dict keeps them in order. */
  lemma {:induction false} PutAllFresh(es: seq<(string, string)>)
    requires DistinctKeys(es)
    ensures PutAll([], es) == es
  {
    if es != [] {
      var m := |es| - 1;
      var init := es[..m];
      assert DistinctKeys(init);
      PutAllFresh(init);
      assert Lookup(init, es[m].0).None? by {
        forall i | 0 <= i < |init| ensures init[i].0 != es[m].0 {
          assert init[i] == es[i];
        }
      }
      assert init + [es[m]] == es;
    }
  }

  /**
    * The round trip: a fresh project reading what a well-formed project writes succeeds and holds
    * exactly that project again, whatever the clock said when the fresh project was made.
    */
  lemma RoundTrip(p: Project, now: string)
    requires WellFormed(p)
    ensures Parse(ToDia(p), now) == Some(p)
  {
    var blank := NewProject("New Project", now);
    FromDiaToDia(blank, p);
    PutAllFresh(p.customColors);
    assert [] + p.labels == p.labels && [] + p.values == p.values && [] + p.colors == p.colors;
  }
}
