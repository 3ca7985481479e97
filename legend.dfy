/**
 * The legend markup. Each level of the magnitude table becomes one list
 * fragment carrying the level's colour as its background and its range
 * label as text; the fragments are joined with the empty separator and put
 * under a fixed heading.
 */
module Legend {
  import opened Magnitude

  const EntryOpen: string := "<ul style=\"background-color: "
  const EntryMiddle: string := "\"><span>"
  const EntryClose: string := "</span></ul>"

  /** The fixed heading placed above the fragments in the legend box. */
  const LegendHeading: string := "<h4>Magnitude Range</h4>"

  /** The fragment for one level; colour and label are interpolated unescaped. */
  function LegendEntry(level: Level): (s: string)
    ensures |s| == |EntryOpen| + |level.color| + |EntryMiddle| + |level.range| + |EntryClose|
    ensures s[..|EntryOpen|] == EntryOpen
    ensures s[|EntryOpen|..|EntryOpen| + |level.color|] == level.color
    ensures s[|EntryOpen| + |level.color|..|EntryOpen| + |level.color| + |EntryMiddle|] == EntryMiddle
    ensures s[|EntryOpen| + |level.color| + |EntryMiddle|..|s| - |EntryClose|] == level.range
    ensures s[|s| - |EntryClose|..] == EntryClose
  {
    EntryOpen + level.color + EntryMiddle + level.range + EntryClose
  }

  /**
   * The join of a list of strings: the parts in order with `sep` between
   * neighbours, the empty string for no parts.
   */
  function Join(parts: seq<string>, sep: string): (s: string)
    ensures |parts| == 0 ==> s == ""
    ensures |parts| > 0 ==> |s| == TotalLength(parts) + (|parts| - 1) * |sep|
    ensures |parts| > 0 ==> s[..|parts[0]|] == parts[0]
    decreases |parts|
  {
    if |parts| == 0 then ""
    else if |parts| == 1 then parts[0]
    else parts[0] + sep + Join(parts[1..], sep)
  }

  /** The parts laid one after another, with nothing between them. */
  function Concat(parts: seq<string>): string
  {
    if parts == [] then "" else parts[0] + Concat(parts[1..])
  }

  /**
   * A non-empty join is the first part followed, for each later part, by
   * one separator and then that part, in order.
   */
  lemma {:induction false} JoinIsFirstThenSepParts(parts: seq<string>, sep: string)
    requires |parts| > 0
    ensures Join(parts, sep)
         == parts[0] + Concat(seq(|parts| - 1, k requires 0 <= k < |parts| - 1 => sep + parts[k + 1]))
  {
    if |parts| >= 2 {
      var tail := seq(|parts| - 1, k requires 0 <= k < |parts| - 1 => sep + parts[k + 1]);
      var tail2 := seq(|parts| - 2, k requires 0 <= k < |parts| - 2 => sep + parts[1..][k + 1]);
      assert tail[1..] == tail2;
      JoinIsFirstThenSepParts(parts[1..], sep);
    }
  }

  /** Joining with the empty separator is plain concatenation. */
  lemma {:induction false} JoinEmptySeparatorIsConcat(parts: seq<string>)
    ensures Join(parts, "") == Concat(parts)
  {
    if |parts| >= 2 {
      JoinEmptySeparatorIsConcat(parts[1..]);
    } else if |parts| == 1 {
      assert parts[1..] == [];
    }
  }

  /** Sum of the lengths of `parts`. */
  function TotalLength(parts: seq<string>): nat
  {
    if parts == [] then 0 else |parts[0]| + TotalLength(parts[1..])
  }

  /**
   * The legend markup: one fragment per level, joined with no separator. The
   * result is the plain in-order concatenation of the fragments.
   */
  function GenerateLegendHTML(legendLevels: seq<Level>): (html: string)
    ensures html == Fragments(legendLevels)
  {
    JoinedEntriesAreFragments(legendLevels);
    Join(seq(|legendLevels|, i requires 0 <= i < |legendLevels| => LegendEntry(legendLevels[i])), "")
  }

  /**
   * The whole content of the legend box: the heading, then the five
   * fragments of the magnitude table in table order.
   */
  function LegendBoxHTML(): (html: string)
    ensures html == LegendHeading + LegendEntry(MagnitudeLevels[0]) + LegendEntry(MagnitudeLevels[1])
                  + LegendEntry(MagnitudeLevels[2]) + LegendEntry(MagnitudeLevels[3])
                  + LegendEntry(MagnitudeLevels[4])
  {
    MagnitudeLegend();
    LegendHeading + GenerateLegendHTML(MagnitudeLevels)
  }

  // ---------------------------------------------------------------------------
  // Reference definition: the fragments concatenated one after another
  // ---------------------------------------------------------------------------

  /** The fragments of `levels`, in order, with nothing between or around them. */
  function Fragments(levels: seq<Level>): string
  {
    if levels == [] then "" else LegendEntry(levels[0]) + Fragments(levels[1..])
  }

  /** Joining the fragments with no separator gives their in-order concatenation. */
  lemma {:induction false} JoinedEntriesAreFragments(levels: seq<Level>)
    ensures Join(seq(|levels|, i requires 0 <= i < |levels| => LegendEntry(levels[i])), "") == Fragments(levels)
  {
    if |levels| >= 2 {
      var parts := seq(|levels|, i requires 0 <= i < |levels| => LegendEntry(levels[i]));
      var rest := seq(|levels| - 1, i requires 0 <= i < |levels| - 1 => LegendEntry(levels[1..][i]));
      assert parts[1..] == rest;
      JoinedEntriesAreFragments(levels[1..]);
    }
  }

  /** Concatenation of fragments distributes over concatenation of level lists. */
  lemma {:induction false} FragmentsAppend(a: seq<Level>, b: seq<Level>)
    ensures Fragments(a + b) == Fragments(a) + Fragments(b)
  {
    if a != [] {
      assert (a + b)[1..] == a[1..] + b;
      FragmentsAppend(a[1..], b);
    } else {
      assert a + b == b;
    }
  }

  /** An empty list of levels gives the empty string. */
  lemma LegendOfNothing()
    ensures GenerateLegendHTML([]) == ""
  {
  }

  /** The legend of two lists laid end to end is the two legends laid end to end. */
  lemma LegendAppend(a: seq<Level>, b: seq<Level>)
    ensures GenerateLegendHTML(a + b) == GenerateLegendHTML(a) + GenerateLegendHTML(b)
  {
    FragmentsAppend(a, b);
  }

  /**
   * Level `i`'s fragment sits, whole and alone, between the legend of the
   * levels before it and the legend of the levels after it.
   */
  lemma LegendAt(levels: seq<Level>, i: nat)
    requires i < |levels|
    ensures GenerateLegendHTML(levels)
         == GenerateLegendHTML(levels[..i]) + LegendEntry(levels[i]) + GenerateLegendHTML(levels[i + 1..])
  {
    assert levels == levels[..i] + ([levels[i]] + levels[i + 1..]);
    LegendAppend(levels[..i], [levels[i]] + levels[i + 1..]);
    LegendAppend([levels[i]], levels[i + 1..]);
  }

  /**
   * The legend of the magnitude table holds exactly its five fragments, in
   * table order 0-1, 1-2, 2-3, 3-4, 4+.
   */
  lemma MagnitudeLegend()
    ensures GenerateLegendHTML(MagnitudeLevels)
         == LegendEntry(MagnitudeLevels[0]) + LegendEntry(MagnitudeLevels[1])
          + LegendEntry(MagnitudeLevels[2]) + LegendEntry(MagnitudeLevels[3])
          + LegendEntry(MagnitudeLevels[4])
  {
  }
}
