/**
 * What the assembled text says: which sections it retains, how much of each, and its lines as a reader
 * sees them.
 */
module BudgetMeaning {
  import opened Options
  import opened ContextBudget

  // ---------------------------------------------------------------- which sections, and in which order

  /** A section must show `n` lines exactly when it has them and asks for them; one it must show always. */
  lemma RequiredExactly(section: Section, n: nat)
    ensures Required(section) >= n
       <==> n <= 1 || (n <= |section.lines| && section.minLines.Some? && section.minLines.value >= n)
  {
  }

  /** What the sections may use: the budget less the notice of missing context, and never nothing. */
  lemma SectionBudgetExactly(budget: nat, gaps: Option<string>, n: nat)
    ensures SectionBudget(budget, gaps) >= n
       <==> n <= 1 || n + (match gaps case None => 0 case Some(notice) => EstimateTokens(notice)) <= budget
  {
  }

  /** A section is retained exactly when all but the last of its required lines leave room in the budget. */
  lemma TurnExactly(entry: Section, sectionBudget: nat, used: nat)
    ensures var turn := Turn(entry, sectionBudget, used);
            var retained := entry.lines != []
                && used + Cost(entry.title, entry.lines[..Required(entry) - 1]) < sectionBudget;
            && (if !retained then turn.retained == []
                else |turn.retained| == 1 && Fit(entry, sectionBudget - used) == Some(turn.retained[0]))
            && (Warning(entry.provider, Dropped) in turn.warnings <==> !retained)
            && (Warning(entry.provider, Trimmed) in turn.warnings
                <==> retained && EstimateTokens(Render(turn.retained[0])) < EstimateTokens(Render(entry)))
            && |turn.warnings| <= 1 && (forall w :: w in turn.warnings ==> w.provider == entry.provider)
            && turn.used == used + if retained then EstimateTokens(Render(turn.retained[0])) else 0
  {
    hide Render, EstimateTokens, Fit, Cost;
    if sectionBudget > used {
      FitMeaning(entry, sectionBudget - used);
    }
    if entry.lines != [] {
      PositiveTitle(entry.title, entry.lines[..Required(entry) - 1]);
    }
  }

  lemma {:induction false} PositiveTitle(title: string, lines: seq<string>)
    ensures Cost(title, lines) >= 1
  {
    if lines != [] {
      PositiveTitle(title, lines[..|lines| - 1]);
    }
  }

  /** Sections are packed in the order given: what comes later never changes what came before. */
  lemma {:induction false} PackSplits(first: seq<Section>, rest: seq<Section>, sectionBudget: nat, used: nat)
    ensures var a := Pack(first, sectionBudget, used);
            var b := Pack(rest, sectionBudget, a.used);
            Pack(first + rest, sectionBudget, used) == Packing(a.retained + b.retained, a.warnings + b.warnings, b.used)
  {
    hide Turn;
    if first == [] {
      assert first + rest == rest;
    } else {
      var turn := Turn(first[0], sectionBudget, used);
      assert (first + rest)[0] == first[0] && (first + rest)[1..] == first[1..] + rest;
      PackSplits(first[1..], rest, sectionBudget, turn.used);
      var a := Pack(first[1..], sectionBudget, turn.used);
      var b := Pack(rest, sectionBudget, a.used);
      assert turn.retained + (a.retained + b.retained) == (turn.retained + a.retained) + b.retained;
      assert turn.warnings + (a.warnings + b.warnings) == (turn.warnings + a.warnings) + b.warnings;
    }
  }

  // ---------------------------------------------------------------- the text, line by line

  /** The pieces of a text between its line breaks. */
  function LinesOf(text: string): seq<string> {
    if text == "" then [""]
    else
      var rest := LinesOf(text[1..]);
      if text[0] == '\n' then [""] + rest else [[text[0]] + rest[0]] + rest[1..]
  }

  lemma {:induction false} LinesAround(before: string, after: string)
    ensures LinesOf(before + "\n" + after) == LinesOf(before) + LinesOf(after)
  {
    var text := before + "\n" + after;
    if before == "" {
      assert text == "\n" + after;
      FirstLine('\n', after);
    } else {
      LinesAround(before[1..], after);
      assert before == [before[0]] + before[1..];
      assert text == [before[0]] + (before[1..] + "\n" + after);
      FirstLine(before[0], before[1..]);
      FirstLine(before[0], before[1..] + "\n" + after);
      hide LinesOf;
      OneLonger(before[0], LinesOf(before[1..]), LinesOf(after));
    }
  }

  /** One more character in front begins a new line or lengthens the first. */
  function Longer(c: char, lines: seq<string>): seq<string>
    requires lines != []
  {
    if c == '\n' then [""] + lines else [[c] + lines[0]] + lines[1..]
  }

  lemma FirstLine(c: char, text: string)
    ensures LinesOf(text) != [] && LinesOf([c] + text) == Longer(c, LinesOf(text))
  {
    assert ([c] + text)[1..] == text;
  }

  lemma OneLonger(c: char, a: seq<string>, b: seq<string>)
    requires a != []
    ensures Longer(c, a + b) == Longer(c, a) + b
  {
    assert (a + b)[1..] == a[1..] + b;
  }

  function LinesOfAll(parts: seq<string>): seq<string> {
    if parts == [] then [] else LinesOf(parts[0]) + LinesOfAll(parts[1..])
  }

  lemma {:induction false} JoinedLines(parts: seq<string>)
    requires parts != []
    ensures LinesOf(Join(parts, "\n")) == LinesOfAll(parts)
  {
    if |parts| == 1 {
      assert parts[1..] == [];
    } else {
      JoinedLines(parts[1..]);
      LinesAround(parts[0], Join(parts[1..], "\n"));
    }
  }

  /** What a reader of the sections sees: each title, then its lines, and a blank line before the next section. */
  function LinesOfSections(sections: seq<Section>): seq<string> {
    if sections == [] then []
    else
      LinesOf(sections[0].title) + LinesOfAll(sections[0].lines)
      + (if |sections| == 1 then [] else [""] + LinesOfSections(sections[1..]))
  }

  lemma RenderedLines(section: Section)
    requires section.lines != []
    ensures LinesOf(Render(section)) == LinesOf(section.title) + LinesOfAll(section.lines)
  {
    JoinedLines(section.lines);
    LinesAround(section.title, Join(section.lines, "\n"));
  }

  lemma BlankBetween(before: string, after: string)
    ensures LinesOf(before + "\n\n" + after) == LinesOf(before) + [""] + LinesOf(after)
  {
    hide LinesOf;
    LinesAround(before, "\n" + after);
    LinesAround("", after);
    NoText();
    assert before + "\n" + ("\n" + after) == before + "\n\n" + after;
    assert "" + "\n" + after == "\n" + after;
  }

  lemma NoText()
    ensures LinesOf("") == [""]
  {
  }

  lemma {:induction false} SectionsRead(sections: seq<Section>)
    requires sections != [] && forall s :: s in sections ==> s.lines != []
    ensures LinesOf(Join(RenderAll(sections), "\n\n")) == LinesOfSections(sections)
  {
    hide LinesOf, LinesOfAll, Render;
    var parts := RenderAll(sections);
    RenderedLines(sections[0]);
    if |sections| > 1 {
      SectionsRead(sections[1..]);
      assert parts[1..] == RenderAll(sections[1..]);
      BlankBetween(parts[0], Join(parts[1..], "\n\n"));
    }
  }

  /**
   * The assembled text, line by line: the retained sections in their order, each with its title before its
   * lines, one blank line between them, and the notice of missing context, if there is one, at the end.
   */
  lemma TextReads(entries: seq<Section>, budget: nat, gaps: Option<string>)
    ensures var retained := Pack(entries, SectionBudget(budget, gaps), 0).retained;
            LinesOf(WithGaps(Join(RenderAll(retained), "\n\n"), gaps))
            == match gaps
               case None => if retained == [] then [""] else LinesOfSections(retained)
               case Some(notice) =>
                 (if retained == [] then [] else LinesOfSections(retained) + [""]) + LinesOf(notice)
  {
    hide LinesOf, LinesOfSections, Pack, Render, SectionBudget;
    var retained := Pack(entries, SectionBudget(budget, gaps), 0).retained;
    RetainedHaveLines(entries, SectionBudget(budget, gaps), 0);
    NoText();
    if retained != [] {
      SectionsRead(retained);
      var body := Join(RenderAll(retained), "\n\n");
      BodyHasText(retained);
      if gaps.Some? {
        BlankBetween(body, gaps.value);
      }
    }
  }

  lemma BodyHasText(sections: seq<Section>)
    requires sections != []
    ensures Join(RenderAll(sections), "\n\n") != ""
  {
  }

  lemma {:induction false} RetainedHaveLines(entries: seq<Section>, sectionBudget: nat, used: nat)
    ensures forall s :: s in Pack(entries, sectionBudget, used).retained ==> s.lines != []
  {
    if entries != [] {
      hide Turn;
      var turn := Turn(entries[0], sectionBudget, used);
      RetainedHaveLines(entries[1..], sectionBudget, turn.used);
      TurnHasLines(entries[0], sectionBudget, used);
    }
  }

  lemma TurnHasLines(entry: Section, sectionBudget: nat, used: nat)
    ensures forall s :: s in Turn(entry, sectionBudget, used).retained ==> s.lines != []
  {
    hide Render, EstimateTokens;
  }
}
