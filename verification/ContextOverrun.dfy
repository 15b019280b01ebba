/**
 * Exactly when a text is within its budget, and exactly when a cut goes unreported. The estimates of
 * the parts round up, which leaves slack; line breaks and separators are not estimated, and use it up.
 */
module ContextOverrun {
  import opened Basics
  import opened Options
  import opened ContextBudget

  /** The characters a text could grow by without a higher estimate. */
  function Slack(text: string): nat {
    4 * EstimateTokens(text) - |text|
  }

  function TotalSlack(parts: seq<string>): nat {
    if parts == [] then 0 else Slack(parts[0]) + TotalSlack(parts[1..])
  }

  lemma {:induction false} LengthAndSlack(parts: seq<string>)
    ensures TotalLength(parts) + TotalSlack(parts) == 4 * TotalTokens(parts)
  {
    if parts == [] {
    } else {
      LengthAndSlack(parts[1..]);
    }
  }

  lemma WithinIsLength(text: string, b: int)
    ensures EstimateTokens(text) <= b <==> 1 <= b && |text| <= 4 * b
  {
  }

  // ---------------------------------------------------------------- one section

  /** A rendered section is within `b` exactly when its line breaks fit what the estimates leave over. */
  lemma RenderWithin(section: Section, b: int)
    requires section.lines != []
    ensures EstimateTokens(Render(section)) <= b
       <==> |section.lines|
            <= 4 * (b - Cost(section.title, section.lines)) + Slack(section.title) + TotalSlack(section.lines)
  {
    RenderLength(section);
    LengthAndSlack(section.lines);
    CostIsTotal(section.title, section.lines);
    WithinIsLength(Render(section), b);
    hide Render, TotalLength, TotalSlack, TotalTokens, Cost, EstimateTokens;
  }

  lemma RenderLength(section: Section)
    requires section.lines != []
    ensures |Render(section)| == |section.title| + TotalLength(section.lines) + |section.lines|
  {
    JoinedLength(section.lines, "\n");
    hide Join;
    assert (|section.lines| - 1) * |"\n"| == |section.lines| - 1;
  }

  /** How many lines fit whole, from the first on. */
  function WholeLines(section: Section, budget: int): nat {
    Room(section.lines, 0, EstimateTokens(section.title), budget)
  }

  function Room(lines: seq<string>, i: nat, used: nat, budget: int): (g: nat)
    requires i <= |lines|
    ensures i <= g <= |lines|
    decreases |lines| - i
  {
    if i < |lines| && used + EstimateTokens(lines[i]) <= budget
    then Room(lines, i + 1, used + EstimateTokens(lines[i]), budget) else i
  }

  /** What is left for a line that does not fit whole. */
  function LeftOver(section: Section, budget: int): int {
    budget - Cost(section.title, section.lines[..WholeLines(section, budget)])
  }

  /** The lines that a fitted section shows, from the entry and the budget alone. */
  function Shown(section: Section, budget: int): seq<string> {
    var g := WholeLines(section, budget);
    if g >= Required(section) || g == |section.lines| then section.lines[..g]
    else section.lines[..g] + [TrimToTokens(section.lines[g], LeftOver(section, budget))]
  }

  lemma {:induction false} TakeIsRoom(title: string, lines: seq<string>, i: nat, required: nat, budget: int)
    requires i <= |lines|
    ensures var used := Cost(title, lines[..i]);
            var g := Room(lines, i, used, budget);
            var left := Max(0, budget - Cost(title, lines[..g]));
            TakeLines(lines, i, used, required, budget)
            == if g < |lines| && g < required && TrimToTokens(lines[g], left) != ""
               then lines[..g] + [TrimToTokens(lines[g], left)] else lines[..g]
    decreases |lines| - i
  {
    hide TrimToTokens, EstimateTokens, Cost;
    if i == |lines| {
      assert lines[..i] == lines;
    } else {
      CostSnoc(title, lines[..i], lines[i]);
      assert lines[..i] + [lines[i]] == lines[..i + 1];
      if Cost(title, lines[..i]) + EstimateTokens(lines[i]) <= budget {
        TakeIsRoom(title, lines, i + 1, required, budget);
      }
    }
  }

  /** A fitted section shows `Shown`, and there is one exactly when the line after the whole ones has room. */
  lemma FitIsShown(section: Section, budget: int)
    ensures Fit(section, budget).Some?
       <==> section.lines != []
            && (WholeLines(section, budget) >= Required(section)
                || (WholeLines(section, budget) == Required(section) - 1 && LeftOver(section, budget) > 0))
    ensures Fit(section, budget).Some? ==> Fit(section, budget).value == section.(lines := Shown(section, budget))
  {
    TakenLines(section, budget);
    RequiredInRange(section);
    hide TrimToTokens, LeftOver, TakeLines, WholeLines, Required;
  }

  lemma RequiredInRange(section: Section)
    ensures 1 <= Required(section) && (section.lines != [] ==> Required(section) <= |section.lines|)
  {
  }

  /** The lines taken: the whole ones, and one more if there are too few and it has room. */
  lemma TakenLines(section: Section, budget: int)
    ensures var g := WholeLines(section, budget);
            var left := LeftOver(section, budget);
            && g <= |section.lines|
            && TakeLines(section.lines, 0, EstimateTokens(section.title), Required(section), budget)
               == if g < |section.lines| && g < Required(section) && left > 0
                  then section.lines[..g] + [TrimToTokens(section.lines[g], left)] else section.lines[..g]
  {
    NoLinesYet(section);
    hide TrimToTokens, EstimateTokens, Room, TakeLines, Required, Cost;
    TakeIsRoom(section.title, section.lines, 0, Required(section), budget);
    NextDoesNotFit(section.title, section.lines, 0, budget);
    var g := WholeLines(section, budget);
    if g < |section.lines| {
      TrimmedHasText(section.lines[g], LeftOver(section, budget));
      TrimmedHasText(section.lines[g], 0);
    }
  }

  lemma NoLinesYet(section: Section)
    ensures section.lines[..0] == [] && Cost(section.title, section.lines[..0]) == EstimateTokens(section.title)
  {
  }

  lemma {:induction false} NextDoesNotFit(title: string, lines: seq<string>, i: nat, budget: int)
    requires i <= |lines|
    ensures var g := Room(lines, i, Cost(title, lines[..i]), budget);
            && (g < |lines| ==> EstimateTokens(lines[g]) > budget - Cost(title, lines[..g]))
            && (g > i ==> Cost(title, lines[..g]) <= budget)
    decreases |lines| - i
  {
    hide EstimateTokens, Cost;
    if i < |lines| {
      CostSnoc(title, lines[..i], lines[i]);
      assert lines[..i] + [lines[i]] == lines[..i + 1];
      if Cost(title, lines[..i]) + EstimateTokens(lines[i]) <= budget {
        NextDoesNotFit(title, lines, i + 1, budget);
      }
    }
  }

  lemma TrimmedHasText(text: string, m: int)
    ensures EstimateTokens(text) > m > 0 ==> TrimToTokens(text, m) != "" && |TrimToTokens(text, m)| <= 4 * m
    ensures m <= 0 ==> TrimToTokens(text, m) == ""
  {
  }

  /**
   * Exactly when a section that is fitted into a budget comes out within it, in terms of the section
   * and the budget: with only whole lines, when their number is no more than four times what is left
   * over plus the slack; with a trimmed line, when it is no more than the slack of the title and the
   * whole lines plus what the trimmed line leaves of its share.
   */
  lemma FitWithinExactly(section: Section, budget: int)
    requires Fit(section, budget).Some?
    ensures var g := WholeLines(section, budget);
            var whole := section.lines[..g];
            var left := 4 * LeftOver(section, budget);
            (EstimateTokens(Render(Fit(section, budget).value)) <= budget
             <==> if g >= Required(section) then g <= left + Slack(section.title) + TotalSlack(whole)
                  else g + 1 <= left - |TrimToTokens(section.lines[g], LeftOver(section, budget))|
                                + Slack(section.title) + TotalSlack(whole))
  {
    FitIsShown(section, budget);
    var g := WholeLines(section, budget);
    var whole := section.lines[..g];
    var kept := Fit(section, budget).value;
    hide Fit, WholeLines, Required;
    if g >= Required(section) {
      RenderWithin(kept, budget);
    } else {
      var t := TrimToTokens(section.lines[g], LeftOver(section, budget));
      RenderWithin(kept, budget);
      CostSnoc(section.title, whole, t);
      TotalSlackSnoc(whole, t);
      hide Cost, TotalSlack, Render, TrimToTokens;
    }
  }

  lemma {:induction false} TotalSlackSnoc(parts: seq<string>, last: string)
    ensures TotalSlack(parts + [last]) == TotalSlack(parts) + Slack(last)
  {
    if parts == [] {
    } else {
      assert (parts + [last])[1..] == parts[1..] + [last];
      TotalSlackSnoc(parts[1..], last);
    }
  }

  /** A text that does not end a token: empty, or of a length not divisible by four. */
  predicate Loose(text: string) {
    |text| == 0 || |text| % 4 != 0
  }

  lemma LooseHasSlack(text: string)
    ensures Loose(text) <==> Slack(text) > 0
  {
  }

  lemma {:induction false} LooseLines(lines: seq<string>)
    requires forall line :: line in lines ==> Loose(line)
    ensures TotalSlack(lines) >= |lines|
  {
    if lines == [] {
    } else {
      LooseHasSlack(lines[0]);
      LooseLines(lines[1..]);
    }
  }

  /**
   * A section none of whose lines ends a token never overruns when it is kept without trimming, at
   * any budget; and never at all if its title does not end one either.
   */
  lemma LooseNeverOverruns(section: Section, budget: int)
    requires Fit(section, budget).Some? && forall line :: line in section.lines ==> Loose(line)
    requires WholeLines(section, budget) >= Required(section) || Loose(section.title)
    ensures EstimateTokens(Render(Fit(section, budget).value)) <= budget
  {
    FitIsShown(section, budget);
    FitWithinExactly(section, budget);
    NextDoesNotFit(section.title, section.lines, 0, budget);
    assert section.lines[..0] == [];
    var g := WholeLines(section, budget);
    LooseLines(section.lines[..g]);
    LooseHasSlack(section.title);
    if g < |section.lines| {
      TrimmedHasText(section.lines[g], LeftOver(section, budget));
    }
    hide Fit, Render, EstimateTokens, TrimToTokens, TotalSlack, Cost, Room;
  }

  // ---------------------------------------------------------------- the whole text

  /** The characters the assembled text has besides its parts. */
  function Separators(k: nat, gaps: Option<string>): nat {
    if k == 0 then 0 else if gaps.None? then 2 * (k - 1) else 2 * k
  }

  lemma TextLength(parts: seq<string>, gaps: Option<string>)
    requires forall part :: part in parts ==> part != ""
    ensures |WithGaps(Join(parts, "\n\n"), gaps)|
         == TotalLength(parts) + Separators(|parts|, gaps) + if gaps.None? then 0 else |gaps.value|
  {
    JoinedLength(parts, "\n\n");
    if parts != [] {
      assert parts[0] in parts;
      assert (|parts| - 1) * |"\n\n"| == 2 * (|parts| - 1);
      assert Join(parts, "\n\n") != "";
    }
    hide Join;
  }

  /**
   * Exactly when the assembled text is within a budget: when its separators fit four times what the
   * sections and the notice of missing context leave of the budget, plus the slack of all of them.
   */
  lemma TextWithinExactly(entries: seq<Section>, budget: nat, gaps: Option<string>)
    requires budget >= 1
    ensures var p := Pack(entries, SectionBudget(budget, gaps), 0);
            var noticeTokens := if gaps.None? then 0 else EstimateTokens(gaps.value);
            var noticeSlack := if gaps.None? then 0 else Slack(gaps.value);
            (EstimateTokens(WithGaps(Join(RenderAll(p.retained), "\n\n"), gaps)) <= budget
             <==> Separators(|p.retained|, gaps)
                  <= 4 * (budget - p.used - noticeTokens) + TotalSlack(RenderAll(p.retained)) + noticeSlack)
  {
    var p := Pack(entries, SectionBudget(budget, gaps), 0);
    var parts := RenderAll(p.retained);
    PackBound(entries, SectionBudget(budget, gaps), 0);
    RenderedHaveText(p.retained);
    TextLength(parts, gaps);
    LengthAndSlack(parts);
    WithinIsLength(WithGaps(Join(parts, "\n\n"), gaps), budget);
    hide Pack, Join, RenderAll, TotalLength, TotalSlack, TotalTokens, EstimateTokens, WithGaps;
    if gaps.Some? {
      SlackIsSpare(gaps.value);
    }
  }

  lemma SlackIsSpare(text: string)
    ensures Slack(text) == 4 * EstimateTokens(text) - |text|
  {
  }

  lemma RenderedHaveText(sections: seq<Section>)
    ensures forall part :: part in RenderAll(sections) ==> part != ""
  {
  }

  /** The sections fit whole, one after the other. */
  predicate FitsWhole(entries: seq<Section>, sectionBudget: nat, used: nat) {
    entries == []
    || (entries[0].lines != []
        && used + Cost(entries[0].title, entries[0].lines) <= sectionBudget
        && FitsWhole(entries[1..], sectionBudget, used + EstimateTokens(Render(entries[0]))))
  }

  /** All sections are kept as they are exactly when they fit whole. */
  lemma {:induction false} KeptAllExactly(entries: seq<Section>, sectionBudget: nat, used: nat)
    ensures Pack(entries, sectionBudget, used).retained == entries <==> FitsWhole(entries, sectionBudget, used)
  {
    if entries == [] {
    } else {
      hide Fit, Render, EstimateTokens, Cost;
      var turn := Turn(entries[0], sectionBudget, used);
      var rest := Pack(entries[1..], sectionBudget, turn.used);
      TurnKeepsWhole(entries[0], sectionBudget, used);
      KeptAllExactly(entries[1..], sectionBudget, turn.used);
      NeverMoreThanGiven(entries[1..], sectionBudget, turn.used);
      if turn.retained != [] {
        assert (turn.retained + rest.retained)[1..] == rest.retained;
        assert turn.retained + rest.retained == entries
            <==> turn.retained[0] == entries[0] && rest.retained == entries[1..];
      }
    }
  }

  lemma TurnKeepsWhole(entry: Section, sectionBudget: nat, used: nat)
    ensures var turn := Turn(entry, sectionBudget, used);
            && |turn.retained| <= 1
            && (turn.retained == [entry]
                <==> entry.lines != [] && used + Cost(entry.title, entry.lines) <= sectionBudget)
            && (turn.retained == [entry] ==> turn.used == used + EstimateTokens(Render(entry)))
  {
    hide Render, EstimateTokens;
    PositiveCost(entry.title, entry.lines);
    if sectionBudget > used {
      FitMeaning(entry, sectionBudget - used);
      if entry.lines != [] && used + Cost(entry.title, entry.lines) <= sectionBudget {
        KeptWhole(entry, sectionBudget - used);
      }
    }
  }

  lemma {:induction false} PositiveCost(title: string, lines: seq<string>)
    ensures Cost(title, lines) >= 1
  {
    if lines == [] {
    } else {
      PositiveCost(title, lines[..|lines| - 1]);
    }
  }

  lemma {:induction false} NeverMoreThanGiven(entries: seq<Section>, sectionBudget: nat, used: nat)
    ensures |Pack(entries, sectionBudget, used).retained| <= |entries|
  {
    if entries == [] {
    } else {
      hide Fit, Render, EstimateTokens;
      NeverMoreThanGiven(entries[1..], sectionBudget, Turn(entries[0], sectionBudget, used).used);
    }
  }

  /**
   * For sections that all fit whole the condition is on the input alone: the separators fit what the
   * sections' own estimates and the notice leave of the budget, plus their slack.
   */
  lemma WholeTextWithinExactly(entries: seq<Section>, budget: nat, gaps: Option<string>)
    requires budget >= 1 && FitsWhole(entries, SectionBudget(budget, gaps), 0)
    ensures var text := WithGaps(Join(RenderAll(entries), "\n\n"), gaps);
            && Pack(entries, SectionBudget(budget, gaps), 0).retained == entries
            && (EstimateTokens(text) <= budget
                <==> Separators(|entries|, gaps)
                     <= 4 * (budget - TotalTokens(RenderAll(entries))
                             - if gaps.None? then 0 else EstimateTokens(gaps.value))
                        + TotalSlack(RenderAll(entries)) + if gaps.None? then 0 else Slack(gaps.value))
  {
    KeptAllExactly(entries, SectionBudget(budget, gaps), 0);
    TextWithinExactly(entries, budget, gaps);
    PackBound(entries, SectionBudget(budget, gaps), 0);
    hide Pack, Join, RenderAll, TotalSlack, TotalTokens, EstimateTokens, WithGaps, FitsWhole;
  }

  // ---------------------------------------------------------------- the overrun is real

  /** `n` lines of four characters, each exactly one token. */
  function FullLines(n: nat): seq<string> {
    seq(n, _ => "line")
  }

  lemma {:induction false} FullLinesCost(n: nat)
    ensures Cost("head", FullLines(n)) == n + 1 && TotalLength(FullLines(n)) == 4 * n
  {
    if n == 0 {
    } else {
      FullLinesCost(n - 1);
      assert FullLines(n)[..n - 1] == FullLines(n - 1);
      assert FullLines(n)[1..] == FullLines(n - 1);
    }
  }

  /**
   * The overrun is real: line breaks are not counted, so for every n a section whose n lines fit the
   * budget exactly is kept whole and its text is over the budget by a quarter of n, rounded up.
   */
  lemma BudgetIsExceeded(n: nat)
    requires n >= 1
    ensures var section := Section("p", "head", FullLines(n), None);
            && Pack([section], n + 1, 0).retained == [section]
            && EstimateTokens(WithGaps(Join(RenderAll([section]), "\n\n"), None)) == n + 1 + CeilDiv(n, 4)
  {
    var section := Section("p", "head", FullLines(n), None);
    FullLinesCost(n);
    FitMeaning(section, n + 1);
    assert FullLines(n)[..0] == [];
    KeptWhole(section, n + 1);
    JoinedLength(section.lines, "\n");
    assert (n - 1) * |"\n"| == n - 1;
    assert RenderAll([section]) == [Render(section)];
    PackOne(section, n + 1);
  }

  lemma PackOne(section: Section, budget: nat)
    requires budget >= 1 && Fit(section, budget) == Some(section)
    ensures Pack([section], budget, 0).retained == [section]
  {
    hide Fit, Render, EstimateTokens;
    assert Turn(section, budget, 0).retained == [section];
    assert [section][1..] == [];
  }

  lemma {:induction false} TakesWhole(title: string, lines: seq<string>, i: nat, required: nat, budget: int)
    requires i <= |lines| && Cost(title, lines) <= budget
    ensures TakeLines(lines, i, Cost(title, lines[..i]), required, budget) == lines
    decreases |lines| - i
  {
    if i < |lines| {
      CostGrows(title, lines, i + 1, |lines|);
      assert lines[..|lines|] == lines && lines[..i + 1][..i] == lines[..i];
      TakesWhole(title, lines, i + 1, required, budget);
    }
  }

  lemma KeptWhole(section: Section, budget: int)
    requires section.lines != [] && Cost(section.title, section.lines) <= budget
    ensures Fit(section, budget) == Some(section)
  {
    assert section.lines[..0] == [];
    TakesWhole(section.title, section.lines, 0, Required(section), budget);
  }

  lemma ShorterRender(entry: Section, kept: Section)
    requires kept == entry.(lines := kept.lines) && kept.lines != [] && |kept.lines| <= |entry.lines|
    requires IsPrefixTrimmed(kept.lines, entry.lines)
    ensures |Render(kept)| <= |Render(entry)|
    ensures |Render(kept)| == |Render(entry)| <==> kept == entry
  {
    ShorterText(kept.lines, entry.lines);
    hide IsPrefixTrimmed;
    JoinedLength(kept.lines, "\n");
    JoinedLength(entry.lines, "\n");
    hide Join;
    assert (|kept.lines| - 1) * |"\n"| == |kept.lines| - 1 && (|entry.lines| - 1) * |"\n"| == |entry.lines| - 1;
  }

  lemma NeverBlank(section: Section)
    ensures |Render(section)| >= 1
  {
  }

  /** A shorter text estimates no lower exactly when the difference fits its last token. */
  lemma TokensOfShorter(short: string, long: string)
    requires |short| <= |long|
    ensures EstimateTokens(short) >= EstimateTokens(long) <==> |long| - |short| <= 4 * EstimateTokens(short) - |short|
    ensures |short| >= 1 ==> 4 * EstimateTokens(short) - |short| <= 3
  {
  }

  lemma {:induction false} TotalOfPrefix(lines: seq<string>, i: nat)
    requires i < |lines|
    ensures TotalLength(lines[..i]) + |lines[i]| <= TotalLength(lines)
  {
    if i == 0 {
    } else {
      TotalOfPrefix(lines[1..], i - 1);
      assert lines[1..][..i - 1] == lines[..i][1..];
    }
  }

  lemma {:induction false} TotalLengthSnoc(parts: seq<string>, last: string)
    ensures TotalLength(parts + [last]) == TotalLength(parts) + |last|
  {
    if parts == [] {
    } else {
      assert (parts + [last])[1..] == parts[1..] + [last];
      TotalLengthSnoc(parts[1..], last);
    }
  }

  lemma ShorterText(kept: seq<string>, lines: seq<string>)
    requires kept != [] && |kept| <= |lines| && IsPrefixTrimmed(kept, lines)
    ensures TotalLength(kept) + |kept| <= TotalLength(lines) + |lines|
    ensures TotalLength(kept) + |kept| == TotalLength(lines) + |lines| <==> kept == lines
  {
    hide TrimToTokens, TotalLength;
    var last := |kept| - 1;
    TotalOfPrefix(lines, last);
    TotalLengthSnoc(kept[..last], kept[last]);
    assert kept[..last] + [kept[last]] == kept;
    assert kept[..last] == lines[..last];
    if !(kept <= lines) {
      var m :| 0 < m < |lines[last]| && kept[last] == TrimToTokens(lines[last], m);
      TrimNeverGrows(lines[last], m);
      TrimCutsAPrefix(lines[last], m);
    }
  }

  // ---------------------------------------------------------------- unreported cuts

  function TextSize(title: string, lines: seq<string>): nat {
    |title| + TotalLength(lines) + |lines|
  }

  /**
   * A section is cut and nobody is told exactly when what it shows is shorter than it was, and the
   * whole of it would still fit the last token of what it shows. Both sizes are of the entry and the
   * budget; the loss is then at most three characters.
   */
  lemma UnreportedCut(entry: Section, sectionBudget: nat, used: nat)
    requires used < sectionBudget && Fit(entry, sectionBudget - used).Some?
    ensures var turn := Turn(entry, sectionBudget, used);
            var shown := TextSize(entry.title, Shown(entry, sectionBudget - used));
            var whole := TextSize(entry.title, entry.lines);
            && shown <= whole
            && (turn.retained != [entry] <==> shown < whole)
            && (turn.retained != [entry] && turn.warnings == [] <==> shown < whole <= 4 * CeilDiv(shown, 4))
            && (turn.warnings == [] ==> whole - shown <= 3)
  {
    hide IsPrefixTrimmed, Cost, Render, EstimateTokens, Shown, WholeLines, LeftOver;
    FitIsShown(entry, sectionBudget - used);
    FitMeaning(entry, sectionBudget - used);
    hide Fit;
    var kept := Fit(entry, sectionBudget - used).value;
    ShorterRender(entry, kept);
    RenderLength(entry);
    RenderLength(kept);
    TokensOfShorter(Render(kept), Render(entry));
    NeverBlank(kept);
    EstimateIsCeil(Render(kept));
  }

  lemma EstimateIsCeil(text: string)
    requires |text| >= 1
    ensures EstimateTokens(text) == CeilDiv(|text|, 4)
  {
  }

  /** It happens: one character of nine gives way to an ellipsis, and no warning says so. */
  lemma CutWithoutWarning()
    ensures var entry := Section("p", "t", ["abcdefghi"], None);
            var packing := Pack([entry], 3, 0);
            packing.retained == [entry.(lines := ["abcdefg" + [ELLIPSIS]])] && packing.warnings == []
  {
    var entry := Section("p", "t", ["abcdefghi"], None);
    var kept := entry.(lines := ["abcdefg" + [ELLIPSIS]]);
    assert Required(entry) == 1;
    assert "abcdefghi"[..7] == "abcdefg";
    assert LastBreak("abcdefg") == -1;
    assert TrimToTokens("abcdefghi", 2) == "abcdefg" + [ELLIPSIS];
    assert TakeLines(entry.lines, 0, 1, 1, 3) == entry.lines[..0] + ["abcdefg" + [ELLIPSIS]];
    assert EstimateTokens(entry.title) == 1 && entry.lines[..0] + ["abcdefg" + [ELLIPSIS]] == kept.lines;
    assert Fit(entry, 3) == Some(kept);
    assert |Render(kept)| == 10 && |Render(entry)| == 11;
    assert Turn(entry, 3, 0) == Packing([kept], [], 3);
    assert [entry][1..] == [];
  }
}
