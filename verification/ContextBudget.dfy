/**
 * Token budgets: the estimate, trimming one text, fitting one section, and packing sections in order.
 */
module ContextBudget {
  import opened Basics
  import opened Options

  function CeilDiv(n: nat, d: nat): nat
    requires d > 0
  {
    (n + d - 1) / d
  }

  function EstimateTokens(text: string): nat {
    Max(1, CeilDiv(|text|, 4))
  }

  /** The last index of a line break, or -1. */
  function LastBreak(text: string): (r: int)
    ensures -1 <= r < |text|
    ensures r >= 0 ==> text[r] == '\n'
    ensures forall i :: r < i < |text| ==> text[i] != '\n'
  {
    if text == [] then -1
    else if text[|text| - 1] == '\n' then |text| - 1
    else LastBreak(text[..|text| - 1])
  }

  const ELLIPSIS := '\U{2026}'

  function TrimToTokens(text: string, maxTokens: int): string {
    if maxTokens <= 0 then ""
    else
      var maxChars := maxTokens * 4;
      if |text| <= maxChars then text
      else
        var candidate := text[..maxChars - 1];
        var boundary := LastBreak(candidate);
        (if 20 * boundary > 11 * maxChars then candidate[..boundary] else candidate) + [ELLIPSIS]
  }

  /** A trimmed text costs at most what was asked for. */
  lemma TrimFits(text: string, maxTokens: int)
    requires maxTokens >= 1
    ensures EstimateTokens(TrimToTokens(text, maxTokens)) <= maxTokens
  {
  }

  /**
   * A text is returned whole exactly when it fits, and nothing of it for no tokens. Otherwise the result
   * is a proper prefix and an ellipsis: up to the last line break that leaves room for the ellipsis, if
   * that is beyond 55% of the allowance, and else up to the last character that does.
   */
  lemma TrimCutsAPrefix(text: string, maxTokens: int)
    ensures maxTokens <= 0 ==> TrimToTokens(text, maxTokens) == ""
    ensures maxTokens >= 1 ==> (TrimToTokens(text, maxTokens) == text <==> |text| <= 4 * maxTokens)
    ensures maxTokens >= 1 && |text| > 4 * maxTokens ==>
              exists n: nat :: n < 4 * maxTokens
                && TrimToTokens(text, maxTokens) == text[..n] + "\U{2026}"
                && (|| (n == 4 * maxTokens - 1 && forall j :: 11 * maxTokens < 5 * j && j < n ==> text[j] != '\n')
                    || (n < 4 * maxTokens - 1 && text[n] == '\n' && 5 * n > 11 * maxTokens
                        && forall j :: n < j < 4 * maxTokens - 1 ==> text[j] != '\n'))
  {
    var maxChars := maxTokens * 4;
    if maxTokens >= 1 && |text| > maxChars {
      var candidate := text[..maxChars - 1];
      var boundary := LastBreak(candidate);
      var n := if 20 * boundary > 11 * maxChars then boundary else maxChars - 1;
      assert text[..n] == candidate[..n] && candidate[..|candidate|] == candidate;
      assert forall j :: 0 <= j < |candidate| ==> candidate[j] == text[j];
      assert TrimToTokens(text, maxTokens) == text[..n] + [ELLIPSIS];
    }
  }

  lemma TrimNeverGrows(text: string, maxTokens: int)
    ensures |TrimToTokens(text, maxTokens)| <= |text|
    ensures maxTokens >= 1 && |text| > 4 * maxTokens ==> 0 < |TrimToTokens(text, maxTokens)| < |text|
  {
  }

  // ---------------------------------------------------------------- one section

  datatype Section = Section(provider: string, title: string, lines: seq<string>, minLines: Option<int>)

  function Required(section: Section): nat {
    Max(1, Min(if section.minLines.Some? then section.minLines.value else 1, |section.lines|))
  }

  /** The estimate of a title and some lines, each on its own. */
  function Cost(title: string, lines: seq<string>): nat {
    if lines == [] then EstimateTokens(title)
    else Cost(title, lines[..|lines| - 1]) + EstimateTokens(lines[|lines| - 1])
  }

  /** Lines are taken while they fit; the first that does not is trimmed if too few were taken. */
  function TakeLines(lines: seq<string>, i: nat, used: nat, required: nat, budget: int): seq<string>
    requires i <= |lines|
    decreases |lines| - i
  {
    if i == |lines| then lines
    else if used + EstimateTokens(lines[i]) <= budget then
      TakeLines(lines, i + 1, used + EstimateTokens(lines[i]), required, budget)
    else if i < required && TrimToTokens(lines[i], Max(0, budget - used)) != "" then
      lines[..i] + [TrimToTokens(lines[i], Max(0, budget - used))]
    else lines[..i]
  }

  function Fit(section: Section, budget: int): Option<Section> {
    var lines := TakeLines(section.lines, 0, EstimateTokens(section.title), Required(section), budget);
    if |lines| < Required(section) then None else Some(section.(lines := lines))
  }

  method FitSection(section: Section, budget: int) returns (r: Option<Section>)
    ensures r == Fit(section, budget)
  {
    var required := Max(1, Min(if section.minLines.Some? then section.minLines.value else 1, |section.lines|));
    var lines: seq<string> := [];
    var used: nat := EstimateTokens(section.title);
    var i := 0;
    ghost var whole := TakeLines(section.lines, 0, used, required, budget);
    while i < |section.lines|
      invariant i <= |section.lines| && lines == section.lines[..i]
      invariant TakeLines(section.lines, i, used, required, budget) == whole
    {
      var line := section.lines[i];
      var lineTokens := EstimateTokens(line);
      if used + lineTokens <= budget {
        lines := lines + [line];
        used := used + lineTokens;
      } else if |lines| < required {
        var trimmed := TrimToTokens(line, Max(0, budget - used));
        if trimmed != "" {
          lines := lines + [trimmed];
          used := used + EstimateTokens(trimmed);
        }
        break;
      } else {
        break;
      }
      i := i + 1;
    }
    assert lines == whole;
    if |lines| < required {
      return None;
    }
    return Some(section.(lines := lines));
  }

  ghost predicate IsTrimOf(text: string, line: string) {
    exists m :: 0 < m < |line| && text == TrimToTokens(line, m)
  }

  /** `kept` is the first lines of `lines`, the last of them perhaps trimmed. */
  ghost predicate IsPrefixTrimmed(kept: seq<string>, lines: seq<string>) {
    || kept <= lines
    || (kept != [] && |kept| <= |lines| && kept[..|kept| - 1] <= lines
        && IsTrimOf(kept[|kept| - 1], lines[|kept| - 1]))
  }

  lemma CostGrows(title: string, lines: seq<string>, i: nat, j: nat)
    requires i <= j <= |lines|
    ensures Cost(title, lines[..i]) + (j - i) <= Cost(title, lines[..j])
    decreases j
  {
    if i < j {
      CostGrows(title, lines, i, j - 1);
      assert lines[..j][..j - 1] == lines[..j - 1];
    }
  }

  /**
   * What taking lines comes to: a trimmed prefix within the budget, and the longest possible; at least
   * `required` lines exactly when all but the last of those leave room for something.
   */
  ghost predicate Taken(title: string, lines: seq<string>, required: nat, budget: int, kept: seq<string>) {
    && IsPrefixTrimmed(kept, lines)
    && (kept != [] ==> Cost(title, kept) <= budget)
    && (|kept| < |lines| ==> Cost(title, lines[..|kept| + 1]) > budget)
    && (0 < required <= |lines| ==> (|kept| >= required <==> Cost(title, lines[..required - 1]) < budget))
  }

  lemma {:induction false} TakeLinesMeaning(title: string, lines: seq<string>, i: nat, required: nat, budget: int)
    requires i <= |lines| && required > 0
    requires i > 0 ==> Cost(title, lines[..i]) <= budget
    ensures Taken(title, lines, required, budget, TakeLines(lines, i, Cost(title, lines[..i]), required, budget))
    decreases |lines| - i
  {
    var used := Cost(title, lines[..i]);
    if i == |lines| {
      assert lines[..i] == lines;
      if 0 < required <= |lines| {
        CostGrows(title, lines, required - 1, |lines|);
      }
    } else {
      assert lines[..i + 1][..i] == lines[..i];
      if used + EstimateTokens(lines[i]) <= budget {
        TakeLinesMeaning(title, lines, i + 1, required, budget);
      } else {
        TakeStops(title, lines, i, required, budget);
      }
    }
  }

  lemma TakeStops(title: string, lines: seq<string>, i: nat, required: nat, budget: int)
    requires i < |lines| && required > 0
    requires i > 0 ==> Cost(title, lines[..i]) <= budget
    requires Cost(title, lines[..i]) + EstimateTokens(lines[i]) > budget
    ensures Taken(title, lines, required, budget, TakeLines(lines, i, Cost(title, lines[..i]), required, budget))
  {
    hide TrimToTokens, EstimateTokens, Cost, Taken;
    var used := Cost(title, lines[..i]);
    CostSnoc(title, lines[..i], lines[i]);
    assert lines[..i] + [lines[i]] == lines[..i + 1];
    if i < required && budget > used {
      var trimmed := TrimToTokens(lines[i], budget - used);
      NeverEmpty(lines[i], budget - used);
      TrimmedLast(title, lines, i, required, budget);
    } else {
      NothingToTrim(lines[i]);
      StoppedShort(title, lines, i, required, budget);
    }
  }

  lemma CostSnoc(title: string, lines: seq<string>, line: string)
    ensures Cost(title, lines + [line]) == Cost(title, lines) + EstimateTokens(line)
  {
    assert (lines + [line])[..|lines|] == lines;
  }

  lemma NeverEmpty(line: string, m: int)
    requires EstimateTokens(line) > m > 0
    ensures TrimToTokens(line, m) != "" && IsTrimOf(TrimToTokens(line, m), line)
    ensures EstimateTokens(TrimToTokens(line, m)) <= m
  {
    TrimFits(line, m);
    TrimNeverGrows(line, m);
    TooLong(line, m);
  }

  lemma TrimmedLast(title: string, lines: seq<string>, i: nat, required: nat, budget: int)
    requires i < |lines| && i < required && Cost(title, lines[..i]) < budget < Cost(title, lines[..i + 1])
    requires EstimateTokens(lines[i]) > budget - Cost(title, lines[..i])
    ensures Taken(title, lines, required, budget,
                  lines[..i] + [TrimToTokens(lines[i], budget - Cost(title, lines[..i]))])
  {
    hide TrimToTokens, EstimateTokens, Cost;
    var m := budget - Cost(title, lines[..i]);
    var trimmed := TrimToTokens(lines[i], m);
    var kept := lines[..i] + [trimmed];
    NeverEmpty(lines[i], m);
    CostSnoc(title, lines[..i], trimmed);
    assert kept[..i] == lines[..i];
    if i + 1 < |lines| {
      CostGrows(title, lines, i + 1, i + 2);
    }
    if i + 1 < required <= |lines| {
      CostGrows(title, lines, i + 1, required - 1);
    }
  }

  lemma StoppedShort(title: string, lines: seq<string>, i: nat, required: nat, budget: int)
    requires i < |lines| && required > 0 && budget < Cost(title, lines[..i + 1])
    requires i > 0 ==> Cost(title, lines[..i]) <= budget
    requires i >= required || budget <= Cost(title, lines[..i])
    ensures Taken(title, lines, required, budget, lines[..i])
  {
    hide Cost;
    if required <= |lines| {
      if i >= required {
        CostGrows(title, lines, required - 1, i);
      } else {
        CostGrows(title, lines, i, required - 1);
      }
    }
  }

  lemma TooLong(text: string, m: nat)
    requires EstimateTokens(text) > m > 0
    ensures |text| > 4 * m
  {
  }

  lemma NothingToTrim(text: string)
    ensures TrimToTokens(text, 0) == ""
  {
  }

  /**
   * Fitting a section: it is kept exactly when its title and all but the last of its required lines
   * cost less than the budget. Then it has its required lines, they are the first of the original
   * ones with at most the last trimmed, their estimates are within budget, and no more would fit.
   */
  lemma FitMeaning(section: Section, budget: int)
    ensures var required := Required(section);
            && (Fit(section, budget).Some?
                <==> section.lines != [] && Cost(section.title, section.lines[..required - 1]) < budget)
            && match Fit(section, budget)
               case None => true
               case Some(kept) =>
                 && kept == section.(lines := kept.lines)
                 && Required(section) <= |kept.lines| <= |section.lines|
                 && IsPrefixTrimmed(kept.lines, section.lines)
                 && Cost(section.title, kept.lines) <= budget
                 && (|kept.lines| < |section.lines| ==> Cost(section.title, section.lines[..|kept.lines| + 1]) > budget)
  {
    TakeLinesMeaning(section.title, section.lines, 0, Required(section), budget);
    assert section.lines[..0] == [];
  }

  // ---------------------------------------------------------------- packing the sections

  function Join(parts: seq<string>, separator: string): string {
    if parts == [] then ""
    else if |parts| == 1 then parts[0]
    else parts[0] + separator + Join(parts[1..], separator)
  }

  function Render(section: Section): string {
    section.title + "\n" + Join(section.lines, "\n")
  }

  function RenderAll(sections: seq<Section>): seq<string> {
    seq(|sections|, i requires 0 <= i < |sections| => Render(sections[i]))
  }

  function TotalLength(parts: seq<string>): nat {
    if parts == [] then 0 else |parts[0]| + TotalLength(parts[1..])
  }

  function TotalTokens(parts: seq<string>): nat {
    if parts == [] then 0 else EstimateTokens(parts[0]) + TotalTokens(parts[1..])
  }

  lemma {:induction false} JoinedLength(parts: seq<string>, separator: string)
    ensures |Join(parts, separator)| == TotalLength(parts) + if parts == [] then 0 else (|parts| - 1) * |separator|
  {
    if |parts| > 1 {
      JoinedLength(parts[1..], separator);
      assert (|parts| - 1) * |separator| == |separator| + (|parts| - 2) * |separator|;
    }
  }

  /** The whole costs no more than the parts and its separators, estimated as one more text. */
  lemma {:induction false} LengthWithinTokens(parts: seq<string>)
    ensures TotalLength(parts) <= 4 * TotalTokens(parts)
  {
    if parts == [] {
    } else {
      LengthWithinTokens(parts[1..]);
    }
  }

  lemma {:induction false} CostIsTotal(title: string, lines: seq<string>)
    ensures Cost(title, lines) == EstimateTokens(title) + TotalTokens(lines)
  {
    if lines == [] {
    } else {
      CostIsTotal(title, lines[..|lines| - 1]);
      TotalSnoc(lines[..|lines| - 1], lines[|lines| - 1]);
      assert lines[..|lines| - 1] + [lines[|lines| - 1]] == lines;
    }
  }

  lemma {:induction false} TotalSnoc(parts: seq<string>, last: string)
    ensures TotalTokens(parts + [last]) == TotalTokens(parts) + EstimateTokens(last)
  {
    if parts == [] {
    } else {
      assert (parts + [last])[1..] == parts[1..] + [last];
      TotalSnoc(parts[1..], last);
    }
  }

  /** A rendered section exceeds the sum of its estimates by no more than its line breaks. */
  lemma RenderOverrun(section: Section)
    requires section.lines != []
    ensures EstimateTokens(Render(section)) <= Cost(section.title, section.lines) + CeilDiv(|section.lines|, 4)
  {
    var n := |section.lines|;
    JoinedLength(section.lines, "\n");
    assert (n - 1) * |"\n"| == n - 1;
    LengthWithinTokens(section.lines);
    CostIsTotal(section.title, section.lines);
    assert |Render(section)| == |section.title| + TotalLength(section.lines) + n;
  }

  datatype Notice = Dropped | Trimmed

  datatype Warning = Warning(provider: string, notice: Notice)

  datatype Packing = Packing(retained: seq<Section>, warnings: seq<Warning>, used: nat)

  /** One turn of the budget loop: what an entry adds when `used` tokens are spoken for. */
  function Turn(entry: Section, sectionBudget: nat, used: nat): Packing {
    var section := if sectionBudget <= used then None else Fit(entry, sectionBudget - used);
    match section
    case None => Packing([], [Warning(entry.provider, Dropped)], used)
    case Some(kept) =>
      var keptTokens := EstimateTokens(Render(kept));
      Packing([kept],
              if keptTokens < EstimateTokens(Render(entry)) then [Warning(entry.provider, Trimmed)] else [],
              used + keptTokens)
  }

  function Pack(entries: seq<Section>, sectionBudget: nat, used: nat): Packing {
    if entries == [] then Packing([], [], used)
    else
      var turn := Turn(entries[0], sectionBudget, used);
      var rest := Pack(entries[1..], sectionBudget, turn.used);
      Packing(turn.retained + rest.retained, turn.warnings + rest.warnings, rest.used)
  }

  datatype Assembled = Assembled(text: string, retained: seq<Section>, warnings: seq<Warning>, estimatedTokens: nat)

  function SectionBudget(budget: nat, gaps: Option<string>): nat {
    Max(1, budget - if gaps.None? then 0 else EstimateTokens(gaps.value))
  }

  function WithGaps(body: string, gaps: Option<string>): string {
    if gaps.None? then body else if body == "" then gaps.value else body + "\n\n" + gaps.value
  }

  lemma PackTurn(entries: seq<Section>, i: nat, sectionBudget: nat, used: nat)
    requires i <= |entries|
    ensures i == |entries| ==> Pack(entries[i..], sectionBudget, used) == Packing([], [], used)
    ensures i < |entries| ==>
              var turn := Turn(entries[i], sectionBudget, used);
              var rest := Pack(entries[i + 1..], sectionBudget, turn.used);
              Pack(entries[i..], sectionBudget, used)
              == Packing(turn.retained + rest.retained, turn.warnings + rest.warnings, rest.used)
  {
    if i < |entries| {
      assert entries[i..][0] == entries[i] && entries[i..][1..] == entries[i + 1..];
    }
  }

  /** The loop of `assemble`, and the text built after it. */
  method Assemble(ordered: seq<Section>, budget: nat, gaps: Option<string>) returns (r: Assembled)
    ensures var packing := Pack(ordered, SectionBudget(budget, gaps), 0);
            && r.retained == packing.retained && r.warnings == packing.warnings
            && r.text == WithGaps(Join(RenderAll(packing.retained), "\n\n"), gaps)
            && r.estimatedTokens == EstimateTokens(r.text)
  {
    hide Fit, Render, EstimateTokens, Pack, SectionBudget, Join, WithGaps, RenderAll;
    var sectionBudget := SectionBudget(budget, gaps);
    var retained: seq<Section>, warnings: seq<Warning>, used: nat := [], [], 0;
    ghost var whole := Pack(ordered, sectionBudget, 0);
    assert ordered[0..] == ordered;
    var i := 0;
    while i < |ordered|
      invariant i <= |ordered|
      invariant var rest := Pack(ordered[i..], sectionBudget, used);
                whole == Packing(retained + rest.retained, warnings + rest.warnings, rest.used)
    {
      var entry := ordered[i];
      PackTurn(ordered, i, sectionBudget, used);
      var remaining := sectionBudget - used;
      i := i + 1;
      if remaining <= 0 {
        warnings := warnings + [Warning(entry.provider, Dropped)];
        continue;
      }
      var section := FitSection(entry, remaining);
      if section.None? {
        warnings := warnings + [Warning(entry.provider, Dropped)];
        continue;
      }
      var originalTokens := EstimateTokens(Render(entry));
      var keptTokens := EstimateTokens(Render(section.value));
      retained := retained + [section.value];
      used := used + keptTokens;
      if keptTokens < originalTokens {
        warnings := warnings + [Warning(entry.provider, Trimmed)];
      }
    }
    PackTurn(ordered, i, sectionBudget, used);
    var text := WithGaps(Join(RenderAll(retained), "\n\n"), gaps);
    return Assembled(text, retained, warnings, EstimateTokens(text));
  }

  function Losses(warnings: seq<Warning>): multiset<string> {
    if warnings == [] then multiset{}
    else (if warnings[0].notice.Dropped? then multiset{warnings[0].provider} else multiset{}) + Losses(warnings[1..])
  }

  function Providers(sections: seq<Section>): multiset<string> {
    if sections == [] then multiset{} else multiset{sections[0].provider} + Providers(sections[1..])
  }

  /** No section disappears: each is either retained or reported as dropped, never both. */
  lemma {:induction false} EverySectionAccountedFor(entries: seq<Section>, sectionBudget: nat, used: nat)
    ensures var p := Pack(entries, sectionBudget, used);
            Providers(p.retained) + Losses(p.warnings) == Providers(entries)
  {
    if entries == [] {
    } else {
      hide Turn, Losses, Providers;
      var turn := Turn(entries[0], sectionBudget, used);
      var rest := Pack(entries[1..], sectionBudget, turn.used);
      EverySectionAccountedFor(entries[1..], sectionBudget, turn.used);
      TurnAccounts(entries[0], sectionBudget, used);
      ProvidersAppend(turn.retained, rest.retained);
      LossesAppend(turn.warnings, rest.warnings);
      FirstProvider(entries);
    }
  }

  lemma FirstProvider(sections: seq<Section>)
    requires sections != []
    ensures Providers(sections) == multiset{sections[0].provider} + Providers(sections[1..])
  {
  }

  lemma TurnAccounts(entry: Section, sectionBudget: nat, used: nat)
    ensures var turn := Turn(entry, sectionBudget, used);
            Providers(turn.retained) + Losses(turn.warnings) == multiset{entry.provider}
  {
    hide Render, EstimateTokens;
  }

  lemma {:induction false} ProvidersAppend(a: seq<Section>, b: seq<Section>)
    ensures Providers(a + b) == Providers(a) + Providers(b)
  {
    if a == [] {
      assert a + b == b;
    } else {
      assert (a + b)[1..] == a[1..] + b;
      ProvidersAppend(a[1..], b);
    }
  }

  lemma {:induction false} LossesAppend(a: seq<Warning>, b: seq<Warning>)
    ensures Losses(a + b) == Losses(a) + Losses(b)
  {
    if a == [] {
      assert a + b == b;
    } else {
      assert (a + b)[1..] == a[1..] + b;
      LossesAppend(a[1..], b);
    }
  }

  /** The tokens a packing counts are those of its retained sections, and only the last can overrun. */
  lemma {:induction false} PackBound(entries: seq<Section>, sectionBudget: nat, used: nat)
    ensures var p := Pack(entries, sectionBudget, used);
            && p.used == used + TotalTokens(RenderAll(p.retained))
            && (p.retained != [] ==>
                  p.used <= sectionBudget + CeilDiv(|p.retained[|p.retained| - 1].lines|, 4))
  {
    hide EstimateTokens, Render, Fit, CeilDiv;
    if entries == [] {
    } else {
      var turn := Turn(entries[0], sectionBudget, used);
      var rest := Pack(entries[1..], sectionBudget, turn.used);
      PackBound(entries[1..], sectionBudget, turn.used);
      TurnBound(entries[0], sectionBudget, used);
      hide Turn, TotalTokens;
      TokensOfMore(turn.retained, rest.retained);
    }
  }

  lemma TokensOfMore(first: seq<Section>, rest: seq<Section>)
    requires |first| <= 1
    ensures TotalTokens(RenderAll(first + rest))
         == (if first == [] then 0 else EstimateTokens(Render(first[0]))) + TotalTokens(RenderAll(rest))
  {
    hide EstimateTokens, Render;
    if first == [] {
      assert first + rest == rest;
    } else {
      assert RenderAll(first + rest)[1..] == RenderAll(rest);
    }
  }

  lemma TurnBound(entry: Section, sectionBudget: nat, used: nat)
    ensures var turn := Turn(entry, sectionBudget, used);
            && (turn.retained == [] ==> turn.used == used)
            && |turn.retained| <= 1
            && (turn.retained != [] ==>
              && used < sectionBudget
              && turn.used == used + EstimateTokens(Render(turn.retained[0]))
              && turn.used <= sectionBudget + CeilDiv(|turn.retained[0].lines|, 4))
  {
    hide Render, EstimateTokens, CeilDiv, Cost, Fit;
    if sectionBudget > used {
      FitMeaning(entry, sectionBudget - used);
      var kept := Fit(entry, sectionBudget - used);
      if kept.Some? {
        RenderOverrun(kept.value);
      }
    }
  }

  lemma JoinCost(parts: seq<string>)
    requires parts != []
    ensures EstimateTokens(Join(parts, "\n\n")) <= TotalTokens(parts) + CeilDiv(|parts| - 1, 2)
  {
    hide Join, TotalTokens, TotalLength;
    JoinedLength(parts, "\n\n");
    assert (|parts| - 1) * |"\n\n"| == 2 * (|parts| - 1);
    LengthWithinTokens(parts);
    PositiveTokens(parts);
  }

  lemma PositiveTokens(parts: seq<string>)
    requires parts != []
    ensures TotalTokens(parts) >= 1
  {
  }

  lemma JoinCostWithGaps(parts: seq<string>, gaps: string)
    requires parts != []
    ensures EstimateTokens(WithGaps(Join(parts, "\n\n"), Some(gaps)))
            <= TotalTokens(parts) + EstimateTokens(gaps) + CeilDiv(|parts|, 2)
  {
    hide Join, TotalTokens, TotalLength;
    JoinedLength(parts, "\n\n");
    assert (|parts| - 1) * |"\n\n"| == 2 * (|parts| - 1);
    LengthWithinTokens(parts);
    PositiveTokens(parts);
    var body := Join(parts, "\n\n");
    assert |WithGaps(body, Some(gaps))| <= |body| + 2 + |gaps|;
  }

  /** The estimate of the retained sections' text. */
  lemma BodyBound(entries: seq<Section>, sectionBudget: nat)
    requires sectionBudget >= 1
    ensures var retained := Pack(entries, sectionBudget, 0).retained;
            var k := |retained|;
            k >= 1 ==>
              EstimateTokens(Join(RenderAll(retained), "\n\n"))
              <= sectionBudget + CeilDiv(|retained[k - 1].lines|, 4) + CeilDiv(k - 1, 2)
  {
    hide Pack, Join, EstimateTokens, TotalTokens, CeilDiv, Render;
    PackBound(entries, sectionBudget, 0);
    var retained := Pack(entries, sectionBudget, 0).retained;
    if retained != [] {
      JoinCost(RenderAll(retained));
    }
  }

  /** The estimate of the whole text, with its notice of missing context. */
  lemma TextBound(entries: seq<Section>, budget: nat, gaps: Option<string>)
    requires budget >= 1
    ensures var retained := Pack(entries, SectionBudget(budget, gaps), 0).retained;
            var k := |retained|;
            var text := WithGaps(Join(RenderAll(retained), "\n\n"), gaps);
            var limit := if gaps.None? then budget else Max(budget, EstimateTokens(gaps.value) + 1);
            k >= 1 ==>
              EstimateTokens(text)
              <= limit + CeilDiv(|retained[k - 1].lines|, 4) + CeilDiv(if gaps.None? then k - 1 else k, 2)
  {
    hide Pack, Join, EstimateTokens, TotalTokens, CeilDiv, Render;
    var sectionBudget := SectionBudget(budget, gaps);
    PackBound(entries, sectionBudget, 0);
    var retained := Pack(entries, sectionBudget, 0).retained;
    if retained != [] {
      JoinCost(RenderAll(retained));
      if gaps.Some? {
        JoinCostWithGaps(RenderAll(retained), gaps.value);
      }
    }
  }
}
