/**
 * What coverage, weights and scores say of a query's words, and what resolution makes of the scores,
 * in terms of the words, labels and projects themselves.
 */
module MatchingMeaning {
  import opened Options
  import EditDistance
  import opened Matching

  // ---------------------------------------------------------------- coverage

  /** The weight of all words together. */
  function WholeMass(lang: Language, c: Corpus, tokens: seq<string>): real {
    if tokens == [] then 0.0
    else WholeMass(lang, c, tokens[..|tokens| - 1]) + WeightOf(lang, c, tokens[|tokens| - 1])
  }

  lemma {:induction false} MassOfAll(lang: Language, c: Corpus, tokens: seq<string>, keep: string -> bool)
    requires forall t :: t in tokens ==> keep(t)
    ensures Mass(lang, c, tokens, keep) == WholeMass(lang, c, tokens)
  {
    if tokens == [] {
    } else {
      MassOfAll(lang, c, tokens[..|tokens| - 1], keep);
    }
  }

  /** A mass is positive exactly when a kept word has weight; then it is at least that weight. */
  lemma {:induction false} MassIsPositive(lang: Language, c: Corpus, tokens: seq<string>, keep: string -> bool)
    requires IsLog(lang.log)
    ensures Mass(lang, c, tokens, keep) >= 0.0
    ensures Mass(lang, c, tokens, keep) > 0.0 <==> exists t :: t in tokens && keep(t) && WeightOf(lang, c, t) > 0.0
    ensures forall t :: t in tokens && keep(t) ==> Mass(lang, c, tokens, keep) >= WeightOf(lang, c, t)
  {
    hide IsLog, WeightOf;
    if tokens != [] {
      var init, last := tokens[..|tokens| - 1], tokens[|tokens| - 1];
      assert tokens == init + [last];
      WeightIsNonNegative(lang, c, last);
      MassIsPositive(lang, c, init, keep);
    }
  }

  lemma {:induction false} MassGrows(lang: Language, c: Corpus, tokens: seq<string>, few: string -> bool,
                                     many: string -> bool)
    requires IsLog(lang.log) && forall t :: few(t) ==> many(t)
    ensures Mass(lang, c, tokens, few) <= Mass(lang, c, tokens, many)
  {
    hide IsLog, WeightOf;
    if tokens == [] {
    } else {
      WeightIsNonNegative(lang, c, tokens[|tokens| - 1]);
      MassGrows(lang, c, tokens[..|tokens| - 1], few, many);
    }
  }

  /** A label covers nothing of a query none of whose words any of its tokens resembles. */
  lemma NothingCovered(lang: Language, c: Corpus, prepared: Prepared, tokens: set<string>)
    requires IsLog(lang.log)
    requires forall word, token :: word in prepared.tokens && token in tokens ==> !Resembles(lang, word, token)
    ensures Coverage(lang, c, prepared, tokens) == 0.0
  {
    hide IsLog, Resembles, Specificity;
    MassIsPositive(lang, c, prepared.tokens, (t: string) => TokenMatches(lang, t, tokens));
  }

  /** A label that covers every word covers the query as far as its whole mass is specific. */
  lemma AllCovered(lang: Language, c: Corpus, prepared: Prepared, tokens: set<string>)
    requires tokens != {} && prepared.tokens != [] && WholeMass(lang, c, prepared.tokens) > 0.0
    requires forall word :: word in prepared.tokens ==> exists token :: token in tokens && Resembles(lang, word, token)
    ensures Coverage(lang, c, prepared, tokens) == Specificity(lang, c, WholeMass(lang, c, prepared.tokens))
  {
    hide Resembles, Specificity;
    MassOfAll(lang, c, prepared.tokens, (t: string) => TokenMatches(lang, t, tokens));
    MassOfAll(lang, c, prepared.tokens, (t: string) => true);
    hide Mass, WholeMass, TokenMatches;
  }

  /** More tokens never cover less. */
  lemma CoverageGrows(lang: Language, c: Corpus, prepared: Prepared, few: set<string>, many: set<string>)
    requires IsLog(lang.log) && few <= many
    ensures Coverage(lang, c, prepared, few) <= Coverage(lang, c, prepared, many)
  {
    CoverageIsUnit(lang, c, prepared, many);
    hide IsLog, Resembles, Specificity, Mass;
    var less, more := (t: string) => TokenMatches(lang, t, few), (t: string) => TokenMatches(lang, t, many);
    MassGrows(lang, c, prepared.tokens, less, more);
    MassBounds(lang, c, prepared.tokens, less);
    var a, b := Mass(lang, c, prepared.tokens, less), Mass(lang, c, prepared.tokens, more);
    var possible := Mass(lang, c, prepared.tokens, (t: string) => true);
    hide TokenMatches;
    if few != {} && prepared.tokens != [] && possible != 0.0 {
      QuotientGrows(a, b, possible);
      SpecificityGrows(lang, c, a, b);
      ProductGrows(a / possible, b / possible, Specificity(lang, c, a), Specificity(lang, c, b));
    }
  }

  lemma QuotientGrows(a: real, b: real, d: real)
    requires 0.0 <= a <= b && d > 0.0
    ensures 0.0 <= a / d <= b / d
  {
    Quotient(a, d);
    Quotient(b - a, d);
    assert b / d == a / d + (b - a) / d;
  }

  lemma Quotient(x: real, d: real)
    requires x >= 0.0 && d > 0.0
    ensures x / d >= 0.0
  {
    var q := x / d;
    assert q * d == x;
    if q < 0.0 {
      EditDistance.NonPositiveTimes(q, d);
    }
  }

  lemma ProductGrows(a: real, b: real, x: real, y: real)
    requires 0.0 <= a <= b && 0.0 <= x <= y
    ensures Scaled(a, x) <= Scaled(b, y)
  {
    MoreIsMore(b - a, x);
    MoreIsMore(b, y - x);
    assert b * y - a * x == (b - a) * x + b * (y - x);
  }

  lemma SpecificityGrows(lang: Language, c: Corpus, a: real, b: real)
    requires 0.0 <= a <= b
    ensures 0.0 <= Specificity(lang, c, a) <= Specificity(lang, c, b)
  {
    var floor := lang.log(1.0 + (c.total as real) / 4.0);
    if floor > 0.0 {
      QuotientGrows(a, b, floor);
    }
  }

  // ---------------------------------------------------------------- weights

  /**
   * Enough mass is fully specific: that of a word which three projects name. Less of it counts in
   * proportion, and with no projects nothing does.
   */
  lemma SpecificityMeaning(lang: Language, c: Corpus, mass: real)
    requires IsLog(lang.log) && mass >= 0.0
    ensures var s := Specificity(lang, c, mass);
            var enough := lang.log(1.0 + (c.total as real) / (1.0 + 3.0));
            && (c.total == 0 ==> s == 0.0)
            && (c.total > 0 && mass >= enough ==> s == 1.0)
            && (c.total > 0 && mass < enough ==> s < 1.0 && s * enough == mass)
  {
    hide IsLog;
    var enough := lang.log(1.0 + (c.total as real) / 4.0);
    if enough > 0.0 {
      var q := mass / enough;
      assert q * enough == mass;
      if q < 1.0 {
        EditDistance.NonPositiveTimes(q - 1.0, enough);
      } else {
        EditDistance.NonPositiveTimes(1.0 - q, enough);
      }
      assert (1.0 - q) * enough == enough - mass;
    }
  }

  /** The more projects name a word, the less it weighs; one nobody names weighs most. */
  lemma RarerWeighsMore(lang: Language, projects: seq<Project>, rare: string, common: string)
    requires IsLog(lang.log) && |Naming(lang, projects, rare)| <= |Naming(lang, projects, common)|
    ensures var c := Build(lang, projects);
            && WeightOf(lang, c, rare) >= WeightOf(lang, c, common) >= 0.0
            && WeightOf(lang, c, rare) <= lang.log(1.0 + |projects| as real)
            && WeightOf(lang, c, common) >= lang.log(1.0 + (|projects| as real) / (1.0 + |projects| as real))
  {
    BuildCounts(lang, projects);
    var c := Build(lang, projects);
    FilterFew(lang, projects, common);
    hide Build, Naming, IsLog;
    var n := c.total as real;
    var few, many := FrequencyIn(c.frequency, rare), FrequencyIn(c.frequency, common);
    LessPerMore(n, 1.0, 1.0 + few as real);
    LessPerMore(n, 1.0 + few as real, 1.0 + many as real);
    LessPerMore(n, 1.0 + many as real, 1.0 + n);
    LogGrows(lang.log, n / (1.0 + few as real), n / 1.0);
    LogGrows(lang.log, n / (1.0 + many as real), n / (1.0 + few as real));
    LogGrows(lang.log, n / (1.0 + n), n / (1.0 + many as real));
    WeightIsNonNegative(lang, c, common);
  }

  lemma FilterFew(lang: Language, projects: seq<Project>, t: string)
    ensures |Naming(lang, projects, t)| <= |projects|
  {
  }

  lemma LogGrows(log: real -> real, x: real, y: real)
    requires IsLog(log) && 0.0 <= x <= y
    ensures log(1.0 + x) <= log(1.0 + y)
  {
  }

  lemma MoreIsMore(p: real, d: real)
    requires p >= 0.0 && d >= 0.0
    ensures p * d >= 0.0
  {
  }

  lemma LessPerMore(n: real, few: real, many: real)
    requires n >= 0.0 && 0.0 < few <= many
    ensures 0.0 <= n / many <= n / few
  {
    var p, q := n / many, n / few;
    assert p * many == n && q * few == n;
    if p < 0.0 {
      EditDistance.NonPositiveTimes(p, many);
    }
    MoreIsMore(p, many - few);
    assert (q - p) * few == p * (many - few);
    if q < p {
      EditDistance.NonPositiveTimes(q - p, few);
    }
  }

  // ---------------------------------------------------------------- scores

  /** Neither what the label's text nor what its words give exceeds the bound. */
  ghost predicate LabelWithin(lang: Language, c: Corpus, prepared: Prepared, lab: Label, tokens: set<string>,
      bound: real) {
    && Similarity(lang, prepared.normalized, lab.text) * lab.weight <= bound
    && Coverage(lang, c, prepared, tokens) * lab.weight * UnknownPenalty(lang, c, prepared) <= bound
  }

  lemma {:induction false} BestLabelWithin(lang: Language, c: Corpus, prepared: Prepared, labels: seq<LabelIndex>,
                                           n: nat, bound: real)
    requires n <= |labels| && bound >= 0.0
    ensures BestLabel(lang, c, prepared, labels, n) <= bound
       <==> forall i :: 0 <= i < n ==> LabelWithin(lang, c, prepared, labels[i].lab, labels[i].tokens, bound)
  {
    hide Coverage, UnknownPenalty, Similarity, LabelWithin, Scaled;
    if n > 0 {
      BestLabelWithin(lang, c, prepared, labels, n - 1, bound);
      LabelWithinScaled(lang, c, prepared, labels[n - 1].lab, labels[n - 1].tokens, bound);
    }
  }

  lemma LabelWithinScaled(lang: Language, c: Corpus, prepared: Prepared, lab: Label, tokens: set<string>, bound: real)
    ensures LabelWithin(lang, c, prepared, lab, tokens, bound)
       <==> && Scaled(Similarity(lang, prepared.normalized, lab.text), lab.weight) <= bound
            && Scaled(Scaled(Coverage(lang, c, prepared, tokens), lab.weight),
                UnknownPenalty(lang, c, prepared)) <= bound
  {
    hide Coverage, UnknownPenalty, Similarity;
  }

  /** Nor does what the words of all labels together give, at the weight of a description. */
  ghost predicate PoolWithin(lang: Language, c: Corpus, prepared: Prepared, pool: set<string>, bound: real) {
    Coverage(lang, c, prepared, pool) * 0.85 * UnknownPenalty(lang, c, prepared) <= bound
  }

  /**
   * The score of a listed project is the least bound, zero or more, on what each of its labels gives, by
   * text and by words, and what the words of all labels together give.
   */
  lemma ScoreIsTheBest(lang: Language, projects: seq<Project>, prepared: Prepared, p: Project, bound: real)
    requires Distinct(projects) && p in projects && bound >= 0.0
    ensures var c := Build(lang, projects);
            ScorePrepared(lang, c, prepared, p) <= bound
            <==> && (forall lab :: lab in Labels(p) ==> LabelWithin(lang, c, prepared, lab, Tokens(lang, lab), bound))
                 && PoolWithin(lang, c, prepared, Pooled(lang, Labels(p)), bound)
  {
    BuildIndexes(lang, projects);
    var c := Build(lang, projects);
    hide Build, IndexOf, LabelWithin, PoolWithin, Labels, Tokens, Pooled, Distinct, ScorePrepared;
    IndexedLabels(lang, c, prepared, p, bound);
    IndexedPool(lang, p);
    ScoreWithin(lang, c, prepared, p, bound);
  }

  lemma IndexedPool(lang: Language, p: Project)
    ensures IndexOf(lang, p).combined == Pooled(lang, Labels(p))
  {
  }

  lemma ScoreWithin(lang: Language, c: Corpus, prepared: Prepared, p: Project, bound: real)
    requires p.id in c.indexes && bound >= 0.0
    ensures var index := c.indexes[p.id];
            ScorePrepared(lang, c, prepared, p) <= bound
            <==> && (forall i :: 0 <= i < |index.labels| ==>
                       LabelWithin(lang, c, prepared, index.labels[i].lab, index.labels[i].tokens, bound))
                 && PoolWithin(lang, c, prepared, index.combined, bound)
  {
    var index := c.indexes[p.id];
    BestLabelWithin(lang, c, prepared, index.labels, |index.labels|, bound);
    PoolWithinScaled(lang, c, prepared, index.combined, bound);
    hide BestLabel, Coverage, UnknownPenalty, LabelWithin, PoolWithin, Scaled;
  }

  lemma PoolWithinScaled(lang: Language, c: Corpus, prepared: Prepared, pool: set<string>, bound: real)
    ensures PoolWithin(lang, c, prepared, pool, bound)
       <==> Scaled(Scaled(Coverage(lang, c, prepared, pool), COMBINED_WEIGHT),
           UnknownPenalty(lang, c, prepared)) <= bound
  {
    hide Coverage, UnknownPenalty;
  }

  lemma IndexedLabels(lang: Language, c: Corpus, prepared: Prepared, p: Project, bound: real)
    ensures var labels := IndexOf(lang, p).labels;
            (forall i :: 0 <= i < |labels| ==> LabelWithin(lang, c, prepared, labels[i].lab, labels[i].tokens, bound))
            <==> (forall lab :: lab in Labels(p) ==> LabelWithin(lang, c, prepared, lab, Tokens(lang, lab), bound))
  {
    hide LabelWithin, Labels, Tokens, Pooled;
    var labels := IndexOf(lang, p).labels;
    assert forall i :: 0 <= i < |labels| ==> Labels(p)[i] in Labels(p) && labels[i].lab == Labels(p)[i];
    forall lab | lab in Labels(p) && forall i :: 0 <= i < |labels| ==>
                   LabelWithin(lang, c, prepared, labels[i].lab, labels[i].tokens, bound)
      ensures LabelWithin(lang, c, prepared, lab, Tokens(lang, lab), bound)
    {
      var i :| 0 <= i < |Labels(p)| && Labels(p)[i] == lab;
      assert labels[i].lab == lab;
    }
  }

  /** A project one of whose labels covers an unpenalised query scores at least the label's weight,
      as far as that is specific. */
  lemma CoveredScore(lang: Language, projects: seq<Project>, prepared: Prepared, p: Project, lab: Label)
    requires IsLog(lang.log) && Distinct(projects) && p in projects && lab in Labels(p)
    requires prepared.tokens != [] && UnknownPenalty(lang, Build(lang, projects), prepared) == 1.0
    requires WholeMass(lang, Build(lang, projects), prepared.tokens) > 0.0
    requires forall word :: word in prepared.tokens ==>
               exists token :: token in Tokens(lang, lab) && Resembles(lang, word, token)
    ensures var c := Build(lang, projects);
            ScorePrepared(lang, c, prepared, p) >= lab.weight * Specificity(lang, c,
                WholeMass(lang, c, prepared.tokens))
  {
    var c := Build(lang, projects);
    hide Build, ScorePrepared, Coverage, Specificity, WholeMass, UnknownPenalty, Labels, Tokens, IsLog, Resembles,
         Distinct,
         LabelWithin, PoolWithin, Mass;
    ScoreIsUnit(lang, projects, prepared, p);
    assert Tokens(lang, lab) != {} by {
      assert prepared.tokens[0] in prepared.tokens;
    }
    AllCovered(lang, c, prepared, Tokens(lang, lab));
    var score := ScorePrepared(lang, c, prepared, p);
    ScoreIsTheBest(lang, projects, prepared, p, score);
    CoveredLabel(lang, c, prepared, lab, Tokens(lang, lab),
        Specificity(lang, c, WholeMass(lang, c, prepared.tokens)), score);
  }

  lemma CoveredLabel(lang: Language, c: Corpus, prepared: Prepared, lab: Label, tokens: set<string>, share: real,
                     bound: real)
    requires LabelWithin(lang, c, prepared, lab, tokens, bound) && UnknownPenalty(lang, c, prepared) == 1.0
    requires Coverage(lang, c, prepared, tokens) == share
    ensures bound >= lab.weight * share
  {
    hide Coverage, UnknownPenalty, Similarity;
  }

  /** A project whose labels no word of the query resembles scores no more than its most similar label. */
  lemma UncoveredScore(lang: Language, projects: seq<Project>, prepared: Prepared, p: Project, bound: real)
    requires IsLog(lang.log) && Distinct(projects) && p in projects && bound >= 0.0
    requires forall lab, word, token :: lab in Labels(p) && token in Tokens(lang, lab) && word in prepared.tokens ==>
               !Resembles(lang, word, token)
    ensures ScorePrepared(lang, Build(lang, projects), prepared, p) <= bound
       <==> forall lab :: lab in Labels(p) ==> Similarity(lang, prepared.normalized, lab.text) * lab.weight <= bound
  {
    var c := Build(lang, projects);
    ScoreIsTheBest(lang, projects, prepared, p, bound);
    forall lab | lab in Labels(p) ensures Coverage(lang, c, prepared, Tokens(lang, lab)) == 0.0 {
      NothingCovered(lang, c, prepared, Tokens(lang, lab));
    }
    NothingCovered(lang, c, prepared, Pooled(lang, Labels(p)));
    hide Build, ScorePrepared, Coverage, UnknownPenalty, Labels, Tokens, Pooled, IsLog, Resembles, Similarity, Distinct,
         LabelWithin, PoolWithin;
    forall lab | lab in Labels(p)
      ensures LabelWithin(lang, c, prepared, lab, Tokens(lang, lab), bound)
         <==> Similarity(lang, prepared.normalized, lab.text) * lab.weight <= bound
    {
      UncoveredLabel(lang, c, prepared, lab, Tokens(lang, lab), bound);
    }
    UncoveredPool(lang, c, prepared, Pooled(lang, Labels(p)), bound);
  }

  lemma UncoveredLabel(lang: Language, c: Corpus, prepared: Prepared, lab: Label, tokens: set<string>, bound: real)
    requires Coverage(lang, c, prepared, tokens) == 0.0 && bound >= 0.0
    ensures LabelWithin(lang, c, prepared, lab, tokens, bound)
       <==> Similarity(lang, prepared.normalized, lab.text) * lab.weight <= bound
  {
    hide Coverage, UnknownPenalty, Similarity;
  }

  lemma UncoveredPool(lang: Language, c: Corpus, prepared: Prepared, pool: set<string>, bound: real)
    requires Coverage(lang, c, prepared, pool) == 0.0 && bound >= 0.0
    ensures PoolWithin(lang, c, prepared, pool, bound)
  {
    hide Coverage, UnknownPenalty;
  }

  /** One word that at most three projects name is enough: a label that covers it gives its whole weight. */
  lemma RareWordScore(lang: Language, projects: seq<Project>, prepared: Prepared, p: Project, lab: Label, word: string)
    requires IsLog(lang.log) && Distinct(projects) && p in projects && lab in Labels(p)
    requires prepared.tokens == [word] && UnknownPenalty(lang, Build(lang, projects), prepared) == 1.0
    requires |Naming(lang, projects, word)| <= 3 && WeightOf(lang, Build(lang, projects), word) > 0.0
    requires exists token :: token in Tokens(lang, lab) && Resembles(lang, word, token)
    ensures ScorePrepared(lang, Build(lang, projects), prepared, p) >= lab.weight
  {
    hide Build, ScorePrepared, Specificity, WholeMass, UnknownPenalty, Labels, Tokens, IsLog, Resembles, Distinct,
         WeightOf,
         Naming;
    var c := Build(lang, projects);
    OneWordMass(lang, c, word);
    RareWordIsEnough(lang, projects, word);
    CoveredScore(lang, projects, prepared, p, lab);
    TimesOne(lab.weight, Specificity(lang, c, WholeMass(lang, c, prepared.tokens)));
  }

  lemma TimesOne(x: real, y: real)
    requires y == 1.0
    ensures x * y == x
  {
  }

  lemma OneWordMass(lang: Language, c: Corpus, word: string)
    ensures WholeMass(lang, c, [word]) == WeightOf(lang, c, word)
  {
    assert [word][..0] == [];
  }

  lemma RareWordIsEnough(lang: Language, projects: seq<Project>, word: string)
    requires IsLog(lang.log) && projects != [] && |Naming(lang, projects, word)| <= 3
    ensures var c := Build(lang, projects); Specificity(lang, c, WeightOf(lang, c, word)) == 1.0
  {
    BuildCounts(lang, projects);
    var c := Build(lang, projects);
    hide Build, Naming;
    var n, f := c.total as real, FrequencyIn(c.frequency, word);
    LessPerMore(n, 1.0 + f as real, 4.0);
    LogGrows(lang.log, n / 4.0, n / (1.0 + f as real));
    WeightIsNonNegative(lang, c, word);
    SpecificityMeaning(lang, c, WeightOf(lang, c, word));
    hide IsLog, Specificity;
  }

  // ---------------------------------------------------------------- words, labels and likeness

  /**
   * When two words resemble each other, for words that are their own normal form: they are equal, or each
   * has four characters and one begins with the other, or their lengths differ by at most two and the
   * edit distance is at most 0.14 for each character of the longer one.
   */
  lemma ResemblesExactly(lang: Language, a: string, b: string)
    requires lang.normalize(a) == a != [] && lang.normalize(b) == b != []
    ensures Resembles(lang, a, b)
       <==> || a == b
            || (|a| >= 4 && |b| >= 4 && (a <= b || b <= a))
            || (|a| <= |b| + 2 && |b| <= |a| + 2
                && 100 * EditDistance.Distance(a, b) <= 14 * (if |a| >= |b| then |a| else |b|))
  {
    NearExactly(lang, a, b);
    hide Similarity, EditDistance.Distance;
  }

  lemma NearExactly(lang: Language, a: string, b: string)
    requires lang.normalize(a) == a != [] && lang.normalize(b) == b != []
    ensures Similarity(lang, a, b) >= 0.86
       <==> 100 * EditDistance.Distance(a, b) <= 14 * (if |a| >= |b| then |a| else |b|)
  {
    hide EditDistance.Similarity, EditDistance.Distance;
    EditDistance.SimilarityExactly(lang.normalize, a, b);
    NearEnough(Similarity(lang, a, b), EditDistance.Distance(a, b), if |a| >= |b| then |a| else |b|);
  }

  lemma NearEnough(s: real, d: nat, longer: nat)
    requires longer > 0 && (1.0 - s) * (longer as real) == d as real
    ensures s >= 0.86 <==> 100 * d <= 14 * longer
  {
    var n := longer as real;
    assert (s - 0.86) * n == 0.14 * n - d as real;
    if s < 0.86 {
      EditDistance.NonPositiveTimes(s - 0.86, n);
    } else {
      EditDistance.NonPositiveTimes(0.86 - s, n);
    }
    assert 0.14 * n >= d as real <==> 14.0 * n >= 100.0 * d as real;
    assert 14.0 * n == (14 * longer) as real && 100.0 * d as real == (100 * d) as real;
  }

  /** The strings that name a project, with the trust each earns; an id is not split into words. */
  lemma LabelsExactly(p: Project, lab: Label)
    ensures lab in Labels(p)
       <==> && lab.text != ""
            && (|| lab == Label(p.id, 1.0, false)
                || lab == Label(p.name, 1.0, true)
                || lab == Label(p.displayName, 1.0, true)
                || (lab.text in p.aliases && lab.weight == 1.0 && lab.tokenize)
                || lab == Label(p.path, 0.9, true)
                || (p.remote == Some(lab.text) && lab.weight == 0.95 && lab.tokenize)
                || (p.description == Some(lab.text) && lab.weight == 0.85 && lab.tokenize))
  {
    var aliases := seq(|p.aliases|, i requires 0 <= i < |p.aliases| => Label(p.aliases[i], IDENTITY_WEIGHT, true));
    assert lab in aliases <==> lab.text in p.aliases && lab.weight == 1.0 && lab.tokenize by {
      if lab.text in p.aliases && lab.weight == 1.0 && lab.tokenize {
        var i :| 0 <= i < |p.aliases| && p.aliases[i] == lab.text;
        assert aliases[i] == lab;
      }
    }
  }

  /** The words with single spaces between them. */
  function Joined(words: seq<string>): string {
    if words == [] then ""
    else if |words| == 1 then words[0]
    else words[0] + " " + Joined(words[1..])
  }

  ghost predicate Spaceless(words: seq<string>) {
    forall w :: w in words ==> ' ' !in w
  }

  /** Splitting and joining undo each other: the words are the only ones without spaces that make the text. */
  lemma SplitExactly(text: string, words: seq<string>)
    requires words != []
    ensures Split(text, "") == words <==> Spaceless(words) && Joined(words) == text
  {
    SplitIsUndone(text, "");
    if Spaceless(words) && Joined(words) == text {
      SplitOfJoined(words);
    }
  }

  lemma {:induction false} SplitIsUndone(text: string, word: string)
    requires ' ' !in word
    ensures Joined(Split(text, word)) == word + text
    ensures Spaceless(Split(text, word))
  {
    if text == [] {
    } else if text[0] == ' ' {
      SplitIsUndone(text[1..], "");
      var rest := Split(text[1..], "");
      SplitHasWords(text[1..], "");
      assert ([word] + rest)[1..] == rest;
      assert word + text == word + " " + text[1..];
    } else {
      SplitIsUndone(text[1..], word + [text[0]]);
      assert word + [text[0]] + text[1..] == word + text;
    }
  }

  lemma SplitHasWords(text: string, word: string)
    ensures Split(text, word) != []
  {
  }

  lemma {:induction false} SplitOfJoined(words: seq<string>)
    requires words != [] && Spaceless(words)
    ensures Split(Joined(words), "") == words
  {
    if |words| == 1 {
      SplitWord(words[0], "", "");
      assert words[0] + "" == words[0];
    } else {
      var rest := Joined(words[1..]);
      SplitOfJoined(words[1..]);
      SplitWord(words[0], " " + rest, "");
      assert words[0] + " " + rest == words[0] + (" " + rest);
      assert (" " + rest)[1..] == rest && "" + words[0] == words[0];
      assert words == [words[0]] + words[1..];
    }
  }

  lemma {:induction false} SplitWord(word: string, rest: string, before: string)
    requires ' ' !in word
    ensures Split(word + rest, before) == Split(rest, before + word)
  {
    if word == "" {
      assert word + rest == rest && before + word == before;
    } else {
      SplitWord(word[1..], rest, before + [word[0]]);
      assert (word + rest)[1..] == word[1..] + rest;
      assert before + [word[0]] + word[1..] == before + word;
    }
  }

  /** The informative words of a text: those between its spaces with two characters or more that are no stop words. */
  lemma ContentTokensExactly(lang: Language, text: string, words: seq<string>, token: string)
    requires words != [] && Spaceless(words) && Joined(words) == lang.normalize(text)
    ensures token in ContentTokens(lang, text) <==> token in words && |token| >= 2 && !lang.stop(token)
  {
    SplitExactly(lang.normalize(text), words);
    if lang.normalize(text) == "" {
      assert words == [""];
    }
  }

  /** The words of a query: those among its first 24 informative ones, each once. */
  lemma QueryWordsExactly(lang: Language, query: string)
    ensures var content, words := ContentTokens(lang, query), QueryWords(lang, query);
            && (forall w :: w in words <==> exists i :: 0 <= i < 24 && i < |content| && content[i] == w)
            && (forall i, j :: 0 <= i < j < |words| ==> words[i] != words[j])
  {
    hide ContentTokens;
  }

  /** Some label of some project has a token that the word resembles. */
  ghost predicate Known(lang: Language, projects: seq<Project>, word: string) {
    exists p, lab, token ::
      p in projects && lab in Labels(p) && token in Tokens(lang, lab) && Resembles(lang, word, token)
  }

  /** Preparing a query drops its unknown words, unless it has no other. */
  lemma PreparedExactly(lang: Language, projects: seq<Project>, query: string, word: string)
    ensures word in Prepare(lang, Build(lang, projects), query).tokens
       <==> && word in QueryWords(lang, query)
            && (Known(lang, projects, word) || forall w :: w in QueryWords(lang, query) ==> !Known(lang, projects, w))
  {
    hide QueryWords, Known, TokenMatches, Build;
    var c := Build(lang, projects);
    KnownExactly(lang, projects);
    var words := QueryWords(lang, query);
    var known := Filter(words, (token: string) => TokenMatches(lang, token, c.vocabulary));
    if known != [] {
      assert known[0] in known;
    }
  }

  lemma KnownExactly(lang: Language, projects: seq<Project>)
    ensures forall w :: TokenMatches(lang, w, Build(lang, projects).vocabulary) <==> Known(lang, projects, w)
  {
    VocabularyExactly(lang, projects);
    hide Build, Labels, Tokens, Resembles;
  }

  /** The vocabulary is the tokens of all labels of all projects. */
  lemma VocabularyExactly(lang: Language, projects: seq<Project>)
    ensures forall t :: t in Build(lang, projects).vocabulary
              <==> exists p, lab :: p in projects && lab in Labels(p) && t in Tokens(lang, lab)
  {
    BuildCounts(lang, projects);
    hide Build, Labels, Tokens;
    forall t ensures t in Build(lang, projects).vocabulary
                     <==> exists p, lab :: p in projects && lab in Labels(p) && t in Tokens(lang, lab)
    {
      NamingExactly(lang, projects, t);
      var naming := Naming(lang, projects, t);
      hide Naming;
      assert naming != [] ==> naming[0] in naming;
    }
  }

  lemma NamingExactly(lang: Language, projects: seq<Project>, t: string)
    ensures forall p :: p in Naming(lang, projects, t)
              <==> p in projects && exists lab :: lab in Labels(p) && t in Tokens(lang, lab)
  {
    hide Labels, Tokens;
  }

  // ---------------------------------------------------------------- resolution

  function WithScore(s: seq<Entry>, x: real): seq<Entry> {
    Filter(s, (e: Entry) => e.score == x)
  }

  /** Sorting keeps entries of the same score in the order they came. */
  lemma {:induction false} SortedIsStable(s: seq<Entry>, x: real)
    ensures WithScore(Sorted(s), x) == WithScore(s, x)
  {
    hide WithScore, Insert, Descending;
    if s != [] {
      var init, last := s[..|s| - 1], s[|s| - 1];
      SortedIsStable(init, x);
      SortedSorts(init);
      InsertedLast(last, Sorted(init), x);
      ScoreSnoc(init, last, x);
      assert s == init + [last];
    }
  }

  lemma ScoreSnoc(s: seq<Entry>, last: Entry, x: real)
    ensures WithScore(s + [last], x) == WithScore(s, x) + if last.score == x then [last] else []
  {
    FilterSnoc(s, last, (e: Entry) => e.score == x);
  }

  lemma ScoreCons(first: Entry, s: seq<Entry>, x: real)
    ensures WithScore([first] + s, x) == (if first.score == x then [first] else []) + WithScore(s, x)
    ensures (forall e :: e in s ==> e.score != x) ==> WithScore(s, x) == []
  {
    assert ([first] + s)[1..] == s;
    if forall e :: e in s ==> e.score != x {
      FilterNone(s, (e: Entry) => e.score == x);
    }
  }

  lemma {:induction false} InsertedLast(e: Entry, s: seq<Entry>, x: real)
    requires Descending(s)
    ensures WithScore(Insert(e, s), x) == WithScore(s, x) + if e.score == x then [e] else []
  {
    hide WithScore;
    ScoreCons(e, s, x);
    if s != [] && s[0].score >= e.score {
      InsertedLast(e, s[1..], x);
      ScoreCons(s[0], s[1..], x);
      ScoreCons(s[0], Insert(e, s[1..]), x);
      assert s == [s[0]] + s[1..];
    }
  }

  /** The score of a listed project for a query. */
  function ScoreOf(lang: Language, projects: seq<Project>, query: string, p: Project): real {
    var c := Build(lang, projects);
    ScorePrepared(lang, c, Prepare(lang, c, query), p)
  }

  lemma NothingExact(s: seq<Entry>)
    requires forall e :: e in s ==> !e.exact
    ensures Decide(s).Ambiguous? ==> Decide(s) == Ambiguous(ProjectsOf(Offered(s)))
  {
    hide Offered, ProjectsOf;
    FilterNone(s, (e: Entry) => e.exact);
  }

  lemma {:induction false} FilterNone<T(!new)>(s: seq<T>, keep: T -> bool)
    requires forall x :: x in s ==> !keep(x)
    ensures Filter(s, keep) == []
  {
    if s != [] {
      FilterNone(s[1..], keep);
    }
  }

  lemma {:induction false} FilterDescends(s: seq<Entry>, keep: Entry -> bool)
    requires Descending(s)
    ensures Descending(Filter(s, keep))
  {
    if s != [] {
      FilterDescends(s[1..], keep);
      var rest := Filter(s[1..], keep);
      forall k | 0 <= k < |rest| ensures rest[k].score <= s[0].score {
        assert rest[k] in rest;
        assert rest[k] in s[1..];
      }
    }
  }

  lemma OfferedInOrder(s: seq<Entry>)
    requires Descending(s)
    ensures Descending(Offered(s))
    ensures forall e :: e in Offered(s) ==> e in s && e.score >= 0.55
    ensures forall e :: e in s && e !in Offered(s) ==>
              e.score < 0.55 || (|Offered(s)| == 5 && forall f :: f in Offered(s) ==> f.score >= e.score)
  {
    var near := Filter(s, (e: Entry) => e.score >= CANDIDATE_FLOOR);
    FilterDescends(s, (e: Entry) => e.score >= CANDIDATE_FLOOR);
    assert forall e :: e in near <==> e in s && e.score >= 0.55;
    hide Descending, Filter;
    FirstFew(near);
    assert Offered(s) == if |near| > 5 then near[..5] else near;
    hide Offered;
  }

  /** What a descending sequence has behind its first five is no higher than those. */
  lemma FirstFew(near: seq<Entry>)
    requires Descending(near)
    ensures |near| > 5 ==> Descending(near[..5]) && forall e :: e in near[..5] ==> e in near
    ensures |near| > 5 ==> forall e, f :: e in near && e !in near[..5] && f in near[..5] ==> f.score >= e.score
  {
    if |near| > 5 {
      assert near == near[..5] + near[5..];
      forall e, f | e in near && e !in near[..5] && f in near[..5] ensures f.score >= e.score {
        var k :| 0 <= k < |near[5..]| && near[5..][k] == e;
        var i :| 0 <= i < 5 && near[..5][i] == f;
        assert near[k + 5] == e && near[i] == f;
      }
    }
  }

  lemma ScoredEntries(lang: Language, projects: seq<Project>, query: string)
    ensures var entries := multiset(Entries(lang, Build(lang, projects), query, projects));
            && (forall e :: e in entries ==> e.project in projects && e.exact == IsExact(lang, query, e.project)
                                             && e.score == ScoreOf(lang, projects, query, e.project))
            && (forall p :: p in projects ==> exists e :: e in entries && e.project == p)
  {
    hide Build, Prepare, ScorePrepared, IsExact, Entries;
    EntriesMembers(lang, Build(lang, projects), query, projects);
    forall p | p in projects
      ensures exists e :: e in multiset(Entries(lang, Build(lang, projects), query, projects)) && e.project == p
    {
      assert EntryOf(lang, Build(lang, projects), query, p).project == p;
    }
  }

  lemma OfferedProjects(s: seq<Entry>, score: Project -> real)
    requires Descending(s) && forall e :: e in s ==> e.score == score(e.project)
    ensures var offered := ProjectsOf(Offered(s));
            && (forall i, j :: 0 <= i < j < |offered| ==> score(offered[i]) >= score(offered[j]))
            && (forall p :: p in offered ==> (exists e :: e in s && e.project == p) && score(p) >= 0.55)
            && (forall e :: e in s && e.project !in offered ==>
                  || score(e.project) < 0.55
                  || (|offered| == 5 && forall q :: q in offered ==> score(q) >= score(e.project)))
  {
    OfferedInOrder(s);
    ProjectsOfMembers(Offered(s));
    hide Offered;
    assert forall i :: 0 <= i < |Offered(s)| ==> Offered(s)[i] in Offered(s);
  }

  /**
   * Without an exact name, what is offered is in order of score and leaves nothing better out: a project
   * that is not offered scores below 0.55, or five others were offered that score no less.
   */
  lemma OfferedBest(lang: Language, listed: seq<Project>, query: string, computer: Option<string>)
    requires var projects := OnComputer(listed, computer);
             && lang.normalize(query) != "" && Resolve(lang, listed, query, computer).Ambiguous?
             && forall p :: p in projects ==> !IsExact(lang, query, p)
    ensures var projects := OnComputer(listed, computer);
            var offered := Resolve(lang, listed, query, computer).candidates;
            && (forall i, j :: 0 <= i < j < |offered| ==>
                  ScoreOf(lang, projects, query, offered[i]) >= ScoreOf(lang, projects, query, offered[j]))
            && (forall p :: p in offered ==> p in projects && ScoreOf(lang, projects, query, p) >= 0.55)
            && (forall p :: p in projects && p !in offered ==>
                  || ScoreOf(lang, projects, query, p) < 0.55
                  || (|offered| == 5 && forall q :: q in offered ==>
                        ScoreOf(lang, projects, query, q) >= ScoreOf(lang, projects, query, p)))
  {
    hide OnComputer, Build, ScoreOf, IsExact, Sorted, Entries, Decide, Offered, Descending;
    var projects := OnComputer(listed, computer);
    var entries := Entries(lang, Build(lang, projects), query, projects);
    SortedSorts(entries);
    ScoredEntries(lang, projects, query);
    var sorted := Sorted(entries);
    assert forall e :: e in sorted <==> e in multiset(sorted);
    NothingExact(sorted);
    OfferedProjects(sorted, p => ScoreOf(lang, projects, query, p));
  }

  /**
   * A project is matched if and only if it is the only one named exactly or, when none is, it scores at
   * least 0.78 and at least 0.16 more than every other one.
   */
  lemma MatchExactly(lang: Language, listed: seq<Project>, query: string, computer: Option<string>, p: Project)
    requires lang.normalize(query) != "" && Distinct(OnComputer(listed, computer))
    ensures var projects := OnComputer(listed, computer);
            Resolve(lang, listed, query, computer) == Match(p)
            <==> && p in projects
                 && if IsExact(lang, query, p) then forall q :: q in projects && q != p ==> !IsExact(lang, query, q)
                    else
                      && (forall q :: q in projects ==> !IsExact(lang, query, q))
                      && ScoreOf(lang, projects, query, p) >= 0.78
                      && forall q :: q in projects && q != p ==>
                           ScoreOf(lang, projects, query, p) - ScoreOf(lang, projects, query, q) >= 0.16
  {
    hide Distinct, Build, IsExact, OnComputer, Resolve, Says, Entries, Prepare, ScorePrepared;
    var projects := OnComputer(listed, computer);
    var c := Build(lang, projects);
    var entries := multiset(Entries(lang, c, query, projects));
    MatchIsSound(lang, listed, query, computer, p);
    OnComputerExactly(listed, computer, p);
    ResolveMeaning(lang, listed, query, computer);
    if p in projects {
      EntryOnce(lang, c, query, projects, p);
      EntriesMembers(lang, c, query, projects);
      SaidIfBest(entries, EntryOf(lang, c, query, p), Resolve(lang, listed, query, computer));
    }
  }

  lemma SaidIfBest(entries: multiset<Entry>, e: Entry, r: Resolution)
    requires Says(entries, r) && entries[e] == 1
    ensures (if e.exact then forall f :: f in entries && f != e ==> !f.exact
             else
               && (forall f :: f in entries ==> !f.exact) && e.score >= 0.78
               && forall f :: f in entries && f != e ==> e.score - f.score >= 0.16)
        ==> r == Match(e.project)
  {
    if OnlyExact(entries, e) || (NoExact(entries) && ClearWinner(entries, e)) {
      assert Says(entries, Match(e.project));
      SaysOneThing(entries, r, Match(e.project));
    }
  }

  /** Nothing is found if and only if no project is named exactly and all score below 0.55. */
  lemma NotFoundExactly(lang: Language, listed: seq<Project>, query: string, computer: Option<string>)
    requires lang.normalize(query) != ""
    ensures var projects := OnComputer(listed, computer);
            Resolve(lang, listed, query, computer) == NotFound
            <==> forall q :: q in projects ==> !IsExact(lang, query, q) && ScoreOf(lang, projects, query, q) < 0.55
  {
    hide Build, IsExact, OnComputer, Resolve, Entries, ScoreOf, OnlyExact, ClearWinner;
    var projects := OnComputer(listed, computer);
    var entries := multiset(Entries(lang, Build(lang, projects), query, projects));
    ResolveMeaning(lang, listed, query, computer);
    ScoredEntries(lang, projects, query);
    if forall q :: q in projects ==> !IsExact(lang, query, q) && ScoreOf(lang, projects, query, q) < 0.55 {
      NothingSaid(entries, Resolve(lang, listed, query, computer));
    }
  }

  lemma NothingSaid(entries: multiset<Entry>, r: Resolution)
    requires Says(entries, r) && forall e :: e in entries ==> !e.exact && e.score < 0.55
    ensures r == NotFound
  {
    AmbiguousIsNear(entries, r);
  }

  lemma OneWordPrepared(lang: Language, c: Corpus, query: string, word: string)
    requires QueryWords(lang, query) == [word]
    ensures Prepare(lang, c, query).tokens == [word] && Prepare(lang, c, query).normalized == lang.normalize(query)
    ensures TokenMatches(lang, word, c.vocabulary) ==> UnknownPenalty(lang, c, Prepare(lang, c, query)) == 1.0
  {
    PenaltyMeaning(lang, c, query);
    hide QueryWords, UnknownPenalty, TokenMatches;
    assert [word][1..] == [];
  }

  /** No label of the project resembles the word, and none is within the gap of a whole match. */
  ghost predicate FarFrom(lang: Language, query: string, word: string, q: Project) {
    forall lab :: lab in Labels(q) ==>
      && Similarity(lang, lang.normalize(query), lab.text) * lab.weight <= 0.84
      && forall token :: token in Tokens(lang, lab) ==> !Resembles(lang, word, token)
  }

  lemma FarScore(lang: Language, projects: seq<Project>, query: string, word: string, q: Project)
    requires IsLog(lang.log) && Distinct(projects) && q in projects
    requires QueryWords(lang, query) == [word] && FarFrom(lang, query, word, q)
    ensures ScoreOf(lang, projects, query, q) <= 0.84
  {
    hide IsLog, Distinct, Labels, Tokens, Resembles, Similarity, Build, Prepare, ScorePrepared, QueryWords;
    var c := Build(lang, projects);
    OneWordPrepared(lang, c, query, word);
    UncoveredScore(lang, projects, Prepare(lang, c, query), q, 0.84);
  }

  lemma NearScore(lang: Language, projects: seq<Project>, query: string, word: string, p: Project, lab: Label)
    requires IsLog(lang.log) && Distinct(projects) && p in projects && lab in Labels(p)
    requires QueryWords(lang, query) == [word]
    requires |Naming(lang, projects, word)| <= 3 && WeightOf(lang, Build(lang, projects), word) > 0.0
    requires exists token :: token in Tokens(lang, lab) && Resembles(lang, word, token)
    ensures ScoreOf(lang, projects, query, p) >= lab.weight
  {
    hide IsLog, Distinct, Labels, Tokens, Resembles, Build, Prepare, ScorePrepared, QueryWords, UnknownPenalty, Naming,
         TokenMatches;
    var c := Build(lang, projects);
    KnownExactly(lang, projects);
    assert Known(lang, projects, word);
    OneWordPrepared(lang, c, query, word);
    RareWordScore(lang, projects, Prepare(lang, c, query), p, lab, word);
  }

  /**
   * A query of one word that at most three projects name finds the project one of whose names it
   * resembles, when no project is named exactly and all others are far from it.
   */
  lemma RareWordMatches(lang: Language, listed: seq<Project>, query: string, computer: Option<string>,
                        word: string, p: Project, lab: Label)
    requires var projects := OnComputer(listed, computer);
             && IsLog(lang.log) && Distinct(projects) && p in projects && lab in Labels(p) && lab.weight == 1.0
             && lang.normalize(query) != "" && QueryWords(lang, query) == [word]
             && (exists token :: token in Tokens(lang, lab) && Resembles(lang, word, token))
             && |Naming(lang, projects, word)| <= 3 && WeightOf(lang, Build(lang, projects), word) > 0.0
             && forall q :: q in projects ==> !IsExact(lang, query, q) && (q != p ==> FarFrom(lang, query, word, q))
    ensures Resolve(lang, listed, query, computer) == Match(p)
  {
    hide IsLog, Distinct, Labels, Tokens, Resembles, Build, QueryWords, Naming, IsExact, FarFrom, OnComputer, ScoreOf,
         WeightOf, Resolve;
    var projects := OnComputer(listed, computer);
    NearScore(lang, projects, query, word, p, lab);
    forall q | q in projects && q != p ensures ScoreOf(lang, projects, query, q) <= 0.84 {
      FarScore(lang, projects, query, word, q);
    }
    MatchExactly(lang, listed, query, computer, p);
  }

  lemma EntryOnce(lang: Language, c: Corpus, query: string, projects: seq<Project>, p: Project)
    requires Distinct(projects) && p in projects
    ensures multiset(Entries(lang, c, query, projects))[EntryOf(lang, c, query, p)] == 1
    ensures EntryOf(lang, c, query, p).project == p
  {
    hide IsExact, ScorePrepared, Prepare, Entries;
    var k :| 0 <= k < |projects| && projects[k] == p;
    var rest := projects[..k] + projects[k + 1..];
    EntriesWithout(lang, c, query, projects, k);
    EntriesMembers(lang, c, query, rest);
    assert p !in rest;
  }
}
