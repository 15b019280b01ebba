/**
 * Scoring a query against projects, over exact reals. What the language brings is a parameter:
 * the normalisation of a text, the stop words, and the logarithm.
 */
module Matching {
  import opened Options
  import EditDistance

  datatype Language = Language(normalize: string -> string, stop: string -> bool, log: real -> real)

  /** All that is assumed of the logarithm. */
  ghost predicate IsLog(log: real -> real) {
    && (forall x :: x >= 1.0 ==> log(x) >= 0.0)
    && (forall x, y :: 1.0 <= x <= y ==> log(x) <= log(y))
  }

  datatype Project = Project(
    id: string,
    name: string,
    displayName: string,
    aliases: seq<string>,
    path: string,
    remote: Option<string>,
    description: Option<string>,
    computer: string)

  datatype Label = Label(text: string, weight: real, tokenize: bool)

  const IDENTITY_WEIGHT := 1.0
  const REMOTE_WEIGHT := 0.95
  const PATH_WEIGHT := 0.9
  const DESCRIPTION_WEIGHT := 0.85
  const COMBINED_WEIGHT := DESCRIPTION_WEIGHT
  const MAX_QUERY_TOKENS := 24

  // ---------------------------------------------------------------- tokens

  function Filter<T(!new)>(s: seq<T>, keep: T -> bool): (r: seq<T>)
    ensures forall x :: x in r <==> x in s && keep(x)
    ensures |r| <= |s|
  {
    if s == [] then [] else (if keep(s[0]) then [s[0]] else []) + Filter(s[1..], keep)
  }

  function Split(text: string, word: string): seq<string> {
    if text == [] then [word]
    else if text[0] == ' ' then [word] + Split(text[1..], "")
    else Split(text[1..], word + [text[0]])
  }

  function ContentTokens(lang: Language, text: string): seq<string> {
    var normalized := lang.normalize(text);
    if normalized == "" then []
    else Filter(Split(normalized, ""), (token: string) => |token| > 1 && !lang.stop(token))
  }

  function Unique(tokens: seq<string>): (r: seq<string>)
    ensures forall t :: t in r <==> t in tokens
    ensures forall i, j :: 0 <= i < j < |r| ==> r[i] != r[j]
  {
    if tokens == [] then []
    else
      var before := Unique(tokens[..|tokens| - 1]);
      if tokens[|tokens| - 1] in before then before else before + [tokens[|tokens| - 1]]
  }

  function Similarity(lang: Language, left: string, right: string): real {
    EditDistance.Similarity(lang.normalize, left, right)
  }

  function LengthGap(a: nat, b: nat): nat {
    if a < b then b - a else a - b
  }

  predicate Resembles(lang: Language, token: string, candidate: string) {
    || token == candidate
    || (|token| >= 4 && |candidate| >= 4 && (token <= candidate || candidate <= token))
    || (LengthGap(|candidate|, |token|) <= 2 && Similarity(lang, token, candidate) >= 0.86)
  }

  predicate TokenMatches(lang: Language, token: string, tokens: set<string>) {
    exists candidate :: candidate in tokens && Resembles(lang, token, candidate)
  }

  // ---------------------------------------------------------------- the index

  function Labels(p: Project): seq<Label> {
    Filter(
      [Label(p.id, IDENTITY_WEIGHT, false), Label(p.name, IDENTITY_WEIGHT, true),
          Label(p.displayName, IDENTITY_WEIGHT, true)]
      + seq(|p.aliases|, i requires 0 <= i < |p.aliases| => Label(p.aliases[i], IDENTITY_WEIGHT, true))
      + [Label(p.path, PATH_WEIGHT, true)]
      + (if p.remote.Some? then [Label(p.remote.value, REMOTE_WEIGHT, true)] else [])
      + (if p.description.Some? then [Label(p.description.value, DESCRIPTION_WEIGHT, true)] else []),
      (lab: Label) => lab.text != "")
  }

  lemma LabelWeights(p: Project)
    ensures forall lab :: lab in Labels(p) ==> 0.0 <= lab.weight <= 1.0
  {
  }

  function Tokens(lang: Language, lab: Label): set<string> {
    if lab.tokenize then set t | t in ContentTokens(lang, lab.text) else {}
  }

  datatype LabelIndex = LabelIndex(lab: Label, tokens: set<string>)

  datatype Index = Index(labels: seq<LabelIndex>, combined: set<string>)

  function IndexOf(lang: Language, p: Project): Index {
    var labels := Labels(p);
    Index(seq(|labels|, i requires 0 <= i < |labels| => LabelIndex(labels[i], Tokens(lang, labels[i]))),
          Pooled(lang, labels))
  }

  /** The tokens of all labels together, for evidence split across labels. */
  function Pooled(lang: Language, labels: seq<Label>): set<string> {
    set lab, t | lab in labels && t in Tokens(lang, lab) :: t
  }

  /** What the constructor builds. */
  datatype Corpus = Corpus(frequency: map<string, nat>, vocabulary: set<string>, indexes: map<string, Index>,
      total: nat)

  function FrequencyIn(frequency: map<string, nat>, token: string): nat {
    if token in frequency then frequency[token] else 0
  }

  function Counted(frequency: map<string, nat>, tokens: set<string>): map<string, nat> {
    map t | t in frequency.Keys + tokens :: FrequencyIn(frequency, t) + if t in tokens then 1 else 0
  }

  function Bumped(frequency: map<string, nat>, token: string): map<string, nat> {
    frequency[token := FrequencyIn(frequency, token) + 1]
  }

  function WithProject(lang: Language, c: Corpus, p: Project): Corpus {
    var index := IndexOf(lang, p);
    Corpus(Counted(c.frequency, index.combined), c.vocabulary + index.combined, c.indexes[p.id := index], c.total + 1)
  }

  function Build(lang: Language, projects: seq<Project>): Corpus {
    if projects == [] then Corpus(map[], {}, map[], 0)
    else WithProject(lang, Build(lang, projects[..|projects| - 1]), projects[|projects| - 1])
  }

  // ---------------------------------------------------------------- scores

  datatype Prepared = Prepared(tokens: seq<string>, contentCount: nat, normalized: string)

  /** The informative words of a query, each once. */
  function QueryWords(lang: Language, query: string): seq<string> {
    var content := ContentTokens(lang, query);
    Unique(if |content| <= MAX_QUERY_TOKENS then content else content[..MAX_QUERY_TOKENS])
  }

  function Prepare(lang: Language, c: Corpus, query: string): Prepared {
    var unique := QueryWords(lang, query);
    var addressable := Filter(unique, (token: string) => TokenMatches(lang, token, c.vocabulary));
    Prepared(if addressable != [] then addressable else unique, |unique|, lang.normalize(query))
  }

  function WeightOf(lang: Language, c: Corpus, token: string): real {
    lang.log(1.0 + (c.total as real) / ((1 + FrequencyIn(c.frequency, token)) as real))
  }

  /** The total weight of the tokens that `keep` accepts. */
  function Mass(lang: Language, c: Corpus, tokens: seq<string>, keep: string -> bool): real {
    if tokens == [] then 0.0
    else
      var last := tokens[|tokens| - 1];
      Mass(lang, c, tokens[..|tokens| - 1], keep) + if keep(last) then WeightOf(lang, c, last) else 0.0
  }

  function RealMin(a: real, b: real): real {
    if b < a then b else a
  }

  function RealMax(a: real, b: real): real {
    if b > a then b else a
  }

  function Scaled(score: real, factor: real): real {
    score * factor
  }

  function Specificity(lang: Language, c: Corpus, matched: real): real {
    if c.total == 0 then 0.0
    else
      var floor := lang.log(1.0 + (c.total as real) / 4.0);
      if floor <= 0.0 then 1.0 else RealMin(1.0, matched / floor)
  }

  function Coverage(lang: Language, c: Corpus, prepared: Prepared, tokens: set<string>): real {
    if tokens == {} || prepared.tokens == [] then 0.0
    else
      var matched := Mass(lang, c, prepared.tokens, (t: string) => TokenMatches(lang, t, tokens));
      var possible := Mass(lang, c, prepared.tokens, (t: string) => true);
      if possible == 0.0 then 0.0 else Scaled(matched / possible, Specificity(lang, c, matched))
  }

  /** No penalty while at least half of the words are known, twice the known share below. */
  function PenaltyFor(known: nat, words: nat): real {
    if words == 0 then 1.0
    else
      var share := (known as real) / (words as real);
      if share >= 0.5 then 1.0 else RealMax(0.0, share * 2.0)
  }

  function UnknownPenalty(lang: Language, c: Corpus, prepared: Prepared): real {
    var known := |Filter(prepared.tokens, (token: string) => TokenMatches(lang, token, c.vocabulary))|;
    PenaltyFor(known, prepared.contentCount)
  }

  /** The best any of the first `n` labels gives. */
  function BestLabel(lang: Language, c: Corpus, prepared: Prepared, labels: seq<LabelIndex>, n: nat): real
    requires n <= |labels|
  {
    if n == 0 then 0.0
    else
      var entry := labels[n - 1];
      RealMax(RealMax(BestLabel(lang, c, prepared, labels, n - 1),
                      Scaled(Similarity(lang, prepared.normalized, entry.lab.text), entry.lab.weight)),
              Scaled(Scaled(Coverage(lang, c, prepared, entry.tokens), entry.lab.weight),
                  UnknownPenalty(lang, c, prepared)))
  }

  function ScorePrepared(lang: Language, c: Corpus, prepared: Prepared, p: Project): real {
    if p.id !in c.indexes then 0.0
    else
      var index := c.indexes[p.id];
      RealMax(BestLabel(lang, c, prepared, index.labels, |index.labels|),
              Scaled(Scaled(Coverage(lang, c, prepared, index.combined), COMBINED_WEIGHT),
                  UnknownPenalty(lang, c, prepared)))
  }

  // ---------------------------------------------------------------- scores are in the unit interval

  predicate Unit(x: real) {
    0.0 <= x <= 1.0
  }

  lemma UnitProduct(x: real, y: real)
    requires Unit(x) && Unit(y)
    ensures Unit(x * y) && Unit(Scaled(x, y))
  {
    assert 0.0 <= x * y;
    assert x * y <= x * 1.0;
  }

  lemma UnitRatio(x: real, y: real)
    requires 0.0 <= x <= y && 0.0 < y
    ensures Unit(x / y)
  {
    EditDistance.RealQuotient(x, y);
  }

  lemma WeightIsNonNegative(lang: Language, c: Corpus, token: string)
    requires IsLog(lang.log)
    ensures WeightOf(lang, c, token) >= 0.0
  {
    var d := (1 + FrequencyIn(c.frequency, token)) as real;
    var q := (c.total as real) / d;
    assert q >= 0.0;
  }

  lemma {:induction false} MassBounds(lang: Language, c: Corpus, tokens: seq<string>, keep: string -> bool)
    requires IsLog(lang.log)
    ensures 0.0 <= Mass(lang, c, tokens, keep) <= Mass(lang, c, tokens, (t: string) => true)
  {
    if tokens == [] {
    } else {
      MassBounds(lang, c, tokens[..|tokens| - 1], keep);
      WeightIsNonNegative(lang, c, tokens[|tokens| - 1]);
    }
  }

  lemma SpecificityIsUnit(lang: Language, c: Corpus, matched: real)
    requires matched >= 0.0
    ensures Unit(Specificity(lang, c, matched))
  {
    var floor := lang.log(1.0 + (c.total as real) / 4.0);
    if c.total != 0 && floor > 0.0 {
      assert matched / floor >= 0.0;
    }
  }

  lemma CoverageIsUnit(lang: Language, c: Corpus, prepared: Prepared, tokens: set<string>)
    requires IsLog(lang.log)
    ensures Unit(Coverage(lang, c, prepared, tokens))
  {
    hide IsLog, Mass, Specificity;
    var keep := (t: string) => TokenMatches(lang, t, tokens);
    MassBounds(lang, c, prepared.tokens, keep);
    var matched := Mass(lang, c, prepared.tokens, keep);
    var possible := Mass(lang, c, prepared.tokens, (t: string) => true);
    if possible != 0.0 {
      UnitRatio(matched, possible);
      SpecificityIsUnit(lang, c, matched);
      UnitProduct(matched / possible, Specificity(lang, c, matched));
    }
  }

  lemma PenaltyIsUnit(lang: Language, c: Corpus, prepared: Prepared)
    ensures Unit(UnknownPenalty(lang, c, prepared))
  {
  }

  /** The words of a query that some project could match. */
  function KnownWords(lang: Language, c: Corpus, query: string): seq<string> {
    Filter(QueryWords(lang, query), (token: string) => TokenMatches(lang, token, c.vocabulary))
  }

  /**
   * What the penalty says of a query: none exactly when at least half of its words are known, all
   * of the score exactly when it has words and none is, and in between twice the known share.
   */
  lemma PenaltyMeaning(lang: Language, c: Corpus, query: string)
    ensures var penalty := UnknownPenalty(lang, c, Prepare(lang, c, query));
            var words, known := |QueryWords(lang, query)|, |KnownWords(lang, c, query)|;
            && (penalty == 1.0 <==> 2 * known >= words)
            && (penalty == 0.0 <==> words > 0 && known == 0)
            && (2 * known < words ==> penalty * (words as real) == 2.0 * (known as real))
  {
    hide Prepare, UnknownPenalty, QueryWords, KnownWords, KnownTokens;
    PreparedCounts(lang, c, query);
    PenaltyOfCounts(lang, c, Prepare(lang, c, query));
  }

  function KnownTokens(lang: Language, c: Corpus, prepared: Prepared): seq<string> {
    Filter(prepared.tokens, (token: string) => TokenMatches(lang, token, c.vocabulary))
  }

  /** Preparing drops unknown words only when some are known, so the counts are those of the query. */
  lemma PreparedCounts(lang: Language, c: Corpus, query: string)
    ensures Prepare(lang, c, query).contentCount == |QueryWords(lang, query)|
    ensures |KnownTokens(lang, c, Prepare(lang, c, query))| == |KnownWords(lang, c, query)|
  {
    hide TokenMatches, QueryWords;
    FilterOfKept(KnownWords(lang, c, query), (token: string) => TokenMatches(lang, token, c.vocabulary));
    hide Filter;
  }

  lemma PenaltyOfCounts(lang: Language, c: Corpus, prepared: Prepared)
    ensures var penalty := UnknownPenalty(lang, c, prepared);
            var words, known := prepared.contentCount, |KnownTokens(lang, c, prepared)|;
            && (penalty == 1.0 <==> 2 * known >= words)
            && (penalty == 0.0 <==> words > 0 && known == 0)
            && (2 * known < words ==> penalty * (words as real) == 2.0 * (known as real))
  {
    var words, known := prepared.contentCount, |KnownTokens(lang, c, prepared)|;
    assert UnknownPenalty(lang, c, prepared) == PenaltyFor(known, words);
    hide UnknownPenalty, KnownTokens;
    PenaltyForCounts(known, words);
  }

  lemma PenaltyForCounts(known: nat, words: nat)
    ensures var penalty := PenaltyFor(known, words);
            && (penalty == 1.0 <==> 2 * known >= words)
            && (penalty == 0.0 <==> words > 0 && known == 0)
            && (2 * known < words ==> penalty * (words as real) == 2.0 * (known as real))
  {
    if words > 0 {
      HalfKnown(known, words);
    }
  }

  lemma {:induction false} FilterOfKept<T(!new)>(s: seq<T>, keep: T -> bool)
    requires forall x :: x in s ==> keep(x)
    ensures Filter(s, keep) == s
  {
    if s == [] {
    } else {
      FilterOfKept(s[1..], keep);
    }
  }

  lemma HalfKnown(known: nat, words: nat)
    requires words > 0
    ensures var share := (known as real) / (words as real);
            && (share >= 0.5 <==> 2 * known >= words)
            && (share * 2.0 == 0.0 <==> known == 0) && share >= 0.0
            && share * 2.0 * (words as real) == 2.0 * (known as real)
  {
    var share, k, w := (known as real) / (words as real), known as real, words as real;
    assert share * w == k;
    AboveShare(share, k, w);
    assert 2.0 * k >= w <==> 2 * known >= words;
    assert k == 0.0 <==> known == 0;
    assert share * 2.0 * w == 2.0 * (share * w);
  }

  lemma AboveShare(share: real, k: real, w: real)
    requires w > 0.0 && k >= 0.0 && share * w == k
    ensures share >= 0.5 <==> 2.0 * k >= w
    ensures share >= 0.0 && (share == 0.0 <==> k == 0.0)
  {
    var below, above, minus := 0.5 - share, share - 0.5, 0.0 - share;
    assert below * w == 0.5 * w - k && above * w == k - 0.5 * w && minus * w == 0.0 - k;
    if share >= 0.5 {
      EditDistance.NonPositiveTimes(below, w);
    } else {
      EditDistance.NonPositiveTimes(above, w);
    }
    if share <= 0.0 {
      EditDistance.NonPositiveTimes(share, w);
    } else {
      EditDistance.NonPositiveTimes(minus, w);
    }
  }

  lemma {:induction false} BestLabelIsUnit(lang: Language, c: Corpus, prepared: Prepared, labels: seq<LabelIndex>,
      n: nat)
    requires IsLog(lang.log) && n <= |labels|
    requires forall i :: 0 <= i < n ==> Unit(labels[i].lab.weight)
    ensures Unit(BestLabel(lang, c, prepared, labels, n))
  {
    hide IsLog, Coverage, UnknownPenalty, EditDistance.Similarity, Scaled;
    if n == 0 {
    } else {
      var entry := labels[n - 1];
      BestLabelIsUnit(lang, c, prepared, labels, n - 1);
      EditDistance.SimilarityIsAScore(lang.normalize, prepared.normalized, entry.lab.text);
      CoverageIsUnit(lang, c, prepared, entry.tokens);
      PenaltyIsUnit(lang, c, prepared);
      UnitProduct(Similarity(lang, prepared.normalized, entry.lab.text), entry.lab.weight);
      UnitProduct(Coverage(lang, c, prepared, entry.tokens), entry.lab.weight);
      UnitProduct(Scaled(Coverage(lang, c, prepared, entry.tokens), entry.lab.weight),
          UnknownPenalty(lang, c, prepared));
    }
  }

  lemma {:induction false} IndexesAreOfProjects(lang: Language, projects: seq<Project>)
    ensures forall id :: id in Build(lang, projects).indexes ==>
              exists p :: p in projects && p.id == id && Build(lang, projects).indexes[id] == IndexOf(lang, p)
  {
    if projects == [] {
    } else {
      IndexesAreOfProjects(lang, projects[..|projects| - 1]);
    }
  }

  lemma IndexedWeights(lang: Language, p: Project)
    ensures var labels := IndexOf(lang, p).labels; forall i :: 0 <= i < |labels| ==> Unit(labels[i].lab.weight)
  {
    LabelWeights(p);
    hide Labels;
  }

  /** Every score against every corpus is a number between 0 and 1. */
  lemma ScoreIsUnit(lang: Language, projects: seq<Project>, prepared: Prepared, p: Project)
    requires IsLog(lang.log)
    ensures Unit(ScorePrepared(lang, Build(lang, projects), prepared, p))
  {
    hide IsLog, Coverage, UnknownPenalty, BestLabel, Build, IndexOf, Scaled;
    var c := Build(lang, projects);
    if p.id in c.indexes {
      IndexesAreOfProjects(lang, projects);
      var q :| q in projects && q.id == p.id && c.indexes[p.id] == IndexOf(lang, q);
      IndexedWeights(lang, q);
      var index := c.indexes[p.id];
      BestLabelIsUnit(lang, c, prepared, index.labels, |index.labels|);
      CoverageIsUnit(lang, c, prepared, index.combined);
      PenaltyIsUnit(lang, c, prepared);
      UnitProduct(Coverage(lang, c, prepared, index.combined), COMBINED_WEIGHT);
      UnitProduct(Scaled(Coverage(lang, c, prepared, index.combined), COMBINED_WEIGHT),
          UnknownPenalty(lang, c, prepared));
    }
  }

  // ---------------------------------------------------------------- the order of the projects

  ghost predicate Distinct(projects: seq<Project>) {
    forall i, j :: 0 <= i < j < |projects| ==> projects[i].id != projects[j].id
  }

  function Naming(lang: Language, projects: seq<Project>, token: string): seq<Project> {
    Filter(projects, (p: Project) => token in IndexOf(lang, p).combined)
  }

  ghost predicate Counts(lang: Language, projects: seq<Project>, c: Corpus) {
    && c.total == |projects|
    && c.frequency.Keys == c.vocabulary
    && (forall t :: t in c.vocabulary <==> |Naming(lang, projects, t)| > 0)
    && (forall t :: FrequencyIn(c.frequency, t) == |Naming(lang, projects, t)|)
  }

  /** The corpus counts, for each token, the projects that name it. */
  lemma {:induction false} BuildCounts(lang: Language, projects: seq<Project>)
    ensures Counts(lang, projects, Build(lang, projects))
  {
    if projects == [] {
    } else {
      hide Counts, WithProject;
      var before := projects[..|projects| - 1];
      BuildCounts(lang, before);
      CountsStep(lang, projects, Build(lang, before));
    }
  }

  lemma CountsStep(lang: Language, projects: seq<Project>, c: Corpus)
    requires projects != [] && Counts(lang, projects[..|projects| - 1], c)
    ensures Counts(lang, projects, WithProject(lang, c, projects[|projects| - 1]))
  {
    hide IndexOf, Filter;
    var before, last := projects[..|projects| - 1], projects[|projects| - 1];
    forall t ensures |Naming(lang, projects, t)|
                     == |Naming(lang, before, t)| + if t in IndexOf(lang, last).combined then 1 else 0
    {
      assert projects == before + [last];
      FilterSnoc(before, last, (p: Project) => t in IndexOf(lang, p).combined);
    }
    hide Naming;
  }

  ghost predicate Indexed(lang: Language, projects: seq<Project>, indexes: map<string, Index>) {
    && (forall id :: id in indexes ==> exists p :: p in projects && p.id == id)
    && (forall p :: p in projects ==> p.id in indexes && indexes[p.id] == IndexOf(lang, p))
  }

  /** And it holds each project's own index. */
  lemma {:induction false} BuildIndexes(lang: Language, projects: seq<Project>)
    requires Distinct(projects)
    ensures Indexed(lang, projects, Build(lang, projects).indexes)
  {
    hide IndexOf, Build, Distinct, Indexed;
    if projects == [] {
      NoIndexes(lang);
    } else {
      LastIndex(lang, projects);
      BuildIndexes(lang, projects[..|projects| - 1]);
      OneMoreIndex(lang, projects, Build(lang, projects[..|projects| - 1]).indexes);
    }
  }

  lemma NoIndexes(lang: Language)
    ensures Indexed(lang, [], Build(lang, []).indexes)
  {
  }

  lemma OneMoreIndex(lang: Language, projects: seq<Project>, indexes: map<string, Index>)
    requires projects != []
    requires var before, last := projects[..|projects| - 1], projects[|projects| - 1];
             Indexed(lang, before, indexes) && forall p :: p in before ==> p.id != last.id
    ensures var last := projects[|projects| - 1];
            Indexed(lang, projects, indexes[last.id := IndexOf(lang, last)])
  {
    hide IndexOf;
    var before, last := projects[..|projects| - 1], projects[|projects| - 1];
    assert last in projects;
    assert forall p :: p in projects <==> p in before || p == last;
  }

  lemma LastIndex(lang: Language, projects: seq<Project>)
    requires projects != [] && Distinct(projects)
    ensures var before, last := projects[..|projects| - 1], projects[|projects| - 1];
            && Build(lang, projects).indexes == Build(lang, before).indexes[last.id := IndexOf(lang, last)]
            && Distinct(before)
            && forall p :: p in before ==> p.id != last.id
  {
    hide IndexOf;
  }

  lemma {:induction false} FilterSnoc<T(!new)>(s: seq<T>, last: T, keep: T -> bool)
    ensures Filter(s + [last], keep) == Filter(s, keep) + if keep(last) then [last] else []
  {
    if s == [] {
      assert [last][1..] == [];
    } else {
      var tail := if keep(last) then [last] else [];
      assert (s + [last])[0] == s[0] && (s + [last])[1..] == s[1..] + [last];
      FilterSnoc(s[1..], last, keep);
      var first := if keep(s[0]) then [s[0]] else [];
      assert first + (Filter(s[1..], keep) + tail) == (first + Filter(s[1..], keep)) + tail;
    }
  }

  /** Filtering keeps every occurrence of what it keeps. */
  lemma {:induction false} FilterCounts<T(!new)>(s: seq<T>, keep: T -> bool, x: T)
    ensures multiset(Filter(s, keep))[x] == if keep(x) then multiset(s)[x] else 0
  {
    if s == [] {
    } else {
      FilterCounts(s[1..], keep, x);
      assert s == [s[0]] + s[1..];
    }
  }

  lemma FilterPermuted<T(!new)>(a: seq<T>, b: seq<T>, keep: T -> bool)
    requires multiset(a) == multiset(b)
    ensures multiset(Filter(a, keep)) == multiset(Filter(b, keep)) && |Filter(a, keep)| == |Filter(b, keep)|
  {
    forall x ensures multiset(Filter(a, keep))[x] == multiset(Filter(b, keep))[x] {
      FilterCounts(a, keep, x);
      FilterCounts(b, keep, x);
    }
    assert |multiset(Filter(a, keep))| == |Filter(a, keep)|;
    assert |multiset(Filter(b, keep))| == |Filter(b, keep)|;
  }

  lemma CountsIgnoreOrder(lang: Language, a: seq<Project>, b: seq<Project>)
    requires multiset(a) == multiset(b)
    ensures var c, d := Build(lang, a), Build(lang, b);
            c.total == d.total && c.vocabulary == d.vocabulary && c.frequency == d.frequency
  {
    hide Build, IndexOf, Filter;
    BuildCounts(lang, a);
    BuildCounts(lang, b);
    var c, d := Build(lang, a), Build(lang, b);
    assert |multiset(a)| == |a| && |multiset(b)| == |b|;
    forall t ensures |Naming(lang, a, t)| == |Naming(lang, b, t)| {
      FilterPermuted(a, b, (p: Project) => t in IndexOf(lang, p).combined);
    }
    hide Naming;
    assert forall t :: t in c.vocabulary <==> t in d.vocabulary;
    assert forall t :: t in c.frequency ==>
      c.frequency[t] == FrequencyIn(c.frequency, t) == FrequencyIn(d.frequency, t);
  }

  lemma IndexesIgnoreOrder(lang: Language, a: seq<Project>, b: seq<Project>)
    requires multiset(a) == multiset(b) && Distinct(a) && Distinct(b)
    ensures Build(lang, a).indexes == Build(lang, b).indexes
  {
    hide Build, IndexOf, Distinct;
    BuildIndexes(lang, a);
    BuildIndexes(lang, b);
    SameMembers(a, b);
    var c, d := Build(lang, a).indexes, Build(lang, b).indexes;
    forall id | id in c ensures id in d && c[id] == d[id] {
      var p :| p in a && p.id == id;
    }
    forall id | id in d ensures id in c {
      var p :| p in b && p.id == id;
    }
  }

  /** The corpus does not depend on the order of the projects. */
  lemma BuildIgnoresOrder(lang: Language, a: seq<Project>, b: seq<Project>)
    requires multiset(a) == multiset(b) && Distinct(a) && Distinct(b)
    ensures Build(lang, a) == Build(lang, b)
  {
    hide Build;
    CountsIgnoreOrder(lang, a, b);
    IndexesIgnoreOrder(lang, a, b);
  }

  lemma SameMembers<T(!new)>(a: seq<T>, b: seq<T>)
    requires multiset(a) == multiset(b)
    ensures forall x :: x in a <==> x in b
  {
    assert forall x :: x in a <==> x in multiset(a);
    assert forall x :: x in b <==> x in multiset(b);
  }

  lemma {:induction false} DistinctPermuted(a: seq<Project>, b: seq<Project>)
    requires multiset(a) == multiset(b) && Distinct(a)
    ensures Distinct(b)
  {
    forall i, j | 0 <= i < j < |b| ensures b[i].id != b[j].id {
      SameMembers(a, b);
      assert b[i] in a && b[j] in a;
      if b[i] == b[j] {
        assert b == b[..i] + [b[i]] + b[i + 1..j] + [b[j]] + b[j + 1..];
        assert multiset(b)[b[i]] >= 2;
        OnceInDistinct(a, b[i]);
        assert false;
      }
    }
  }

  lemma {:induction false} OnceInDistinct(a: seq<Project>, p: Project)
    requires Distinct(a)
    ensures multiset(a)[p] <= 1
  {
    if a == [] {
    } else {
      OnceInDistinct(a[1..], p);
      assert a == [a[0]] + a[1..];
      forall k | 0 <= k < |a[1..]| ensures a[1..][k].id != a[0].id {
        assert a[1..][k] == a[k + 1];
      }
    }
  }

  // ---------------------------------------------------------------- resolution

  const MATCH_SCORE_FLOOR := 0.78
  const MATCH_AMBIGUITY_GAP := 0.16
  const CANDIDATE_FLOOR := 0.55
  const MAX_CANDIDATES := 5

  datatype Entry = Entry(project: Project, exact: bool, score: real)

  datatype Resolution =
    | NotFound
    | Match(project: Project)
    | Ambiguous(candidates: seq<Project>)

  predicate IsExact(lang: Language, query: string, p: Project) {
    var labels := [p.id, p.name, p.displayName, p.path] + p.aliases;
    exists i :: 0 <= i < |labels| && lang.normalize(labels[i]) == lang.normalize(query)
  }

  function EntryOf(lang: Language, c: Corpus, query: string, p: Project): Entry {
    Entry(p, IsExact(lang, query, p), ScorePrepared(lang, c, Prepare(lang, c, query), p))
  }

  function Entries(lang: Language, c: Corpus, query: string, projects: seq<Project>): seq<Entry> {
    seq(|projects|, i requires 0 <= i < |projects| => EntryOf(lang, c, query, projects[i]))
  }

  function Insert(e: Entry, s: seq<Entry>): seq<Entry> {
    if s == [] || s[0].score < e.score then [e] + s else [s[0]] + Insert(e, s[1..])
  }

  /** A stable sort, highest score first: each entry goes behind those before it with the same score. */
  function Sorted(s: seq<Entry>): seq<Entry> {
    if s == [] then [] else Insert(s[|s| - 1], Sorted(s[..|s| - 1]))
  }

  function ProjectsOf(s: seq<Entry>): seq<Project> {
    seq(|s|, i requires 0 <= i < |s| => s[i].project)
  }

  function Decide(scored: seq<Entry>): Resolution {
    var exact := Filter(scored, (e: Entry) => e.exact);
    if |exact| == 1 then Match(exact[0].project)
    else if |exact| > 1 then Ambiguous(ProjectsOf(exact))
    else if Leads(scored) then Match(scored[0].project)
    else
      var candidates := ProjectsOf(Offered(scored));
      if candidates != [] then Ambiguous(candidates) else NotFound
  }

  function OnComputer(projects: seq<Project>, computer: Option<string>): seq<Project> {
    Filter(projects, (p: Project) => computer.None? || p.computer == computer.value)
  }

  function Resolve(lang: Language, listed: seq<Project>, query: string, computer: Option<string>): Resolution {
    if lang.normalize(query) == "" then NotFound
    else
      var projects := OnComputer(listed, computer);
      var c := Build(lang, projects);
      Decide(Sorted(Entries(lang, c, query, projects)))
  }

  // ---------------------------------------------------------------- what a resolution means

  ghost predicate Descending(s: seq<Entry>) {
    forall i, j :: 0 <= i < j < |s| ==> s[i].score >= s[j].score
  }

  lemma {:induction false} InsertPermutes(e: Entry, s: seq<Entry>)
    ensures multiset(Insert(e, s)) == multiset(s) + multiset{e}
    ensures forall f :: f in Insert(e, s) <==> f == e || f in s
  {
    if s != [] && !(s[0].score < e.score) {
      InsertPermutes(e, s[1..]);
      assert s == [s[0]] + s[1..];
    }
  }

  lemma {:induction false} InsertSorts(e: Entry, s: seq<Entry>)
    requires Descending(s)
    ensures Descending(Insert(e, s))
  {
    if s != [] && !(s[0].score < e.score) {
      InsertSorts(e, s[1..]);
      InsertPermutes(e, s[1..]);
      var r := Insert(e, s[1..]);
      hide Insert;
      InsertTail(e, s);
      forall k | 0 <= k < |r| ensures r[k].score <= s[0].score {
        assert r[k] in r;
      }
    }
  }

  lemma InsertTail(e: Entry, s: seq<Entry>)
    requires s != [] && !(s[0].score < e.score)
    ensures Insert(e, s) == [s[0]] + Insert(e, s[1..])
  {
  }

  lemma {:induction false} SortedSorts(s: seq<Entry>)
    ensures Descending(Sorted(s)) && multiset(Sorted(s)) == multiset(s)
  {
    if s == [] {
    } else {
      SortedSorts(s[..|s| - 1]);
      InsertSorts(s[|s| - 1], Sorted(s[..|s| - 1]));
      InsertPermutes(s[|s| - 1], Sorted(s[..|s| - 1]));
      assert s == s[..|s| - 1] + [s[|s| - 1]];
    }
  }

  /** An entry that clears the floor and beats every other one by the gap. */
  ghost predicate ClearWinner(entries: multiset<Entry>, e: Entry) {
    && entries[e] == 1 && e.score >= MATCH_SCORE_FLOOR
    && forall f :: f in entries && f != e ==> e.score - f.score >= MATCH_AMBIGUITY_GAP
  }

  ghost predicate OnlyExact(entries: multiset<Entry>, e: Entry) {
    e.exact && entries[e] == 1 && forall f :: f in entries && f.exact ==> f == e
  }

  predicate Leads(s: seq<Entry>) {
    s != [] && s[0].score >= MATCH_SCORE_FLOOR && (|s| < 2 || s[0].score - s[1].score >= MATCH_AMBIGUITY_GAP)
  }

  lemma LeaderWins(s: seq<Entry>)
    requires Descending(s) && Leads(s)
    ensures ClearWinner(multiset(s), s[0])
  {
    var tail := s[1..];
    assert s == [s[0]] + tail;
    assert forall k :: 0 <= k < |tail| ==> tail[k].score <= s[0].score - MATCH_AMBIGUITY_GAP;
    assert s[0] !in tail;
    forall f | f in multiset(s) && f != s[0] ensures s[0].score - f.score >= MATCH_AMBIGUITY_GAP {
      assert f in tail;
    }
  }

  lemma WinnerLeads(s: seq<Entry>, e: Entry)
    requires Descending(s) && ClearWinner(multiset(s), e)
    ensures Leads(s) && e == s[0]
  {
    assert e in s && s[0] in multiset(s);
    if |s| >= 2 {
      assert s == [s[0], s[1]] + s[2..];
      assert s[1] in multiset(s);
    }
  }

  lemma WinnerIsFirst(s: seq<Entry>)
    requires Descending(s)
    ensures Leads(s) <==> exists e :: ClearWinner(multiset(s), e)
    ensures forall e :: ClearWinner(multiset(s), e) ==> e == s[0]
  {
    hide ClearWinner, Leads;
    if Leads(s) {
      LeaderWins(s);
    }
    forall e | ClearWinner(multiset(s), e) ensures Leads(s) && e == s[0] {
      WinnerLeads(s, e);
    }
  }

  lemma ExactOnesMeaning(s: seq<Entry>)
    ensures var exact := Filter(s, (e: Entry) => e.exact);
            && (|exact| == 1 <==> exists e :: OnlyExact(multiset(s), e))
            && (|exact| == 1 ==> forall e :: OnlyExact(multiset(s), e) ==> e == exact[0])
            && (exact == [] <==> forall e :: e in multiset(s) ==> !e.exact)
  {
    var keep := (e: Entry) => e.exact;
    var exact := Filter(s, keep);
    forall e: Entry ensures multiset(exact)[e] == if e.exact then multiset(s)[e] else 0 {
      FilterCounts(s, keep, e);
    }
    if |exact| == 1 {
      assert exact == [exact[0]];
      assert multiset(exact)[exact[0]] == 1;
      assert OnlyExact(multiset(s), exact[0]);
    }
    if e :| OnlyExact(multiset(s), e) {
      forall i | 0 <= i < |exact| ensures exact[i] == e {
        assert exact[i] in exact && exact[i] in multiset(s);
      }
      AllTheSame(exact, e);
    }
  }

  lemma {:induction false} AllTheSame(s: seq<Entry>, e: Entry)
    requires forall i :: 0 <= i < |s| ==> s[i] == e
    ensures multiset(s)[e] == |s|
  {
    if s == [] {
    } else {
      AllTheSame(s[1..], e);
      assert s == [s[0]] + s[1..];
    }
  }

  ghost predicate NoExact(entries: multiset<Entry>) {
    forall f :: f in entries ==> !f.exact
  }

  ghost predicate NoWinner(entries: multiset<Entry>) {
    forall e :: !ClearWinner(entries, e)
  }

  /**
   * What a decision says of the entries, whatever their order: a match is the only exact entry, or
   * without exact ones the clear winner; several exact entries are all offered; otherwise up to five
   * near ones are, and not found means there is none.
   */
  ghost predicate Says(entries: multiset<Entry>, r: Resolution) {
    match r
    case Match(project) =>
      exists e: Entry :: e.project == project
        && (OnlyExact(entries, e) || (NoExact(entries) && ClearWinner(entries, e)))
    case Ambiguous(candidates) =>
      && (forall e :: !OnlyExact(entries, e))
      && (!NoExact(entries) ==>
            forall p :: p in candidates <==> exists e :: e in entries && e.exact && e.project == p)
      && (NoExact(entries) ==>
            && NoWinner(entries) && 0 < |candidates| <= MAX_CANDIDATES
            && forall p :: p in candidates ==> exists e :: e in entries && e.score >= CANDIDATE_FLOOR && e.project == p)
    case NotFound =>
      && NoExact(entries) && NoWinner(entries)
      && forall e :: e in entries ==> e.score < CANDIDATE_FLOOR
  }

  lemma ProjectsOfMembers(s: seq<Entry>)
    ensures forall p :: p in ProjectsOf(s) <==> exists e :: e in s && e.project == p
  {
    forall p | p in ProjectsOf(s) ensures exists e :: e in s && e.project == p {
      var i :| 0 <= i < |s| && ProjectsOf(s)[i] == p;
      assert s[i] in s && s[i].project == p;
    }
    forall e | e in s ensures e.project in ProjectsOf(s) {
      var i :| 0 <= i < |s| && s[i] == e;
      assert ProjectsOf(s)[i] == e.project;
    }
  }

  lemma DecideExact(s: seq<Entry>)
    requires !NoExact(multiset(s))
    ensures Says(multiset(s), Decide(s))
  {
    hide OnlyExact, ClearWinner;
    ExactOnesMeaning(s);
    var exact := Filter(s, (e: Entry) => e.exact);
    ProjectsOfMembers(exact);
    assert forall e :: e in exact <==> e in multiset(s) && e.exact;
    if |exact| == 1 {
      var e :| OnlyExact(multiset(s), e);
      assert e == exact[0];
    }
  }

  /** What is offered when nothing matches: the first few near entries. */
  function Offered(scored: seq<Entry>): seq<Entry> {
    var near := Filter(scored, (e: Entry) => e.score >= CANDIDATE_FLOOR);
    if |near| <= MAX_CANDIDATES then near else near[..MAX_CANDIDATES]
  }

  lemma OfferedMeaning(s: seq<Entry>)
    ensures |Offered(s)| <= MAX_CANDIDATES
    ensures forall e :: e in Offered(s) ==> e in multiset(s) && e.score >= CANDIDATE_FLOOR
    ensures Offered(s) == [] <==> forall e :: e in multiset(s) ==> e.score < CANDIDATE_FLOOR
  {
    var near := Filter(s, (e: Entry) => e.score >= CANDIDATE_FLOOR);
    assert forall e :: e in near <==> e in multiset(s) && e.score >= CANDIDATE_FLOOR;
    assert forall e :: e in Offered(s) ==> e in near;
    if near != [] {
      assert near[0] in near;
    }
  }

  lemma DecideFuzzy(s: seq<Entry>)
    requires NoExact(multiset(s)) && Descending(s)
    ensures Says(multiset(s), Decide(s))
  {
    hide ClearWinner, Offered, Filter, Descending;
    ExactOnesMeaning(s);
    WinnerIsFirst(s);
    OfferedMeaning(s);
    ProjectsOfMembers(Offered(s));
    assert forall e :: !OnlyExact(multiset(s), e);
  }

  /** Soundness and completeness of `Resolve` in terms of the scored projects. */
  lemma ResolveMeaning(lang: Language, listed: seq<Project>, query: string, computer: Option<string>)
    requires lang.normalize(query) != ""
    ensures var projects := OnComputer(listed, computer);
            Says(multiset(Entries(lang, Build(lang, projects), query, projects)),
                Resolve(lang, listed, query, computer))
  {
    hide Decide, Says, Sorted, Build, Entries;
    var projects := OnComputer(listed, computer);
    var entries := Entries(lang, Build(lang, projects), query, projects);
    SortedSorts(entries);
    if NoExact(multiset(Sorted(entries))) {
      DecideFuzzy(Sorted(entries));
    } else {
      DecideExact(Sorted(entries));
    }
  }

  predicate SameAnswer(r: Resolution, q: Resolution) {
    || (r.NotFound? && q.NotFound?)
    || (r.Ambiguous? && q.Ambiguous?)
    || (r.Match? && r == q)
  }

  /** The entries alone decide the kind of the resolution and the matched project. */
  lemma SaysOneThing(entries: multiset<Entry>, r: Resolution, q: Resolution)
    requires Says(entries, r) && Says(entries, q)
    ensures SameAnswer(r, q)
  {
    if r.Match? && q.Match? {
      var e: Entry :| e.project == r.project
          && (OnlyExact(entries, e) || (NoExact(entries) && ClearWinner(entries, e)));
      var f: Entry :| f.project == q.project
          && (OnlyExact(entries, f) || (NoExact(entries) && ClearWinner(entries, f)));
      assert e in entries && f in entries;
    }
    AmbiguousIsNear(entries, r);
    AmbiguousIsNear(entries, q);
  }

  lemma AmbiguousIsNear(entries: multiset<Entry>, r: Resolution)
    requires Says(entries, r)
    ensures r.Ambiguous? && NoExact(entries) ==> exists e :: e in entries && e.score >= CANDIDATE_FLOOR
  {
    if r.Ambiguous? && NoExact(entries) {
      assert r.candidates[0] in r.candidates;
    }
  }

  lemma EntriesWithout(lang: Language, c: Corpus, query: string, s: seq<Project>, k: nat)
    requires k < |s|
    ensures var rest := s[..k] + s[k + 1..];
            && multiset(s) == multiset(rest) + multiset{s[k]}
            && multiset(Entries(lang, c, query, s))
               == multiset(Entries(lang, c, query, rest)) + multiset{EntryOf(lang, c, query, s[k])}
  {
    hide EntryOf;
    var all, rest := Entries(lang, c, query, s), s[..k] + s[k + 1..];
    assert s == s[..k] + [s[k]] + s[k + 1..];
    assert all == all[..k] + [all[k]] + all[k + 1..];
    assert Entries(lang, c, query, rest) == all[..k] + all[k + 1..];
  }

  lemma {:induction false} EntriesPermuted(lang: Language, c: Corpus, query: string, a: seq<Project>, b: seq<Project>)
    requires multiset(a) == multiset(b)
    ensures multiset(Entries(lang, c, query, a)) == multiset(Entries(lang, c, query, b))
    decreases |a|
  {
    assert |a| == |multiset(a)| == |multiset(b)| == |b|;
    if a == [] {
    } else {
      hide EntryOf, Entries;
      var k := WithoutFirst(a, b);
      EntriesWithout(lang, c, query, a, 0);
      EntriesWithout(lang, c, query, b, k);
      EntriesPermuted(lang, c, query, a[..0] + a[1..], b[..k] + b[k + 1..]);
    }
  }

  /** Where the first of `a` stands in a permutation of it; without it both are still permutations. */
  lemma WithoutFirst(a: seq<Project>, b: seq<Project>) returns (k: nat)
    requires multiset(a) == multiset(b) && a != []
    ensures k < |b| && b[k] == a[0]
    ensures multiset(a[..0] + a[1..]) == multiset(b[..k] + b[k + 1..])
  {
    SameMembers(a, b);
    assert a[0] in a;
    k :| 0 <= k < |b| && b[k] == a[0];
    assert a == [a[0]] + (a[..0] + a[1..]);
    assert b == b[..k] + [b[k]] + b[k + 1..];
    assert multiset(a[..0] + a[1..]) == multiset(a) - multiset{a[0]};
    assert multiset(b[..k] + b[k + 1..]) == multiset(b) - multiset{a[0]};
  }

  /** For every permutation of the project list: the same kind of answer, and the same matched project. */
  lemma ResolveIgnoresOrder(lang: Language, a: seq<Project>, b: seq<Project>, query: string, computer: Option<string>)
    requires multiset(a) == multiset(b) && Distinct(a)
    ensures SameAnswer(Resolve(lang, a, query, computer), Resolve(lang, b, query, computer))
  {
    if lang.normalize(query) != "" {
      hide Resolve, Says, Build, Entries, SameAnswer;
      var onA, onB := OnComputer(a, computer), OnComputer(b, computer);
      FilterPermuted(a, b, (p: Project) => computer.None? || p.computer == computer.value);
      DistinctFiltered(a, (p: Project) => computer.None? || p.computer == computer.value);
      DistinctPermuted(onA, onB);
      BuildIgnoresOrder(lang, onA, onB);
      EntriesPermuted(lang, Build(lang, onA), query, onA, onB);
      ResolveMeaning(lang, a, query, computer);
      ResolveMeaning(lang, b, query, computer);
      SaysOneThing(multiset(Entries(lang, Build(lang, onA), query, onA)),
                   Resolve(lang, a, query, computer), Resolve(lang, b, query, computer));
    }
  }

  lemma {:induction false} DistinctFiltered(projects: seq<Project>, keep: Project -> bool)
    requires Distinct(projects)
    ensures Distinct(Filter(projects, keep))
  {
    if projects == [] {
    } else {
      DistinctFiltered(projects[1..], keep);
      var rest := Filter(projects[1..], keep);
      forall k | 0 <= k < |rest| ensures rest[k].id != projects[0].id {
        assert rest[k] in rest;
      }
    }
  }

  lemma OnComputerExactly(listed: seq<Project>, computer: Option<string>, p: Project)
    ensures p in OnComputer(listed, computer) <==> p in listed && (computer == None || computer == Some(p.computer))
  {
  }

  /** A project is named exactly when its id, name, display name, path or an alias has the query's normal form. */
  lemma ExactExactly(lang: Language, query: string, p: Project)
    ensures IsExact(lang, query, p)
       <==> || lang.normalize(query) in {lang.normalize(p.id), lang.normalize(p.name), lang.normalize(p.displayName),
                                         lang.normalize(p.path)}
            || exists i :: 0 <= i < |p.aliases| && lang.normalize(p.aliases[i]) == lang.normalize(query)
  {
    var labels := [p.id, p.name, p.displayName, p.path] + p.aliases;
    assert labels[0] == p.id && labels[1] == p.name && labels[2] == p.displayName && labels[3] == p.path;
    assert forall i :: 0 <= i < |p.aliases| ==> labels[i + 4] == p.aliases[i];
  }

  /**
   * A match is a listed project on the computer asked for: the only exact one, or, when none is
   * exact, one that clears the floor and beats every other project by the gap.
   */
  lemma MatchIsSound(lang: Language, listed: seq<Project>, query: string, computer: Option<string>, p: Project)
    ensures var projects := OnComputer(listed, computer);
            var c := Build(lang, projects);
            var prepared := Prepare(lang, c, query);
            Resolve(lang, listed, query, computer) == Match(p) ==>
              && p in listed && (computer == None || computer == Some(p.computer))
              && (IsExact(lang, query, p) ==> forall q :: q in projects && IsExact(lang, query, q) ==> q == p)
              && (!IsExact(lang, query, p) ==>
                    && (forall q :: q in projects ==> !IsExact(lang, query, q))
                    && ScorePrepared(lang, c, prepared, p) >= 0.78
                    && forall q :: q in projects && q != p ==>
                         ScorePrepared(lang, c, prepared, p) - ScorePrepared(lang, c, prepared, q)
                         >= 0.16)
  {
    hide Build, Prepare, ScorePrepared, IsExact, OnComputer, Decide, Sorted, Says, Entries;
    if lang.normalize(query) != "" && Resolve(lang, listed, query, computer) == Match(p) {
      hide Resolve;
      var projects := OnComputer(listed, computer);
      var c := Build(lang, projects);
      var entries := multiset(Entries(lang, c, query, projects));
      ResolveMeaning(lang, listed, query, computer);
      EntriesMembers(lang, c, query, projects);
      var e := MatchedEntry(entries, p);
      OnComputerExactly(listed, computer, p);
      forall q | q in projects
        ensures IsExact(lang, query, q) ==> q == p && IsExact(lang, query, p)
        ensures q != p && !IsExact(lang, query, p) ==>
                  ScorePrepared(lang, c, Prepare(lang, c, query), p)
                  - ScorePrepared(lang, c, Prepare(lang, c, query), q) >= MATCH_AMBIGUITY_GAP
      {
        assert EntryOf(lang, c, query, q) in entries;
      }
    }
  }

  lemma MatchedEntry(entries: multiset<Entry>, p: Project) returns (e: Entry)
    requires Says(entries, Match(p))
    ensures e.project == p && e in entries
    ensures e.exact ==> forall f :: f in entries && f.exact ==> f == e
    ensures !e.exact ==>
              && (forall f :: f in entries ==> !f.exact) && e.score >= MATCH_SCORE_FLOOR
              && forall f :: f in entries && f != e ==> e.score - f.score >= MATCH_AMBIGUITY_GAP
  {
    e :| e.project == p && (OnlyExact(entries, e) || (NoExact(entries) && ClearWinner(entries, e)));
  }

  lemma EntriesMembers(lang: Language, c: Corpus, query: string, projects: seq<Project>)
    ensures var entries := multiset(Entries(lang, c, query, projects));
            && (forall q :: q in projects ==> EntryOf(lang, c, query, q) in entries)
            && (forall e :: e in entries ==> e.project in projects && e == EntryOf(lang, c, query, e.project))
  {
    hide IsExact, ScorePrepared, Prepare;
    var entries := Entries(lang, c, query, projects);
    forall q | q in projects ensures EntryOf(lang, c, query, q) in multiset(entries) {
      var i :| 0 <= i < |projects| && projects[i] == q;
      assert entries[i] == EntryOf(lang, c, query, q);
    }
    forall e | e in multiset(entries) ensures e.project in projects && e == EntryOf(lang, c, query, e.project) {
      assert e in entries;
      var i :| 0 <= i < |entries| && entries[i] == e;
      assert e.project == projects[i];
    }
  }

  // ---------------------------------------------------------------- the matcher

  class ProjectMatcher {
    const lang: Language
    var documentFrequency: map<string, nat>
    var vocabulary: set<string>
    var indexes: map<string, Index>
    var total: nat

    ghost function View(): Corpus
      reads this
    {
      Corpus(documentFrequency, vocabulary, indexes, total)
    }

    constructor (lang: Language, projects: seq<Project>)
      ensures this.lang == lang && View() == Build(lang, projects)
    {
      this.lang := lang;
      documentFrequency, vocabulary, indexes, total := map[], {}, map[], |projects|;
      new;
      hide IndexOf, Counted, Build;
      NoProjects(lang);
      var n := 0;
      while n < |projects|
        invariant n <= |projects| && total == |projects|
        invariant View().(total := n) == Build(lang, projects[..n])
      {
        AddProject(projects[n]);
        OneMoreProject(lang, projects, n);
        n := n + 1;
      }
      assert projects[..n] == projects;
    }

    /** One turn of the loop over the projects. */
    method AddProject(project: Project)
      modifies this`documentFrequency, this`vocabulary, this`indexes
      ensures var index := IndexOf(lang, project);
              && documentFrequency == Counted(old(documentFrequency), index.combined)
              && vocabulary == old(vocabulary) + index.combined
              && indexes == old(indexes)[project.id := index]
    {
      hide IndexOf, Counted;
      var index := BuildIndex(project);
      indexes := indexes[project.id := index];
      CountTokens(index.combined);
    }

    /** One project's labels with their tokens, and the union of these. */
    method BuildIndex(project: Project) returns (index: Index)
      ensures index == IndexOf(lang, project)
    {
      hide Labels, Tokens, Pooled;
      var all := Labels(project);
      var labels: seq<LabelIndex> := [];
      var combined: set<string> := {};
      NothingPooled(lang);
      var i := 0;
      while i < |all|
        invariant i <= |all|
        invariant labels == IndexOf(lang, project).labels[..i]
        invariant combined == Pooled(lang, all[..i])
      {
        PooledSnoc(lang, all[..i], all[i]);
        var tokens := Tokens(lang, all[i]);
        labels := labels + [LabelIndex(all[i], tokens)];
        combined := combined + tokens;
        assert all[..i + 1] == all[..i] + [all[i]];
        i := i + 1;
      }
      assert all[..i] == all;
      index := Index(labels, combined);
    }

    /** Adds one to the frequency of each token, and the token to the vocabulary. */
    method CountTokens(tokens: set<string>)
      modifies this`documentFrequency, this`vocabulary
      ensures documentFrequency == Counted(old(documentFrequency), tokens)
      ensures vocabulary == old(vocabulary) + tokens
    {
      var left := tokens;
      ghost var start := View();
      TallyBegins(start, tokens);
      hide Tallied, Bumped;
      while left != {}
        invariant Tallied(start, tokens, left, documentFrequency, vocabulary)
        decreases |left|
      {
        var token :| token in left;
        TallyStep(start, tokens, left, documentFrequency, vocabulary, token);
        documentFrequency := Bumped(documentFrequency, token);
        vocabulary := vocabulary + {token};
        left := left - {token};
      }
      TallyEnds(start, tokens, documentFrequency, vocabulary);
    }

    /** Accumulates the matched and the possible mass over the query's tokens. */
    method CoverageOf(prepared: Prepared, tokens: set<string>) returns (r: real)
      ensures r == Coverage(lang, View(), prepared, tokens)
    {
      if tokens == {} || prepared.tokens == [] {
        return 0.0;
      }
      hide TokenMatches, WeightOf, Scaled, Specificity;
      var matched, possible := 0.0, 0.0;
      var i := 0;
      var all := prepared.tokens;
      while i < |all|
        invariant i <= |all|
        invariant matched == Mass(lang, View(), all[..i], (t: string) => TokenMatches(lang, t, tokens))
        invariant possible == Mass(lang, View(), all[..i], (t: string) => true)
      {
        assert all[..i + 1][..i] == all[..i];
        var weight := TokenWeight(all[i]);
        possible := possible + weight;
        if TokenMatches(lang, all[i], tokens) {
          matched := matched + weight;
        }
        i := i + 1;
      }
      assert all[..i] == all;
      if possible == 0.0 {
        return 0.0;
      }
      var specificity := SpecificityOf(matched);
      return Scaled(matched / possible, specificity);
    }

    method TokenWeight(token: string) returns (r: real)
      ensures r == WeightOf(lang, View(), token)
    {
      var frequency := if token in documentFrequency then documentFrequency[token] else 0;
      r := lang.log(1.0 + (total as real) / ((1 + frequency) as real));
    }

    method SpecificityOf(matched: real) returns (r: real)
      ensures r == Specificity(lang, View(), matched)
    {
      if total == 0 {
        return 0.0;
      }
      var floor := lang.log(1.0 + (total as real) / 4.0);
      return if floor <= 0.0 then 1.0 else RealMin(1.0, matched / floor);
    }

    method PenaltyOf(prepared: Prepared) returns (r: real)
      ensures r == UnknownPenalty(lang, View(), prepared)
    {
      if prepared.contentCount == 0 {
        return 1.0;
      }
      var all := vocabulary;
      var known := |Filter(prepared.tokens, (token: string) => TokenMatches(lang, token, all))|;
      var share := (known as real) / (prepared.contentCount as real);
      return if share >= 0.5 then 1.0 else RealMax(0.0, share * 2.0);
    }

    /** The best score over the labels, and over all of them pooled. */
    method Score(prepared: Prepared, project: Project) returns (best: real)
      ensures best == ScorePrepared(lang, View(), prepared, project)
    {
      if project.id !in indexes {
        return 0.0;
      }
      hide Coverage, UnknownPenalty, Similarity, Scaled;
      ghost var c := View();
      var index := indexes[project.id];
      var penalty := PenaltyOf(prepared);
      best := 0.0;
      var i := 0;
      while i < |index.labels|
        invariant i <= |index.labels|
        invariant best == BestLabel(lang, c, prepared, index.labels, i)
      {
        var entry := index.labels[i];
        best := RealMax(best, Scaled(Similarity(lang, prepared.normalized, entry.lab.text), entry.lab.weight));
        var coverage := CoverageOf(prepared, entry.tokens);
        best := RealMax(best, Scaled(Scaled(coverage, entry.lab.weight), penalty));
        i := i + 1;
      }
      var pooled := CoverageOf(prepared, index.combined);
      best := RealMax(best, Scaled(Scaled(pooled, COMBINED_WEIGHT), penalty));
    }
  }

  lemma NoProjects(lang: Language)
    ensures Build(lang, []) == Corpus(map[], {}, map[], 0)
  {
  }

  lemma OneMoreProject(lang: Language, projects: seq<Project>, n: nat)
    requires n < |projects|
    ensures var c, index := Build(lang, projects[..n]), IndexOf(lang, projects[n]);
            Build(lang, projects[..n + 1])
            == Corpus(Counted(c.frequency, index.combined), c.vocabulary + index.combined,
                      c.indexes[projects[n].id := index], c.total + 1)
  {
    hide IndexOf, Counted;
    assert projects[..n + 1][..n] == projects[..n];
  }

  lemma NothingPooled(lang: Language)
    ensures Pooled(lang, []) == {}
  {
  }

  lemma PooledSnoc(lang: Language, labels: seq<Label>, last: Label)
    ensures Pooled(lang, labels + [last]) == Pooled(lang, labels) + Tokens(lang, last)
  {
    hide Tokens;
    assert forall lab :: lab in labels + [last] <==> lab in labels || lab == last;
  }

  /** All tokens but those `left` have been counted and added to the vocabulary. */
  ghost predicate Tallied(start: Corpus, tokens: set<string>, left: set<string>,
                          frequency: map<string, nat>, vocabulary: set<string>)
  {
    left <= tokens && frequency == Counted(start.frequency, tokens - left)
        && vocabulary == start.vocabulary + (tokens - left)
  }

  lemma TallyBegins(start: Corpus, tokens: set<string>)
    ensures Tallied(start, tokens, tokens, start.frequency, start.vocabulary)
  {
    assert tokens - tokens == {};
    NothingCounted(start.frequency);
  }

  lemma TallyStep(start: Corpus, tokens: set<string>, left: set<string>,
                  frequency: map<string, nat>, vocabulary: set<string>, token: string)
    requires Tallied(start, tokens, left, frequency, vocabulary) && token in left
    ensures Tallied(start, tokens, left - {token}, Bumped(frequency, token), vocabulary + {token})
  {
    hide Counted, Bumped;
    OneMoreCounted(start.frequency, tokens - left, token);
    assert tokens - (left - {token}) == tokens - left + {token};
  }

  lemma TallyEnds(start: Corpus, tokens: set<string>, frequency: map<string, nat>, vocabulary: set<string>)
    requires Tallied(start, tokens, {}, frequency, vocabulary)
    ensures frequency == Counted(start.frequency, tokens) && vocabulary == start.vocabulary + tokens
  {
    assert tokens - {} == tokens;
  }

  lemma NothingCounted(frequency: map<string, nat>)
    ensures Counted(frequency, {}) == frequency
  {
  }

  lemma OneMoreCounted(frequency: map<string, nat>, tokens: set<string>, token: string)
    requires token !in tokens
    ensures Bumped(Counted(frequency, tokens), token) == Counted(frequency, tokens + {token})
  {
  }
}
