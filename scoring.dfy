/**
 * The MESA scoring engine: a fixed questionnaire grouped in five categories,
 * a capped raw score per category, stage-dependent category weights, the
 * composite MESA score, the risk premium derived from it, and the discount
 * rate the entry form composes from the premium and a risk-free rate.
 */
module Scoring {
  import opened Wrappers

  /** The five questionnaire categories. */
  datatype Category = Perf | Taille | Traction | Profil | Avantage

  /** The keys of the 29 questions (`perf_a` is `PerfA`, and so on). */
  datatype QuestionKey =
    | PerfA | PerfB | PerfC | PerfD | PerfE
    | TailleA | TailleB | TailleD | TailleE | TailleG | TailleH | TailleI
    | TractionA | TractionB | TractionC | TractionD | TractionE
    | ProfilA | ProfilB | ProfilC | ProfilE | ProfilF | ProfilG
    | AvantageA | AvantageB | AvantageC | AvantageE | AvantageF | AvantageG

  /** A question as the scoring function sees it: its key and its points. */
  datatype Question = Question(key: QuestionKey, points: int)

  /** The answers of the form; a key that is absent counts as not satisfied. */
  type Answers = map<QuestionKey, bool>

  /** The static question table, category by category. */
  function Questions(c: Category): seq<Question>
  {
    match c
    case Perf =>
      [Question(PerfA, 2), Question(PerfB, 2), Question(PerfC, 2), Question(PerfD, 2), Question(PerfE, 2)]
    case Taille =>
      [Question(TailleA, 2), Question(TailleB, 2), Question(TailleD, 1), Question(TailleE, 1),
       Question(TailleG, 1), Question(TailleH, 1), Question(TailleI, 2)]
    case Traction =>
      [Question(TractionA, 2), Question(TractionB, 2), Question(TractionC, 2), Question(TractionD, 2),
       Question(TractionE, 2)]
    case Profil =>
      [Question(ProfilA, 2), Question(ProfilB, 2), Question(ProfilC, 2), Question(ProfilE, 1),
       Question(ProfilF, 1), Question(ProfilG, 2)]
    case Avantage =>
      [Question(AvantageA, 2), Question(AvantageB, 2), Question(AvantageC, 2), Question(AvantageE, 1),
       Question(AvantageF, 1), Question(AvantageG, 2)]
  }

  predicate Satisfied(answers: Answers, k: QuestionKey)
  {
    k in answers && answers[k]
  }

  predicate NonNegativePoints(qs: seq<Question>)
  {
    forall i :: 0 <= i < |qs| ==> qs[i].points >= 0
  }

  /** The sum of all configured points of a question list. */
  function TotalPoints(qs: seq<Question>): int
  {
    if qs == [] then 0 else qs[0].points + TotalPoints(qs[1..])
  }

  /** The uncapped sum of the points of the satisfied questions. */
  function SatisfiedPoints(answers: Answers, qs: seq<Question>): (r: int)
    ensures NonNegativePoints(qs) ==> 0 <= r <= TotalPoints(qs)
  {
    if qs == [] then 0
    else (if Satisfied(answers, qs[0].key) then qs[0].points else 0) + SatisfiedPoints(answers, qs[1..])
  }

  /** `Math.min(10, points)`: the cap on a category's points. */
  function Cap(points: int): int
  {
    if points < 10 then points else 10
  }

  /** The raw score of one category: the satisfied points, capped at 10. */
  function CategoryRawScore(answers: Answers, qs: seq<Question>): (r: int)
    ensures r <= 10
    ensures r <= SatisfiedPoints(answers, qs)
    ensures NonNegativePoints(qs) ==> 0 <= r
  {
    Cap(SatisfiedPoints(answers, qs))
  }

  /** Answering more questions "yes" never lowers a category score. */
  lemma {:induction false} SatisfiedPointsMonotone(a: Answers, b: Answers, qs: seq<Question>)
    requires NonNegativePoints(qs)
    requires forall k :: Satisfied(a, k) ==> Satisfied(b, k)
    ensures SatisfiedPoints(a, qs) <= SatisfiedPoints(b, qs)
    ensures CategoryRawScore(a, qs) <= CategoryRawScore(b, qs)
  {
    if qs != [] {
      assert NonNegativePoints(qs[1..]) by {
        forall i | 0 <= i < |qs[1..]| ensures qs[1..][i].points >= 0 { assert qs[1..][i] == qs[i + 1]; }
      }
      SatisfiedPointsMonotone(a, b, qs[1..]);
    }
  }

  /** When every question of the list is satisfied, all its points are collected. */
  lemma {:induction false} AllSatisfiedCollectsTotal(answers: Answers, qs: seq<Question>)
    requires forall i :: 0 <= i < |qs| ==> Satisfied(answers, qs[i].key)
    ensures SatisfiedPoints(answers, qs) == TotalPoints(qs)
  {
    if qs != [] {
      assert forall i :: 0 <= i < |qs[1..]| ==> qs[1..][i] == qs[i + 1];
      AllSatisfiedCollectsTotal(answers, qs[1..]);
    }
  }

  /** Every question of the shipped table carries one or two points. */
  lemma TablePointsPositive(c: Category)
    ensures forall i :: 0 <= i < |Questions(c)| ==> 1 <= Questions(c)[i].points <= 2
  {
  }

  /** Every category of the shipped table carries exactly 10 points, all positive. */
  lemma TableTotals(c: Category)
    ensures TotalPoints(Questions(c)) == 10
    ensures forall i :: 0 <= i < |Questions(c)| ==> Questions(c)[i].points > 0
  {
    TablePointsPositive(c);
    match c
    case Perf =>
      assert TotalPoints(Questions(Perf)) == 10;
    case Taille =>
      assert TotalPoints(Questions(Taille)) == 10;
    case Traction =>
      assert TotalPoints(Questions(Traction)) == 10;
    case Profil =>
      assert TotalPoints(Questions(Profil)) == 10;
    case Avantage =>
      assert TotalPoints(Questions(Avantage)) == 10;
  }

  /**
   * With the shipped table the cap never cuts: a category scores its
   * satisfied points, and answering all its questions "yes" gives 10.
   */
  lemma FullCategoryScoresTen(answers: Answers, c: Category)
    ensures 0 <= CategoryRawScore(answers, Questions(c)) == SatisfiedPoints(answers, Questions(c)) <= 10
    ensures (forall i :: 0 <= i < |Questions(c)| ==> Satisfied(answers, Questions(c)[i].key)) ==>
              CategoryRawScore(answers, Questions(c)) == 10
  {
    TableTotals(c);
    if forall i :: 0 <= i < |Questions(c)| ==> Satisfied(answers, Questions(c)[i].key) {
      AllSatisfiedCollectsTotal(answers, Questions(c));
    }
  }

  /** Per-category numbers: the raw scores, and the weighted scores of the same shape. */
  datatype CategoryScores = CategoryScores(perf: real, taille: real, traction: real, profil: real, avantage: real)
  {
    function Sum(): real { perf + taille + traction + profil + avantage }

    predicate InRange(lo: real, hi: real)
    {
      lo <= perf <= hi && lo <= taille <= hi && lo <= traction <= hi && lo <= profil <= hi && lo <= avantage <= hi
    }
  }

  /** The raw scores of all five categories, as the entry form computes them. */
  function RawScoresOf(answers: Answers): (r: CategoryScores)
    ensures r.InRange(0.0, 10.0)
  {
    FullCategoryScoresTen(answers, Perf);
    FullCategoryScoresTen(answers, Taille);
    FullCategoryScoresTen(answers, Traction);
    FullCategoryScoresTen(answers, Profil);
    FullCategoryScoresTen(answers, Avantage);
    CategoryScores(
      CategoryRawScore(answers, Questions(Perf)) as real,
      CategoryRawScore(answers, Questions(Taille)) as real,
      CategoryRawScore(answers, Questions(Traction)) as real,
      CategoryRawScore(answers, Questions(Profil)) as real,
      CategoryRawScore(answers, Questions(Avantage)) as real)
  }

  /** The stage labels of the user interface. */
  datatype UiStage = PreSeed | Seed | SerieA | SerieB | SerieCOuPlus

  /** The internal stage names used by the presets. */
  datatype MesaStage = PreSeedSeed | SerieAB | SerieCPlus

  /**
   * A stage label as given to the weight lookup, after lower-casing. Only
   * labels that `ValidLabel` admits stand for a text the lookup can see.
   */
  datatype StageLabel = Ui(ui: UiStage) | Internal(internal: MesaStage) | Other(text: string)

  /** `Other` holds only text that names no known stage. */
  predicate ValidLabel(s: StageLabel)
  {
    s.Other? ==> ParseStage(s.text) == s
  }

  /** The lower-cased text of a known label. */
  function LabelText(s: StageLabel): string
  {
    match s
    case Ui(PreSeed) => "pre-seed"
    case Ui(Seed) => "seed"
    case Ui(SerieA) => "série a"
    case Ui(SerieB) => "série b"
    case Ui(SerieCOuPlus) => "série c ou plus"
    case Internal(PreSeedSeed) => "pre_seed_seed"
    case Internal(SerieAB) => "serie_a_b"
    case Internal(SerieCPlus) => "serie_c_plus"
    case Other(t) => t
  }

  /** Reads a lower-cased label; text that names no known stage is `Other`. */
  function ParseStage(text: string): (s: StageLabel)
    ensures LabelText(s) == text
  {
    if text == "pre-seed" then Ui(PreSeed)
    else if text == "seed" then Ui(Seed)
    else if text == "série a" then Ui(SerieA)
    else if text == "série b" then Ui(SerieB)
    else if text == "série c ou plus" then Ui(SerieCOuPlus)
    else if text == "pre_seed_seed" then Internal(PreSeedSeed)
    else if text == "serie_a_b" then Internal(SerieAB)
    else if text == "serie_c_plus" then Internal(SerieCPlus)
    else Other(text)
  }

  /** Parsing the text of a known label gives that label back. */
  lemma ParseKnownLabel(s: StageLabel)
    requires !s.Other?
    ensures ParseStage(LabelText(s)) == s
  {
  }

  /** Reading a text always gives a valid label: `Other` only when the text names no known stage. */
  lemma ParsedLabelValid(text: string)
    ensures ValidLabel(ParseStage(text))
    ensures ParseStage(text).Other? <==>
      text !in {"pre-seed", "seed", "série a", "série b", "série c ou plus", "pre_seed_seed", "serie_a_b", "serie_c_plus"}
  {
  }

  /** Every valid label is the reading of its own text, and so no two valid labels share a text. */
  lemma ValidLabelIsParsed(s: StageLabel, t: StageLabel)
    requires ValidLabel(s) && ValidLabel(t)
    ensures ParseStage(LabelText(s)) == s
    ensures LabelText(s) == LabelText(t) ==> s == t
  {
    if !s.Other? { ParseKnownLabel(s); }
    if !t.Other? { ParseKnownLabel(t); }
  }

  /** Known stage text wrapped as `Other` is not a valid label. */
  lemma KnownTextIsNotOther(s: StageLabel)
    requires !s.Other?
    ensures !ValidLabel(Other(LabelText(s)))
  {
    ParseKnownLabel(s);
  }

  /** The weight of each category in the composite score. */
  type Coefficients = CategoryScores

  const PreSeedWeights := CategoryScores(0.10, 0.20, 0.15, 0.40, 0.15)
  const SerieABWeights := CategoryScores(0.15, 0.15, 0.20, 0.30, 0.20)
  const SerieCWeights := CategoryScores(0.30, 0.10, 0.25, 0.10, 0.25)

  /**
   * The stage weights, looked up on the closed set of labels. Only the
   * pre-seed / seed and série A / série B labels have weights of their own;
   * every other label, known or not, falls through to the série C weights.
   */
  function StageCoefficients(stage: StageLabel): (c: Coefficients)
    requires ValidLabel(stage)
    ensures c.InRange(0.0, 1.0) && c.Sum() == 1.0
  {
    match stage
    case Ui(PreSeed) | Ui(Seed) | Internal(PreSeedSeed) => PreSeedWeights
    case Ui(SerieA) | Ui(SerieB) | Internal(SerieAB) => SerieABWeights
    case _ => SerieCWeights
  }

  /** The same lookup written on the lower-cased text, as a chain of string comparisons. */
  function StageCoefficientsOfText(text: string): Coefficients
  {
    if text == "pre-seed" || text == "seed" || text == "pre_seed_seed" then PreSeedWeights
    else if text == "série a" || text == "série b" || text == "serie_a_b" then SerieABWeights
    else SerieCWeights
  }

  /** Looking up the parsed label agrees with comparing the text directly. */
  lemma StageCoefficientsAgree(text: string)
    ensures ValidLabel(ParseStage(text)) && StageCoefficients(ParseStage(text)) == StageCoefficientsOfText(text)
  {
    ParsedLabelValid(text);
  }

  /** Any label outside the two named buckets gets the série C weights. */
  lemma UnknownStageFallsBack(stage: StageLabel)
    requires ValidLabel(stage)
    requires stage !in {Ui(PreSeed), Ui(Seed), Internal(PreSeedSeed), Ui(SerieA), Ui(SerieB), Internal(SerieAB)}
    ensures StageCoefficients(stage) == SerieCWeights
  {
  }

  /** The composite score and the weighted per-category scores. */
  datatype MesaScore = MesaScore(scoreMesa: real, weighted: CategoryScores)

  /** The per-category products of raw score and weight. */
  function Weighted(raw: CategoryScores, c: Coefficients): CategoryScores
  {
    CategoryScores(raw.perf * c.perf, raw.taille * c.taille, raw.traction * c.traction,
                   raw.profil * c.profil, raw.avantage * c.avantage)
  }

  /** Raw scores in [0, 10] and weights summing to 1 give a weighted sum in [0, 10]. */
  lemma WeightedSumBounds(raw: CategoryScores, c: Coefficients)
    requires raw.InRange(0.0, 10.0) && c.InRange(0.0, 1.0) && c.Sum() == 1.0
    ensures 0.0 <= Weighted(raw, c).Sum() <= 10.0
  {
    var w := Weighted(raw, c);
    WeightedTermBounds(raw.perf, c.perf, w.perf);
    WeightedTermBounds(raw.taille, c.taille, w.taille);
    WeightedTermBounds(raw.traction, c.traction, w.traction);
    WeightedTermBounds(raw.profil, c.profil, w.profil);
    WeightedTermBounds(raw.avantage, c.avantage, w.avantage);
    ConvexBound(w, c);
  }

  lemma WeightedTermBounds(x: real, weight: real, product: real)
    requires 0.0 <= x <= 10.0 && 0.0 <= weight && product == x * weight
    ensures 0.0 <= product <= 10.0 * weight
  {
  }

  /** The linear step of the bound, kept apart so that the solver sees no products. */
  lemma ConvexBound(w: CategoryScores, c: Coefficients)
    requires 0.0 <= w.perf <= 10.0 * c.perf && 0.0 <= w.taille <= 10.0 * c.taille
    requires 0.0 <= w.traction <= 10.0 * c.traction && 0.0 <= w.profil <= 10.0 * c.profil
    requires 0.0 <= w.avantage <= 10.0 * c.avantage
    requires c.Sum() == 1.0
    ensures 0.0 <= w.Sum() <= 10.0
  {
  }

  function ComputeMesaScore(raw: CategoryScores, stage: StageLabel): (r: MesaScore)
    requires ValidLabel(stage)
    ensures r.weighted == Weighted(raw, StageCoefficients(stage))
    ensures r.scoreMesa == r.weighted.Sum()
    ensures raw.InRange(0.0, 10.0) ==> 0.0 <= r.scoreMesa <= 10.0
  {
    var w := Weighted(raw, StageCoefficients(stage));
    if raw.InRange(0.0, 10.0) then
      WeightedSumBounds(raw, StageCoefficients(stage));
      MesaScore(w.Sum(), w)
    else
      MesaScore(w.Sum(), w)
  }

  /** The risk premium falls linearly from 1 at score 0 to 0 at score 10. */
  function RiskPremium(scoreMesa: real): (p: real)
    ensures 0.0 <= scoreMesa <= 10.0 ==> 0.0 <= p <= 1.0
    ensures scoreMesa == 0.0 ==> p == 1.0
    ensures scoreMesa == 10.0 ==> p == 0.0
  {
    1.0 - scoreMesa / 10.0
  }

  lemma RiskPremiumStrictlyDecreasing(s1: real, s2: real)
    requires s1 < s2
    ensures RiskPremium(s1) > RiskPremium(s2)
  {
  }

  /** What the entry form hands on to the report page. */
  datatype MesaResult = MesaResult(
    raw: CategoryScores,
    weighted: CategoryScores,
    scoreMesa: real,
    primeRisque: real,
    tauxSansRisque: real,
    tauxActualisation: real)

  /**
   * The full valuation step of the entry form. There is no result while no
   * stage is chosen. The risk-free field counts as 0 when its text is not a
   * number (`None`). Otherwise the result holds the raw scores, the
   * composite score, the premium, and the discount rate
   * `riskFreePercent / 100 + premium`.
   */
  function ComputeMesaResult(answers: Answers, stage: Option<UiStage>, riskFreeField: Option<real>): (r: Option<MesaResult>)
    ensures r.None? <==> stage.None?
    ensures r.Some? ==>
      var m := r.value;
      var tsr := if riskFreeField.Some? then riskFreeField.value else 0.0;
      && m.raw == RawScoresOf(answers)
      && m.scoreMesa == ComputeMesaScore(m.raw, Ui(stage.value)).scoreMesa
      && m.weighted == ComputeMesaScore(m.raw, Ui(stage.value)).weighted
      && 0.0 <= m.scoreMesa <= 10.0 && 0.0 <= m.primeRisque <= 1.0
      && m.primeRisque == RiskPremium(m.scoreMesa)
      && m.tauxSansRisque == tsr
      && m.tauxActualisation == tsr / 100.0 + m.primeRisque
      && (tsr >= 0.0 ==> m.tauxActualisation >= 0.0)
  {
    if stage.None? then None
    else
      var tsr := if riskFreeField.Some? then riskFreeField.value else 0.0;
      var raw := RawScoresOf(answers);
      var m := ComputeMesaScore(raw, Ui(stage.value));
      var premium := RiskPremium(m.scoreMesa);
      Some(MesaResult(raw, m.weighted, m.scoreMesa, premium, tsr, tsr / 100.0 + premium))
  }
}
