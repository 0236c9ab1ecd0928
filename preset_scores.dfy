/**
 * The presets run through the scoring engine: the raw scores and composite
 * score their answers produce, the discount rate the form then composes,
 * and the projection of the one preset with fewer than seven flows.
 */
module PresetScores {
  import opened Wrappers
  import opened Scoring
  import opened StartupPresets
  import Projection

  /** The raw scores and the composite score a preset's answers produce under its own stage. */
  function PresetRaw(p: MesaStartupPreset): CategoryScores
  {
    RawScoresOf(BooleanAnswers(p.answers))
  }

  function PresetScore(p: MesaStartupPreset): real
  {
    ComputeMesaScore(PresetRaw(p), Internal(p.stage)).scoreMesa
  }

  /** The discount rate the entry form composes once the preset has been applied to it. */
  function FormDiscountRate(p: MesaStartupPreset): real
  {
    ComputeMesaResult(BooleanAnswers(p.answers), Some(MapMesaStageToUIStage(p.stage)), Some(p.riskFreeRate * 100.0)).value.tauxActualisation
  }

  /** Scoring the form's copy of the answers under the form's stage label gives the preset's own score. */
  lemma FormScoreIsPresetScore(p: MesaStartupPreset)
    ensures ComputeMesaResult(BooleanAnswers(p.answers), Some(MapMesaStageToUIStage(p.stage)), Some(p.riskFreeRate * 100.0)).value.scoreMesa
      == PresetScore(p)
    ensures FormDiscountRate(p) == p.riskFreeRate + RiskPremium(PresetScore(p))
  {
  }

  /** The points of the questions among `qs` that the sheet answers with 1. */
  function PointsOf(a: MesaCategoryAnswers, qs: seq<Question>): int
  {
    if qs == [] then 0 else (if Answer(a, qs[0].key) == 1 then qs[0].points else 0) + PointsOf(a, qs[1..])
  }

  /** Through the form's boolean copy, the satisfied questions are exactly those the sheet answers with 1. */
  lemma {:induction false} SheetPoints(a: MesaCategoryAnswers, qs: seq<Question>)
    requires forall i :: 0 <= i < |qs| ==> qs[i].key in AllKeys
    ensures SatisfiedPoints(BooleanAnswers(a), qs) == PointsOf(a, qs)
  {
    if qs != [] {
      SheetPoints(a, qs[1..]);
    }
  }

  /** One category's raw score for an answer sheet. */
  lemma SheetCategory(a: MesaCategoryAnswers, c: Category)
    ensures CategoryRawScore(BooleanAnswers(a), Questions(c)) == Cap(PointsOf(a, Questions(c)))
  {
    match c
    case Perf => SheetPoints(a, Questions(Perf));
    case Taille => SheetPoints(a, Questions(Taille));
    case Traction => SheetPoints(a, Questions(Traction));
    case Profil => SheetPoints(a, Questions(Profil));
    case Avantage => SheetPoints(a, Questions(Avantage));
  }

  /** The perf points: each question's points times its 0/1 answer. */
  lemma PerfPoints(a: MesaCategoryAnswers)
    ensures PointsOf(a, Questions(Perf)) == 2 * a.perfA + 2 * a.perfB + 2 * a.perfC + 2 * a.perfD + 2 * a.perfE
  {
    var qs := Questions(Perf);
    assert PointsOf(a, qs[5..]) == 0;
    assert PointsOf(a, qs[4..]) == 2 * a.perfE;
    assert PointsOf(a, qs[3..]) == 2 * a.perfD + 2 * a.perfE;
    assert PointsOf(a, qs[2..]) == 2 * a.perfC + 2 * a.perfD + 2 * a.perfE;
    assert PointsOf(a, qs[1..]) == 2 * a.perfB + 2 * a.perfC + 2 * a.perfD + 2 * a.perfE;
  }

  /** The taille points: each question's points times its 0/1 answer. */
  lemma TaillePoints(a: MesaCategoryAnswers)
    ensures PointsOf(a, Questions(Taille)) == 2 * a.tailleA + 2 * a.tailleB + a.tailleD + a.tailleE + a.tailleG + a.tailleH + 2 * a.tailleI
  {
    var qs := Questions(Taille);
    assert PointsOf(a, qs[7..]) == 0;
    assert PointsOf(a, qs[6..]) == 2 * a.tailleI;
    assert PointsOf(a, qs[5..]) == a.tailleH + 2 * a.tailleI;
    assert PointsOf(a, qs[4..]) == a.tailleG + a.tailleH + 2 * a.tailleI;
    assert PointsOf(a, qs[3..]) == a.tailleE + a.tailleG + a.tailleH + 2 * a.tailleI;
    assert PointsOf(a, qs[2..]) == a.tailleD + a.tailleE + a.tailleG + a.tailleH + 2 * a.tailleI;
    assert PointsOf(a, qs[1..]) == 2 * a.tailleB + a.tailleD + a.tailleE + a.tailleG + a.tailleH + 2 * a.tailleI;
  }

  /** The traction points: each question's points times its 0/1 answer. */
  lemma TractionPoints(a: MesaCategoryAnswers)
    ensures PointsOf(a, Questions(Traction)) == 2 * a.tractionA + 2 * a.tractionB + 2 * a.tractionC + 2 * a.tractionD + 2 * a.tractionE
  {
    var qs := Questions(Traction);
    assert PointsOf(a, qs[5..]) == 0;
    assert PointsOf(a, qs[4..]) == 2 * a.tractionE;
    assert PointsOf(a, qs[3..]) == 2 * a.tractionD + 2 * a.tractionE;
    assert PointsOf(a, qs[2..]) == 2 * a.tractionC + 2 * a.tractionD + 2 * a.tractionE;
    assert PointsOf(a, qs[1..]) == 2 * a.tractionB + 2 * a.tractionC + 2 * a.tractionD + 2 * a.tractionE;
  }

  /** The profil points: each question's points times its 0/1 answer. */
  lemma ProfilPoints(a: MesaCategoryAnswers)
    ensures PointsOf(a, Questions(Profil)) == 2 * a.profilA + 2 * a.profilB + 2 * a.profilC + a.profilE + a.profilF + 2 * a.profilG
  {
    var qs := Questions(Profil);
    assert PointsOf(a, qs[6..]) == 0;
    assert PointsOf(a, qs[5..]) == 2 * a.profilG;
    assert PointsOf(a, qs[4..]) == a.profilF + 2 * a.profilG;
    assert PointsOf(a, qs[3..]) == a.profilE + a.profilF + 2 * a.profilG;
    assert PointsOf(a, qs[2..]) == 2 * a.profilC + a.profilE + a.profilF + 2 * a.profilG;
    assert PointsOf(a, qs[1..]) == 2 * a.profilB + 2 * a.profilC + a.profilE + a.profilF + 2 * a.profilG;
  }

  /** The avantage points: each question's points times its 0/1 answer. */
  lemma AvantagePoints(a: MesaCategoryAnswers)
    ensures PointsOf(a, Questions(Avantage)) == 2 * a.avantageA + 2 * a.avantageB + 2 * a.avantageC + a.avantageE + a.avantageF + 2 * a.avantageG
  {
    var qs := Questions(Avantage);
    assert PointsOf(a, qs[6..]) == 0;
    assert PointsOf(a, qs[5..]) == 2 * a.avantageG;
    assert PointsOf(a, qs[4..]) == a.avantageF + 2 * a.avantageG;
    assert PointsOf(a, qs[3..]) == a.avantageE + a.avantageF + 2 * a.avantageG;
    assert PointsOf(a, qs[2..]) == 2 * a.avantageC + a.avantageE + a.avantageF + 2 * a.avantageG;
    assert PointsOf(a, qs[1..]) == 2 * a.avantageB + 2 * a.avantageC + a.avantageE + a.avantageF + 2 * a.avantageG;
  }

  /** The raw scores of an answer sheet, as capped sums of points times answers. */
  lemma SheetRawScores(a: MesaCategoryAnswers)
    ensures RawScoresOf(BooleanAnswers(a)) == CategoryScores(
      Cap(2 * a.perfA + 2 * a.perfB + 2 * a.perfC + 2 * a.perfD + 2 * a.perfE) as real,
      Cap(2 * a.tailleA + 2 * a.tailleB + a.tailleD + a.tailleE + a.tailleG + a.tailleH + 2 * a.tailleI) as real,
      Cap(2 * a.tractionA + 2 * a.tractionB + 2 * a.tractionC + 2 * a.tractionD + 2 * a.tractionE) as real,
      Cap(2 * a.profilA + 2 * a.profilB + 2 * a.profilC + a.profilE + a.profilF + 2 * a.profilG) as real,
      Cap(2 * a.avantageA + 2 * a.avantageB + 2 * a.avantageC + a.avantageE + a.avantageF + 2 * a.avantageG) as real)
  {
    SheetCategory(a, Perf);
    SheetCategory(a, Taille);
    SheetCategory(a, Traction);
    SheetCategory(a, Profil);
    SheetCategory(a, Avantage);
    PerfPoints(a);
    TaillePoints(a);
    TractionPoints(a);
    ProfilPoints(a);
    AvantagePoints(a);
  }

  /**
   * The raw scores each preset's answers produce: Instagram 4, 10, 6, 10, 6;
   * Snapchat 4, 10, 6, 6, 6; SaaS 8, 6, 6, 4, 6; TechMed 6, 9, 4, 8, 6.
   */
  lemma PresetRawScores(id: string)
    requires id in MesaPresets
    ensures PresetRaw(MesaPresets[id]) ==
      if id == "instagram_2012" then CategoryScores(4.0, 10.0, 6.0, 10.0, 6.0)
      else if id == "snapchat_2013" then CategoryScores(4.0, 10.0, 6.0, 6.0, 6.0)
      else if id == "saas_fr_serieA" then CategoryScores(8.0, 6.0, 6.0, 4.0, 6.0)
      else CategoryScores(6.0, 9.0, 4.0, 8.0, 6.0)
  {
    var a := MesaPresets[id].answers;
    if id == "instagram_2012" {
      InstagramSheet(a);
    } else if id == "snapchat_2013" {
      SnapchatSheet(a);
    } else if id == "saas_fr_serieA" {
      SaasSheet(a);
    } else {
      TechMedSheet(a);
    }
  }

  lemma InstagramSheet(a: MesaCategoryAnswers)
    requires a == Instagram2012.answers
    ensures RawScoresOf(BooleanAnswers(a)) == CategoryScores(4.0, 10.0, 6.0, 10.0, 6.0)
  {
    SheetRawScores(a);
  }

  lemma SnapchatSheet(a: MesaCategoryAnswers)
    requires a == Snapchat2013.answers
    ensures RawScoresOf(BooleanAnswers(a)) == CategoryScores(4.0, 10.0, 6.0, 6.0, 6.0)
  {
    SheetRawScores(a);
  }

  lemma SaasSheet(a: MesaCategoryAnswers)
    requires a == SaasFrSerieA.answers
    ensures RawScoresOf(BooleanAnswers(a)) == CategoryScores(8.0, 6.0, 6.0, 4.0, 6.0)
  {
    SheetRawScores(a);
  }

  lemma TechMedSheet(a: MesaCategoryAnswers)
    requires a == TechMed.answers
    ensures RawScoresOf(BooleanAnswers(a)) == CategoryScores(6.0, 9.0, 4.0, 8.0, 6.0)
  {
    SheetRawScores(a);
  }

  /**
   * Every preset but TechMed reproduces its published score under its own
   * stage's weights; TechMed's answers give 6.65 where 6.5 is published.
   */
  lemma PublishedScores(id: string)
    requires id in MesaPresets
    ensures id != "techmed" ==> PresetScore(MesaPresets[id]) == MesaPresets[id].mesaScoreGlobal
    ensures id == "techmed" ==> PresetScore(MesaPresets[id]) == 6.65 != MesaPresets[id].mesaScoreGlobal
  {
    var p := MesaPresets[id];
    PresetRawScores(id);
    assert p.stage == SerieAB;
    SerieABScore(PresetRaw(p));
  }

  /** Under the série A / B weights the composite score is 0.15, 0.15, 0.20, 0.30 and 0.20 of the raw scores. */
  lemma SerieABScore(raw: CategoryScores)
    ensures ComputeMesaScore(raw, Internal(SerieAB)).scoreMesa ==
      0.15 * raw.perf + 0.15 * raw.taille + 0.20 * raw.traction + 0.30 * raw.profil + 0.20 * raw.avantage
  {
  }

  /**
   * Once applied to the form, the SaaS and Snapchat presets give back their
   * recorded discount rate. Instagram's score of 7.5 gives a premium of 0.25,
   * so the form composes 0.28 where the preset records 0.2499 and 0.2799.
   * TechMed's score of 6.65 gives a premium of 0.335 and a rate of 0.355,
   * where the preset records 0.35 and 0.37.
   */
  lemma PublishedRates(id: string)
    requires id in MesaPresets
    ensures id == "saas_fr_serieA" || id == "snapchat_2013" ==>
      FormDiscountRate(MesaPresets[id]) == MesaPresets[id].discountRate
    ensures id == "instagram_2012" ==>
      && RiskPremium(PresetScore(MesaPresets[id])) == 0.25 != MesaPresets[id].riskPremium
      && FormDiscountRate(MesaPresets[id]) == 0.28 != MesaPresets[id].discountRate
    ensures id == "techmed" ==>
      && RiskPremium(PresetScore(MesaPresets[id])) == 0.335 != MesaPresets[id].riskPremium
      && FormDiscountRate(MesaPresets[id]) == 0.355 != MesaPresets[id].discountRate
  {
    var p := MesaPresets[id];
    PublishedScores(id);
    FormScoreIsPresetScore(p);
    if id == "instagram_2012" {
      assert p == Instagram2012;
    } else if id == "snapchat_2013" {
      assert p == Snapchat2013;
    } else if id == "saas_fr_serieA" {
      assert p == SaasFrSerieA;
    } else {
      assert p == TechMed;
    }
  }

  /**
   * The SaaS preset's four flows project to seven: the last flow of
   * 1,076,000 grows by 0.93 twice, and the result, now under 1,000,000, by
   * 1.44.
   */
  lemma SaasProjection()
    ensures Projection.IsProjection(SaasFrSerieA.cashflows, 7,
      SaasFrSerieA.cashflows + [1000680.0, 930632.4, 1340110.656])
  {
    var s := SaasFrSerieA.cashflows + [1000680.0, 930632.4, 1340110.656];
    assert s[..4] == SaasFrSerieA.cashflows;
    assert s[4] == s[3] * Projection.Multiplier(s[3]);
    assert s[5] == s[4] * Projection.Multiplier(s[4]);
    assert s[6] == s[5] * Projection.Multiplier(s[5]);
  }
}
