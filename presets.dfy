/**
 * The reference startups: four MESA + DCF presets (questionnaire answers,
 * published score and rates, cash flows), the lookup by identifier, the
 * conversion of a preset into entry-form values, and the mapping of the
 * presets' internal stage names onto the form's stage labels.
 */
module StartupPresets {
  import opened Wrappers
  import opened Scoring

  /** The currency a preset's flows are stated in. */
  datatype CurrencyUnit = EUR | USD | KEUR | KUSD

  /** A questionnaire answer as the presets store it. */
  type Bool01 = x: int | 0 <= x <= 1

  /** A preset's answer sheet: one 0/1 answer per question, `perf_a` as `perfA` and so on. */
  datatype MesaCategoryAnswers = MesaCategoryAnswers(
    perfA: Bool01, perfB: Bool01, perfC: Bool01, perfD: Bool01, perfE: Bool01,
    tailleA: Bool01, tailleB: Bool01, tailleD: Bool01, tailleE: Bool01, tailleG: Bool01, tailleH: Bool01,
    tailleI: Bool01,
    tractionA: Bool01, tractionB: Bool01, tractionC: Bool01, tractionD: Bool01, tractionE: Bool01,
    profilA: Bool01, profilB: Bool01, profilC: Bool01, profilE: Bool01, profilF: Bool01, profilG: Bool01,
    avantageA: Bool01, avantageB: Bool01, avantageC: Bool01, avantageE: Bool01, avantageF: Bool01,
    avantageG: Bool01)

  /** The sheet's answer to question `k`. */
  function Answer(a: MesaCategoryAnswers, k: QuestionKey): Bool01
  {
    match k
    case PerfA => a.perfA
    case PerfB => a.perfB
    case PerfC => a.perfC
    case PerfD => a.perfD
    case PerfE => a.perfE
    case TailleA => a.tailleA
    case TailleB => a.tailleB
    case TailleD => a.tailleD
    case TailleE => a.tailleE
    case TailleG => a.tailleG
    case TailleH => a.tailleH
    case TailleI => a.tailleI
    case TractionA => a.tractionA
    case TractionB => a.tractionB
    case TractionC => a.tractionC
    case TractionD => a.tractionD
    case TractionE => a.tractionE
    case ProfilA => a.profilA
    case ProfilB => a.profilB
    case ProfilC => a.profilC
    case ProfilE => a.profilE
    case ProfilF => a.profilF
    case ProfilG => a.profilG
    case AvantageA => a.avantageA
    case AvantageB => a.avantageB
    case AvantageC => a.avantageC
    case AvantageE => a.avantageE
    case AvantageF => a.avantageF
    case AvantageG => a.avantageG
  }

  /**
   * A preset, without its display metadata (names, description, logo,
   * colour, tags, notes).
   */
  datatype MesaStartupPreset = MesaStartupPreset(
    id: string,
    stage: MesaStage,
    answers: MesaCategoryAnswers,
    mesaScoreGlobal: real,
    riskFreeRate: real,
    riskPremium: real,
    discountRate: real,
    cashflows: seq<real>,
    currencyUnit: CurrencyUnit,
    filledYears: nat,
    publishedNpv: Option<real>)

  /** Every question key. */
  const AllKeys: set<QuestionKey> := {
    PerfA, PerfB, PerfC, PerfD, PerfE,
    TailleA, TailleB, TailleD, TailleE, TailleG, TailleH, TailleI,
    TractionA, TractionB, TractionC, TractionD, TractionE,
    ProfilA, ProfilB, ProfilC, ProfilE, ProfilF, ProfilG,
    AvantageA, AvantageB, AvantageC, AvantageE, AvantageF, AvantageG }


  const Instagram2012 := MesaStartupPreset(
    "instagram_2012", SerieAB,
    MesaCategoryAnswers(
      perfA := 0, perfB := 0, perfC := 0, perfD := 1, perfE := 1,
      tailleA := 1, tailleB := 1, tailleD := 1, tailleE := 1, tailleG := 1, tailleH := 1, tailleI := 1,
      tractionA := 1, tractionB := 1, tractionC := 1, tractionD := 0, tractionE := 0,
      profilA := 1, profilB := 1, profilC := 1, profilE := 1, profilF := 1, profilG := 1,
      avantageA := 0, avantageB := 1, avantageC := 1, avantageE := 1, avantageF := 1, avantageG := 0),
    7.5, 0.03, 0.2499, 0.2799,
    [266000000.0, 798000000.0, 359100000.0, 161595000.0, 72717750.0, 32722987.5, 14725344.38],
    USD, 7, Some(957523842.19))

  const Snapchat2013 := MesaStartupPreset(
    "snapchat_2013", SerieAB,
    MesaCategoryAnswers(
      perfA := 0, perfB := 0, perfC := 0, perfD := 1, perfE := 1,
      tailleA := 1, tailleB := 1, tailleD := 1, tailleE := 1, tailleG := 1, tailleH := 1, tailleI := 1,
      tractionA := 1, tractionB := 1, tractionC := 1, tractionD := 0, tractionE := 0,
      profilA := 1, profilB := 0, profilC := 1, profilE := 1, profilF := 1, profilG := 0,
      avantageA := 0, avantageB := 1, avantageC := 1, avantageE := 1, avantageF := 1, avantageG := 0),
    6.3, 0.03, 0.37, 0.40,
    [632000000.0, 1896000000.0, 853200000.0, 383940000.0, 172773000.0, 77747850.0, 34986532.5],
    USD, 7, Some(1875420332.72))

  const SaasFrSerieA := MesaStartupPreset(
    "saas_fr_serieA", SerieAB,
    MesaCategoryAnswers(
      perfA := 1, perfB := 1, perfC := 0, perfD := 1, perfE := 1,
      tailleA := 1, tailleB := 0, tailleD := 1, tailleE := 1, tailleG := 0, tailleH := 0, tailleI := 1,
      tractionA := 1, tractionB := 1, tractionC := 0, tractionD := 0, tractionE := 1,
      profilA := 0, profilB := 0, profilC := 1, profilE := 1, profilF := 1, profilG := 0,
      avantageA := 0, avantageB := 1, avantageC := 1, avantageE := 1, avantageF := 1, avantageG := 0),
    5.7, 0.03, 0.43, 0.46,
    [-105000.0, -55000.0, 285000.0, 1076000.0],
    EUR, 4, Some(539065.03))

  const TechMed := MesaStartupPreset(
    "techmed", SerieAB,
    MesaCategoryAnswers(
      perfA := 1, perfB := 1, perfC := 0, perfD := 1, perfE := 0,
      tailleA := 1, tailleB := 1, tailleD := 1, tailleE := 1, tailleG := 1, tailleH := 0, tailleI := 1,
      tractionA := 1, tractionB := 1, tractionC := 0, tractionD := 0, tractionE := 0,
      profilA := 1, profilB := 1, profilC := 1, profilE := 1, profilF := 1, profilG := 0,
      avantageA := 0, avantageB := 1, avantageC := 1, avantageE := 1, avantageF := 1, avantageG := 0),
    6.5, 0.02, 0.35, 0.37,
    [100.0, 200.0, 400.0, 600.0, 1000.0, 1400.0, 2000.0],
    KUSD, 7, Some(1145.17))

  /** The preset table, keyed by identifier. */
  const MesaPresets: map<string, MesaStartupPreset> := map[
    "instagram_2012" := Instagram2012,
    "snapchat_2013" := Snapchat2013,
    "saas_fr_serieA" := SaasFrSerieA,
    "techmed" := TechMed]

  /** The consistency every preset keeps. */
  predicate WellFormed(key: string, p: MesaStartupPreset)
  {
    && p.id == key
    && p.discountRate == p.riskFreeRate + p.riskPremium
    && p.filledYears == |p.cashflows|
  }

  /**
   * Every preset is filed under its own identifier, its discount rate is
   * the risk-free rate plus the premium, and its filled years are its number
   * of flows.
   */
  lemma PresetsWellFormed()
    ensures forall key :: key in MesaPresets ==> WellFormed(key, MesaPresets[key])
  {
    assert WellFormed("instagram_2012", Instagram2012);
    assert WellFormed("snapchat_2013", Snapchat2013);
    assert WellFormed("saas_fr_serieA", SaasFrSerieA);
    assert WellFormed("techmed", TechMed);
  }

  /** The preset filed under `id`, if there is one. */
  function GetStartupById(id: string): (r: Option<MesaStartupPreset>)
    ensures r.Some? <==> id in MesaPresets
    ensures r.Some? ==> r.value == MesaPresets[id] && r.value.id == id && WellFormed(id, r.value)
  {
    PresetsWellFormed();
    if id in MesaPresets then Some(MesaPresets[id]) else None
  }

  /** The form's stage label for a preset's internal stage name. */
  function MapMesaStageToUIStage(stage: MesaStage): (ui: UiStage)
    ensures StageCoefficients(Ui(ui)) == StageCoefficients(Internal(stage))
  {
    match stage
    case PreSeedSeed => Seed
    case SerieAB => SerieA
    case SerieCPlus => SerieCOuPlus
  }

  /** Distinct internal stages land on distinct form labels. */
  lemma MapMesaStageInjective(s: MesaStage, t: MesaStage)
    requires MapMesaStageToUIStage(s) == MapMesaStageToUIStage(t)
    ensures s == t
  {
  }

  /** The answers as the form holds them: every question, yes exactly when the sheet says 1. */
  function BooleanAnswers(answers: MesaCategoryAnswers): Answers
  {
    map k | k in AllKeys :: Answer(answers, k) == 1
  }

  /** A boolean map over every question that says yes where the sheet says 1 is the one `BooleanAnswers` builds. */
  lemma BooleanAnswersUnique(answers: MesaCategoryAnswers, m: Answers)
    requires m.Keys == AllKeys
    requires forall k :: k in m ==> (m[k] <==> Answer(answers, k) == 1)
    ensures m == BooleanAnswers(answers)
  {
  }

  /** The seven cash-flow fields of the form: the preset's flows in order, the rest left empty. */
  function CashflowSlots(cashflows: seq<real>): seq<Option<real>>
  {
    seq(7, i requires 0 <= i < 7 => if i < |cashflows| then Some(cashflows[i]) else None)
  }

  /** The flows the form reads back from its fields: every filled field, in order. */
  function FilledFlows(slots: seq<Option<real>>): seq<real>
  {
    if slots == [] then []
    else (if slots[0].Some? then [slots[0].value] else []) + FilledFlows(slots[1..])
  }

  /** Reading the fields back gives the preset's flows, cut after the seventh. */
  lemma SlotsRoundTrip(cashflows: seq<real>)
    ensures |CashflowSlots(cashflows)| == 7
    ensures FilledFlows(CashflowSlots(cashflows)) == if |cashflows| <= 7 then cashflows else cashflows[..7]
  {
    var n := if |cashflows| <= 7 then |cashflows| else 7;
    SlotsSuffix(cashflows, 0, n);
  }

  /** From field i on, the fields hold flows i to n - 1 followed by empty fields. */
  lemma {:induction false} SlotsSuffix(cashflows: seq<real>, i: nat, n: nat)
    requires i <= 7 && n == (if |cashflows| <= 7 then |cashflows| else 7)
    ensures FilledFlows(CashflowSlots(cashflows)[i..]) == if i <= n then cashflows[i..n] else []
    decreases 7 - i
  {
    var slots := CashflowSlots(cashflows);
    if i == 7 {
      assert slots[i..] == [];
    } else {
      SlotsSuffix(cashflows, i + 1, n);
      assert slots[i..][1..] == slots[i + 1..];
      if i < n {
        assert cashflows[i..n] == [cashflows[i]] + cashflows[i + 1..n];
      }
    }
  }

  /** The values the preset hands to the entry form. */
  datatype FormValues = FormValues(
    stage: UiStage,
    tauxSansRisque: real,
    mesaAnswers: Answers,
    cashflows: seq<Option<real>>,
    currencyUnit: CurrencyUnit)

  /**
   * The form values of the preset filed under `presetId`, or none for an
   * unknown identifier. The risk-free rate is handed over in percent.
   */
  method ApplyMesaPreset(presetId: string) returns (values: Option<FormValues>)
    ensures values.None? <==> presetId !in MesaPresets
    ensures values.Some? ==>
      var p := MesaPresets[presetId];
      && values.value.stage == MapMesaStageToUIStage(p.stage)
      && values.value.tauxSansRisque == p.riskFreeRate * 100.0
      && values.value.mesaAnswers.Keys == AllKeys
      && (forall k :: k in AllKeys ==> (values.value.mesaAnswers[k] <==> Answer(p.answers, k) == 1))
      && values.value.cashflows == CashflowSlots(p.cashflows)
      && values.value.currencyUnit == p.currencyUnit
  {
    var found := GetStartupById(presetId);
    if found.None? {
      return None;
    }
    var preset := found.value;

    var mesaAnswersBoolean: Answers := map[];
    var remaining := AllKeys;
    while remaining != {}
      invariant remaining <= AllKeys
      invariant mesaAnswersBoolean.Keys == AllKeys - remaining
      invariant forall k :: k in mesaAnswersBoolean ==> (mesaAnswersBoolean[k] <==> Answer(preset.answers, k) == 1)
      decreases |remaining|
    {
      var key :| key in remaining;
      mesaAnswersBoolean := mesaAnswersBoolean[key := Answer(preset.answers, key) == 1];
      remaining := remaining - {key};
    }

    var cashflowsArray := CashflowSlots(preset.cashflows);
    var tauxSansRisque := preset.riskFreeRate * 100.0;
    var stageForForm := MapMesaStageToUIStage(preset.stage);
    values := Some(FormValues(stageForForm, tauxSansRisque, mesaAnswersBoolean, cashflowsArray, preset.currencyUnit));
  }
}
