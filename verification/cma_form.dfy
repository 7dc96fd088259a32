/**
 * The ambulatory major surgery (CMA) evaluation form: its default record,
 * the update rule behind every control, the aggregates those rules keep in
 * step with their flags, and the nurse-name gate on submit.
 *
 * Each control's change handler is a pure update of the form content
 * (`Apply`); the form component holds the current content and replaces it
 * on every event (`CmaFormController`).
 */
module CmaForm {
  import opened Wrappers
  import opened Strings
  import opened Evaluations

  // ----- Aggregates

  /** Respiration "no alteration" is the NOR of the five symptoms. */
  predicate RespirationConsistent(r: CmaRespiration)
  {
    r.noAlteration == !r.AnySymptom()
  }

  /** A urinary pattern with nothing to report: continent, no incontinence, no catheter. */
  predicate UrinaryOk(u: UrinaryPattern)
  {
    u.continent && !u.incontinent && !u.urinaryCatheter
  }

  /** An intestinal pattern with nothing to report: continent, no incontinence, no ostomies. */
  predicate IntestinalOk(i: IntestinalPattern)
  {
    i.continent && !i.incontinent && !i.ostomies
  }

  /** Elimination "no alteration" holds exactly when both patterns are fine. */
  predicate EliminationConsistent(e: CmaElimination)
  {
    e.noAlteration == (UrinaryOk(e.urinaryPattern) && IntestinalOk(e.intestinalPattern))
  }

  /** Everything in the communication section other than the language barrier that counts as fine. */
  predicate CommunicationFineApartFromBarrier(c: CmaCommunication)
  {
    !c.emotionalState.AnyDistress() && c.consciousnessLevel != Stuporous
    && c.consciousnessLevel != Coma && c.oriented
  }

  /**
   * Communication "no alteration": no distressing emotion, neither stuporous
   * nor in a coma, oriented and no language barrier.
   */
  predicate CommunicationConsistent(c: CmaCommunication)
  {
    c.noAlteration == (CommunicationFineApartFromBarrier(c) && !c.languageBarrier)
  }

  /** The aggregates every handler keeps: respiration, elimination, and mobility exclusivity. */
  predicate Consistent(c: CmaContent)
  {
    RespirationConsistent(c.respiration) && EliminationConsistent(c.elimination)
    && c.mobilization.Exclusive()
  }

  // ----- The default record

  /** The record a new CMA form starts from. */
  function EmptyEvaluation(): (c: CmaContent)
    ensures Consistent(c) && CommunicationConsistent(c.communication)
    ensures c.respiration.noAlteration && !c.respiration.AnySymptom()
    ensures c.elimination.noAlteration
    ensures UrinaryOk(c.elimination.urinaryPattern) && IntestinalOk(c.elimination.intestinalPattern)
    ensures forall m :: c.mobilization.Get(m) == (m == Autonomous)
    ensures c.communication.noAlteration
    ensures Trim(c.nurse) != []
    ensures forall f :: f != Nurse ==> Text(c, f) == ""
  {
    CmaContent(
      "Evaluación de Enfermería Cirugía Mayor Ambulatoria",
      "María García López",
      "Juan Pérez",
      "",
      CmaRespiration(true, false, false, false, false, false, ""),
      CmaFeeding(false, "", ""),
      CmaElimination(true, UrinaryPattern(true, false, false, ""),
                     IntestinalPattern(true, false, false, ""), ""),
      Mobilization(true, false, false, false, false, ""),
      CmaRestAndSleep(true, false, false, ""),
      CmaSafety("", NoRisk, false, false, false, false, ""),
      CmaCommunication(true, Emotions(true, false, false, false, false, false),
                       Alert, true, false, "", ""),
      Comfort(false, "", false, false, false, "", ""),
      CmaLearning(false, "", 3, ""),
      PresurgicalChecklist(Yes, Yes, Yes, AnswerYes, Yes, AnswerYes, AnswerYes, AnswerYes,
                           NotApplicable, NotApplicable, "", AnswerYes, NotApplicable, ""))
  }

  // ----- Free-text fields

  /** Every free-text input of the form. */
  datatype CmaText =
    | Nurse | HabitualMedication | RespirationObservations | LastIntakeTime
    | FeedingObservations | UrinaryOther | IntestinalOther | EliminationObservations
    | MobilizationObservations | RestObservations | FallRiskScore | SafetyObservations
    | Language | CommunicationObservations | PainLocation | PainIntensity | PainScale
    | ObstaclesDescription | LearningObservations | IntestinalPreparationDetails
    | PremedicationDetails

  function Text(c: CmaContent, f: CmaText): string
  {
    match f
    case Nurse => c.nurse
    case HabitualMedication => c.habitualMedication
    case RespirationObservations => c.respiration.observations
    case LastIntakeTime => c.feeding.lastIntakeTime
    case FeedingObservations => c.feeding.observations
    case UrinaryOther => c.elimination.urinaryPattern.other
    case IntestinalOther => c.elimination.intestinalPattern.other
    case EliminationObservations => c.elimination.observations
    case MobilizationObservations => c.mobilization.observations
    case RestObservations => c.restAndSleep.observations
    case FallRiskScore => c.safety.fallRiskScore
    case SafetyObservations => c.safety.observations
    case Language => c.communication.language
    case CommunicationObservations => c.communication.observations
    case PainLocation => c.comfort.painLocation
    case PainIntensity => c.comfort.painIntensity
    case PainScale => c.comfort.painScale
    case ObstaclesDescription => c.learning.obstaclesDescription
    case LearningObservations => c.learning.observations
    case IntestinalPreparationDetails => c.presurgicalChecklist.intestinalPreparationDetails
    case PremedicationDetails => c.presurgicalChecklist.premedicationDetails
  }

  /** The content with every free-text field blanked: what the checkboxes and radios hold. */
  function Erase(c: CmaContent): (r: CmaContent)
    ensures forall f :: Text(r, f) == ""
    ensures r.evaluationName == c.evaluationName && r.patientName == c.patientName
  {
    var e := c.elimination;
    c.(nurse := "", habitualMedication := "",
       respiration := c.respiration.(observations := ""),
       feeding := c.feeding.(lastIntakeTime := "", observations := ""),
       elimination := e.(urinaryPattern := e.urinaryPattern.(other := ""),
                         intestinalPattern := e.intestinalPattern.(other := ""),
                         observations := ""),
       mobilization := c.mobilization.(observations := ""),
       restAndSleep := c.restAndSleep.(observations := ""),
       safety := c.safety.(fallRiskScore := "", observations := ""),
       communication := c.communication.(language := "", observations := ""),
       comfort := c.comfort.(painLocation := "", painIntensity := "", painScale := ""),
       learning := c.learning.(obstaclesDescription := "", observations := ""),
       presurgicalChecklist := c.presurgicalChecklist.(intestinalPreparationDetails := "",
                                                       premedicationDetails := ""))
  }

  /** Typing into one text input: that text changes, nothing else does. */
  function SetText(c: CmaContent, f: CmaText, v: string): (r: CmaContent)
    ensures Text(r, f) == v
    ensures forall g :: g != f ==> Text(r, g) == Text(c, g)
    ensures Erase(r) == Erase(c)
  {
    match f
    case Nurse => c.(nurse := v)
    case HabitualMedication => c.(habitualMedication := v)
    case RespirationObservations => c.(respiration := c.respiration.(observations := v))
    case LastIntakeTime => c.(feeding := c.feeding.(lastIntakeTime := v))
    case FeedingObservations => c.(feeding := c.feeding.(observations := v))
    case UrinaryOther =>
      c.(elimination := c.elimination.(urinaryPattern := c.elimination.urinaryPattern.(other := v)))
    case IntestinalOther =>
      c.(elimination := c.elimination.(intestinalPattern := c.elimination.intestinalPattern.(other := v)))
    case EliminationObservations => c.(elimination := c.elimination.(observations := v))
    case MobilizationObservations => c.(mobilization := c.mobilization.(observations := v))
    case RestObservations => c.(restAndSleep := c.restAndSleep.(observations := v))
    case FallRiskScore => c.(safety := c.safety.(fallRiskScore := v))
    case SafetyObservations => c.(safety := c.safety.(observations := v))
    case Language => c.(communication := c.communication.(language := v))
    case CommunicationObservations => c.(communication := c.communication.(observations := v))
    case PainLocation => c.(comfort := c.comfort.(painLocation := v))
    case PainIntensity => c.(comfort := c.comfort.(painIntensity := v))
    case PainScale => c.(comfort := c.comfort.(painScale := v))
    case ObstaclesDescription => c.(learning := c.learning.(obstaclesDescription := v))
    case LearningObservations => c.(learning := c.learning.(observations := v))
    case IntestinalPreparationDetails =>
      c.(presurgicalChecklist := c.presurgicalChecklist.(intestinalPreparationDetails := v))
    case PremedicationDetails =>
      c.(presurgicalChecklist := c.presurgicalChecklist.(premedicationDetails := v))
  }

  // ----- Respiration

  /**
   * A symptom checkbox: the symptom takes the new value and "no alteration"
   * is recomputed from all five, whatever it was before.
   */
  function ToggleRespiration(r: CmaRespiration, s: RespSymptom, checked: bool): (n: CmaRespiration)
    ensures n.Get(s) == checked
    ensures forall o :: o != s ==> n.Get(o) == r.Get(o)
    ensures n.observations == r.observations
    ensures RespirationConsistent(n)
  {
    match s
    case Dyspnea =>
      r.(dyspnea := checked,
         noAlteration := !(checked || r.tachypnea || r.bradypnea || r.retractions || r.difficultyBreathing))
    case Tachypnea =>
      r.(tachypnea := checked,
         noAlteration := !(r.dyspnea || checked || r.bradypnea || r.retractions || r.difficultyBreathing))
    case Bradypnea =>
      r.(bradypnea := checked,
         noAlteration := !(r.dyspnea || r.tachypnea || checked || r.retractions || r.difficultyBreathing))
    case Retractions =>
      r.(retractions := checked,
         noAlteration := !(r.dyspnea || r.tachypnea || r.bradypnea || checked || r.difficultyBreathing))
    case DifficultyBreathing =>
      r.(difficultyBreathing := checked,
         noAlteration := !(r.dyspnea || r.tachypnea || r.bradypnea || r.retractions || checked))
  }

  // ----- Elimination

  function UrinaryItem(u: UrinaryPattern, i: PatternItem): bool
  {
    match i
    case Continent => u.continent
    case Incontinent => u.incontinent
    case Device => u.urinaryCatheter
  }

  function IntestinalItem(p: IntestinalPattern, i: PatternItem): bool
  {
    match i
    case Continent => p.continent
    case Incontinent => p.incontinent
    case Device => p.ostomies
  }

  /**
   * A urinary checkbox: the item takes the new value and "no alteration" is
   * recomputed from both patterns.
   */
  function ToggleUrinary(e: CmaElimination, i: PatternItem, checked: bool): (n: CmaElimination)
    ensures UrinaryItem(n.urinaryPattern, i) == checked
    ensures forall o :: o != i ==> UrinaryItem(n.urinaryPattern, o) == UrinaryItem(e.urinaryPattern, o)
    ensures n.urinaryPattern.other == e.urinaryPattern.other
    ensures n.intestinalPattern == e.intestinalPattern && n.observations == e.observations
    ensures EliminationConsistent(n)
  {
    var u := e.urinaryPattern;
    var nu := match i
      case Continent => u.(continent := checked)
      case Incontinent => u.(incontinent := checked)
      case Device => u.(urinaryCatheter := checked);
    var urinaryAlteration := !nu.continent || nu.incontinent || nu.urinaryCatheter;
    var ip := e.intestinalPattern;
    var intestinalAlteration := !ip.continent || ip.incontinent || ip.ostomies;
    e.(urinaryPattern := nu, noAlteration := !urinaryAlteration && !intestinalAlteration)
  }

  /**
   * An intestinal checkbox: the item takes the new value and "no alteration"
   * is recomputed from both patterns.
   */
  function ToggleIntestinal(e: CmaElimination, i: PatternItem, checked: bool): (n: CmaElimination)
    ensures IntestinalItem(n.intestinalPattern, i) == checked
    ensures forall o :: o != i ==> IntestinalItem(n.intestinalPattern, o) == IntestinalItem(e.intestinalPattern, o)
    ensures n.intestinalPattern.other == e.intestinalPattern.other
    ensures n.urinaryPattern == e.urinaryPattern && n.observations == e.observations
    ensures EliminationConsistent(n)
  {
    var p := e.intestinalPattern;
    var np := match i
      case Continent => p.(continent := checked)
      case Incontinent => p.(incontinent := checked)
      case Device => p.(ostomies := checked);
    var u := e.urinaryPattern;
    var urinaryAlteration := !u.continent || u.incontinent || u.urinaryCatheter;
    var intestinalAlteration := !np.continent || np.incontinent || np.ostomies;
    e.(intestinalPattern := np, noAlteration := !urinaryAlteration && !intestinalAlteration)
  }

  // ----- Rest and sleep, safety: plain checkboxes

  datatype RestItem = NormalPattern | SleepDifficulty | SleepMedication

  function RestFlag(r: CmaRestAndSleep, i: RestItem): bool
  {
    match i
    case NormalPattern => r.normalPattern
    case SleepDifficulty => r.difficulty
    case SleepMedication => r.needsHelpMedication
  }

  function SetRest(r: CmaRestAndSleep, i: RestItem, v: bool): (n: CmaRestAndSleep)
    ensures RestFlag(n, i) == v
    ensures forall o :: o != i ==> RestFlag(n, o) == RestFlag(r, o)
    ensures n.observations == r.observations
  {
    match i
    case NormalPattern => r.(normalPattern := v)
    case SleepDifficulty => r.(difficulty := v)
    case SleepMedication => r.(needsHelpMedication := v)
  }

  datatype SafetyItem = SafetyVision | SafetyHearing | SafetyMemory | SafetySpeech

  function SafetyFlag(s: CmaSafety, i: SafetyItem): bool
  {
    match i
    case SafetyVision => s.visionAlteration
    case SafetyHearing => s.hearingAlteration
    case SafetyMemory => s.memoryAlteration
    case SafetySpeech => s.speechDifficulty
  }

  function SetSafety(s: CmaSafety, i: SafetyItem, v: bool): (n: CmaSafety)
    ensures SafetyFlag(n, i) == v
    ensures forall o :: o != i ==> SafetyFlag(n, o) == SafetyFlag(s, o)
    ensures n.riskLevel == s.riskLevel
    ensures n.fallRiskScore == s.fallRiskScore && n.observations == s.observations
  {
    match i
    case SafetyVision => s.(visionAlteration := v)
    case SafetyHearing => s.(hearingAlteration := v)
    case SafetyMemory => s.(memoryAlteration := v)
    case SafetySpeech => s.(speechDifficulty := v)
  }

  // ----- Communication

  /**
   * An emotion checkbox (calm included): the emotion takes the new value and
   * "no alteration" is recomputed from the whole section.
   */
  function ToggleEmotion(c: CmaCommunication, e: Emotion, checked: bool): (n: CmaCommunication)
    ensures n.emotionalState.Get(e) == checked
    ensures forall o :: o != e ==> n.emotionalState.Get(o) == c.emotionalState.Get(o)
    ensures n.consciousnessLevel == c.consciousnessLevel && n.oriented == c.oriented
    ensures n.languageBarrier == c.languageBarrier
    ensures n.language == c.language && n.observations == c.observations
    ensures CommunicationConsistent(n)
  {
    var es := c.emotionalState.Set(e, checked);
    var emotionalAlteration := es.worried || es.anxious || es.sad || es.apathetic || es.irritable;
    var otherAlteration := c.consciousnessLevel == Stuporous || c.consciousnessLevel == Coma
                           || !c.oriented || c.languageBarrier;
    c.(emotionalState := es, noAlteration := !emotionalAlteration && !otherAlteration)
  }

  /**
   * A consciousness radio. Alert and conscious recompute "no alteration"
   * (the level itself no longer counts against it); stuporous and coma
   * force it to false.
   */
  function ChooseConsciousness(c: CmaCommunication, level: Consciousness): (n: CmaCommunication)
    ensures n.consciousnessLevel == level
    ensures n.emotionalState == c.emotionalState && n.oriented == c.oriented
    ensures n.languageBarrier == c.languageBarrier
    ensures n.language == c.language && n.observations == c.observations
    ensures level == Stuporous || level == Coma ==> !n.noAlteration
    ensures CommunicationConsistent(n)
  {
    match level
    case Alert | Conscious =>
      var es := c.emotionalState;
      var emotionalAlteration := es.worried || es.anxious || es.sad || es.apathetic || es.irritable;
      var otherAlteration := !c.oriented || c.languageBarrier;
      c.(consciousnessLevel := level, noAlteration := !emotionalAlteration && !otherAlteration)
    case Stuporous | Coma =>
      c.(consciousnessLevel := level, noAlteration := false)
  }

  /** The oriented radio: yes recomputes "no alteration", no forces it to false. */
  function ChooseOriented(c: CmaCommunication, oriented: bool): (n: CmaCommunication)
    ensures n.oriented == oriented
    ensures n.emotionalState == c.emotionalState && n.consciousnessLevel == c.consciousnessLevel
    ensures n.languageBarrier == c.languageBarrier
    ensures n.language == c.language && n.observations == c.observations
    ensures !oriented ==> !n.noAlteration
    ensures CommunicationConsistent(n)
  {
    if oriented then
      var es := c.emotionalState;
      var emotionalAlteration := es.worried || es.anxious || es.sad || es.apathetic || es.irritable;
      var otherAlteration := c.consciousnessLevel == Stuporous || c.consciousnessLevel == Coma
                             || c.languageBarrier;
      c.(oriented := true, noAlteration := !emotionalAlteration && !otherAlteration)
    else
      c.(oriented := false, noAlteration := false)
  }

  /** The language-barrier radio: only the barrier changes; "no alteration" is not recomputed. */
  function ChooseLanguageBarrier(c: CmaCommunication, barrier: bool): (n: CmaCommunication)
    ensures n.languageBarrier == barrier
    ensures n.noAlteration == c.noAlteration
    ensures n.emotionalState == c.emotionalState && n.consciousnessLevel == c.consciousnessLevel
    ensures n.oriented == c.oriented && n.language == c.language && n.observations == c.observations
  {
    c.(languageBarrier := barrier)
  }

  /**
   * After the language-barrier radio, a consistent section stays consistent
   * exactly when the answer did not change or something else already counts
   * as an alteration: flipping the barrier on an otherwise fine patient
   * leaves "no alteration" stale.
   */
  lemma LanguageBarrierStaleness(c: CmaCommunication, barrier: bool)
    requires CommunicationConsistent(c)
    ensures CommunicationConsistent(ChooseLanguageBarrier(c, barrier))
            <==> barrier == c.languageBarrier || !CommunicationFineApartFromBarrier(c)
  {
  }

  /** From the default record, answering "yes" to the language barrier leaves "no alteration" true. */
  lemma LanguageBarrierOnDefaultIsStale()
    ensures var c := ChooseLanguageBarrier(EmptyEvaluation().communication, true);
            c.languageBarrier && c.noAlteration && !CommunicationConsistent(c)
  {
    var d := EmptyEvaluation().communication;
    assert CommunicationFineApartFromBarrier(d);
  }

  // ----- Events

  /** One user action on a control of the form. */
  datatype CmaEvent =
    | TextEdited(field: CmaText, value: string)
    | RespirationToggled(symptom: RespSymptom, checked: bool)
    | FastingChosen(fasting: bool)
    | UrinaryToggled(item: PatternItem, checked: bool)
    | IntestinalToggled(item: PatternItem, checked: bool)
    | MobilizationToggled(mobility: Mobility, checked: bool)
    | RestToggled(restItem: RestItem, checked: bool)
    | RiskLevelChosen(level: RiskLevel)
    | SafetyToggled(safetyItem: SafetyItem, checked: bool)
    | EmotionToggled(emotion: Emotion, checked: bool)
    | ConsciousnessChosen(consciousness: Consciousness)
    | OrientedChosen(oriented: bool)
    | LanguageBarrierChosen(barrier: bool)
    | PainChosen(hasPain: bool)
    | PainTypeToggled(painType: PainType, checked: bool)
    | ObstaclesChosen(hasObstacles: bool)
    | KnowledgeLevelChosen(knowledge: KnowledgeLevel)
    | BinaryItemChosen(binaryItem: BinaryItem, yesNo: YesNo)
    | TernaryItemChosen(ternaryItem: TernaryItem, answer: Answer)
  {
    /** The events whose handler recomputes (or forces) communication "no alteration". */
    predicate ResyncsCommunication()
    {
      EmotionToggled? || ConsciousnessChosen? || OrientedChosen?
    }

    // The events grouped by the sections they touch, so that facts about
    // all of them can be proved one group at a time.

    predicate OnRespirationFeedingElimination()
    {
      RespirationToggled? || FastingChosen? || UrinaryToggled? || IntestinalToggled?
    }

    predicate OnMobilizationRestSafety()
    {
      MobilizationToggled? || RestToggled? || RiskLevelChosen? || SafetyToggled?
    }

    predicate OnCommunication()
    {
      EmotionToggled? || ConsciousnessChosen? || OrientedChosen? || LanguageBarrierChosen?
    }
  }

  /**
   * The content after one event. The respiration, elimination and
   * communication handlers bring their section's aggregate back in step
   * with its flags.
   */
  function Apply(c: CmaContent, e: CmaEvent): (r: CmaContent)
    ensures e.RespirationToggled? ==> RespirationConsistent(r.respiration)
    ensures e.UrinaryToggled? || e.IntestinalToggled? ==> EliminationConsistent(r.elimination)
    ensures e.ResyncsCommunication() ==> CommunicationConsistent(r.communication)
    ensures r.evaluationName == c.evaluationName && r.patientName == c.patientName
  {
    match e
    case TextEdited(f, v) => SetText(c, f, v)
    case RespirationToggled(s, checked) =>
      c.(respiration := ToggleRespiration(c.respiration, s, checked))
    case FastingChosen(fasting) => c.(feeding := c.feeding.(fasting := fasting))
    case UrinaryToggled(i, checked) => c.(elimination := ToggleUrinary(c.elimination, i, checked))
    case IntestinalToggled(i, checked) => c.(elimination := ToggleIntestinal(c.elimination, i, checked))
    case MobilizationToggled(m, checked) => c.(mobilization := c.mobilization.Toggle(m, checked))
    case RestToggled(i, checked) => c.(restAndSleep := SetRest(c.restAndSleep, i, checked))
    case RiskLevelChosen(level) => c.(safety := c.safety.(riskLevel := level))
    case SafetyToggled(i, checked) => c.(safety := SetSafety(c.safety, i, checked))
    case EmotionToggled(em, checked) => c.(communication := ToggleEmotion(c.communication, em, checked))
    case ConsciousnessChosen(level) => c.(communication := ChooseConsciousness(c.communication, level))
    case OrientedChosen(o) => c.(communication := ChooseOriented(c.communication, o))
    case LanguageBarrierChosen(b) => c.(communication := ChooseLanguageBarrier(c.communication, b))
    case PainChosen(p) => c.(comfort := c.comfort.(hasPain := p))
    case PainTypeToggled(p, checked) => c.(comfort := c.comfort.Set(p, checked))
    case ObstaclesChosen(o) => c.(learning := c.learning.(hasObstacles := o))
    case KnowledgeLevelChosen(k) => c.(learning := c.learning.(knowledgeLevel := k))
    case BinaryItemChosen(i, a) =>
      c.(presurgicalChecklist := c.presurgicalChecklist.SetBinary(i, a))
    case TernaryItemChosen(i, a) =>
      c.(presurgicalChecklist := c.presurgicalChecklist.SetTernary(i, a))
  }

  /** Two records whose free-text fields all agree. */
  predicate SameTexts(a: CmaContent, b: CmaContent)
  {
    a.nurse == b.nurse && a.habitualMedication == b.habitualMedication
    && a.respiration.observations == b.respiration.observations
    && a.feeding.lastIntakeTime == b.feeding.lastIntakeTime
    && a.feeding.observations == b.feeding.observations
    && a.elimination.urinaryPattern.other == b.elimination.urinaryPattern.other
    && a.elimination.intestinalPattern.other == b.elimination.intestinalPattern.other
    && a.elimination.observations == b.elimination.observations
    && a.mobilization.observations == b.mobilization.observations
    && a.restAndSleep.observations == b.restAndSleep.observations
    && a.safety.fallRiskScore == b.safety.fallRiskScore && a.safety.observations == b.safety.observations
    && a.communication.language == b.communication.language
    && a.communication.observations == b.communication.observations
    && a.comfort.painLocation == b.comfort.painLocation && a.comfort.painIntensity == b.comfort.painIntensity
    && a.comfort.painScale == b.comfort.painScale
    && a.learning.obstaclesDescription == b.learning.obstaclesDescription
    && a.learning.observations == b.learning.observations
    && a.presurgicalChecklist.intestinalPreparationDetails == b.presurgicalChecklist.intestinalPreparationDetails
    && a.presurgicalChecklist.premedicationDetails == b.presurgicalChecklist.premedicationDetails
  }

  lemma SameTextsAgree(a: CmaContent, b: CmaContent)
    requires SameTexts(a, b)
    ensures forall g :: Text(a, g) == Text(b, g)
  {
  }

  /** A text input sets its own text, keeps every other text and touches no control. */
  lemma ApplyTextEdit(c: CmaContent, f: CmaText, v: string)
    ensures Text(Apply(c, TextEdited(f, v)), f) == v
    ensures forall g :: g != f ==> Text(Apply(c, TextEdited(f, v)), g) == Text(c, g)
    ensures Erase(Apply(c, TextEdited(f, v))) == Erase(c)
  {
  }

  // Each group of controls keeps the invariants and leaves every text alone.

  lemma RespirationFeedingEliminationControls(c: CmaContent, e: CmaEvent)
    requires e.OnRespirationFeedingElimination()
    ensures Consistent(c) ==> Consistent(Apply(c, e))
    ensures Apply(c, e).communication == c.communication
    ensures SameTexts(Apply(c, e), c)
  {
  }

  lemma MobilizationRestSafetyControls(c: CmaContent, e: CmaEvent)
    requires e.OnMobilizationRestSafety()
    ensures Consistent(c) ==> Consistent(Apply(c, e))
    ensures Apply(c, e).communication == c.communication
    ensures SameTexts(Apply(c, e), c)
  {
  }

  lemma CommunicationControls(c: CmaContent, e: CmaEvent)
    requires e.OnCommunication()
    ensures Consistent(Apply(c, e)) == Consistent(c)
    ensures CommunicationConsistent(c.communication) && !e.LanguageBarrierChosen?
            ==> CommunicationConsistent(Apply(c, e).communication)
    ensures SameTexts(Apply(c, e), c)
  {
  }

  lemma RemainingControls(c: CmaContent, e: CmaEvent)
    requires !e.TextEdited? && !e.OnRespirationFeedingElimination() && !e.OnMobilizationRestSafety()
             && !e.OnCommunication()
    ensures Consistent(Apply(c, e)) == Consistent(c)
    ensures Apply(c, e).communication == c.communication
    ensures SameTexts(Apply(c, e), c)
  {
  }

  /**
   * Every control other than a text input keeps the respiration,
   * elimination and mobility invariants, keeps communication consistent
   * unless it is the language-barrier radio, and leaves every text as it was.
   */
  lemma ControlsKeepTexts(c: CmaContent, e: CmaEvent)
    requires !e.TextEdited?
    ensures Consistent(c) ==> Consistent(Apply(c, e))
    ensures CommunicationConsistent(c.communication) && !e.LanguageBarrierChosen?
            ==> CommunicationConsistent(Apply(c, e).communication)
    ensures forall g :: Text(Apply(c, e), g) == Text(c, g)
  {
    if e.OnRespirationFeedingElimination() {
      RespirationFeedingEliminationControls(c, e);
    } else if e.OnMobilizationRestSafety() {
      MobilizationRestSafetyControls(c, e);
    } else if e.OnCommunication() {
      CommunicationControls(c, e);
    } else {
      RemainingControls(c, e);
    }
    SameTextsAgree(Apply(c, e), c);
  }

  /** Every handler keeps the respiration, elimination and mobility invariants. */
  lemma ApplyConsistent(c: CmaContent, e: CmaEvent)
    requires Consistent(c)
    ensures Consistent(Apply(c, e))
  {
    if e.TextEdited? {
      assert Erase(Apply(c, e)) == Erase(c);
    } else {
      ControlsKeepTexts(c, e);
    }
  }

  /** Every handler but the language-barrier radio keeps communication consistent. */
  lemma ApplyCommunication(c: CmaContent, e: CmaEvent)
    requires CommunicationConsistent(c.communication) && !e.LanguageBarrierChosen?
    ensures CommunicationConsistent(Apply(c, e).communication)
  {
    if e.TextEdited? {
      assert Erase(Apply(c, e)) == Erase(c);
    } else {
      ControlsKeepTexts(c, e);
    }
  }

  /** The content after a sequence of events, in order. */
  function ApplyAll(c: CmaContent, es: seq<CmaEvent>): CmaContent
    decreases |es|
  {
    if es == [] then c else ApplyAll(Apply(c, es[0]), es[1..])
  }

  /** The invariants hold after any sequence of events from a consistent record. */
  lemma {:induction false} ApplyAllConsistent(c: CmaContent, es: seq<CmaEvent>)
    requires Consistent(c)
    ensures Consistent(ApplyAll(c, es))
    decreases |es|
  {
    if es != [] {
      ApplyConsistent(c, es[0]);
      ApplyAllConsistent(Apply(c, es[0]), es[1..]);
    }
  }

  /**
   * Communication stays consistent through any sequence of events that
   * never touches the language-barrier radio.
   */
  lemma {:induction false} ApplyAllCommunication(c: CmaContent, es: seq<CmaEvent>)
    requires CommunicationConsistent(c.communication)
    requires forall i :: 0 <= i < |es| ==> !es[i].LanguageBarrierChosen?
    ensures CommunicationConsistent(ApplyAll(c, es).communication)
    decreases |es|
  {
    if es != [] {
      ApplyCommunication(c, es[0]);
      ApplyAllCommunication(Apply(c, es[0]), es[1..]);
    }
  }

  /** Every record a new form can reach keeps the respiration, elimination and mobility invariants. */
  lemma ReachableConsistent(es: seq<CmaEvent>)
    ensures Consistent(ApplyAll(EmptyEvaluation(), es))
  {
    ApplyAllConsistent(EmptyEvaluation(), es);
  }

  /** The nurse name is changed by its own text input and by nothing else. */
  lemma {:induction false} NurseOnlyFromItsInput(c: CmaContent, es: seq<CmaEvent>)
    requires forall i :: 0 <= i < |es| ==> !(es[i].TextEdited? && es[i].field == Nurse)
    ensures ApplyAll(c, es).nurse == c.nurse
    decreases |es|
  {
    if es != [] {
      if es[0].TextEdited? {
        ApplyTextEdit(c, es[0].field, es[0].value);
      } else {
        ControlsKeepTexts(c, es[0]);
        assert Text(Apply(c, es[0]), Nurse) == Text(c, Nurse);
      }
      NurseOnlyFromItsInput(Apply(c, es[0]), es[1..]);
    }
  }

  // ----- The form component

  /** The form's state: the content being edited and the record it was opened on, if any. */
  class CmaFormController {
    var formData: CmaContent
    const initialData: Option<CMAEvaluation>

    /** Opens the form on an existing record, or on the default record. */
    constructor(initialData: Option<CMAEvaluation>)
      ensures this.initialData == initialData
      ensures formData == if initialData.Some? then initialData.value.content else EmptyEvaluation()
    {
      this.initialData := initialData;
      formData := if initialData.Some? then initialData.value.content else EmptyEvaluation();
    }

    /** A control's change handler replaces the content with its update. */
    method Handle(e: CmaEvent)
      modifies this
      ensures formData == Apply(old(formData), e)
      ensures Consistent(old(formData)) ==> Consistent(formData)
    {
      if Consistent(formData) {
        ApplyConsistent(formData, e);
      }
      formData := Apply(formData, e);
    }

    /**
     * Submit. A blank nurse name (empty or whitespace only) is refused and
     * nothing is saved; otherwise the record is the current content with the
     * edited record's id and date when they are non-empty, and an
     * `eval-<millis>` id and the current ISO time otherwise.
     */
    method Submit(nowMillis: nat, isoNow: string) returns (r: Result<CMAEvaluation, SubmitError>)
      ensures r.Err? <==> Trim(formData.nurse) == []
      ensures r.Ok? ==> r.value.content == formData
      ensures r.Ok? ==> r.value.id == KeptOrFresh(if initialData.Some? then Some(initialData.value.id) else None,
                                                  StampedId("eval", nowMillis))
      ensures r.Ok? ==> r.value.date == KeptOrFresh(if initialData.Some? then Some(initialData.value.date) else None,
                                                    isoNow)
    {
      if Trim(formData.nurse) == [] {
        return Err(MissingNurse);
      }
      var id := if initialData.Some? && initialData.value.id != "" then initialData.value.id
                else StampedId("eval", nowMillis);
      var date := if initialData.Some? && initialData.value.date != "" then initialData.value.date
                  else isoNow;
      r := Ok(CMAEvaluation(id, date, formData));
    }
  }
}
