/**
 * The short-stay surgical evaluation form: its default record, the update
 * rule behind every control, the invariants those rules keep, the
 * aggregates that can only ever be switched off, and the nurse-name gate on
 * submit.
 */
module ShortStayForm {
  import opened Wrappers
  import opened Strings
  import opened Evaluations

  // ----- Invariants

  /** "No alteration" in respiration is never ticked beside a symptom. */
  predicate RespirationOk(r: ShortRespiration)
  {
    r.noAlteration ==> !r.AnySymptom()
  }

  /**
   * "No alteration" in feeding is never ticked beside a difficulty, and
   * "autonomous" and "needs help" are never both ticked.
   */
  predicate FeedingOk(f: ShortFeeding)
  {
    (f.noAlteration ==> !f.AnyDifficulty()) && !(f.autonomous && f.needsHelp)
  }

  /** The two infection-risk radios are complements. */
  predicate SafetyOk(s: ShortSafety)
  {
    s.infectionRisk == !s.noInfectionRisk
  }

  /** "No alteration" in communication is never ticked beside a sensory alteration. */
  predicate CommunicationOk(c: ShortCommunication)
  {
    c.noAlteration ==> !c.AnyAlteration()
  }

  /** The facts every handler keeps. */
  predicate Invariant(c: ShortContent)
  {
    RespirationOk(c.respiration) && FeedingOk(c.feeding) && SafetyOk(c.safety)
    && c.mobilization.Exclusive() && CommunicationOk(c.communication)
  }

  // ----- The default record

  /**
   * The record a new short-stay form starts from. The nurse is blank, so an
   * untouched form cannot be submitted, and the preloaded patient fields are
   * absent.
   */
  function EmptyEvaluation(): (c: ShortContent)
    ensures Invariant(c)
    ensures c.respiration.noAlteration && c.feeding.noAlteration && c.communication.noAlteration
    ensures c.mobilization.autonomous
    ensures !c.safety.infectionRisk && c.safety.noInfectionRisk
    ensures Trim(c.nurse) == []
    ensures c.snapshot.None?
    ensures forall f :: Text(c, f) == ""
  {
    ShortContent(
      "Evaluación al Paciente Quirúrgico de Corta Estancia",
      "",
      "Juan Pérez",
      None,
      ShortRespiration(true, false, false, false, false, ""),
      ShortFeeding(true, false, false, false, false, false, false, false, false, false, false,
                   false, "", "", "", "", "", NormalIntake, "", true, false, "", "", ""),
      ShortElimination(ShortUrinaryPattern(true, false, true, false),
                       ShortIntestinalPattern(true, false, true, false)),
      Mobilization(true, false, false, false, false, ""),
      ShortRestAndSleep(true, false, false, ""),
      ShortSafety(false, true, false, false, false, "", false, ""),
      ShortCommunication(true, false, false, false, false, "", ""),
      BeliefsAndValues(false, false, ""),
      Comfort(false, "", false, false, false, "", ""),
      ShortLearning(Tranquility, 3, ""),
      Emotions(true, false, false, false, false, false),
      "")
  }

  // ----- Free-text fields

  /** Every free-text input of the form. */
  datatype ShortText =
    | Nurse | RespirationObservations | FeedingField(feedingText: FeedingText)
    | MobilizationObservations | RestObservations | FallRiskScore | SafetyObservations
    | Language | CommunicationObservations | BeliefsObservations | PainLocation
    | PainIntensity | PainScale | LearningObservations | AdditionalComments

  /** The nine free-text inputs of the feeding section. */
  datatype FeedingText =
    | CurrentWeight | Height | Bmi | UsualWeight | WeightLossPercentage | MustScore | Diet
    | DailyLiquidIntake | FeedingObservations

  function FeedingTextOf(f: ShortFeeding, t: FeedingText): string
  {
    match t
    case CurrentWeight => f.currentWeight
    case Height => f.height
    case Bmi => f.bmi
    case UsualWeight => f.usualWeight
    case WeightLossPercentage => f.weightLossPercentage
    case MustScore => f.mustScore
    case Diet => f.diet
    case DailyLiquidIntake => f.dailyLiquidIntake
    case FeedingObservations => f.observations
  }

  function Text(c: ShortContent, f: ShortText): string
  {
    match f
    case Nurse => c.nurse
    case RespirationObservations => c.respiration.observations
    case FeedingField(t) => FeedingTextOf(c.feeding, t)
    case MobilizationObservations => c.mobilization.observations
    case RestObservations => c.restAndSleep.observations
    case FallRiskScore => c.safety.fallRiskScore
    case SafetyObservations => c.safety.observations
    case Language => c.communication.language
    case CommunicationObservations => c.communication.observations
    case BeliefsObservations => c.beliefsAndValues.observations
    case PainLocation => c.comfort.painLocation
    case PainIntensity => c.comfort.painIntensity
    case PainScale => c.comfort.painScale
    case LearningObservations => c.learning.observations
    case AdditionalComments => c.additionalComments
  }

  /** The feeding section with its nine free-text fields blanked. */
  function EraseFeeding(f: ShortFeeding): (r: ShortFeeding)
    ensures forall t :: FeedingTextOf(r, t) == ""
    ensures forall d :: r.Difficulty(d) == f.Difficulty(d)
    ensures forall a :: r.Aid(a) == f.Aid(a)
  {
    ShortFeeding(f.noAlteration, f.difficultyChewing, f.difficultyDrinking,
                 f.difficultySwallowing, f.refusesToEat, f.dentalProsthesis, f.nasogastricTube,
                 f.parenteralNutrition, f.ostomy, f.aspirationRisk, f.vomiting, f.nausea,
                 "", "", "", "", "", f.intake, "", f.autonomous, f.needsHelp, "", "", "")
  }

  /** Two feeding sections whose checkboxes and radios agree. */
  predicate SameFeedingControls(a: ShortFeeding, b: ShortFeeding)
  {
    a.noAlteration == b.noAlteration && a.difficultyChewing == b.difficultyChewing
    && a.difficultyDrinking == b.difficultyDrinking && a.difficultySwallowing == b.difficultySwallowing
    && a.refusesToEat == b.refusesToEat && a.dentalProsthesis == b.dentalProsthesis
    && a.nasogastricTube == b.nasogastricTube && a.parenteralNutrition == b.parenteralNutrition
    && a.ostomy == b.ostomy && a.aspirationRisk == b.aspirationRisk && a.vomiting == b.vomiting
    && a.nausea == b.nausea && a.intake == b.intake && a.autonomous == b.autonomous
    && a.needsHelp == b.needsHelp
  }

  /** Two feeding sections whose nine free-text fields agree. */
  predicate SameFeedingTexts(a: ShortFeeding, b: ShortFeeding)
  {
    a.currentWeight == b.currentWeight && a.height == b.height && a.bmi == b.bmi
    && a.usualWeight == b.usualWeight && a.weightLossPercentage == b.weightLossPercentage
    && a.mustScore == b.mustScore && a.diet == b.diet
    && a.dailyLiquidIntake == b.dailyLiquidIntake && a.observations == b.observations
  }

  /** Two feeding sections whose four difficulty checkboxes agree. */
  predicate SameDifficulties(a: ShortFeeding, b: ShortFeeding)
  {
    a.difficultyChewing == b.difficultyChewing && a.difficultyDrinking == b.difficultyDrinking
    && a.difficultySwallowing == b.difficultySwallowing && a.refusesToEat == b.refusesToEat
  }

  /** Two feeding sections whose seven other checkboxes agree. */
  predicate SameAids(a: ShortFeeding, b: ShortFeeding)
  {
    a.dentalProsthesis == b.dentalProsthesis && a.nasogastricTube == b.nasogastricTube
    && a.parenteralNutrition == b.parenteralNutrition && a.ostomy == b.ostomy
    && a.aspirationRisk == b.aspirationRisk && a.vomiting == b.vomiting && a.nausea == b.nausea
  }

  /** Sections whose controls agree are equal once their texts are blanked. */
  lemma SameFeedingControlsErase(a: ShortFeeding, b: ShortFeeding)
    requires SameFeedingControls(a, b)
    ensures EraseFeeding(a) == EraseFeeding(b)
  {
  }

  /** Typing into one feeding text input: that text changes, nothing else in the section does. */
  function SetFeedingText(f: ShortFeeding, t: FeedingText, v: string): (n: ShortFeeding)
    ensures SameFeedingControls(n, f)
    ensures forall o :: FeedingTextOf(n, o) == if o == t then v else FeedingTextOf(f, o)
  {
    match t
    case CurrentWeight => f.(currentWeight := v)
    case Height => f.(height := v)
    case Bmi => f.(bmi := v)
    case UsualWeight => f.(usualWeight := v)
    case WeightLossPercentage => f.(weightLossPercentage := v)
    case MustScore => f.(mustScore := v)
    case Diet => f.(diet := v)
    case DailyLiquidIntake => f.(dailyLiquidIntake := v)
    case FeedingObservations => f.(observations := v)
  }

  /** The content with every free-text field blanked: what the checkboxes and radios hold. */
  function Erase(c: ShortContent): (r: ShortContent)
    ensures forall f :: Text(r, f) == ""
    ensures r.snapshot == c.snapshot
  {
    c.(nurse := "",
       respiration := c.respiration.(observations := ""),
       feeding := EraseFeeding(c.feeding),
       mobilization := c.mobilization.(observations := ""),
       restAndSleep := c.restAndSleep.(observations := ""),
       safety := c.safety.(fallRiskScore := "", observations := ""),
       communication := c.communication.(language := "", observations := ""),
       beliefsAndValues := c.beliefsAndValues.(observations := ""),
       comfort := c.comfort.(painLocation := "", painIntensity := "", painScale := ""),
       learning := c.learning.(observations := ""),
       additionalComments := "")
  }

  /** Typing into one text input: that text changes, nothing else does. */
  function SetText(c: ShortContent, f: ShortText, v: string): (r: ShortContent)
    ensures Text(r, f) == v
    ensures forall g :: g != f ==> Text(r, g) == Text(c, g)
    ensures Erase(r) == Erase(c)
  {
    match f
    case Nurse => c.(nurse := v)
    case RespirationObservations => c.(respiration := c.respiration.(observations := v))
    case FeedingField(t) =>
      var n := SetFeedingText(c.feeding, t, v);
      SameFeedingControlsErase(n, c.feeding);
      c.(feeding := n)
    case MobilizationObservations => c.(mobilization := c.mobilization.(observations := v))
    case RestObservations => c.(restAndSleep := c.restAndSleep.(observations := v))
    case FallRiskScore => c.(safety := c.safety.(fallRiskScore := v))
    case SafetyObservations => c.(safety := c.safety.(observations := v))
    case Language => c.(communication := c.communication.(language := v))
    case CommunicationObservations => c.(communication := c.communication.(observations := v))
    case BeliefsObservations => c.(beliefsAndValues := c.beliefsAndValues.(observations := v))
    case PainLocation => c.(comfort := c.comfort.(painLocation := v))
    case PainIntensity => c.(comfort := c.comfort.(painIntensity := v))
    case PainScale => c.(comfort := c.comfort.(painScale := v))
    case LearningObservations => c.(learning := c.learning.(observations := v))
    case AdditionalComments => c.(additionalComments := v)
  }

  // ----- Respiration

  /**
   * The "no alteration" checkbox: checking it clears all four symptoms,
   * unchecking it leaves them as they were.
   */
  function SetRespirationNoAlteration(r: ShortRespiration, checked: bool): (n: ShortRespiration)
    ensures RespirationOk(n)
    ensures n.noAlteration == checked
    ensures checked ==> !n.AnySymptom()
    ensures !checked ==> forall s :: n.Get(s) == r.Get(s)
    ensures n.observations == r.observations
  {
    r.(noAlteration := checked,
       difficultyBreathing := if checked then false else r.difficultyBreathing,
       tachypnea := if checked then false else r.tachypnea,
       dyspnea := if checked then false else r.dyspnea,
       bradypnea := if checked then false else r.bradypnea)
  }

  /** A symptom checkbox, in either direction, switches "no alteration" off. */
  function ToggleRespiration(r: ShortRespiration, s: ShortRespSymptom, checked: bool): (n: ShortRespiration)
    ensures RespirationOk(n)
    ensures n.Get(s) == checked
    ensures forall o :: o != s ==> n.Get(o) == r.Get(o)
    ensures !n.noAlteration
    ensures n.observations == r.observations
  {
    match s
    case DifficultyBreathing => r.(difficultyBreathing := checked, noAlteration := false)
    case Tachypnea => r.(tachypnea := checked, noAlteration := false)
    case Dyspnea => r.(dyspnea := checked, noAlteration := false)
    case Bradypnea => r.(bradypnea := checked, noAlteration := false)
  }

  // ----- Feeding

  /** A difficulty checkbox, in either direction, switches "no alteration" off. */
  function ToggleDifficulty(f: ShortFeeding, d: FeedingDifficulty, checked: bool): (n: ShortFeeding)
    ensures FeedingOk(f) ==> FeedingOk(n)
    ensures SameFeedingTexts(n, f)
    ensures n.Difficulty(d) == checked
    ensures SameAids(n, f)
    ensures !n.noAlteration
    ensures n.autonomous == f.autonomous && n.needsHelp == f.needsHelp && n.intake == f.intake
  {
    match d
    case Chewing => f.(difficultyChewing := checked, noAlteration := false)
    case Drinking => f.(difficultyDrinking := checked, noAlteration := false)
    case Swallowing => f.(difficultySwallowing := checked, noAlteration := false)
    case RefusesToEat => f.(refusesToEat := checked, noAlteration := false)
  }

  /** The other feeding checkboxes leave "no alteration" alone. */
  function SetAid(f: ShortFeeding, a: FeedingAid, v: bool): (n: ShortFeeding)
    ensures FeedingOk(f) ==> FeedingOk(n)
    ensures SameFeedingTexts(n, f)
    ensures n.Aid(a) == v
    ensures SameDifficulties(n, f)
    ensures n.noAlteration == f.noAlteration
    ensures n.autonomous == f.autonomous && n.needsHelp == f.needsHelp && n.intake == f.intake
  {
    match a
    case DentalProsthesis => f.(dentalProsthesis := v)
    case NasogastricTube => f.(nasogastricTube := v)
    case ParenteralNutrition => f.(parenteralNutrition := v)
    case FeedingOstomy => f.(ostomy := v)
    case AspirationRisk => f.(aspirationRisk := v)
    case Vomiting => f.(vomiting := v)
    case Nausea => f.(nausea := v)
  }

  /** A difficulty checkbox leaves the other three difficulties as they were. */
  lemma ToggleDifficultyFrame(f: ShortFeeding, d: FeedingDifficulty, checked: bool, o: FeedingDifficulty)
    requires o != d
    ensures ToggleDifficulty(f, d, checked).Difficulty(o) == f.Difficulty(o)
  {
  }

  /** An aid checkbox leaves the other six aids as they were. */
  lemma SetAidFrame(f: ShortFeeding, a: FeedingAid, v: bool, o: FeedingAid)
    requires o != a
    ensures SetAid(f, a, v).Aid(o) == f.Aid(o)
  {
  }

  /** The "autonomous" feeding checkbox; checking it clears "needs help". */
  function SetFeedingAutonomous(f: ShortFeeding, checked: bool): (n: ShortFeeding)
    ensures FeedingOk(f) ==> FeedingOk(n)
    ensures SameFeedingTexts(n, f)
    ensures n.autonomous == checked
    ensures n.needsHelp == (f.needsHelp && !checked)
    ensures !(n.autonomous && n.needsHelp)
    ensures SameDifficulties(n, f) && SameAids(n, f)
    ensures n.noAlteration == f.noAlteration
  {
    f.(autonomous := checked, needsHelp := if checked then false else f.needsHelp)
  }

  /** The "needs help" feeding checkbox; checking it clears "autonomous". */
  function SetFeedingNeedsHelp(f: ShortFeeding, checked: bool): (n: ShortFeeding)
    ensures FeedingOk(f) ==> FeedingOk(n)
    ensures SameFeedingTexts(n, f)
    ensures n.needsHelp == checked
    ensures n.autonomous == (f.autonomous && !checked)
    ensures !(n.autonomous && n.needsHelp)
    ensures SameDifficulties(n, f) && SameAids(n, f)
    ensures n.noAlteration == f.noAlteration
  {
    f.(needsHelp := checked, autonomous := if checked then false else f.autonomous)
  }

  // ----- Elimination: plain checkboxes

  function UrinaryItem(u: ShortUrinaryPattern, i: ShortPatternItem): bool
  {
    match i
    case PatternAutonomous => u.autonomous
    case PatternNeedsHelp => u.needsHelp
    case Physiological => u.physiological
    case PatternDevice => u.urinaryCatheter
  }

  function IntestinalItem(p: ShortIntestinalPattern, i: ShortPatternItem): bool
  {
    match i
    case PatternAutonomous => p.autonomous
    case PatternNeedsHelp => p.needsHelp
    case Physiological => p.physiological
    case PatternDevice => p.ostomy
  }

  function SetUrinary(e: ShortElimination, i: ShortPatternItem, v: bool): (n: ShortElimination)
    ensures UrinaryItem(n.urinaryPattern, i) == v
    ensures forall o :: o != i ==> UrinaryItem(n.urinaryPattern, o) == UrinaryItem(e.urinaryPattern, o)
    ensures n.intestinalPattern == e.intestinalPattern
  {
    var u := e.urinaryPattern;
    match i
    case PatternAutonomous => e.(urinaryPattern := u.(autonomous := v))
    case PatternNeedsHelp => e.(urinaryPattern := u.(needsHelp := v))
    case Physiological => e.(urinaryPattern := u.(physiological := v))
    case PatternDevice => e.(urinaryPattern := u.(urinaryCatheter := v))
  }

  function SetIntestinal(e: ShortElimination, i: ShortPatternItem, v: bool): (n: ShortElimination)
    ensures IntestinalItem(n.intestinalPattern, i) == v
    ensures forall o :: o != i ==> IntestinalItem(n.intestinalPattern, o) == IntestinalItem(e.intestinalPattern, o)
    ensures n.urinaryPattern == e.urinaryPattern
  {
    var p := e.intestinalPattern;
    match i
    case PatternAutonomous => e.(intestinalPattern := p.(autonomous := v))
    case PatternNeedsHelp => e.(intestinalPattern := p.(needsHelp := v))
    case Physiological => e.(intestinalPattern := p.(physiological := v))
    case PatternDevice => e.(intestinalPattern := p.(ostomy := v))
  }

  // ----- Rest and sleep, safety

  datatype ShortRestItem = NormalSleepPattern | DifficultySleeping | SleepMedication

  function RestFlag(r: ShortRestAndSleep, i: ShortRestItem): bool
  {
    match i
    case NormalSleepPattern => r.normalSleepPattern
    case DifficultySleeping => r.difficultySleeping
    case SleepMedication => r.needsHelpMedication
  }

  function SetRest(r: ShortRestAndSleep, i: ShortRestItem, v: bool): (n: ShortRestAndSleep)
    ensures RestFlag(n, i) == v
    ensures forall o :: o != i ==> RestFlag(n, o) == RestFlag(r, o)
    ensures n.observations == r.observations
  {
    match i
    case NormalSleepPattern => r.(normalSleepPattern := v)
    case DifficultySleeping => r.(difficultySleeping := v)
    case SleepMedication => r.(needsHelpMedication := v)
  }

  /** The infection-risk radios set both fields, so they stay complements. */
  function ChooseInfectionRisk(s: ShortSafety, risk: bool): (n: ShortSafety)
    ensures SafetyOk(n)
    ensures n.infectionRisk == risk && n.noInfectionRisk == !risk
    ensures n.drainage == s.drainage && n.urinaryCatheter == s.urinaryCatheter
    ensures n.centralLine == s.centralLine && n.protectionProtocol == s.protectionProtocol
    ensures n.fallRiskScore == s.fallRiskScore && n.observations == s.observations
  {
    if risk then s.(infectionRisk := true, noInfectionRisk := false)
    else s.(infectionRisk := false, noInfectionRisk := true)
  }

  datatype ShortSafetyItem = Drainage | SafetyCatheter | CentralLine | ProtectionProtocol

  function SafetyFlag(s: ShortSafety, i: ShortSafetyItem): bool
  {
    match i
    case Drainage => s.drainage
    case SafetyCatheter => s.urinaryCatheter
    case CentralLine => s.centralLine
    case ProtectionProtocol => s.protectionProtocol
  }

  function SetSafety(s: ShortSafety, i: ShortSafetyItem, v: bool): (n: ShortSafety)
    ensures SafetyOk(s) ==> SafetyOk(n)
    ensures SafetyFlag(n, i) == v
    ensures forall o :: o != i ==> SafetyFlag(n, o) == SafetyFlag(s, o)
    ensures n.infectionRisk == s.infectionRisk && n.noInfectionRisk == s.noInfectionRisk
    ensures n.fallRiskScore == s.fallRiskScore && n.observations == s.observations
  {
    match i
    case Drainage => s.(drainage := v)
    case SafetyCatheter => s.(urinaryCatheter := v)
    case CentralLine => s.(centralLine := v)
    case ProtectionProtocol => s.(protectionProtocol := v)
  }

  // ----- Communication

  /** A vision, hearing or speech checkbox, in either direction, switches "no alteration" off. */
  function ToggleSensory(c: ShortCommunication, a: SensoryAlteration, checked: bool): (n: ShortCommunication)
    ensures CommunicationOk(n)
    ensures n.Alteration(a) == checked
    ensures forall o :: o != a ==> n.Alteration(o) == c.Alteration(o)
    ensures !n.noAlteration
    ensures n.languageBarrier == c.languageBarrier
    ensures n.language == c.language && n.observations == c.observations
  {
    match a
    case Vision => c.(visionAlteration := checked, noAlteration := false)
    case Hearing => c.(hearingAlteration := checked, noAlteration := false)
    case Speech => c.(speechDifficulty := checked, noAlteration := false)
  }

  // ----- Events

  /** One user action on a control of the form. */
  datatype ShortEvent =
    | TextEdited(field: ShortText, value: string)
    | RespirationNoAlterationToggled(checked: bool)
    | RespirationToggled(symptom: ShortRespSymptom, checked: bool)
    | FeedingDifficultyToggled(difficulty: FeedingDifficulty, checked: bool)
    | FeedingAidToggled(aid: FeedingAid, checked: bool)
    | IntakeChosen(intake: Intake)
    | FeedingAutonomousToggled(checked: bool)
    | FeedingNeedsHelpToggled(checked: bool)
    | UrinaryToggled(item: ShortPatternItem, checked: bool)
    | IntestinalToggled(item: ShortPatternItem, checked: bool)
    | MobilizationToggled(help: HelpItem, checked: bool)
    | RestToggled(restItem: ShortRestItem, checked: bool)
    | InfectionRiskChosen(risk: bool)
    | SafetyToggled(safetyItem: ShortSafetyItem, checked: bool)
    | SensoryToggled(sensory: SensoryAlteration, checked: bool)
    | LanguageBarrierChosen(barrier: bool)
    | BeliefsChosen(beliefs: bool)
    | AdvanceDirectivesChosen(directives: bool)
    | PainChosen(hasPain: bool)
    | PainTypeToggled(painType: PainType, checked: bool)
    | HealthStatusChosen(status: HealthStatus)
    | KnowledgeLevelChosen(knowledge: KnowledgeLevel)
    | EmotionToggled(emotion: Emotion, checked: bool)
  {
    // The events grouped by the sections they touch, so that facts about
    // all of them can be proved one group at a time.

    predicate OnRespiration()
    {
      RespirationNoAlterationToggled? || RespirationToggled?
    }

    predicate OnFeeding()
    {
      FeedingDifficultyToggled? || FeedingAidToggled? || IntakeChosen?
      || FeedingAutonomousToggled? || FeedingNeedsHelpToggled?
    }

    predicate OnEliminationMobilizationRest()
    {
      UrinaryToggled? || IntestinalToggled? || MobilizationToggled? || RestToggled?
    }

    predicate OnSafetyCommunication()
    {
      InfectionRiskChosen? || SafetyToggled? || SensoryToggled? || LanguageBarrierChosen?
    }
  }

  /**
   * The content after one event. Every handler keeps the invariant, and
   * none can switch feeding "no alteration", communication "no alteration"
   * or mobilization "autonomous" back on; the language-barrier radio leaves
   * communication "no alteration" as it was.
   */
  function Apply(c: ShortContent, e: ShortEvent): (r: ShortContent)
    ensures r.feeding.noAlteration ==> c.feeding.noAlteration
    ensures r.communication.noAlteration ==> c.communication.noAlteration
    ensures r.mobilization.autonomous ==> c.mobilization.autonomous
    ensures e.LanguageBarrierChosen? ==> r.communication.noAlteration == c.communication.noAlteration
    ensures r.snapshot == c.snapshot
  {
    match e
    case TextEdited(f, v) => SetText(c, f, v)
    case RespirationNoAlterationToggled(checked) =>
      c.(respiration := SetRespirationNoAlteration(c.respiration, checked))
    case RespirationToggled(s, checked) =>
      c.(respiration := ToggleRespiration(c.respiration, s, checked))
    case FeedingDifficultyToggled(d, checked) => c.(feeding := ToggleDifficulty(c.feeding, d, checked))
    case FeedingAidToggled(a, checked) => c.(feeding := SetAid(c.feeding, a, checked))
    case IntakeChosen(i) => c.(feeding := c.feeding.(intake := i))
    case FeedingAutonomousToggled(checked) => c.(feeding := SetFeedingAutonomous(c.feeding, checked))
    case FeedingNeedsHelpToggled(checked) => c.(feeding := SetFeedingNeedsHelp(c.feeding, checked))
    case UrinaryToggled(i, checked) => c.(elimination := SetUrinary(c.elimination, i, checked))
    case IntestinalToggled(i, checked) => c.(elimination := SetIntestinal(c.elimination, i, checked))
    case MobilizationToggled(m, checked) => c.(mobilization := c.mobilization.Toggle(m, checked))
    case RestToggled(i, checked) => c.(restAndSleep := SetRest(c.restAndSleep, i, checked))
    case InfectionRiskChosen(risk) => c.(safety := ChooseInfectionRisk(c.safety, risk))
    case SafetyToggled(i, checked) => c.(safety := SetSafety(c.safety, i, checked))
    case SensoryToggled(a, checked) => c.(communication := ToggleSensory(c.communication, a, checked))
    case LanguageBarrierChosen(b) => c.(communication := c.communication.(languageBarrier := b))
    case BeliefsChosen(b) => c.(beliefsAndValues := c.beliefsAndValues.(hasReligiousCulturalBeliefs := b))
    case AdvanceDirectivesChosen(b) => c.(beliefsAndValues := c.beliefsAndValues.(advanceDirectives := b))
    case PainChosen(p) => c.(comfort := c.comfort.(hasPain := p))
    case PainTypeToggled(p, checked) => c.(comfort := c.comfort.Set(p, checked))
    case HealthStatusChosen(h) => c.(learning := c.learning.(healthStatus := h))
    case KnowledgeLevelChosen(k) => c.(learning := c.learning.(knowledgeLevel := k))
    case EmotionToggled(em, checked) => c.(psychosocial := c.psychosocial.Set(em, checked))
  }

  /** Two records whose free-text fields all agree. */
  predicate SameTexts(a: ShortContent, b: ShortContent)
  {
    a.nurse == b.nurse && a.respiration.observations == b.respiration.observations
    && SameFeedingTexts(a.feeding, b.feeding)
    && a.mobilization.observations == b.mobilization.observations
    && a.restAndSleep.observations == b.restAndSleep.observations
    && a.safety.fallRiskScore == b.safety.fallRiskScore && a.safety.observations == b.safety.observations
    && a.communication.language == b.communication.language
    && a.communication.observations == b.communication.observations
    && a.beliefsAndValues.observations == b.beliefsAndValues.observations
    && a.comfort.painLocation == b.comfort.painLocation && a.comfort.painIntensity == b.comfort.painIntensity
    && a.comfort.painScale == b.comfort.painScale && a.learning.observations == b.learning.observations
    && a.additionalComments == b.additionalComments
  }

  lemma SameTextsAgree(a: ShortContent, b: ShortContent)
    requires SameTexts(a, b)
    ensures forall g :: Text(a, g) == Text(b, g)
  {
  }

  /** A text input sets its own text, keeps every other text and touches no control. */
  lemma ApplyTextEdit(c: ShortContent, f: ShortText, v: string)
    ensures Text(Apply(c, TextEdited(f, v)), f) == v
    ensures forall g :: g != f ==> Text(Apply(c, TextEdited(f, v)), g) == Text(c, g)
    ensures Erase(Apply(c, TextEdited(f, v))) == Erase(c)
  {
  }

  // Each group of controls keeps the invariant and leaves every text alone.

  lemma RespirationControls(c: ShortContent, e: ShortEvent)
    requires e.OnRespiration()
    ensures Invariant(c) ==> Invariant(Apply(c, e))
    ensures SameTexts(Apply(c, e), c)
  {
  }

  lemma FeedingControls(c: ShortContent, e: ShortEvent)
    requires e.OnFeeding()
    ensures Invariant(c) ==> Invariant(Apply(c, e))
    ensures SameTexts(Apply(c, e), c)
  {
  }

  lemma EliminationMobilizationRestControls(c: ShortContent, e: ShortEvent)
    requires e.OnEliminationMobilizationRest()
    ensures Invariant(c) ==> Invariant(Apply(c, e))
    ensures SameTexts(Apply(c, e), c)
  {
  }

  lemma SafetyCommunicationControls(c: ShortContent, e: ShortEvent)
    requires e.OnSafetyCommunication()
    ensures Invariant(c) ==> Invariant(Apply(c, e))
    ensures SameTexts(Apply(c, e), c)
  {
  }

  lemma RemainingControls(c: ShortContent, e: ShortEvent)
    requires !e.TextEdited? && !e.OnRespiration() && !e.OnFeeding()
             && !e.OnEliminationMobilizationRest() && !e.OnSafetyCommunication()
    ensures Invariant(c) ==> Invariant(Apply(c, e))
    ensures SameTexts(Apply(c, e), c)
  {
  }

  /** Every control other than a text input keeps the invariant and leaves every text as it was. */
  lemma ControlsKeepTexts(c: ShortContent, e: ShortEvent)
    requires !e.TextEdited?
    ensures Invariant(c) ==> Invariant(Apply(c, e))
    ensures forall g :: Text(Apply(c, e), g) == Text(c, g)
  {
    if e.OnRespiration() {
      RespirationControls(c, e);
    } else if e.OnFeeding() {
      FeedingControls(c, e);
    } else if e.OnEliminationMobilizationRest() {
      EliminationMobilizationRestControls(c, e);
    } else if e.OnSafetyCommunication() {
      SafetyCommunicationControls(c, e);
    } else {
      RemainingControls(c, e);
    }
    SameTextsAgree(Apply(c, e), c);
  }

  /** Every handler keeps the invariant. */
  lemma ApplyInvariant(c: ShortContent, e: ShortEvent)
    requires Invariant(c)
    ensures Invariant(Apply(c, e))
  {
    if e.TextEdited? {
      assert Erase(Apply(c, e)) == Erase(c);
    } else {
      ControlsKeepTexts(c, e);
    }
  }

  /** The content after a sequence of events, in order. */
  function ApplyAll(c: ShortContent, es: seq<ShortEvent>): ShortContent
    decreases |es|
  {
    if es == [] then c else ApplyAll(Apply(c, es[0]), es[1..])
  }

  /** The invariant holds after any sequence of events from a record where it holds. */
  lemma {:induction false} ApplyAllInvariant(c: ShortContent, es: seq<ShortEvent>)
    requires Invariant(c)
    ensures Invariant(ApplyAll(c, es))
    decreases |es|
  {
    if es != [] {
      ApplyInvariant(c, es[0]);
      ApplyAllInvariant(Apply(c, es[0]), es[1..]);
    }
  }

  /**
   * Once feeding "no alteration", communication "no alteration" or
   * mobilization "autonomous" is off, no sequence of events turns it on again.
   */
  lemma {:induction false} NeverBackToTrue(c: ShortContent, es: seq<ShortEvent>)
    ensures ApplyAll(c, es).feeding.noAlteration ==> c.feeding.noAlteration
    ensures ApplyAll(c, es).communication.noAlteration ==> c.communication.noAlteration
    ensures ApplyAll(c, es).mobilization.autonomous ==> c.mobilization.autonomous
    decreases |es|
  {
    if es != [] {
      NeverBackToTrue(Apply(c, es[0]), es[1..]);
    }
  }

  /** Every record a new form can reach satisfies the invariant. */
  lemma ReachableInvariant(es: seq<ShortEvent>)
    ensures Invariant(ApplyAll(EmptyEvaluation(), es))
  {
    ApplyAllInvariant(EmptyEvaluation(), es);
  }

  /** The nurse name is changed by its own text input and by nothing else. */
  lemma {:induction false} NurseOnlyFromItsInput(c: ShortContent, es: seq<ShortEvent>)
    requires forall i :: 0 <= i < |es| ==> !(es[i].TextEdited? && es[i].field == Nurse)
    ensures ApplyAll(c, es).nurse == c.nurse
    decreases |es|
  {
    if es != [] {
      if es[0].TextEdited? {
        ApplyTextEdit(c, es[0].field, es[0].value);
      } else {
        ControlsKeepTexts(c, es[0]);
        assert Text(Apply(c, es[0]), Nurse) == Text(c, Nurse);
      }
      NurseOnlyFromItsInput(Apply(c, es[0]), es[1..]);
    }
  }

  // ----- The form component

  /** The form's state: the content being edited and the record it was opened on, if any. */
  class ShortStayFormController {
    var formData: ShortContent
    const initialData: Option<SurgicalShortEvaluation>

    /** Opens the form on an existing record, or on the default record. */
    constructor(initialData: Option<SurgicalShortEvaluation>)
      ensures this.initialData == initialData
      ensures formData == if initialData.Some? then initialData.value.content else EmptyEvaluation()
    {
      this.initialData := initialData;
      formData := if initialData.Some? then initialData.value.content else EmptyEvaluation();
    }

    /** A control's change handler replaces the content with its update. */
    method Handle(e: ShortEvent)
      modifies this
      ensures formData == Apply(old(formData), e)
      ensures Invariant(old(formData)) ==> Invariant(formData)
    {
      if Invariant(formData) {
        ApplyInvariant(formData, e);
      }
      formData := Apply(formData, e);
    }

    /**
     * Submit. A blank nurse name (empty or whitespace only) is refused and
     * nothing is saved; otherwise the record is the current content with the
     * edited record's id and date when they are non-empty, and an
     * `eval-<millis>` id and the current ISO time otherwise.
     */
    method Submit(nowMillis: nat, isoNow: string) returns (r: Result<SurgicalShortEvaluation, SubmitError>)
      ensures r.Err? <==> Trim(formData.nurse) == []
      ensures r.Ok? ==> r.value.content == formData
      ensures r.Ok? ==> r.value.id == KeptOrFresh(if initialData.Some? then Some(initialData.value.id) else None,
                                                  StampedId("eval", nowMillis))
      ensures r.Ok? ==> r.value.date == KeptOrFresh(if initialData.Some? then Some(initialData.value.date) else None,
                                                    isoNow)
    {
      if Trim(formData.nurse) == [] {
        return Err(MissingNurse);
      }
      var id := if initialData.Some? && initialData.value.id != "" then initialData.value.id
                else StampedId("eval", nowMillis);
      var date := if initialData.Some? && initialData.value.date != "" then initialData.value.date
                  else isoNow;
      r := Ok(SurgicalShortEvaluation(id, date, formData));
    }
  }
}
