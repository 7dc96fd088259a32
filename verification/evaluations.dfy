/**
 * The nursing-evaluation records: the two questionnaire variants (short-stay
 * surgical and ambulatory major surgery, "CMA"), the sections they share,
 * their closed enumerations, and the union both variants belong to.
 *
 * A record is split into its `id`/`date` and its questionnaire content: the
 * forms edit the content alone and stamp the id and date on submit.
 */
module Evaluations {
  import opened Wrappers

  datatype EvaluationType = SurgicalShort | Cma

  /** Oral intake in the nutritional screening (3 values). */
  datatype Intake = NormalIntake | Half | AlmostNothing

  /** How the patient feels about their health (4 values). */
  datatype HealthStatus = Tranquility | Worry | Anguish | Fear

  /** Level of consciousness (4 values). */
  datatype Consciousness = Alert | Conscious | Stuporous | Coma

  /** Fall-risk level (2 values). */
  datatype RiskLevel = NoRisk | WithRisk

  /** A checklist answer that admits only yes or no. */
  datatype YesNo = Yes | No

  /** A checklist answer that also admits "not applicable" (`np`). */
  datatype Answer = AnswerYes | AnswerNo | NotApplicable

  /** Knowledge of one's own condition, on the 1 (none) to 5 (extensive) scale. */
  type KnowledgeLevel = k: int | 1 <= k <= 5 witness 3

  // ----- Emotional state: CMA `communication.emotionalState`, short-stay `psychosocial`

  datatype Emotion = Calm | Worried | Anxious | Sad | Apathetic | Irritable

  datatype Emotions = Emotions(calm: bool, worried: bool, anxious: bool, sad: bool,
                               apathetic: bool, irritable: bool)
  {
    function Get(e: Emotion): bool
    {
      match e
      case Calm => calm
      case Worried => worried
      case Anxious => anxious
      case Sad => sad
      case Apathetic => apathetic
      case Irritable => irritable
    }

    /** One checkbox of the group; every other emotion keeps its value. */
    function Set(e: Emotion, v: bool): (r: Emotions)
      ensures r.Get(e) == v
      ensures forall o :: o != e ==> r.Get(o) == Get(o)
    {
      match e
      case Calm => this.(calm := v)
      case Worried => this.(worried := v)
      case Anxious => this.(anxious := v)
      case Sad => this.(sad := v)
      case Apathetic => this.(apathetic := v)
      case Irritable => this.(irritable := v)
    }

    /** Any emotion that counts as an alteration; calm is not one. */
    predicate AnyDistress()
    {
      worried || anxious || sad || apathetic || irritable
    }
  }

  // ----- Mobilization, the same shape in both variants

  datatype Mobility = Autonomous | Dependent | Bedridden | PartialHelp | TotalHelp

  /** The mobility items other than `autonomous`: those that need some help, plus bedridden. */
  type HelpItem = m: Mobility | m != Autonomous witness Dependent

  datatype Mobilization = Mobilization(autonomous: bool, dependent: bool, bedridden: bool,
                                       needsPartialHelp: bool, needsTotalHelp: bool,
                                       observations: string)
  {
    function Get(m: Mobility): bool
    {
      match m
      case Autonomous => autonomous
      case Dependent => dependent
      case Bedridden => bedridden
      case PartialHelp => needsPartialHelp
      case TotalHelp => needsTotalHelp
    }

    /** An autonomous patient needs no kind of help. */
    predicate Exclusive()
    {
      autonomous ==> !dependent && !needsPartialHelp && !needsTotalHelp
    }

    /**
     * A mobility checkbox. Checking autonomous clears the three help items;
     * checking one of the help items clears autonomous; bedridden is
     * independent of all of them.
     */
    function Toggle(m: Mobility, checked: bool): (r: Mobilization)
      ensures r.Get(m) == checked
      ensures r.observations == observations && r.bedridden == (if m == Bedridden then checked else bedridden)
      ensures m == Autonomous && checked ==> !r.dependent && !r.needsPartialHelp && !r.needsTotalHelp
      ensures m in {Dependent, PartialHelp, TotalHelp} && checked ==> !r.autonomous
      ensures forall o :: o != m && !(checked && Clears(m, o)) ==> r.Get(o) == Get(o)
      ensures Exclusive() ==> r.Exclusive()
      ensures m != Autonomous && r.autonomous ==> autonomous
    {
      match m
      case Autonomous =>
        this.(autonomous := checked,
              dependent := if checked then false else dependent,
              needsPartialHelp := if checked then false else needsPartialHelp,
              needsTotalHelp := if checked then false else needsTotalHelp)
      case Dependent => this.(dependent := checked, autonomous := if checked then false else autonomous)
      case Bedridden => this.(bedridden := checked)
      case PartialHelp => this.(needsPartialHelp := checked, autonomous := if checked then false else autonomous)
      case TotalHelp => this.(needsTotalHelp := checked, autonomous := if checked then false else autonomous)
    }
  }

  /** Whether checking item `m` clears item `o`. */
  predicate Clears(m: Mobility, o: Mobility)
  {
    (m == Autonomous && o in {Dependent, PartialHelp, TotalHelp})
    || (m in {Dependent, PartialHelp, TotalHelp} && o == Autonomous)
  }

  // ----- Comfort (pain), the same shape in both variants

  datatype PainType = Acute | Chronic | WithMovement

  datatype Comfort = Comfort(hasPain: bool, painLocation: string, painTypeAcute: bool,
                             painTypeChronic: bool, painWithMovement: bool,
                             painIntensity: string, painScale: string)
  {
    function Get(p: PainType): bool
    {
      match p
      case Acute => painTypeAcute
      case Chronic => painTypeChronic
      case WithMovement => painWithMovement
    }

    /** One pain-type checkbox; the pain answer, the texts and the other types are kept. */
    function Set(p: PainType, v: bool): (r: Comfort)
      ensures r.Get(p) == v
      ensures forall o :: o != p ==> r.Get(o) == Get(o)
      ensures r.hasPain == hasPain && r.painLocation == painLocation
      ensures r.painIntensity == painIntensity && r.painScale == painScale
    {
      match p
      case Acute => this.(painTypeAcute := v)
      case Chronic => this.(painTypeChronic := v)
      case WithMovement => this.(painWithMovement := v)
    }
  }

  // ----- Respiration symptoms: CMA has all five, short-stay has no retractions

  datatype RespSymptom = Dyspnea | Tachypnea | Bradypnea | Retractions | DifficultyBreathing

  type ShortRespSymptom = s: RespSymptom | s != Retractions witness Dyspnea

  // ----- CMA variant

  datatype CmaRespiration = CmaRespiration(noAlteration: bool, dyspnea: bool, tachypnea: bool,
                                           bradypnea: bool, retractions: bool,
                                           difficultyBreathing: bool, observations: string)
  {
    function Get(s: RespSymptom): bool
    {
      match s
      case Dyspnea => dyspnea
      case Tachypnea => tachypnea
      case Bradypnea => bradypnea
      case Retractions => retractions
      case DifficultyBreathing => difficultyBreathing
    }

    predicate AnySymptom()
    {
      dyspnea || tachypnea || bradypnea || retractions || difficultyBreathing
    }
  }

  datatype CmaFeeding = CmaFeeding(fasting: bool, lastIntakeTime: string, observations: string)

  datatype UrinaryPattern = UrinaryPattern(continent: bool, incontinent: bool,
                                           urinaryCatheter: bool, other: string)

  datatype IntestinalPattern = IntestinalPattern(continent: bool, incontinent: bool,
                                                 ostomies: bool, other: string)

  /** The three checkboxes of a CMA elimination pattern; the third is the catheter or the ostomies. */
  datatype PatternItem = Continent | Incontinent | Device

  datatype CmaElimination = CmaElimination(noAlteration: bool, urinaryPattern: UrinaryPattern,
                                           intestinalPattern: IntestinalPattern,
                                           observations: string)

  datatype CmaRestAndSleep = CmaRestAndSleep(normalPattern: bool, difficulty: bool,
                                             needsHelpMedication: bool, observations: string)

  datatype CmaSafety = CmaSafety(fallRiskScore: string, riskLevel: RiskLevel,
                                 visionAlteration: bool, hearingAlteration: bool,
                                 memoryAlteration: bool, speechDifficulty: bool,
                                 observations: string)

  datatype CmaCommunication = CmaCommunication(noAlteration: bool, emotionalState: Emotions,
                                               consciousnessLevel: Consciousness, oriented: bool,
                                               languageBarrier: bool, language: string,
                                               observations: string)

  datatype CmaLearning = CmaLearning(hasObstacles: bool, obstaclesDescription: string,
                                     knowledgeLevel: KnowledgeLevel, observations: string)

  /** The checklist items answered yes or no. */
  datatype BinaryItem = IdentificationBracelet | PatientIdentificationVerified
                      | ScheduledSurgery | SurgeryConsent

  /** The checklist items answered yes, no or not applicable. */
  datatype TernaryItem = AnesthesiaConsent | PreoperativeCompleted | SurgicalAreaPrepared
                       | MetallicObjectsRemoved | ProsthesisRemoved | IntestinalPreparation
                       | PeripheralLineInserted | Premedication

  datatype PresurgicalChecklist = PresurgicalChecklist(
    identificationBracelet: YesNo,
    patientIdentificationVerified: YesNo,
    scheduledSurgery: YesNo,
    anesthesiaConsent: Answer,
    surgeryConsent: YesNo,
    preoperativeCompleted: Answer,
    surgicalAreaPrepared: Answer,
    metallicObjectsRemoved: Answer,
    prosthesisRemoved: Answer,
    intestinalPreparation: Answer,
    intestinalPreparationDetails: string,
    peripheralLineInserted: Answer,
    premedication: Answer,
    premedicationDetails: string)
  {
    function Binary(i: BinaryItem): YesNo
    {
      match i
      case IdentificationBracelet => identificationBracelet
      case PatientIdentificationVerified => patientIdentificationVerified
      case ScheduledSurgery => scheduledSurgery
      case SurgeryConsent => surgeryConsent
    }

    function Ternary(i: TernaryItem): Answer
    {
      match i
      case AnesthesiaConsent => anesthesiaConsent
      case PreoperativeCompleted => preoperativeCompleted
      case SurgicalAreaPrepared => surgicalAreaPrepared
      case MetallicObjectsRemoved => metallicObjectsRemoved
      case ProsthesisRemoved => prosthesisRemoved
      case IntestinalPreparation => intestinalPreparation
      case PeripheralLineInserted => peripheralLineInserted
      case Premedication => premedication
    }

    /** A yes/no radio: that item takes the answer, every other item and both details are kept. */
    function SetBinary(i: BinaryItem, a: YesNo): (r: PresurgicalChecklist)
      ensures r.Binary(i) == a
      ensures forall o :: o != i ==> r.Binary(o) == Binary(o)
      ensures forall t :: r.Ternary(t) == Ternary(t)
      ensures r.intestinalPreparationDetails == intestinalPreparationDetails
      ensures r.premedicationDetails == premedicationDetails
    {
      match i
      case IdentificationBracelet => this.(identificationBracelet := a)
      case PatientIdentificationVerified => this.(patientIdentificationVerified := a)
      case ScheduledSurgery => this.(scheduledSurgery := a)
      case SurgeryConsent => this.(surgeryConsent := a)
    }

    /** A yes/no/np radio: that item takes the answer, every other item and both details are kept. */
    function SetTernary(i: TernaryItem, a: Answer): (r: PresurgicalChecklist)
      ensures r.Ternary(i) == a
      ensures forall o :: o != i ==> r.Ternary(o) == Ternary(o)
      ensures forall b :: r.Binary(b) == Binary(b)
      ensures r.intestinalPreparationDetails == intestinalPreparationDetails
      ensures r.premedicationDetails == premedicationDetails
    {
      match i
      case AnesthesiaConsent => this.(anesthesiaConsent := a)
      case PreoperativeCompleted => this.(preoperativeCompleted := a)
      case SurgicalAreaPrepared => this.(surgicalAreaPrepared := a)
      case MetallicObjectsRemoved => this.(metallicObjectsRemoved := a)
      case ProsthesisRemoved => this.(prosthesisRemoved := a)
      case IntestinalPreparation => this.(intestinalPreparation := a)
      case PeripheralLineInserted => this.(peripheralLineInserted := a)
      case Premedication => this.(premedication := a)
    }
  }

  /** Everything a CMA evaluation holds apart from its id and date. */
  datatype CmaContent = CmaContent(
    evaluationName: string,
    nurse: string,
    patientName: string,
    habitualMedication: string,
    respiration: CmaRespiration,
    feeding: CmaFeeding,
    elimination: CmaElimination,
    mobilization: Mobilization,
    restAndSleep: CmaRestAndSleep,
    safety: CmaSafety,
    communication: CmaCommunication,
    comfort: Comfort,
    learning: CmaLearning,
    presurgicalChecklist: PresurgicalChecklist)

  datatype CMAEvaluation = CMAEvaluation(id: string, date: string, content: CmaContent)

  // ----- Short-stay variant

  datatype ShortRespiration = ShortRespiration(noAlteration: bool, difficultyBreathing: bool,
                                               tachypnea: bool, dyspnea: bool, bradypnea: bool,
                                               observations: string)
  {
    function Get(s: ShortRespSymptom): bool
    {
      match s
      case DifficultyBreathing => difficultyBreathing
      case Tachypnea => tachypnea
      case Dyspnea => dyspnea
      case Bradypnea => bradypnea
    }

    predicate AnySymptom()
    {
      difficultyBreathing || tachypnea || dyspnea || bradypnea
    }
  }

  /** The feeding difficulties that count against "no alteration". */
  datatype FeedingDifficulty = Chewing | Drinking | Swallowing | RefusesToEat

  /** The feeding items that do not touch "no alteration". */
  datatype FeedingAid = DentalProsthesis | NasogastricTube | ParenteralNutrition
                      | FeedingOstomy | AspirationRisk | Vomiting | Nausea

  datatype ShortFeeding = ShortFeeding(
    noAlteration: bool,
    difficultyChewing: bool,
    difficultyDrinking: bool,
    difficultySwallowing: bool,
    refusesToEat: bool,
    dentalProsthesis: bool,
    nasogastricTube: bool,
    parenteralNutrition: bool,
    ostomy: bool,
    aspirationRisk: bool,
    vomiting: bool,
    nausea: bool,
    currentWeight: string,
    height: string,
    bmi: string,
    usualWeight: string,
    weightLossPercentage: string,
    intake: Intake,
    mustScore: string,
    autonomous: bool,
    needsHelp: bool,
    diet: string,
    dailyLiquidIntake: string,
    observations: string)
  {
    function Difficulty(d: FeedingDifficulty): bool
    {
      match d
      case Chewing => difficultyChewing
      case Drinking => difficultyDrinking
      case Swallowing => difficultySwallowing
      case RefusesToEat => refusesToEat
    }

    function Aid(a: FeedingAid): bool
    {
      match a
      case DentalProsthesis => dentalProsthesis
      case NasogastricTube => nasogastricTube
      case ParenteralNutrition => parenteralNutrition
      case FeedingOstomy => ostomy
      case AspirationRisk => aspirationRisk
      case Vomiting => vomiting
      case Nausea => nausea
    }

    predicate AnyDifficulty()
    {
      difficultyChewing || difficultyDrinking || difficultySwallowing || refusesToEat
    }
  }

  /** The four checkboxes of a short-stay elimination pattern; the fourth is the catheter or the ostomy. */
  datatype ShortPatternItem = PatternAutonomous | PatternNeedsHelp | Physiological | PatternDevice

  datatype ShortUrinaryPattern = ShortUrinaryPattern(autonomous: bool, needsHelp: bool,
                                                     physiological: bool, urinaryCatheter: bool)

  datatype ShortIntestinalPattern = ShortIntestinalPattern(autonomous: bool, needsHelp: bool,
                                                           physiological: bool, ostomy: bool)

  datatype ShortElimination = ShortElimination(urinaryPattern: ShortUrinaryPattern,
                                               intestinalPattern: ShortIntestinalPattern)

  datatype ShortRestAndSleep = ShortRestAndSleep(normalSleepPattern: bool, difficultySleeping: bool,
                                                 needsHelpMedication: bool, observations: string)

  datatype ShortSafety = ShortSafety(infectionRisk: bool, noInfectionRisk: bool, drainage: bool,
                                     urinaryCatheter: bool, centralLine: bool,
                                     fallRiskScore: string, protectionProtocol: bool,
                                     observations: string)

  /** The communication alterations that count against "no alteration". */
  datatype SensoryAlteration = Vision | Hearing | Speech

  datatype ShortCommunication = ShortCommunication(noAlteration: bool, visionAlteration: bool,
                                                   hearingAlteration: bool, speechDifficulty: bool,
                                                   languageBarrier: bool, language: string,
                                                   observations: string)
  {
    function Alteration(a: SensoryAlteration): bool
    {
      match a
      case Vision => visionAlteration
      case Hearing => hearingAlteration
      case Speech => speechDifficulty
    }

    predicate AnyAlteration()
    {
      visionAlteration || hearingAlteration || speechDifficulty
    }
  }

  datatype BeliefsAndValues = BeliefsAndValues(hasReligiousCulturalBeliefs: bool,
                                               advanceDirectives: bool, observations: string)

  datatype ShortLearning = ShortLearning(healthStatus: HealthStatus,
                                         knowledgeLevel: KnowledgeLevel, observations: string)

  /**
   * The patient, nurse, vital-sign, allergy and signature fields a short-stay
   * record declares as preloaded. The form's empty record leaves all of them
   * out and no handler writes them, so a record holds them or not as a whole.
   */
  datatype PatientSnapshot = PatientSnapshot(
    patientAddress: string,
    patientNIS: string,
    patientPhone: string,
    patientDateOfBirth: string,
    nurseCollegiateNumber: string,
    evaluationDate: string,
    evaluationTime: string,
    temperature: string,
    viaAnular: string,
    tasSistolica: string,
    tadDiastolica: string,
    fc: string,
    fr: string,
    satO2: string,
    aireAmb: string,
    hasAllergies: bool,
    allergiesDetails: string,
    personalHistory: string,
    habitualMedication: string,
    signedBy: string,
    reportDate: string,
    reportTime: string)

  /** Everything a short-stay evaluation holds apart from its id and date. */
  datatype ShortContent = ShortContent(
    evaluationName: string,
    nurse: string,
    patientName: string,
    snapshot: Option<PatientSnapshot>,
    respiration: ShortRespiration,
    feeding: ShortFeeding,
    elimination: ShortElimination,
    mobilization: Mobilization,
    restAndSleep: ShortRestAndSleep,
    safety: ShortSafety,
    communication: ShortCommunication,
    beliefsAndValues: BeliefsAndValues,
    comfort: Comfort,
    learning: ShortLearning,
    psychosocial: Emotions,
    additionalComments: string)

  datatype SurgicalShortEvaluation = SurgicalShortEvaluation(id: string, date: string,
                                                             content: ShortContent)

  // ----- The union and its common part

  datatype BaseEvaluation = BaseEvaluation(id: string, date: string,
                                           evaluationType: EvaluationType,
                                           evaluationName: string, nurse: string,
                                           patientName: string)

  /** A stored evaluation: one of exactly two variants. */
  datatype NursingEvaluation =
    | ShortStayRecord(shortStay: SurgicalShortEvaluation)
    | CmaRecord(cma: CMAEvaluation)
  {
    function Id(): string
    {
      match this
      case ShortStayRecord(e) => e.id
      case CmaRecord(e) => e.id
    }

    /**
     * The fields both variants share; the evaluation type names the variant
     * and the id is the record's own.
     */
    function Base(): (b: BaseEvaluation)
      ensures b.evaluationType == SurgicalShort <==> ShortStayRecord?
      ensures b.evaluationType == Cma <==> CmaRecord?
      ensures b.id == Id()
    {
      match this
      case ShortStayRecord(e) =>
        BaseEvaluation(e.id, e.date, SurgicalShort, e.content.evaluationName,
                       e.content.nurse, e.content.patientName)
      case CmaRecord(e) =>
        BaseEvaluation(e.id, e.date, Cma, e.content.evaluationName,
                       e.content.nurse, e.content.patientName)
    }
  }

  /** The evaluation type an id-less record is tagged with tells the variants apart. */
  lemma BaseTellsVariantsApart(a: NursingEvaluation, b: NursingEvaluation)
    requires a.Base().evaluationType == b.Base().evaluationType
    ensures a.ShortStayRecord? <==> b.ShortStayRecord?
  {
  }

  // ----- The catalogue of evaluation types offered to the user

  datatype EvaluationTypeInfo = EvaluationTypeInfo(evaluationType: EvaluationType,
                                                   name: string, description: string)

  const EvaluationTypes: seq<EvaluationTypeInfo> := [
    EvaluationTypeInfo(SurgicalShort,
      "Evaluación al Paciente Quirúrgico de Corta Estancia",
      "Evaluación completa para pacientes quirúrgicos de corta estancia hospitalaria"),
    EvaluationTypeInfo(Cma,
      "Evaluación de Enfermería Cirugía Mayor Ambulatoria",
      "Evaluación para pacientes de Cirugía Mayor Ambulatoria (CMA)")
  ]

  /** The list offers each type exactly once, short-stay first. */
  lemma EvaluationTypesListed()
    ensures |EvaluationTypes| == 2
    ensures EvaluationTypes[0].evaluationType == SurgicalShort
    ensures EvaluationTypes[1].evaluationType == Cma
  {
  }

  // ----- Submit: shared by both forms

  /** Why a form refused to submit. */
  datatype SubmitError = MissingNurse

  /**
   * `initial?.field || generated`: the value of the record being edited when it
   * is there and non-empty (an empty string is falsy), the generated one otherwise.
   */
  function KeptOrFresh(kept: Option<string>, generated: string): (r: string)
    ensures kept.Some? && kept.value != "" ==> r == kept.value
    ensures kept.None? || kept.value == "" ==> r == generated
  {
    if kept.Some? && kept.value != "" then kept.value else generated
  }
}
