/**
 * The intent catalogue of the AI gateway: the intents, the requirements table with its shared defaults,
 * confidence bands, and the category and multi-agent rules derived from the table.
 */
module Intents {
  import opened Wrappers

  /** The members of the `Intent` enum; each one's value is its own name. */
  datatype Intent =
      InvoiceQuery
    | InvoiceCreate
    | InvoiceUpdate
    | InvoiceDelete
    | InvoiceSend
    | InvoiceStatusCheck
    | InvoiceDownload
    | ClientQuery
    | ClientCreate
    | ClientUpdate
    | ClientDelete
    | ClientHistory
    | TransactionQuery
    | TransactionCreate
    | PaymentRecord
    | PaymentQuery
    | BalanceCheck
    | AccountStatement
    | ReminderCreate
    | ReminderList
    | ReminderCancel
    | DocumentUpload
    | DocumentQuery
    | DocumentAnalyze
    | ComplianceQuery
    | ComplianceCheck
    | ComplianceReport
    | GstQuery
    | BusinessHealthCheck
    | ProblemDiagnosis
    | BudgetOptimization
    | CashFlowPlanning
    | ProfitOptimization
    | InvestmentAdvice
    | DebtManagement
    | SalesStrategy
    | CustomerAcquisition
    | PricingStrategy
    | MarketingOptimization
    | CustomerRetention
    | CompetitivePositioning
    | GrowthStrategy
    | MarketExpansion
    | ProductStrategy
    | ScalingAdvice
    | PartnershipOpportunities
    | RiskAssessment
    | TaxOptimization
    | TaxCalculation
    | AuditReadiness
    | CustomerSegmentation
    | ChurnPrediction
    | CustomerLifetimeValue
    | CustomerFeedbackAnalysis
    | ReportGenerate
    | AnalyticsQuery
    | ForecastRequest
    | BenchmarkComparison
    | TrendAnalysis
    | SwotAnalysis
    | ScenarioPlanning
    | GoalSetting
    | ProcessOptimization
    | InventoryOptimization
    | ResourceAllocation
    | GeneralQuery
    | Greeting
    | Help
    | Confirmation
    | Cancellation
    | ClarificationRequest
    | FollowupQuestion
    | Feedback
    | RepeatRequest
    | SlowDown
    | SpeedUp

  /** The member's name (and value). */
  function IntentName(i: Intent): string
  {
    match i
    case InvoiceQuery => "INVOICE_QUERY"
    case InvoiceCreate => "INVOICE_CREATE"
    case InvoiceUpdate => "INVOICE_UPDATE"
    case InvoiceDelete => "INVOICE_DELETE"
    case InvoiceSend => "INVOICE_SEND"
    case InvoiceStatusCheck => "INVOICE_STATUS_CHECK"
    case InvoiceDownload => "INVOICE_DOWNLOAD"
    case ClientQuery => "CLIENT_QUERY"
    case ClientCreate => "CLIENT_CREATE"
    case ClientUpdate => "CLIENT_UPDATE"
    case ClientDelete => "CLIENT_DELETE"
    case ClientHistory => "CLIENT_HISTORY"
    case TransactionQuery => "TRANSACTION_QUERY"
    case TransactionCreate => "TRANSACTION_CREATE"
    case PaymentRecord => "PAYMENT_RECORD"
    case PaymentQuery => "PAYMENT_QUERY"
    case BalanceCheck => "BALANCE_CHECK"
    case AccountStatement => "ACCOUNT_STATEMENT"
    case ReminderCreate => "REMINDER_CREATE"
    case ReminderList => "REMINDER_LIST"
    case ReminderCancel => "REMINDER_CANCEL"
    case DocumentUpload => "DOCUMENT_UPLOAD"
    case DocumentQuery => "DOCUMENT_QUERY"
    case DocumentAnalyze => "DOCUMENT_ANALYZE"
    case ComplianceQuery => "COMPLIANCE_QUERY"
    case ComplianceCheck => "COMPLIANCE_CHECK"
    case ComplianceReport => "COMPLIANCE_REPORT"
    case GstQuery => "GST_QUERY"
    case BusinessHealthCheck => "BUSINESS_HEALTH_CHECK"
    case ProblemDiagnosis => "PROBLEM_DIAGNOSIS"
    case BudgetOptimization => "BUDGET_OPTIMIZATION"
    case CashFlowPlanning => "CASH_FLOW_PLANNING"
    case ProfitOptimization => "PROFIT_OPTIMIZATION"
    case InvestmentAdvice => "INVESTMENT_ADVICE"
    case DebtManagement => "DEBT_MANAGEMENT"
    case SalesStrategy => "SALES_STRATEGY"
    case CustomerAcquisition => "CUSTOMER_ACQUISITION"
    case PricingStrategy => "PRICING_STRATEGY"
    case MarketingOptimization => "MARKETING_OPTIMIZATION"
    case CustomerRetention => "CUSTOMER_RETENTION"
    case CompetitivePositioning => "COMPETITIVE_POSITIONING"
    case GrowthStrategy => "GROWTH_STRATEGY"
    case MarketExpansion => "MARKET_EXPANSION"
    case ProductStrategy => "PRODUCT_STRATEGY"
    case ScalingAdvice => "SCALING_ADVICE"
    case PartnershipOpportunities => "PARTNERSHIP_OPPORTUNITIES"
    case RiskAssessment => "RISK_ASSESSMENT"
    case TaxOptimization => "TAX_OPTIMIZATION"
    case TaxCalculation => "TAX_CALCULATION"
    case AuditReadiness => "AUDIT_READINESS"
    case CustomerSegmentation => "CUSTOMER_SEGMENTATION"
    case ChurnPrediction => "CHURN_PREDICTION"
    case CustomerLifetimeValue => "CUSTOMER_LIFETIME_VALUE"
    case CustomerFeedbackAnalysis => "CUSTOMER_FEEDBACK_ANALYSIS"
    case ReportGenerate => "REPORT_GENERATE"
    case AnalyticsQuery => "ANALYTICS_QUERY"
    case ForecastRequest => "FORECAST_REQUEST"
    case BenchmarkComparison => "BENCHMARK_COMPARISON"
    case TrendAnalysis => "TREND_ANALYSIS"
    case SwotAnalysis => "SWOT_ANALYSIS"
    case ScenarioPlanning => "SCENARIO_PLANNING"
    case GoalSetting => "GOAL_SETTING"
    case ProcessOptimization => "PROCESS_OPTIMIZATION"
    case InventoryOptimization => "INVENTORY_OPTIMIZATION"
    case ResourceAllocation => "RESOURCE_ALLOCATION"
    case GeneralQuery => "GENERAL_QUERY"
    case Greeting => "GREETING"
    case Help => "HELP"
    case Confirmation => "CONFIRMATION"
    case Cancellation => "CANCELLATION"
    case ClarificationRequest => "CLARIFICATION_REQUEST"
    case FollowupQuestion => "FOLLOWUP_QUESTION"
    case Feedback => "FEEDBACK"
    case RepeatRequest => "REPEAT_REQUEST"
    case SlowDown => "SLOW_DOWN"
    case SpeedUp => "SPEED_UP"
  }

  /** `Intent.__members__`, in declaration order. */
  const MEMBERS: seq<Intent> := [
    InvoiceQuery, InvoiceCreate, InvoiceUpdate, InvoiceDelete, InvoiceSend, InvoiceStatusCheck,
    InvoiceDownload, ClientQuery, ClientCreate, ClientUpdate, ClientDelete, ClientHistory,
    TransactionQuery, TransactionCreate, PaymentRecord, PaymentQuery, BalanceCheck, AccountStatement,
    ReminderCreate, ReminderList, ReminderCancel, DocumentUpload, DocumentQuery, DocumentAnalyze,
    ComplianceQuery, ComplianceCheck, ComplianceReport, GstQuery, BusinessHealthCheck, ProblemDiagnosis,
    BudgetOptimization, CashFlowPlanning, ProfitOptimization, InvestmentAdvice, DebtManagement, SalesStrategy,
    CustomerAcquisition, PricingStrategy, MarketingOptimization, CustomerRetention, CompetitivePositioning, GrowthStrategy,
    MarketExpansion, ProductStrategy, ScalingAdvice, PartnershipOpportunities, RiskAssessment, TaxOptimization,
    TaxCalculation, AuditReadiness, CustomerSegmentation, ChurnPrediction, CustomerLifetimeValue, CustomerFeedbackAnalysis,
    ReportGenerate, AnalyticsQuery, ForecastRequest, BenchmarkComparison, TrendAnalysis, SwotAnalysis,
    ScenarioPlanning, GoalSetting, ProcessOptimization, InventoryOptimization, ResourceAllocation, GeneralQuery,
    Greeting, Help, Confirmation, Cancellation, ClarificationRequest, FollowupQuestion,
    Feedback, RepeatRequest, SlowDown, SpeedUp]

  /** The first member of `members` with the given name. */
  function FindByName(s: string, members: seq<Intent>): (r: Option<Intent>)
    ensures r.Some? ==> IntentName(r.value) == s && r.value in members
    ensures r.None? <==> forall x :: x in members ==> IntentName(x) != s
  {
    if members == [] then None
    else if IntentName(members[0]) == s then Some(members[0])
    else FindByName(s, members[1..])
  }

  /** `Intent[s]`, guarded by `s in Intent.__members__`. */
  function ParseIntent(s: string): (r: Option<Intent>)
    ensures r.Some? ==> IntentName(r.value) == s
    ensures r.None? <==> forall x :: x in MEMBERS ==> IntentName(x) != s
  {
    FindByName(s, MEMBERS)
  }

  datatype IntentCategory = Operational | Strategic | Analytical | Conversational | Administrative

  datatype AgentType = FinanceAgent | SalesAgent | GrowthAgent | StrategyAgent | ComplianceAgent
                     | CustomerAgent | OperationsAgent | GeneralAgent

  datatype ComplexityLevel = Simple | Medium | Complex | StrategicComplexity

  datatype ConfidenceLevel = High | MediumConfidence | Low | VeryLow

  /** The requirements of one intent. */
  datatype IntentRequirements = IntentRequirements(
    requiredEntities: seq<string>, optionalEntities: seq<string>, requiresUserConfirmation: bool,
    minimumConfidence: real, primaryAgent: AgentType, supportingAgents: seq<AgentType>,
    complexity: ComplexityLevel, requiresMultiTurn: bool, expectedResponseFormat: string,
    maxResponseTimeSeconds: int, requiresHistoricalData: bool, requiresExternalData: bool, requiresMlModel: bool)

  /** `IntentRequirements(primary_agent=agent)` with every other field at its declared default. */
  function Req(agent: AgentType): IntentRequirements
  {
    IntentRequirements([], [], false, 0.7, agent, [], Simple, false, "text", 5, false, false, false)
  }

  const DEFAULT_OPERATIONAL := Req(OperationsAgent)
  const DEFAULT_ANALYTICAL := Req(FinanceAgent).(complexity := Complex, requiresHistoricalData := true,
                                                 expectedResponseFormat := "chart")
  const DEFAULT_STRATEGIC := Req(StrategyAgent).(supportingAgents := [FinanceAgent], complexity := StrategicComplexity,
                                                 requiresHistoricalData := true, requiresMlModel := true,
                                                 expectedResponseFormat := "report", maxResponseTimeSeconds := 15)
  const DEFAULT_CONVERSATIONAL := Req(GeneralAgent).(minimumConfidence := 0.4, maxResponseTimeSeconds := 2)

  /** Which kind of entry `INTENT_REQUIREMENTS` has for an intent: one of the four shared defaults, a record of its
      own, or none at all. */
  datatype Entry = OperationalDefault | AnalyticalDefault | StrategicDefault | ConversationalDefault | Own | Missing

  function EntryOf(i: Intent): Entry
  {
    match i
    case ReminderCreate | ReminderList | ReminderCancel | DocumentUpload
    | DocumentQuery => OperationalDefault
    case ReportGenerate | AnalyticsQuery | ForecastRequest | BenchmarkComparison
    | TrendAnalysis => AnalyticalDefault
    case ComplianceQuery | ComplianceCheck | ComplianceReport | GstQuery
    | BusinessHealthCheck | ProblemDiagnosis | BudgetOptimization | CashFlowPlanning
    | ProfitOptimization | InvestmentAdvice | DebtManagement | SalesStrategy
    | CustomerAcquisition | PricingStrategy | MarketingOptimization | CustomerRetention
    | GrowthStrategy | MarketExpansion | ProductStrategy | ScalingAdvice
    | PartnershipOpportunities | RiskAssessment | TaxOptimization | TaxCalculation
    | AuditReadiness | CustomerSegmentation | ChurnPrediction | CustomerLifetimeValue
    | CustomerFeedbackAnalysis => StrategicDefault
    case GeneralQuery | Greeting | Help | Confirmation
    | Cancellation | ClarificationRequest | FollowupQuestion | Feedback
    | RepeatRequest | SlowDown | SpeedUp => ConversationalDefault
    case CompetitivePositioning | SwotAnalysis | ScenarioPlanning | GoalSetting
    | ProcessOptimization | InventoryOptimization | ResourceAllocation => Missing
    case _ => Own
  }

  /** The records the table gives individual intents; none names a supporting agent. */
  function OwnEntry(i: Intent): (r: IntentRequirements)
    requires EntryOf(i) == Own
    ensures r.supportingAgents == []
  {
    match i
    case InvoiceQuery => Req(FinanceAgent).(optionalEntities := ["invoice_id", "client_name", "date_range", "status"])
    case InvoiceCreate => Req(FinanceAgent).(requiredEntities := ["client_name", "items"], optionalEntities := ["due_date", "notes", "tax"], requiresUserConfirmation := true, minimumConfidence := 0.8, expectedResponseFormat := "json")
    case InvoiceUpdate => Req(FinanceAgent).(requiredEntities := ["invoice_id"], optionalEntities := ["items", "due_date", "notes", "tax", "status"], requiresUserConfirmation := true)
    case InvoiceDelete => Req(FinanceAgent).(requiredEntities := ["invoice_id"], requiresUserConfirmation := true)
    case InvoiceSend => Req(SalesAgent).(requiredEntities := ["invoice_id"], optionalEntities := ["delivery_method"])
    case InvoiceStatusCheck => Req(FinanceAgent).(requiredEntities := ["invoice_id"])
    case InvoiceDownload => Req(FinanceAgent).(requiredEntities := ["invoice_id"], optionalEntities := ["format"], expectedResponseFormat := "file")
    case ClientQuery => Req(CustomerAgent).(optionalEntities := ["client_id", "client_name"])
    case ClientCreate => Req(CustomerAgent).(requiredEntities := ["client_name", "email"], optionalEntities := ["phone", "address", "gst_number"], requiresUserConfirmation := true)
    case ClientUpdate => Req(CustomerAgent).(requiredEntities := ["client_id"], optionalEntities := ["email", "phone", "address"], requiresUserConfirmation := true)
    case ClientDelete => Req(CustomerAgent).(requiredEntities := ["client_id"], requiresUserConfirmation := true)
    case ClientHistory => Req(CustomerAgent).(requiredEntities := ["client_id"], complexity := Medium, requiresHistoricalData := true)
    case TransactionQuery => Req(FinanceAgent).(optionalEntities := ["date_range", "type", "category", "account"], requiresHistoricalData := true)
    case TransactionCreate => Req(FinanceAgent).(requiredEntities := ["amount", "transaction_type"], optionalEntities := ["date", "notes", "category", "payment_method", "invoice_id"], requiresUserConfirmation := true)
    case PaymentRecord => Req(FinanceAgent).(requiredEntities := ["invoice_id", "amount"], optionalEntities := ["payment_method", "payment_date", "notes"], requiresUserConfirmation := true, minimumConfidence := 0.9)
    case PaymentQuery => Req(FinanceAgent).(optionalEntities := ["invoice_id", "date_range", "payment_method"], requiresHistoricalData := true)
    case BalanceCheck => Req(FinanceAgent).(optionalEntities := ["client_name", "account"])
    case AccountStatement => Req(FinanceAgent).(requiredEntities := ["date_range"], optionalEntities := ["account"], complexity := Medium, requiresHistoricalData := true, expectedResponseFormat := "table")
    case DocumentAnalyze => Req(GeneralAgent).(requiredEntities := ["document_id"], complexity := Complex, requiresMlModel := true)
  }

  /** `INTENT_REQUIREMENTS.get(intent)`: most intents share one of the four defaults. */
  function TableEntry(i: Intent): Option<IntentRequirements>
  {
    match EntryOf(i)
    case OperationalDefault => Some(DEFAULT_OPERATIONAL)
    case AnalyticalDefault => Some(DEFAULT_ANALYTICAL)
    case StrategicDefault => Some(DEFAULT_STRATEGIC)
    case ConversationalDefault => Some(DEFAULT_CONVERSATIONAL)
    case Own => Some(OwnEntry(i))
    case Missing => None
  }

  /** The members of the enum the table has no entry for. */
  predicate Unlisted(i: Intent)
  {
    match i
    case CompetitivePositioning | SwotAnalysis | ScenarioPlanning | GoalSetting
    | ProcessOptimization | InventoryOptimization | ResourceAllocation => true
    case _ => false
  }

  /** The table lists every intent except the unlisted ones. */
  lemma UnlistedIffMissing(i: Intent)
    ensures TableEntry(i).None? <==> Unlisted(i)
  {
    assert Unlisted(i) <==> EntryOf(i) == Missing;
  }

  /** `get_intent_requirements`: the table entry, or the operational default for an intent the table leaves out. */
  function RequirementsOf(i: Intent): (r: IntentRequirements)
    ensures TableEntry(i).None? ==> r == DEFAULT_OPERATIONAL
    ensures TableEntry(i).Some? ==> r == TableEntry(i).value
  {
    TableEntry(i).GetOr(DEFAULT_OPERATIONAL)
  }

  /** `get_confidence_level` */
  function ConfidenceLevelOf(confidence: real): (l: ConfidenceLevel)
    ensures l == High <==> confidence >= 0.85
    ensures l == MediumConfidence <==> 0.7 <= confidence < 0.85
    ensures l == Low <==> 0.5 <= confidence < 0.7
    ensures l == VeryLow <==> confidence < 0.5
  {
    if confidence >= 0.85 then High
    else if confidence >= 0.7 then MediumConfidence
    else if confidence >= 0.5 then Low
    else VeryLow
  }

  function LevelRank(l: ConfidenceLevel): nat
  {
    match l
    case VeryLow => 0
    case Low => 1
    case MediumConfidence => 2
    case High => 3
  }

  /** A higher confidence never gets a lower band. */
  lemma ConfidenceLevelMonotone(a: real, b: real)
    requires a <= b
    ensures LevelRank(ConfidenceLevelOf(a)) <= LevelRank(ConfidenceLevelOf(b))
  {
  }

  /** The category rule of `get_intent_category` on a requirements record, in its order of priority. */
  function CategoryOf(req: IntentRequirements): (c: IntentCategory)
    ensures c == Strategic <==> req.complexity in {StrategicComplexity, Complex}
    ensures c == Conversational <==> req.complexity !in {StrategicComplexity, Complex} && req.primaryAgent == GeneralAgent
    ensures c == Analytical <==>
      req.complexity !in {StrategicComplexity, Complex} && req.primaryAgent != GeneralAgent
      && (req.requiresHistoricalData || req.expectedResponseFormat in {"chart", "table", "file"})
    ensures c != Administrative
  {
    if req.complexity in {StrategicComplexity, Complex} then Strategic
    else if req.primaryAgent == GeneralAgent then Conversational
    else if req.requiresHistoricalData || req.expectedResponseFormat in {"chart", "table", "file"} then Analytical
    else Operational
  }

  /** `get_intent_category` */
  function IntentCategoryOf(i: Intent): IntentCategory
  {
    CategoryOf(RequirementsOf(i))
  }

  /** `requires_multi_agent`: some supporting agent is named. */
  function RequiresMultiAgent(i: Intent): bool
  {
    |RequirementsOf(i).supportingAgents| > 0
  }

  /** `get_expected_response_time` */
  function ExpectedResponseTime(i: Intent): int
  {
    RequirementsOf(i).maxResponseTimeSeconds
  }

  /** Each shared default lands in one category; the analytical default is complex, so it categorises as strategic. */
  lemma DefaultCategories()
    ensures CategoryOf(DEFAULT_OPERATIONAL) == Operational
    ensures CategoryOf(DEFAULT_ANALYTICAL) == Strategic
    ensures CategoryOf(DEFAULT_STRATEGIC) == Strategic
    ensures CategoryOf(DEFAULT_CONVERSATIONAL) == Conversational
  {
  }

  /** An intent left out of the table is routed as a plain operation on a single agent. */
  lemma UnlistedAreOperational(i: Intent)
    requires Unlisted(i)
    ensures IntentCategoryOf(i) == Operational && !RequiresMultiAgent(i)
    ensures RequirementsOf(i).primaryAgent == OperationsAgent
  {
    UnlistedIffMissing(i);
  }

  /** Only the strategic default names supporting agents: an intent needs several agents exactly when the table
      gives it that default, and such an intent is categorised as strategic and given fifteen seconds. */
  lemma MultiAgentIffStrategicDefault(i: Intent)
    ensures RequiresMultiAgent(i) <==> RequirementsOf(i) == DEFAULT_STRATEGIC
    ensures RequiresMultiAgent(i) ==> IntentCategoryOf(i) == Strategic && ExpectedResponseTime(i) == 15
  {
    SupportOnlyInStrategicEntry(i, EntryOf(i));
    DefaultCategories();
  }

  /** Only the strategic entries name a supporting agent. */
  lemma SupportOnlyInStrategicEntry(i: Intent, e: Entry)
    requires e == EntryOf(i)
    ensures e == StrategicDefault ==> RequirementsOf(i) == DEFAULT_STRATEGIC
    ensures e != StrategicDefault ==> RequirementsOf(i).supportingAgents == []
  {
  }
}
