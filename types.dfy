/** The application's declared data model (types.ts). */
module Types {

  import opened Wrappers

  /** The four maturity labels, with the strings the model is asked to return. */
  datatype MaturityLevel = Foundational | GrowthStage | Strategic | MarketLeader
  {
    function Label(): string {
      match this
      case Foundational => "Foundational"
      case GrowthStage => "Growth-stage"
      case Strategic => "Strategic"
      case MarketLeader => "Market leader"
    }
  }

  datatype CategoryScore = CategoryScore(name: string, score: int, insight: string, reasoning: string)

  /** The five fixed evaluation dimensions. */
  datatype Categories = Categories(
    hygiene: CategoryScore,
    relevance: CategoryScore,
    salesTool: CategoryScore,
    differentiation: CategoryScore,
    advancedStrategy: CategoryScore)

  datatype IndustryContext = IndustryContext(buyerPersonas: string, decisionMakers: string, salesCycle: string)

  /** One grounding citation; an absent title is the empty string. */
  datatype Source = Source(title: string, uri: string)

  datatype AnalysisResult = AnalysisResult(
    overallScore: int,
    maturityLevel: MaturityLevel,
    industry: string,
    categories: Categories,
    executiveSummary: string,
    strengths: seq<string>,
    gaps: seq<string>,
    priorityActions: seq<string>,
    industryContext: IndustryContext,
    groundingSources: Option<seq<Source>>)

  datatype UserInputs = UserInputs(websiteUrl: string)

  /** The three UI phases. */
  datatype AppState = Input | Processing | Results
}
