/** The records of the application's data contract, and the visual vocabulary the views pick from. */
module Types {
  import opened Outcomes

  /** The valuation verdict; each value stands for the Portuguese label it carries at run time. */
  datatype Valuation = Undervalued | Fair | Overvalued | Unknown {
    function Label(): string {
      match this
      case Undervalued => "Barato"
      case Fair => "Justo"
      case Overvalued => "Caro"
      case Unknown => "Desconhecido"
    }
  }

  /** The declared trend values of a recommendation. */
  datatype Trend = Up | Down | Neutral {
    function Code(): string {
      match this
      case Up => "up"
      case Down => "down"
      case Neutral => "neutral"
    }
  }

  /** The two market scopes. */
  datatype Region = BR | US

  datatype Metric = Metric(name: string, value: string, score: real)

  datatype NewsItem = NewsItem(title: string, source: string, date: string, url: Option<string>)

  datatype KeyStats = KeyStats(
    marketCap: string, peRatio: string, dividendYield: string, week52High: string, week52Low: string)

  datatype StockData = StockData(
    symbol: string,
    companyName: string,
    currentPrice: string,
    currency: string,
    sector: string,
    description: string,
    pros: seq<string>,
    cons: seq<string>,
    keyStats: KeyStats,
    news: seq<NewsItem>,
    valuation: Valuation,
    financialHealthScore: real,
    metrics: seq<Metric>,
    lastUpdated: string)

  /** `trend` is kept as the text the upstream payload carried: nothing checks it on the way in. */
  datatype MarketRecommendation = MarketRecommendation(
    symbol: string, name: string, price: string, reason: string, trend: string)

  datatype SectorRecommendation = SectorRecommendation(sectorName: string, stocks: seq<MarketRecommendation>)

  /** Colour families used by the views. */
  datatype Tone = Emerald | Red | Blue | Yellow | Slate | Purple | Pink

  /** The icons the views choose between. */
  datatype Icon = TrendingUp | TrendingDown | Minus | Scale | Activity | Cpu | Briefcase | Zap | ShoppingBag | Layers
}
