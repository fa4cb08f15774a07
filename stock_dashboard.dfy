/** The decisions the analysis dashboard makes from a StockData record: the verdict panel, the
    "Label: value" indicator split, the metric score colours and the empty-news message. */
module StockDashboard {
  import opened Types
  import opened JsString

  predicate IsCheap(v: Valuation) {
    v == Undervalued
  }

  predicate IsExpensive(v: Valuation) {
    v == Overvalued
  }

  /** The verdict panel: colour family (text, background and ring), title line and icon. */
  datatype Verdict = Verdict(tone: Tone, title: string, icon: Icon)

  function VerdictOf(v: Valuation): (r: Verdict)
    ensures !(IsCheap(v) && IsExpensive(v))
    ensures r.tone == Emerald <==> IsCheap(v)
    ensures r.tone == Red <==> IsExpensive(v)
    ensures r.tone == Blue <==> v == Fair || v == Unknown
    ensures r.tone == Emerald ==> r.title == "Oportunidade de Compra" && r.icon == TrendingUp
    ensures r.tone == Red ==> r.title == "Cuidado: Preço Elevado" && r.icon == Scale
    ensures r.tone == Blue ==> r.title == "Preço Justo" && r.icon == Activity
  {
    if IsCheap(v) then Verdict(Emerald, "Oportunidade de Compra", TrendingUp)
    else if IsExpensive(v) then Verdict(Red, "Cuidado: Preço Elevado", Scale)
    else Verdict(Blue, "Preço Justo", Activity)
  }

  /** The verdict heading: the verdict's label in capitals, so it has no lower-case letter and
      agrees with the label when case is ignored. */
  function VerdictHeading(v: Valuation): (h: string)
    ensures |h| == |v.Label()|
    ensures forall i | 0 <= i < |h| :: !('a' <= h[i] <= 'z')
    ensures ToLower(h) == ToLower(v.Label())
  {
    LowerOfUpper(v.Label());
    ToUpper(v.Label())
  }

  /** Distinct verdicts get distinct headings. */
  lemma VerdictHeadingsDistinct(v1: Valuation, v2: Valuation)
    requires v1 != v2
    ensures VerdictHeading(v1) != VerdictHeading(v2)
  {
  }

  const CheapSentence := " A ação parece estar descontada em relação ao seu potencial histórico e de setor."
  const ExpensiveSentence := " Os múltiplos atuais sugerem que o mercado já precificou um crescimento agressivo."
  const FairSentence := " O preço atual reflete adequadamente os resultados e riscos."

  /** The sentences appended to the verdict explanation, one conditional render per verdict. */
  function VerdictSentences(v: Valuation): (r: seq<string>)
    ensures |r| == if v == Unknown then 0 else 1
    ensures v == Undervalued ==> r == [CheapSentence]
    ensures v == Overvalued ==> r == [ExpensiveSentence]
    ensures v == Fair ==> r == [FairSentence]
  {
    (if IsCheap(v) then [CheapSentence] else [])
    + (if IsExpensive(v) then [ExpensiveSentence] else [])
    + (if v == Fair then [FairSentence] else [])
  }

  /** An indicator line: a bold label and its value, or the text as it is. */
  datatype MetricItem = LabelValue(caption: string, value: string) | Whole(text: string)

  /** Split at ':' and, when there are several pieces, show the first as the label and the rest
      joined back with ':' as the value. */
  function RenderMetricItem(text: string): (r: MetricItem)
    ensures r.LabelValue? <==> ':' in text
    ensures r.LabelValue? ==> ':' !in r.caption && r.caption + ":" + r.value == text
    ensures r.Whole? ==> r.text == text
  {
    var parts := Split(text, ':');
    if |parts| > 1 then
      JoinSplit(text, ':');
      LabelValue(parts[0], Join(parts[1..], ':'))
    else
      Whole(text)
  }

  /** The label is exactly the text before the first ':' and the value everything after it. */
  lemma MetricItemSplitsAtFirstColon(text: string)
    requires ':' in text
    ensures var i := IndexOf(text, ':');
      RenderMetricItem(text) == LabelValue(text[..i], text[i + 1..])
  {
    var r := RenderMetricItem(text);
    var i := IndexOf(text, ':');
    var n := |r.caption|;
    assert text[..n] == r.caption && text[n] == ':' && text[n + 1..] == r.value by {
      assert text == r.caption + ":" + r.value;
    }
    AbsentFromPrefix(text, ':', i);
    AbsentFromPrefix(text, ':', n);
  }

  /** A metric score's colour: above 70 emerald, below 40 red, otherwise yellow. */
  function ScoreTone(score: real): (t: Tone)
    ensures t == Emerald <==> score > 70.0
    ensures t == Red <==> score < 40.0
    ensures t == Yellow <==> 40.0 <= score <= 70.0
    ensures t in {Emerald, Red, Yellow}
  {
    if score > 70.0 then Emerald else if score < 40.0 then Red else Yellow
  }

  /** The text an indicator line reads as on screen. */
  function Shown(item: MetricItem): string {
    match item
    case LabelValue(caption, value) => caption + ":" + value
    case Whole(text) => text
  }

  /** What the dashboard shows for one analysis. */
  datatype DashboardView = DashboardView(
    verdict: Verdict,
    heading: string,
    sentences: seq<string>,
    pros: seq<MetricItem>,
    cons: seq<MetricItem>,
    scoreTones: seq<Tone>,
    newsLinks: seq<bool>,
    noNewsMessage: bool)

  /** The verdict panel, heading and sentences follow the valuation; each indicator line is split
      at its first ':' and reads back as the original text; each metric gets its score's colour;
      a news item links out exactly when it has a non-empty URL; the empty-news message shows
      exactly when there is no news. */
  function Render(d: StockData): (view: DashboardView)
    ensures view.verdict == VerdictOf(d.valuation)
    ensures view.heading == VerdictHeading(d.valuation)
    ensures view.sentences == VerdictSentences(d.valuation) && |view.sentences| <= 1
    ensures |view.pros| == |d.pros| && |view.cons| == |d.cons| && |view.scoreTones| == |d.metrics|
    ensures forall i | 0 <= i < |d.pros| :: view.pros[i] == RenderMetricItem(d.pros[i]) && Shown(view.pros[i]) == d.pros[i]
    ensures forall i | 0 <= i < |d.cons| :: view.cons[i] == RenderMetricItem(d.cons[i]) && Shown(view.cons[i]) == d.cons[i]
    ensures forall i | 0 <= i < |d.metrics| :: view.scoreTones[i] == ScoreTone(d.metrics[i].score)
    ensures view.noNewsMessage <==> |d.news| == 0
    ensures |view.newsLinks| == |d.news|
    ensures forall i | 0 <= i < |d.news| :: view.newsLinks[i] <==> d.news[i].url.Some? && d.news[i].url.value != ""
  {
    DashboardView(
      VerdictOf(d.valuation),
      VerdictHeading(d.valuation),
      VerdictSentences(d.valuation),
      seq(|d.pros|, i requires 0 <= i < |d.pros| => RenderMetricItem(d.pros[i])),
      seq(|d.cons|, i requires 0 <= i < |d.cons| => RenderMetricItem(d.cons[i])),
      seq(|d.metrics|, i requires 0 <= i < |d.metrics| => ScoreTone(d.metrics[i].score)),
      seq(|d.news|, i requires 0 <= i < |d.news| => d.news[i].url.Some? && d.news[i].url.value != ""),
      |d.news| == 0)
  }
}
