/** The decisions the market overview screen makes: the sector icon chosen from the sector's name,
    the trend badge of each recommendation, the region heading, and which of skeleton, cards and
    empty-state message is on screen. */
module MarketOverview {
  import opened Outcomes
  import opened Types
  import opened JsString

  /** An icon in a colour. */
  datatype Glyph = Glyph(icon: Icon, tone: Tone)

  /** One rule of the sector classifier: any of its keywords selects its glyph. */
  datatype Rule = Rule(keywords: seq<string>, glyph: Glyph)

  /** The classifier's rules, in the order they are tried. */
  const Rules := [
    Rule(["tec", "growth"], Glyph(Cpu, Purple)),
    Rule(["fin", "banc"], Glyph(Briefcase, Emerald)),
    Rule(["energ", "commod"], Glyph(Zap, Yellow)),
    Rule(["varej", "consum"], Glyph(ShoppingBag, Pink))
  ]

  /** The glyph used when no rule matches. */
  const Fallback := Glyph(Layers, Blue)

  predicate Matches(lower: string, rule: Rule) {
    exists k | 0 <= k < |rule.keywords| :: Includes(lower, rule.keywords[k])
  }

  /** The sector icon: the glyph of the first rule one of whose keywords occurs in the
      lower-cased name, or the fallback. */
  function SectorIcon(name: string): (g: Glyph)
    ensures var lower := ToLower(name);
      (g == Fallback <==> forall i | 0 <= i < |Rules| :: !Matches(lower, Rules[i]))
      && (g != Fallback ==> exists i | 0 <= i < |Rules| ::
            Matches(lower, Rules[i]) && g == Rules[i].glyph && forall j | 0 <= j < i :: !Matches(lower, Rules[j]))
  {
    var lower := ToLower(name);
    assert Matches(lower, Rules[0]) <==> Includes(lower, "tec") || Includes(lower, "growth") by {
      assert Rules[0].keywords[0] == "tec" && Rules[0].keywords[1] == "growth";
    }
    assert Matches(lower, Rules[1]) <==> Includes(lower, "fin") || Includes(lower, "banc") by {
      assert Rules[1].keywords[0] == "fin" && Rules[1].keywords[1] == "banc";
    }
    assert Matches(lower, Rules[2]) <==> Includes(lower, "energ") || Includes(lower, "commod") by {
      assert Rules[2].keywords[0] == "energ" && Rules[2].keywords[1] == "commod";
    }
    assert Matches(lower, Rules[3]) <==> Includes(lower, "varej") || Includes(lower, "consum") by {
      assert Rules[3].keywords[0] == "varej" && Rules[3].keywords[1] == "consum";
    }
    if Includes(lower, "tec") || Includes(lower, "growth") then Glyph(Cpu, Purple)
    else if Includes(lower, "fin") || Includes(lower, "banc") then Glyph(Briefcase, Emerald)
    else if Includes(lower, "energ") || Includes(lower, "commod") then Glyph(Zap, Yellow)
    else if Includes(lower, "varej") || Includes(lower, "consum") then Glyph(ShoppingBag, Pink)
    else Glyph(Layers, Blue)
  }

  /** Letter case in the name does not change the icon. */
  lemma SectorIconIgnoresCase(name: string)
    ensures SectorIcon(ToUpper(name)) == SectorIcon(name)
  {
    LowerOfUpper(name);
  }

  /** The technology rule wins over every later one. */
  lemma TechnologyFirst(name: string)
    requires Includes(ToLower(name), "tec") || Includes(ToLower(name), "growth")
    ensures SectorIcon(name) == Glyph(Cpu, Purple)
  {
  }

  /** "fintech growth" holds a technology keyword and a financial one. */
  lemma FintechGrowthKeywords(lower: string)
    requires lower == "fintech growth"
    ensures Includes(lower, "tec") && Includes(lower, "fin")
  {
    assert StartsWith(lower[3..], "tec") && StartsWith(lower, "fin");
    IncludesAt(lower, "tec", 3);
    IncludesAt(lower, "fin", 0);
  }

  /** "fintech growth" matches the technology rule and the financial one; the technology
      rule, tried first, decides. */
  lemma FintechGrowthIsTechnology()
    ensures Matches(ToLower("fintech growth"), Rules[0]) && Matches(ToLower("fintech growth"), Rules[1])
    ensures SectorIcon("fintech growth") == Glyph(Cpu, Purple)
  {
    var lower := ToLower("fintech growth");
    assert lower == "fintech growth";
    FintechGrowthKeywords(lower);
    assert Rules[0].keywords[0] == "tec" && Rules[1].keywords[0] == "fin";
    TechnologyFirst("fintech growth");
  }

  /** A recommendation's trend badge: label, colour and, for the three declared values only, an icon. */
  datatype Badge = Badge(caption: string, tone: Tone, icon: Option<Icon>)

  function TrendBadge(trend: string): (b: Badge)
    ensures b.caption == "ALTA" <==> trend == "up"
    ensures b.caption == "BAIXA" <==> trend == "down"
    ensures b.caption == "NEUTRO" <==> trend != "up" && trend != "down"
    ensures b.tone == Emerald <==> b.caption == "ALTA"
    ensures b.tone == Red <==> b.caption == "BAIXA"
    ensures b.tone == Slate <==> b.caption == "NEUTRO"
    ensures b.icon.Some? <==> trend == "up" || trend == "down" || trend == "neutral"
    ensures b.icon == Some(TrendingUp) <==> trend == "up"
    ensures b.icon == Some(TrendingDown) <==> trend == "down"
    ensures b.icon == Some(Minus) <==> trend == "neutral"
  {
    var caption := if trend == "up" then "ALTA" else if trend == "down" then "BAIXA" else "NEUTRO";
    var tone := if trend == "up" then Emerald else if trend == "down" then Red else Slate;
    var icon :=
      if trend == "up" then Some(TrendingUp)
      else if trend == "down" then Some(TrendingDown)
      else if trend == "neutral" then Some(Minus)
      else None;
    Badge(caption, tone, icon)
  }

  /** Every declared trend value draws an icon; its label follows the value. */
  lemma DeclaredTrendsDrawIcons(t: Trend)
    ensures TrendBadge(t.Code()).icon.Some?
    ensures TrendBadge(t.Code()).caption == match t case Up => "ALTA" case Down => "BAIXA" case Neutral => "NEUTRO"
  {
  }

  /** The place named in the heading. */
  function RegionName(region: Region): (r: string)
    ensures r == "Brasil" <==> region == BR
    ensures r == "Mundo" <==> region != BR
  {
    if region == BR then "Brasil" else "Mundo"
  }

  /** One sector section: its icon, its name and one badge per recommendation. */
  datatype SectorCard = SectorCard(glyph: Glyph, name: string, badges: seq<Badge>)

  /** What the overview screen shows for a region, a sector list and the loading flag. */
  datatype OverviewView = OverviewView(place: string, skeleton: bool, cards: seq<SectorCard>, emptyState: bool)

  function SectorCardOf(sector: SectorRecommendation): (c: SectorCard)
    ensures c.glyph == SectorIcon(sector.sectorName) && c.name == sector.sectorName
    ensures |c.badges| == |sector.stocks|
    ensures forall k | 0 <= k < |sector.stocks| :: c.badges[k] == TrendBadge(sector.stocks[k].trend)
  {
    SectorCard(
      SectorIcon(sector.sectorName),
      sector.sectorName,
      seq(|sector.stocks|, k requires 0 <= k < |sector.stocks| => TrendBadge(sector.stocks[k].trend)))
  }

  function Overview(region: Region, sectors: seq<SectorRecommendation>, loading: bool): (v: OverviewView)
    ensures v.skeleton <==> loading
    ensures v.emptyState <==> |sectors| == 0 && !loading
    ensures |v.cards| == if loading then 0 else |sectors|
    ensures forall i | 0 <= i < |v.cards| :: v.cards[i] == SectorCardOf(sectors[i])
    ensures v.place == RegionName(region)
  {
    OverviewView(
      RegionName(region),
      loading,
      if loading then [] else seq(|sectors|, i requires 0 <= i < |sectors| => SectorCardOf(sectors[i])),
      |sectors| == 0 && !loading)
  }

  /** The screen is in exactly one of three states: loading skeleton, empty-state message, or
      a non-empty list of sector cards. */
  lemma OverviewStatesExclusive(region: Region, sectors: seq<SectorRecommendation>, loading: bool)
    ensures var v := Overview(region, sectors, loading);
      (v.skeleton && !v.emptyState && |v.cards| == 0)
      || (!v.skeleton && v.emptyState && |v.cards| == 0)
      || (!v.skeleton && !v.emptyState && |v.cards| > 0)
  {
  }
}
