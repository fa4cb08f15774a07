/** The AI-response acquisition layer: pulling a JSON payload out of generated text, retrying
    failed attempts with exponential backoff, building the prompts, mapping the analysis payload,
    and the per-region cache of market recommendations.

    The generation service is an oracle `upstream(prompt, k)`: its reply to `prompt` on the k-th
    attempt (counted from 0). JSON.parse is the parameter `parse`, a partial function. The current
    date and the locale time stamp are read afresh on every attempt: they are the parameters
    `today(k)` and `stamp(k)`, their readings on the k-th attempt. */
module GeminiService {
  import opened Outcomes
  import opened Json
  import opened JsString
  import opened Types

  /* ---------------------------------------------------------------------------------------------
     Extracting the JSON payload
     --------------------------------------------------------------------------------------------- */

  const Fence := "```"
  const JsonFence := "```json"

  /** Every "```json" removed, then every "```". */
  function StripFences(text: string): string {
    RemoveAll(RemoveAll(text, JsonFence), Fence)
  }

  /** The text has an opening brace and a closing brace somewhere after it. */
  ghost predicate HasBracePair(s: string) {
    exists i, j | 0 <= i < j < |s| :: s[i] == '{' && s[j] == '}'
  }

  /** Positions `i` and `j` hold the first '{' and the last '}' of the text, in that order. */
  ghost predicate OuterBraces(s: string, i: int, j: int) {
    0 <= i < j < |s| && s[i] == '{' && s[j] == '}' && '{' !in s[..i] && '}' !in s[j + 1..]
  }

  /** The span from the first '{' to the last '}' when the last '}' comes after the first '{';
      otherwise the text unchanged. */
  function SelectSpan(s: string): (r: string)
    ensures HasBracePair(s) ==> exists i, j :: OuterBraces(s, i, j) && r == s[i..j + 1]
    ensures !HasBracePair(s) ==> r == s
  {
    var first := IndexOf(s, '{');
    var last := LastIndexOf(s, '}');
    BracePairFound(s);
    if first != -1 && last != -1 && last > first then
      assert OuterBraces(s, first, last);
      s[first..last + 1]
    else
      s
  }

  /** A brace pair exists exactly when the first '{' comes before the last '}'. */
  lemma BracePairFound(s: string)
    ensures HasBracePair(s) <==> IndexOf(s, '{') != -1 && LastIndexOf(s, '}') > IndexOf(s, '{')
  {
    var first, last := IndexOf(s, '{'), LastIndexOf(s, '}');
    if HasBracePair(s) {
      var i, j :| 0 <= i < j < |s| && s[i] == '{' && s[j] == '}';
      assert first != -1;
      AbsentFromPrefix(s, '{', first);
      AbsentFromSuffix(s, '}', last + 1);
    }
    if first != -1 && last > first {
      assert s[first] == '{' && s[last] == '}';
    }
  }

  /** The text handed to the parser. */
  function Candidate(text: string): string {
    SelectSpan(StripFences(text))
  }

  /** Recover the JSON payload of a reply. */
  function ExtractAndParse(text: string, parse: string -> Option<Json>): (r: Result<Json>)
    ensures r == Err(EmptyResponse) <==> text == ""
    ensures text != "" && parse(Candidate(text)).None? ==> r == Err(InvalidJsonFormat)
    ensures text != "" && parse(Candidate(text)).Some? ==> r == Ok(parse(Candidate(text)).value)
    ensures r.Ok? ==> text != "" && parse(Candidate(text)) == Some(r.value)
  {
    if text == "" then Err(EmptyResponse)
    else
      match parse(Candidate(text))
      case Some(data) => Ok(data)
      case None => Err(InvalidJsonFormat)
  }

  /** A "```" remover output begins with one or two backticks only if its input did. */
  lemma {:induction false} FenceRemovalLeadingTicks(s: string)
    ensures var r := RemoveAll(s, Fence);
      (|r| > 0 && r[0] == '`' ==> |s| > 0 && s[0] == '`') &&
      (|r| > 1 && r[0] == '`' && r[1] == '`' ==> |s| > 1 && s[0] == '`' && s[1] == '`')
    decreases |s|
  {
    if |s| >= 3 && s[..3] != Fence {
      FenceRemovalLeadingTicks(s[1..]);
    }
  }

  /** After "```" removal no "```" is left, even where removals bring backticks together. */
  lemma {:induction false} FenceRemovalLeavesNoFence(s: string)
    ensures !Includes(RemoveAll(s, Fence), Fence)
    decreases |s|
  {
    var r := RemoveAll(s, Fence);
    if |s| < 3 {
      ShortTextExcludes(r, Fence);
    } else if s[..3] == Fence {
      FenceRemovalLeavesNoFence(s[3..]);
    } else {
      var rest := RemoveAll(s[1..], Fence);
      FenceRemovalLeavesNoFence(s[1..]);
      FenceRemovalLeadingTicks(s[1..]);
      assert r == [s[0]] + rest && r[1..] == rest;
      assert s[..3] == [s[0], s[1], s[2]];
      if |r| >= 3 {
        assert r[..3] == [s[0], rest[0], rest[1]];
      }
    }
  }

  /** The stripped text contains no code fence. */
  lemma StripFencesLeavesNoFence(text: string)
    ensures !Includes(StripFences(text), Fence)
  {
    FenceRemovalLeavesNoFence(RemoveAll(text, JsonFence));
  }

  /** Stripping twice is stripping once. */
  lemma StripFencesIdempotent(text: string)
    ensures StripFences(StripFences(text)) == StripFences(text)
  {
    var c := StripFences(text);
    StripFencesLeavesNoFence(text);
    if Includes(c, JsonFence) {
      assert JsonFence == Fence + "json";
      IncludesPrefixOf(c, Fence, "json");
    }
  }

  /** A closing fence followed by text without backticks that does not begin with "json"
      holds no "```json". */
  lemma ClosingFenceIsNotJsonFence(post: string)
    requires '`' !in post && !StartsWith(post, "json")
    ensures !Includes(Fence + post, JsonFence)
  {
    var s := Fence + post;
    var s1, s2 := s[1..], s[2..];
    assert s1[1..] == s2 && s2[1..] == post;
    assert Includes(s, JsonFence) == (StartsWith(s, JsonFence) || Includes(s1, JsonFence));
    assert Includes(s1, JsonFence) == (StartsWith(s1, JsonFence) || Includes(s2, JsonFence));
    assert Includes(s2, JsonFence) == (StartsWith(s2, JsonFence) || Includes(post, JsonFence));
    if |s| >= 7 {
      assert s[..7][3..] == post[..4];
      assert JsonFence[3..] == "json";
    }
    if |post| > 0 {
      assert post[0] != '`';
      if |s1| >= 7 { assert s1[..7][2] == post[0] && JsonFence[2] == '`'; }
      if |s2| >= 7 { assert s2[..7][1] == post[0] && JsonFence[1] == '`'; }
    } else {
      ShortTextExcludes(s1, JsonFence);
    }
    NotIncludedWithoutFirstChar(post, JsonFence);
  }

  /** With no '{' before the body and no '}' after it, the selected span is exactly the body. */
  lemma SelectSpanOfEmbeddedObject(pre: string, body: string, post: string)
    requires '{' !in pre && '}' !in post
    requires |body| >= 2 && body[0] == '{' && body[|body| - 1] == '}'
    ensures SelectSpan(pre + body + post) == body
  {
    var s := pre + body + post;
    var a, b := |pre|, |pre| + |body| - 1;
    var first, last := IndexOf(s, '{'), LastIndexOf(s, '}');
    assert s[a] == '{' && s[b] == '}';
    assert s[..a] == pre && s[b + 1..] == post;
    AbsentFromPrefix(s, '{', a);
    AbsentFromPrefix(s, '{', first);
    AbsentFromSuffix(s, '}', b + 1);
    AbsentFromSuffix(s, '}', last + 1);
    assert first == a && last == b;
    assert s[a..b + 1] == body;
  }

  /** Cleaning a "```json" fenced block amid backtick-free prose leaves the prose and the block's
      contents, fences gone. */
  lemma StripFencedBlock(pre: string, body: string, post: string)
    requires '`' !in pre && '`' !in body && '`' !in post && !StartsWith(post, "json")
    ensures StripFences(pre + JsonFence + body + Fence + post) == pre + body + post
  {
    var text := pre + JsonFence + body + Fence + post;
    // first pass: "```json"
    assert text == pre + (JsonFence + (body + (Fence + post)));
    RemoveAllKeepsPrefix(pre, JsonFence + (body + (Fence + post)), JsonFence);
    RemoveAllLeading(body + (Fence + post), JsonFence);
    RemoveAllKeepsPrefix(body, Fence + post, JsonFence);
    ClosingFenceIsNotJsonFence(post);
    var once := RemoveAll(text, JsonFence);
    assert once == (pre + body) + (Fence + post);
    // second pass: "```"
    assert '`' !in pre + body;
    RemoveAllKeepsPrefix(pre + body, Fence + post, Fence);
    RemoveAllLeading(post, Fence);
    NotIncludedWithoutFirstChar(post, Fence);
  }

  /** A JSON object inside a "```json" fenced block amid prose is recovered as parsed, whatever
      brace-free padding (such as the usual line breaks) sits between the fences and the object. */
  lemma ExtractFencedObject(pre: string, lead: string, obj: string, trail: string, post: string,
                            parse: string -> Option<Json>)
    requires '`' !in pre && '`' !in lead && '`' !in obj && '`' !in trail && '`' !in post
    requires !StartsWith(post, "json")
    requires '{' !in pre && '{' !in lead && '}' !in trail && '}' !in post
    requires |obj| >= 2 && obj[0] == '{' && obj[|obj| - 1] == '}'
    ensures ExtractAndParse(pre + JsonFence + lead + obj + trail + Fence + post, parse) ==
            if parse(obj).Some? then Ok(parse(obj).value) else Err(InvalidJsonFormat)
  {
    var body := lead + obj + trail;
    assert '`' !in body;
    assert pre + JsonFence + lead + obj + trail + Fence + post == pre + JsonFence + body + Fence + post;
    StripFencedBlock(pre, body, post);
    assert pre + body + post == (pre + lead) + obj + (trail + post);
    assert '{' !in pre + lead && '}' !in trail + post;
    SelectSpanOfEmbeddedObject(pre + lead, obj, trail + post);
  }

  /** A reply that introduces the object, fences it on lines of its own and signs off is
      recovered as parsed. */
  lemma ExtractTypicalReply(obj: string, parse: string -> Option<Json>)
    requires '`' !in obj && |obj| >= 2 && obj[0] == '{' && obj[|obj| - 1] == '}'
    ensures ExtractAndParse("Here you go:\n" + JsonFence + "\n" + obj + "\n" + Fence + "\nEnjoy.", parse) ==
            if parse(obj).Some? then Ok(parse(obj).value) else Err(InvalidJsonFormat)
  {
    var post := "\nEnjoy.";
    assert !StartsWith(post, "json") by {
      assert post[0] == '\n';
    }
    ExtractFencedObject("Here you go:\n", "\n", obj, "\n", post, parse);
  }

  /** A JSON object surrounded by prose only is recovered as parsed. */
  lemma ExtractBareObject(pre: string, body: string, post: string, parse: string -> Option<Json>)
    requires '`' !in pre && '`' !in body && '`' !in post
    requires '{' !in pre && '}' !in post
    requires |body| >= 2 && body[0] == '{' && body[|body| - 1] == '}'
    ensures ExtractAndParse(pre + body + post, parse) ==
            if parse(body).Some? then Ok(parse(body).value) else Err(InvalidJsonFormat)
  {
    var text := pre + body + post;
    assert '`' !in text;
    NotIncludedWithoutFirstChar(text, JsonFence);
    NotIncludedWithoutFirstChar(text, Fence);
    SelectSpanOfEmbeddedObject(pre, body, post);
  }

  /* ---------------------------------------------------------------------------------------------
     Retry with exponential backoff
     --------------------------------------------------------------------------------------------- */

  function Pow2(k: nat): nat {
    if k == 0 then 1 else 2 * Pow2(k - 1)
  }

  /** The attempts a retry budget allows: the first one plus one per retry left. */
  function MaxAttempts(retries: int): nat {
    if retries <= 0 then 1 else retries + 1
  }

  function Sum(s: seq<int>): int {
    if s == [] then 0 else Sum(s[..|s| - 1]) + s[|s| - 1]
  }

  /** Run `op` (attempt k is `op(k)`) until it succeeds or the retry budget is spent, waiting
      `delay` before the first retry and doubling the wait each time. Returns the outcome, the
      number of attempts made and the waits in order. */
  method WithRetry<T>(op: nat -> Result<T>, retries: int, delay: int)
    returns (r: Result<T>, attempts: nat, waits: seq<int>)
    ensures 1 <= attempts <= MaxAttempts(retries)
    ensures forall k | 0 <= k < attempts - 1 :: op(k).Err?
    ensures r == op(attempts - 1)
    ensures r.Err? ==> attempts == MaxAttempts(retries)
    ensures |waits| == attempts - 1
    ensures forall k | 0 <= k < |waits| :: waits[k] == delay * Pow2(k)
  {
    var left := retries;
    var wait := delay;
    r := op(0);
    attempts := 1;
    waits := [];
    while r.Err? && left > 0
      invariant 1 <= attempts <= MaxAttempts(retries)
      invariant left == if retries <= 0 then retries else retries - (attempts - 1)
      invariant r == op(attempts - 1)
      invariant forall k | 0 <= k < attempts - 1 :: op(k).Err?
      invariant |waits| == attempts - 1
      invariant forall k | 0 <= k < |waits| :: waits[k] == delay * Pow2(k)
      invariant wait == delay * Pow2(attempts - 1)
      decreases left
    {
      assert forall k | 0 <= k < |waits| :: (waits + [wait])[k] == waits[k];
      waits := waits + [wait];
      assert delay * Pow2(attempts) == 2 * (delay * Pow2(attempts - 1));
      wait := wait * 2;
      left := left - 1;
      r := op(attempts);
      attempts := attempts + 1;
    }
  }

  /** Waits that double from `delay` add up to `delay * (2^n - 1)`. */
  lemma {:induction false} BackoffTotal(waits: seq<int>, delay: int)
    requires forall k | 0 <= k < |waits| :: waits[k] == delay * Pow2(k)
    ensures Sum(waits) == delay * (Pow2(|waits|) - 1)
  {
    if waits != [] {
      var n := |waits| - 1;
      BackoffTotal(waits[..n], delay);
      calc {
        Sum(waits);
        Sum(waits[..n]) + waits[n];
        delay * (Pow2(n) - 1) + delay * Pow2(n);
        delay * (2 * Pow2(n) - 1);
      }
    }
  }

  /* ---------------------------------------------------------------------------------------------
     Prompts (the fixed instruction text is condensed and paraphrased; the interpolations are exact)
     --------------------------------------------------------------------------------------------- */

  const AnalysisOpening :=
    "Você é um analista financeiro sênior fundamentalista (Benjamin Graham/Warren Buffett style). A data de hoje é "
  const AnalysisTaskLead := ".\n\nTAREFA: Analise a empresa ou ticker: \""
  const AnalysisInstructions :=
    "\".\n\nIMPORTANTE: use a ferramenta 'googleSearch' para o preço atual; se a empresa não existir ou não for"
    + " listada, retorne {\"exists\": false}; busque notícias das últimas 24h-48h e Key Stats; prós e contras"
    + " como indicadores financeiros reais (\"Indicador: Valor (Contexto)\").\n"
    + "FORMATO DE RESPOSTA (JSON PURO OBRIGATÓRIO): exists, symbol, companyName, currentPrice, currency, sector,"
    + " description, keyStats {marketCap, peRatio, dividendYield, week52High, week52Low},"
    + " news [{title, source, date, url}], pros, cons, valuation (\"Barato\" | \"Justo\" | \"Caro\" |"
    + " \"Desconhecido\"), financialHealthScore, metrics [{name, value, score}]"

  /** The instruction text for analysing one company or ticker. */
  function AnalysisPrompt(query: string, today: string): (p: string)
    ensures |p| == |AnalysisOpening| + |today| + |AnalysisTaskLead| + |query| + |AnalysisInstructions|
    ensures p[|AnalysisOpening|..|AnalysisOpening| + |today|] == today
    ensures p[|AnalysisOpening| + |today| + |AnalysisTaskLead|..|p| - |AnalysisInstructions|] == query
  {
    InfixesOfConcat(AnalysisOpening, today, AnalysisTaskLead, query, AnalysisInstructions);
    AnalysisOpening + today + AnalysisTaskLead + query + AnalysisInstructions
  }

  /** Where the second and fourth pieces of a five-piece concatenation sit. */
  lemma InfixesOfConcat(a: string, b: string, c: string, d: string, e: string)
    ensures var p := a + b + c + d + e;
      && p[|a|..|a| + |b|] == b
      && p[|a| + |b| + |c|..|p| - |e|] == d
      && p[|p| - |e|..] == e
  {
    var p := a + b + c + d + e;
    assert p == a + (b + (c + (d + e)));
  }

  /** For dates of one format, the analysis prompt determines the query and the date. */
  lemma AnalysisPromptDeterminesInputs(q1: string, d1: string, q2: string, d2: string)
    requires |d1| == |d2| && AnalysisPrompt(q1, d1) == AnalysisPrompt(q2, d2)
    ensures q1 == q2 && d1 == d2
  {
  }

  const RecommendationsOpening := "Atue como um estrategista de investimentos sênior. Data: "
  const RecommendationsTaskLead := ".\n\nTAREFA: Liste as melhores oportunidades para "

  const RecommendationsSectors :=
    ", organizadas por SETOR.\n\nSETORES:\n1. Tecnologia / Growth\n2. Finanças / Bancos\n3. Energia / Commodities"
    + "\n4. Varejo / Consumo\n\nREGRAS:\n- Use Google Search para validar destaques de HOJE.\n- 2 a 3 ações por setor."
    + "\n- Preço atualizado ("
  const RecommendationsSchema :=
    ").\n\nFORMATO JSON OBRIGATÓRIO: {\"sectors\": [{\"sectorName\", \"stocks\": [{\"symbol\", \"name\","
    + " \"price\", \"reason\", \"trend\": \"up\" | \"down\" | \"neutral\"}]}]}"

  const BrazilContext :=
    "o mercado brasileiro (B3). Foque APENAS em ações listadas no Brasil (ex: tickers com final 3, 4, 11)."
  const UnitedStatesContext := "o mercado americano (NYSE/NASDAQ). Foque APENAS em ações dos EUA."

  /** The market scope a region's prompt names. */
  function RegionContext(region: Region): string {
    if region == BR then BrazilContext else UnitedStatesContext
  }

  /** The currency a region's prices are asked in. */
  function CurrencyContext(region: Region): string {
    if region == BR then "R$" else "US$"
  }

  /** The instruction text for one region's sector recommendations: it embeds the date, the
      region's market scope and its currency at fixed places. */
  function RecommendationsPrompt(region: Region, today: string): (p: string)
    ensures var at := |RecommendationsOpening| + |today| + |RecommendationsTaskLead|;
      && |p| == at + |RegionContext(region)| + |RecommendationsSectors| + |CurrencyContext(region)|
         + |RecommendationsSchema|
      && p[|RecommendationsOpening|..|RecommendationsOpening| + |today|] == today
      && p[at..at + |RegionContext(region)|] == RegionContext(region)
      && p[|p| - |RecommendationsSchema| - |CurrencyContext(region)|..|p| - |RecommendationsSchema|]
         == CurrencyContext(region)
  {
    PiecesOfPrompt(RecommendationsOpening, today, RecommendationsTaskLead, RegionContext(region),
      RecommendationsSectors, CurrencyContext(region), RecommendationsSchema);
    RecommendationsOpening + today + RecommendationsTaskLead + RegionContext(region)
      + RecommendationsSectors + CurrencyContext(region) + RecommendationsSchema
  }

  /** Where the even-numbered pieces of a seven-piece concatenation sit. */
  lemma PiecesOfPrompt(a: string, b: string, c: string, d: string, e: string, f: string, g: string)
    ensures var p := a + b + c + d + e + f + g;
      var at := |a| + |b| + |c|;
      && |p| == |a| + |b| + |c| + |d| + |e| + |f| + |g|
      && p[|a|..|a| + |b|] == b
      && p[at..at + |d|] == d
      && p[|p| - |g| - |f|..|p| - |g|] == f
  {
    var p := a + b + c + d + e + f + g;
    assert p == (a + b + c) + (d + (e + (f + g)));
    assert p == (a + b + c + d + e) + (f + g);
  }

  /** For dates of one format, the recommendations prompt determines the region and the date. */
  lemma RecommendationsPromptDeterminesInputs(r1: Region, d1: string, r2: Region, d2: string)
    requires |d1| == |d2| && RecommendationsPrompt(r1, d1) == RecommendationsPrompt(r2, d2)
    ensures r1 == r2 && d1 == d2
  {
    SamePromptSamePieces(RecommendationsOpening, d1, RecommendationsTaskLead, RegionContext(r1),
      RecommendationsSectors, CurrencyContext(r1), RecommendationsSchema, d2, RegionContext(r2), CurrencyContext(r2));
    RegionTextLengths();
  }

  /** Two seven-piece concatenations that agree on the odd-numbered pieces and on the length of
      the second piece are equal only if the second pieces are equal and the fourth and sixth
      pieces have the same total length. */
  lemma SamePromptSamePieces(a: string, b1: string, c: string, d1: string, e: string, f1: string, g: string,
                             b2: string, d2: string, f2: string)
    requires |b1| == |b2| && a + b1 + c + d1 + e + f1 + g == a + b2 + c + d2 + e + f2 + g
    ensures b1 == b2 && |d1| + |f1| == |d2| + |f2|
  {
    PiecesOfPrompt(a, b1, c, d1, e, f1, g);
    PiecesOfPrompt(a, b2, c, d2, e, f2, g);
  }

  lemma RegionTextLengths()
    ensures |RegionContext(BR)| + |CurrencyContext(BR)| == 103
    ensures |RegionContext(US)| + |CurrencyContext(US)| == 68
  {
  }

  /* ---------------------------------------------------------------------------------------------
     Mapping the analysis payload
     --------------------------------------------------------------------------------------------- */

  /** The valuation verdict read from the payload's `valuation` member: each of the three
      Portuguese labels picks its verdict, anything else (absent, another text, a non-string)
      is Unknown. */
  function ValuationFrom(v: Option<Json>): (r: Valuation)
    ensures r != Unknown ==> v == Some(JStr(r.Label()))
    ensures v.Some? && v.value.JStr? && v.value.s in {"Barato", "Justo", "Caro"} ==> r.Label() == v.value.s
  {
    if v == Some(JStr("Barato")) then Undervalued
    else if v == Some(JStr("Justo")) then Fair
    else if v == Some(JStr("Caro")) then Overvalued
    else Unknown
  }

  /** Reading back a verdict's own label gives the verdict. */
  lemma ValuationLabelRoundTrip(x: Valuation)
    ensures ValuationFrom(Some(JStr(x.Label()))) == x
  {
  }

  /** The member `key` of an object's fields, `None` when absent (`undefined`). */
  function Lookup(fields: map<string, Json>, key: string): Option<Json> {
    if key in fields then Some(fields[key]) else None
  }

  /** The existence gate and the valuation mapping: a `null` payload throws, a payload whose
      `exists` is falsy is "not found" (`None`), and otherwise the payload object is copied with
      `valuation` replaced by the verdict's label and `lastUpdated` set to `stamp`. */
  function MapAnalysis(data: Json, stamp: string): (r: Result<Option<Json>>)
    ensures r.Err? <==> data.JNull?
    ensures r.Err? ==> r.error == TypeError
    ensures r.Ok? && r.value.Some? <==> data.JObj? && TruthyOpt(Lookup(data.fields, "exists"))
    ensures r.Ok? && r.value.Some? ==>
      var m := data.fields;
      && r.value.value.JObj?
      && var out := r.value.value.fields;
      && out.Keys == m.Keys + {"valuation", "lastUpdated"}
      && (forall k | k in m && k != "valuation" && k != "lastUpdated" :: out[k] == m[k])
      && out["valuation"] == JStr(ValuationFrom(Lookup(m, "valuation")).Label())
      && out["lastUpdated"] == JStr(stamp)
  {
    match data
    case JNull => Err(TypeError)
    case JObj(m) =>
      if !TruthyOpt(Lookup(m, "exists")) then Ok(None)
      else
        var verdict := ValuationFrom(Lookup(m, "valuation"));
        Ok(Some(JObj(m["valuation" := JStr(verdict.Label())]["lastUpdated" := JStr(stamp)])))
    case _ => Ok(None)
  }

  /** Whatever else the payload holds, a falsy `exists` is "not found". */
  lemma NotFoundWhateverElse(m: map<string, Json>, stamp: string)
    requires "exists" in m && !Truthy(m["exists"])
    ensures MapAnalysis(JObj(m), stamp) == Ok(None)
  {
  }

  /* ---------------------------------------------------------------------------------------------
     One attempt of each query
     --------------------------------------------------------------------------------------------- */

  /** What the generation service gives back for one call: a reply whose `text` may be missing,
      or a failed call. */
  datatype Reply = Answered(text: Option<string>) | CallFailed(reason: string)

  /** One attempt of the analysis: call, extract (`response.text || ""`), map. */
  function AnalyzeAttempt(reply: Reply, parse: string -> Option<Json>, stamp: string): (r: Result<Option<Json>>)
    ensures reply.CallFailed? ==> r == Err(Upstream(reply.reason))
    ensures reply.Answered? && reply.text.GetOr("") == "" ==> r == Err(EmptyResponse)
    ensures reply.Answered? && reply.text.GetOr("") != "" ==>
      match parse(Candidate(reply.text.GetOr("")))
      case None => r == Err(InvalidJsonFormat)
      case Some(data) => r == MapAnalysis(data, stamp)
  {
    match reply
    case CallFailed(reason) => Err(Upstream(reason))
    case Answered(text) =>
      match ExtractAndParse(text.GetOr(""), parse)
      case Err(e) => Err(e)
      case Ok(data) => MapAnalysis(data, stamp)
  }

  /** One attempt of the recommendations: call, extract, then `data.sectors || []`. */
  function RecommendationsAttempt(reply: Reply, parse: string -> Option<Json>): (r: Result<Json>)
    ensures reply.CallFailed? ==> r == Err(Upstream(reply.reason))
    ensures reply.Answered? && reply.text.GetOr("") == "" ==> r == Err(EmptyResponse)
    ensures reply.Answered? && reply.text.GetOr("") != "" ==>
      match parse(Candidate(reply.text.GetOr("")))
      case None => r == Err(InvalidJsonFormat)
      case Some(JNull) => r == Err(TypeError)
      case Some(JObj(m)) => r == Ok(if TruthyOpt(Lookup(m, "sectors")) then m["sectors"] else JArr([]))
      case Some(_) => r == Ok(JArr([]))
  {
    match reply
    case CallFailed(reason) => Err(Upstream(reason))
    case Answered(text) =>
      match ExtractAndParse(text.GetOr(""), parse)
      case Err(e) => Err(e)
      case Ok(data) =>
        match Member(data, "sectors")
        case Err(e) => Err(e)
        case Ok(sectors) => Ok(OrElse(sectors, JArr([])))
  }

  /** The k-th attempt of the analysis, on the date and time stamp read at that attempt. */
  function AnalyzeTry(query: string, today: nat -> string, stamp: nat -> string,
                      upstream: (string, nat) -> Reply, parse: string -> Option<Json>, k: nat): Result<Option<Json>>
  {
    AnalyzeAttempt(upstream(AnalysisPrompt(query, today(k)), k), parse, stamp(k))
  }

  /** The k-th attempt of the recommendations fetch, on the date read at that attempt. */
  function RecommendationsTry(region: Region, today: nat -> string, upstream: (string, nat) -> Reply,
                              parse: string -> Option<Json>, k: nat): Result<Json>
  {
    RecommendationsAttempt(upstream(RecommendationsPrompt(region, today(k)), k), parse)
  }

  /* ---------------------------------------------------------------------------------------------
     The two entry points
     --------------------------------------------------------------------------------------------- */

  const DefaultRetries := 2
  const DefaultDelay := 1000

  /** Analyse one company or ticker: up to three attempts with waits of 1000 and 2000 ms. The
      outcome is that of the first attempt that does not throw (a mapped payload, or `None` for
      "not found"), or the third attempt's error. */
  method AnalyzeStock(query: string, today: nat -> string, stamp: nat -> string,
                      upstream: (string, nat) -> Reply, parse: string -> Option<Json>)
    returns (r: Result<Option<Json>>, attempts: nat, waits: seq<int>)
    ensures 1 <= attempts <= 3
    ensures forall k | 0 <= k < attempts - 1 :: AnalyzeTry(query, today, stamp, upstream, parse, k).Err?
    ensures r == AnalyzeTry(query, today, stamp, upstream, parse, attempts - 1)
    ensures r.Err? ==> attempts == 3
    ensures waits == [1000, 2000][..attempts - 1]
  {
    var attempt := (k: nat) => AnalyzeTry(query, today, stamp, upstream, parse, k);
    r, attempts, waits := WithRetry(attempt, DefaultRetries, DefaultDelay);
    DefaultWaits(waits);
    forall k | 0 <= k < attempts - 1
      ensures AnalyzeTry(query, today, stamp, upstream, parse, k).Err?
    {
      assert attempt(k).Err?;
    }
  }

  /** With the default delay, at most two waits: 1000 ms, then 2000 ms. */
  lemma DefaultWaits(waits: seq<int>)
    requires |waits| <= 2
    requires forall k | 0 <= k < |waits| :: waits[k] == DefaultDelay * Pow2(k)
    ensures waits == [1000, 2000][..|waits|]
  {
    assert Pow2(1) == 2;
  }

  /** The per-region cache of recommendations, alive for the whole process. */
  class MarketCache {
    var entries: map<Region, Json>

    /** Only results that passed `length > 0` are ever stored. */
    ghost predicate Valid()
      reads this
    {
      forall region | region in entries :: PositiveLength(entries[region])
    }

    constructor ()
      ensures Valid() && entries == map[]
    {
      entries := map[];
    }

    /** Sector recommendations for `region`: a cached entry is returned with no call at all;
        otherwise the fetch is retried (up to three attempts, waits 1000 and 2000 ms), a result
        that passes `length > 0` is stored for this region only, and a failure of every attempt
        yields `[]` with the cache untouched. */
    method GetMarketRecommendations(region: Region, today: nat -> string,
                                    upstream: (string, nat) -> Reply, parse: string -> Option<Json>)
      returns (r: Json, attempts: nat, waits: seq<int>)
      requires Valid()
      modifies this
      ensures Valid()
      ensures region in old(entries) ==>
        r == old(entries)[region] && attempts == 0 && waits == [] && entries == old(entries)
      ensures region !in old(entries) ==>
        && 1 <= attempts <= 3
        && waits == [1000, 2000][..attempts - 1]
        && (forall k | 0 <= k < attempts - 1 :: RecommendationsTry(region, today, upstream, parse, k).Err?)
        && match RecommendationsTry(region, today, upstream, parse, attempts - 1)
           case Ok(v) =>
             r == v && entries == (if PositiveLength(v) then old(entries)[region := v] else old(entries))
           case Err(_) =>
             attempts == 3 && r == JArr([]) && entries == old(entries)
    {
      if region in entries && Truthy(entries[region]) {
        return entries[region], 0, [];
      }
      var outcome;
      outcome, attempts, waits := FetchRecommendations(region, today, upstream, parse);
      if outcome.Ok? {
        if PositiveLength(outcome.value) {
          Store(region, outcome.value);
        }
        r := outcome.value;
      } else {
        r := JArr([]);
      }
    }

    /** `marketCache[region] = result`, reached only with a result of positive length. */
    method Store(region: Region, v: Json)
      requires Valid() && PositiveLength(v)
      modifies this
      ensures Valid() && entries == old(entries)[region := v]
    {
      entries := entries[region := v];
    }
  }

  /** The retried fetch of one region's recommendations, before the cache sees the result. */
  method FetchRecommendations(region: Region, today: nat -> string,
                              upstream: (string, nat) -> Reply, parse: string -> Option<Json>)
    returns (outcome: Result<Json>, attempts: nat, waits: seq<int>)
    ensures 1 <= attempts <= 3
    ensures waits == [1000, 2000][..attempts - 1]
    ensures forall k | 0 <= k < attempts - 1 :: RecommendationsTry(region, today, upstream, parse, k).Err?
    ensures outcome == RecommendationsTry(region, today, upstream, parse, attempts - 1)
    ensures outcome.Err? ==> attempts == 3
  {
    var attempt := (k: nat) => RecommendationsTry(region, today, upstream, parse, k);
    outcome, attempts, waits := WithRetry(attempt, DefaultRetries, DefaultDelay);
    DefaultWaits(waits);
    forall k | 0 <= k < attempts - 1
      ensures RecommendationsTry(region, today, upstream, parse, k).Err?
    {
      assert attempt(k).Err?;
    }
  }

  /** A region whose first fetch gave a non-empty result is served from the cache the second
      time, whatever the service would answer then; one whose first fetch gave an empty or failed
      result is fetched again. The two requests meet the service and the clock independently. */
  method RepeatedRequest(region: Region, parse: string -> Option<Json>,
                         today1: nat -> string, upstream1: (string, nat) -> Reply,
                         today2: nat -> string, upstream2: (string, nat) -> Reply)
    returns (first: Json, second: Json, secondAttempts: nat)
    ensures PositiveLength(first) ==> second == first && secondAttempts == 0
    ensures !PositiveLength(first) ==> secondAttempts >= 1
  {
    var cache := new MarketCache();
    var attempts, waits;
    first, attempts, waits := cache.GetMarketRecommendations(region, today1, upstream1, parse);
    second, secondAttempts, waits := cache.GetMarketRecommendations(region, today2, upstream2, parse);
  }
}
