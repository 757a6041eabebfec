/**
 * The post-processing of `analyzeWebsite` (geminiService.ts): the API-key guard, the
 * empty-response guard, score clamping, grounding-source extraction and the rethrow.
 * The request itself and `JSON.parse` are given as inputs (a `CallOutcome`).
 */
module GeminiService {

  import opened Wrappers
  import opened Types
  import opened Text

  /** A value of `result.categories` as `JSON.parse` made it: its score may be missing. */
  datatype ParsedCategory = ParsedCategory(name: string, score: Option<int>, insight: string, reasoning: string)

  /**
   * The object `JSON.parse` returned, which the source casts to `AnalysisResult` without
   * checking. `categories` maps each key of `result.categories` to its value, or is None
   * when `result.categories` is absent; extra or missing keys are possible.
   */
  datatype ParsedResult = ParsedResult(
    overallScore: int,
    maturityLevel: string,
    industry: string,
    categories: Option<map<string, ParsedCategory>>,
    executiveSummary: string,
    strengths: seq<string>,
    gaps: seq<string>,
    priorityActions: seq<string>,
    industryContext: IndustryContext,
    groundingSources: Option<seq<Source>>)

  datatype WebRef = WebRef(title: string, uri: string)

  /** One entry of `groundingMetadata.groundingChunks`; only some carry a `web` reference. */
  datatype GroundingChunk = GroundingChunk(web: Option<WebRef>)

  /**
   * A response of `generateContent`: its `text`, what `JSON.parse` makes of that text
   * (a parsed object or the message it throws), and the grounding chunks of the first
   * candidate when there are any.
   */
  datatype Completion = Completion(
    text: Option<string>,
    parsed: Result<ParsedResult>,
    groundingChunks: Option<seq<GroundingChunk>>)

  /** How the awaited `generateContent` call ended. */
  datatype CallOutcome = Resolved(completion: Completion) | Rejected(message: string)

  const MissingKeyMessage: string :=
    "INTERNAL_CONFIG_ERROR: " + "API_KEY" + " is missing. Please ensure it is set in your environment variables."
  const EmptyResponseMessage: string := "The AI returned an empty response. Please try again."
  const FallbackMessage: string := "Content analysis failed. Please check the console for details."

  /** `Math.max(0, Math.min(100, n))` */
  function Clamp(n: int): (r: int)
    ensures 0 <= r <= 100
    ensures 0 <= n <= 100 ==> r == n
    ensures n < 0 ==> r == 0
    ensures n > 100 ==> r == 100
  {
    var m := if 100 < n then 100 else n;
    if 0 > m then 0 else m
  }

  lemma ClampIdempotent(n: int)
    ensures Clamp(Clamp(n)) == Clamp(n)
  {
  }

  /** `if (cat.score !== undefined) cat.score = clamp(cat.score)` */
  function ClampCategory(c: ParsedCategory): (r: ParsedCategory)
    ensures r.score.Some? <==> c.score.Some?
    ensures r.score.Some? ==> 0 <= r.score.value <= 100
    ensures c.score.Some? && 0 <= c.score.value <= 100 ==> r == c
    ensures c.score.Some? ==> r.score == Some(Clamp(c.score.value))
    ensures r.(score := c.score) == c
  {
    match c.score
    case None => c
    case Some(s) => c.(score := Some(Clamp(s)))
  }

  /** Every defined score of `cats` lies in [0,100]. */
  predicate ScoresInRange(cats: map<string, ParsedCategory>) {
    forall k :: k in cats && cats[k].score.Some? ==> 0 <= cats[k].score.value <= 100
  }

  /** The categories after the `forEach` of the source: each value clamped under its own key. */
  function ClampAll(cats: map<string, ParsedCategory>): (r: map<string, ParsedCategory>)
    ensures r.Keys == cats.Keys
    ensures forall k :: k in cats ==> r[k] == ClampCategory(cats[k])
  {
    map k | k in cats :: ClampCategory(cats[k])
  }

  /**
   * The `forEach` loop over `Object.values(result.categories)`, updating one value per
   * step. The values are independent, so the order in which the keys are visited does
   * not change the outcome.
   */
  method ClampCategoryScores(cats: map<string, ParsedCategory>) returns (out: map<string, ParsedCategory>)
    ensures out == ClampAll(cats)
    ensures ScoresInRange(out)
  {
    out := cats;
    var todo := cats.Keys;
    while todo != {}
      invariant todo <= cats.Keys == out.Keys
      invariant forall k :: k in cats && k !in todo ==> out[k] == ClampCategory(cats[k])
      invariant forall k :: k in todo ==> out[k] == cats[k]
      decreases |todo|
    {
      var k :| k in todo;
      out := out[k := ClampCategory(out[k])];
      todo := todo - {k};
    }
    assert forall k :: k in out ==> out[k] == ClampAll(cats)[k];
  }

  /** `{ title: chunk.web.title, uri: chunk.web.uri }` */
  function SourceOf(w: WebRef): Source {
    Source(w.title, w.uri)
  }

  /** `groundingChunks.filter(chunk => chunk.web).map(...)` */
  function WebSources(chunks: seq<GroundingChunk>): (r: seq<Source>)
    ensures |r| <= |chunks|
  {
    if chunks == [] then []
    else
      var head := if chunks[0].web.Some? then [SourceOf(chunks[0].web.value)] else [];
      head + WebSources(chunks[1..])
  }

  /** Filtering and mapping distribute over concatenation: relative order is kept. */
  lemma {:induction false} WebSourcesAppend(a: seq<GroundingChunk>, b: seq<GroundingChunk>)
    ensures WebSources(a + b) == WebSources(a) + WebSources(b)
  {
    if a == [] {
      assert a + b == b;
    } else {
      var head := if a[0].web.Some? then [SourceOf(a[0].web.value)] else [];
      assert (a + b)[0] == a[0];
      assert (a + b)[1..] == a[1..] + b;
      assert WebSources(a + b) == head + WebSources(a[1..] + b);
      WebSourcesAppend(a[1..], b);
      assert WebSources(a) == head + WebSources(a[1..]);
    }
  }

  /** A source is extracted exactly when some chunk has that web reference. */
  lemma {:induction false} WebSourcesMembership(chunks: seq<GroundingChunk>, s: Source)
    ensures s in WebSources(chunks) <==> exists i :: 0 <= i < |chunks| && chunks[i].web == Some(WebRef(s.title, s.uri))
  {
    if chunks != [] {
      WebSourcesMembership(chunks[1..], s);
      if s in WebSources(chunks[1..]) {
        var i :| 0 <= i < |chunks[1..]| && chunks[1..][i].web == Some(WebRef(s.title, s.uri));
        assert chunks[i + 1].web == Some(WebRef(s.title, s.uri));
      }
      if exists i :: 0 <= i < |chunks| && chunks[i].web == Some(WebRef(s.title, s.uri)) {
        var i :| 0 <= i < |chunks| && chunks[i].web == Some(WebRef(s.title, s.uri));
        if i > 0 {
          assert chunks[1..][i - 1].web == Some(WebRef(s.title, s.uri));
        }
      }
    }
  }

  /** When every chunk has a web reference, the sources are those references, index for index. */
  lemma {:induction false} WebSourcesAllWeb(chunks: seq<GroundingChunk>)
    requires forall i :: 0 <= i < |chunks| ==> chunks[i].web.Some?
    ensures |WebSources(chunks)| == |chunks|
    ensures forall i :: 0 <= i < |chunks| ==> WebSources(chunks)[i] == SourceOf(chunks[i].web.value)
  {
    if chunks != [] {
      WebSourcesAllWeb(chunks[1..]);
    }
  }

  /** Source k is the web reference of chunk `pos[k]`. */
  ghost predicate PositionsSourced(chunks: seq<GroundingChunk>, sources: seq<Source>, pos: seq<nat>) {
    |pos| == |sources| &&
    forall k :: 0 <= k < |pos| ==>
      pos[k] < |chunks| && chunks[pos[k]].web == Some(WebRef(sources[k].title, sources[k].uri))
  }

  ghost predicate Increasing(pos: seq<nat>) {
    forall k, l :: 0 <= k < l < |pos| ==> pos[k] < pos[l]
  }

  /** Every chunk with a web reference has its index in `pos`. */
  ghost predicate CoversWebChunks(chunks: seq<GroundingChunk>, pos: seq<nat>) {
    forall i :: 0 <= i < |chunks| && chunks[i].web.Some? ==> i in pos
  }

  /**
   * `pos` lists, in increasing order, exactly the indices of the chunks that carry a web
   * reference, and `sources[k]` is the reference of chunk `pos[k]`.
   */
  ghost predicate PositionsOf(chunks: seq<GroundingChunk>, sources: seq<Source>, pos: seq<nat>) {
    PositionsSourced(chunks, sources, pos) && Increasing(pos) && CoversWebChunks(chunks, pos)
  }

  function Shifted(pos: seq<nat>): (r: seq<nat>)
    ensures |r| == |pos| && forall k :: 0 <= k < |pos| ==> r[k] == pos[k] + 1
  {
    seq(|pos|, k requires 0 <= k < |pos| => pos[k] + 1)
  }

  /** A first chunk without a web reference shifts every position of the rest by one. */
  lemma PositionsPastPlainChunk(chunks: seq<GroundingChunk>, sources: seq<Source>, pos: seq<nat>)
    requires |chunks| > 0 && chunks[0].web.None? && PositionsOf(chunks[1..], sources, pos)
    ensures PositionsOf(chunks, sources, Shifted(pos))
  {
    var tail := chunks[1..];
    var sh := Shifted(pos);
    forall k | 0 <= k < |sh|
      ensures sh[k] < |chunks| && chunks[sh[k]].web == Some(WebRef(sources[k].title, sources[k].uri))
    {
      assert chunks[sh[k]] == tail[pos[k]];
    }
    assert PositionsSourced(chunks, sources, sh);
    forall k, l | 0 <= k < l < |sh|
      ensures sh[k] < sh[l]
    {
      assert pos[k] < pos[l];
    }
    assert Increasing(sh);
    forall i | 0 <= i < |chunks| && chunks[i].web.Some?
      ensures i in sh
    {
      assert i > 0 && tail[i - 1] == chunks[i];
      var k :| 0 <= k < |pos| && pos[k] == i - 1;
      assert sh[k] == i;
    }
    assert CoversWebChunks(chunks, sh);
  }

  /** A first chunk with a web reference adds position 0 and its source in front. */
  lemma PositionsPastWebChunk(chunks: seq<GroundingChunk>, sources: seq<Source>, pos: seq<nat>)
    requires |chunks| > 0 && chunks[0].web.Some? && PositionsOf(chunks[1..], sources, pos)
    ensures PositionsOf(chunks, [SourceOf(chunks[0].web.value)] + sources, [0] + Shifted(pos))
  {
    var tail := chunks[1..];
    var sh := Shifted(pos);
    var p := [0] + sh;
    var srcs := [SourceOf(chunks[0].web.value)] + sources;
    forall k | 0 <= k < |p|
      ensures p[k] < |chunks| && chunks[p[k]].web == Some(WebRef(srcs[k].title, srcs[k].uri))
    {
      if k > 0 {
        assert p[k] == sh[k - 1] && srcs[k] == sources[k - 1];
        assert chunks[p[k]] == tail[pos[k - 1]];
      }
    }
    assert PositionsSourced(chunks, srcs, p);
    forall k, l | 0 <= k < l < |p|
      ensures p[k] < p[l]
    {
      assert p[l] == sh[l - 1];
      if k > 0 {
        assert p[k] == sh[k - 1];
        assert pos[k - 1] < pos[l - 1];
      }
    }
    assert Increasing(p);
    forall i | 0 <= i < |chunks| && chunks[i].web.Some?
      ensures i in p
    {
      if i > 0 {
        assert tail[i - 1] == chunks[i];
        var k :| 0 <= k < |pos| && pos[k] == i - 1;
        assert p[k + 1] == i;
      } else {
        assert p[0] == 0;
      }
    }
    assert CoversWebChunks(chunks, p);
  }

  /**
   * The sources come from exactly the chunks that carry a web reference, in their order,
   * so there are as many sources as web chunks.
   */
  lemma {:induction false} WebSourcesPositions(chunks: seq<GroundingChunk>) returns (pos: seq<nat>)
    ensures PositionsOf(chunks, WebSources(chunks), pos)
  {
    if chunks == [] {
      pos := [];
    } else {
      var restPos := WebSourcesPositions(chunks[1..]);
      if chunks[0].web.Some? {
        assert WebSources(chunks) == [SourceOf(chunks[0].web.value)] + WebSources(chunks[1..]);
        PositionsPastWebChunk(chunks, WebSources(chunks[1..]), restPos);
        pos := [0] + Shifted(restPos);
      } else {
        assert WebSources(chunks) == WebSources(chunks[1..]);
        PositionsPastPlainChunk(chunks, WebSources(chunks[1..]), restPos);
        pos := Shifted(restPos);
      }
    }
  }

  /** `error.message || "Content analysis failed..."` */
  function Rethrown(message: string): (r: string)
    ensures r != ""
    ensures message != "" ==> r == message
    ensures message == "" ==> r == FallbackMessage
  {
    if message != "" then message else FallbackMessage
  }

  /** The parsed object after the clamping and the grounding-source assignment. */
  function Normalized(p: ParsedResult, chunks: Option<seq<GroundingChunk>>): (q: ParsedResult)
    ensures q.overallScore == Clamp(p.overallScore)
    ensures q.categories == if p.categories.Some? then Some(ClampAll(p.categories.value)) else None
    ensures q.groundingSources == if chunks.Some? then Some(WebSources(chunks.value)) else p.groundingSources
    ensures q.(overallScore := p.overallScore, categories := p.categories, groundingSources := p.groundingSources) == p
  {
    var cats := if p.categories.Some? then Some(ClampAll(p.categories.value)) else None;
    var sources := if chunks.Some? then Some(WebSources(chunks.value)) else p.groundingSources;
    p.(overallScore := Clamp(p.overallScore), categories := cats, groundingSources := sources)
  }

  /** After post-processing every score present lies in [0,100]. */
  lemma NormalizedScoresInRange(p: ParsedResult, chunks: Option<seq<GroundingChunk>>)
    ensures 0 <= Normalized(p, chunks).overallScore <= 100
    ensures Normalized(p, chunks).categories.Some? ==> ScoresInRange(Normalized(p, chunks).categories.value)
  {
  }

  /** Post-processing an already post-processed object (with the same chunks) changes nothing. */
  lemma NormalizedIdempotent(p: ParsedResult, chunks: Option<seq<GroundingChunk>>)
    ensures Normalized(Normalized(p, chunks), chunks) == Normalized(p, chunks)
  {
    var q := Normalized(p, chunks);
    if q.categories.Some? {
      var cs := q.categories.value;
      assert ClampAll(cs) == cs;
    }
  }

  /**
   * What `analyzeWebsite` settles to, with `process.env.API_KEY` and the call's outcome
   * as inputs: the key guard comes first and throws outside the `try`; every later throw
   * is caught and rethrown; a success is the post-processed object.
   */
  function AnalyzeOutcome(apiKey: Option<string>, call: CallOutcome): (r: Result<ParsedResult>)
    ensures !Truthy(apiKey) ==> r == Failure(MissingKeyMessage)
    ensures r.Failure? ==> r.message != ""
    ensures r.Success? ==> 0 <= r.value.overallScore <= 100
    ensures r.Success? && r.value.categories.Some? ==> ScoresInRange(r.value.categories.value)
    ensures r.Success? <==> Truthy(apiKey) && call.Resolved? && Truthy(call.completion.text) &&
                            call.completion.parsed.Success?
  {
    if !Truthy(apiKey) then Failure(MissingKeyMessage)
    else
      match call
      case Rejected(message) => Failure(Rethrown(message))
      case Resolved(completion) =>
        if !Truthy(completion.text) then Failure(Rethrown(EmptyResponseMessage))
        else
          match completion.parsed
          case Failure(message) => Failure(Rethrown(message))
          case Success(parsed) => Success(Normalized(parsed, completion.groundingChunks))
  }

  /** `analyzeWebsite(inputs)`, updating the parsed object step by step as the source does. */
  method AnalyzeWebsite(inputs: UserInputs, apiKey: Option<string>, call: CallOutcome) returns (r: Result<ParsedResult>)
    ensures r == AnalyzeOutcome(apiKey, call)
    ensures !Truthy(apiKey) ==> r == Failure(MissingKeyMessage)
    ensures Truthy(apiKey) && call.Rejected? ==> r == Failure(Rethrown(call.message))
    ensures Truthy(apiKey) && call.Resolved? && !Truthy(call.completion.text) ==> r == Failure(EmptyResponseMessage)
    ensures Truthy(apiKey) && call.Resolved? && Truthy(call.completion.text) && call.completion.parsed.Failure? ==>
              r == Failure(Rethrown(call.completion.parsed.message))
    ensures Truthy(apiKey) && call.Resolved? && Truthy(call.completion.text) && call.completion.parsed.Success? ==>
              r == Success(Normalized(call.completion.parsed.value, call.completion.groundingChunks))
  {
    if !Truthy(apiKey) {
      return Failure(MissingKeyMessage);
    }
    match call
    case Rejected(message) =>
      return Failure(Rethrown(message));
    case Resolved(completion) =>
      if !Truthy(completion.text) {
        return Failure(Rethrown(EmptyResponseMessage));
      }
      match completion.parsed
      case Failure(message) =>
        return Failure(Rethrown(message));
      case Success(parsed) =>
        var result := parsed;
        result := result.(overallScore := Clamp(result.overallScore));
        if result.categories.Some? {
          var clamped := ClampCategoryScores(result.categories.value);
          result := result.(categories := Some(clamped));
        }
        if completion.groundingChunks.Some? {
          result := result.(groundingSources := Some(WebSources(completion.groundingChunks.value)));
        }
        return Success(result);
  }

  /** The enum value whose label is `s`, if any. */
  function ParseMaturity(s: string): (r: Option<MaturityLevel>)
    ensures r.Some? ==> r.value.Label() == s
    ensures forall m: MaturityLevel :: m.Label() == s ==> r == Some(m)
  {
    if s == "Foundational" then Some(Foundational)
    else if s == "Growth-stage" then Some(GrowthStage)
    else if s == "Strategic" then Some(Strategic)
    else if s == "Market leader" then Some(MarketLeader)
    else None
  }

  /** The five keys of `AnalysisResult.categories`, in the order the dashboard lists them. */
  const CategoryKeys: seq<string> := ["hygiene", "relevance", "salesTool", "differentiation", "advancedStrategy"]

  /** `cats` has a value under `key`, and that value has a score. */
  predicate HasScoredCategory(cats: map<string, ParsedCategory>, key: string) {
    key in cats && cats[key].score.Some?
  }

  /** A scored value under each of the five keys. */
  predicate HasAllCategories(cats: map<string, ParsedCategory>) {
    forall i :: 0 <= i < |CategoryKeys| ==> HasScoredCategory(cats, CategoryKeys[i])
  }

  function TypedCategory(c: ParsedCategory): CategoryScore
    requires c.score.Some?
  {
    CategoryScore(c.name, c.score.value, c.insight, c.reasoning)
  }

  /**
   * The `AnalysisResult` the cast at geminiService.ts:80 takes for granted, when the
   * parsed object really has that shape: a scored value under each of the five keys and
   * a known maturity label. Each field is read by its key; other keys are ignored. The
   * source never makes this check.
   */
  function AsAnalysisResult(p: ParsedResult): (r: Option<AnalysisResult>)
    ensures r.Some? <==> p.categories.Some? && ParseMaturity(p.maturityLevel).Some? &&
                         HasAllCategories(p.categories.value)
    ensures r.Some? ==> r.value.overallScore == p.overallScore && r.value.groundingSources == p.groundingSources &&
                        r.value.maturityLevel.Label() == p.maturityLevel
    ensures r.Some? ==> r.value.industry == p.industry && r.value.executiveSummary == p.executiveSummary &&
                        r.value.strengths == p.strengths && r.value.gaps == p.gaps &&
                        r.value.priorityActions == p.priorityActions && r.value.industryContext == p.industryContext
    ensures r.Some? ==>
              var cs := p.categories.value;
              assert HasScoredCategory(cs, CategoryKeys[0]) && HasScoredCategory(cs, CategoryKeys[1]) &&
                     HasScoredCategory(cs, CategoryKeys[2]) && HasScoredCategory(cs, CategoryKeys[3]) &&
                     HasScoredCategory(cs, CategoryKeys[4]);
              var c := r.value.categories;
              c.hygiene == TypedCategory(cs["hygiene"]) && c.relevance == TypedCategory(cs["relevance"]) &&
              c.salesTool == TypedCategory(cs["salesTool"]) &&
              c.differentiation == TypedCategory(cs["differentiation"]) &&
              c.advancedStrategy == TypedCategory(cs["advancedStrategy"])
  {
    match (p.categories, ParseMaturity(p.maturityLevel))
    case (Some(cs), Some(level)) =>
      if HasScoredCategory(cs, "hygiene") && HasScoredCategory(cs, "relevance") &&
         HasScoredCategory(cs, "salesTool") && HasScoredCategory(cs, "differentiation") &&
         HasScoredCategory(cs, "advancedStrategy")
      then
        Some(AnalysisResult(
          p.overallScore, level, p.industry,
          Categories(TypedCategory(cs["hygiene"]), TypedCategory(cs["relevance"]), TypedCategory(cs["salesTool"]),
                     TypedCategory(cs["differentiation"]), TypedCategory(cs["advancedStrategy"])),
          p.executiveSummary, p.strengths, p.gaps, p.priorityActions, p.industryContext,
          p.groundingSources))
      else
        assert !HasScoredCategory(cs, CategoryKeys[0]) || !HasScoredCategory(cs, CategoryKeys[1]) ||
               !HasScoredCategory(cs, CategoryKeys[2]) || !HasScoredCategory(cs, CategoryKeys[3]) ||
               !HasScoredCategory(cs, CategoryKeys[4]);
        None
    case _ => None
  }

  /** Every score of the typed view of a post-processed object lies in [0,100]. */
  predicate TypedScoresInRange(a: AnalysisResult) {
    var c := a.categories;
    0 <= a.overallScore <= 100 &&
    0 <= c.hygiene.score <= 100 && 0 <= c.relevance.score <= 100 && 0 <= c.salesTool.score <= 100 &&
    0 <= c.differentiation.score <= 100 && 0 <= c.advancedStrategy.score <= 100
  }

  lemma TypedViewInRange(p: ParsedResult, chunks: Option<seq<GroundingChunk>>)
    requires AsAnalysisResult(Normalized(p, chunks)).Some?
    ensures TypedScoresInRange(AsAnalysisResult(Normalized(p, chunks)).value)
  {
    var q := Normalized(p, chunks);
    var cs := q.categories.value;
    assert ScoresInRange(cs);
    assert forall i :: 0 <= i < 5 ==> HasScoredCategory(cs, CategoryKeys[i]);
    assert forall i :: 0 <= i < 5 ==> 0 <= cs[CategoryKeys[i]].score.value <= 100;
  }
}
