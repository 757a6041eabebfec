/**
 * The results dashboard (components/Dashboard.tsx): the email gate, the PDF guard and
 * file name, the maturity styles, the radar chart data and the grounding-source labels.
 */
module Dashboard {

  import opened Wrappers
  import opened Types
  import opened Text
  import GeminiService

  const LeaderStyle: string := "text-emerald-700 bg-emerald-50 border-emerald-100"
  const StrategicStyle: string := "text-[#ad3642] bg-[#ad3642]/5 border-[#ad3642]/10"
  const GrowthStyle: string := "text-amber-700 bg-amber-50 border-amber-100"
  const DefaultStyle: string := "text-slate-600 bg-slate-50 border-slate-100"

  /** `getMaturityColor(level)`: three named levels, everything else the default. */
  function MaturityColor(level: string): (style: string)
    ensures level == "Market leader" ==> style == LeaderStyle
    ensures level == "Strategic" ==> style == StrategicStyle
    ensures level == "Growth-stage" ==> style == GrowthStyle
    ensures style == DefaultStyle <==> level != "Market leader" && level != "Strategic" && level != "Growth-stage"
  {
    match level
    case "Market leader" => LeaderStyle
    case "Strategic" => StrategicStyle
    case "Growth-stage" => GrowthStyle
    case _ => DefaultStyle
  }

  /** The four declared maturity levels get four different styles; Foundational gets the default. */
  lemma MaturityStylesDistinct(m: MaturityLevel, n: MaturityLevel)
    ensures m != n ==> MaturityColor(m.Label()) != MaturityColor(n.Label())
    ensures MaturityColor(Foundational.Label()) == DefaultStyle
  {
  }

  /** One point of the radar chart. */
  datatype ChartPoint = ChartPoint(subject: string, score: int, fullMark: int)

  const ChartSubjects: seq<string> := ["Hygiene", "Relevance", "Sales Tool", "Differentiation", "Strategy"]

  /** The category values in the order the chart and the score cards list them. */
  function CategoryList(c: Categories): seq<CategoryScore> {
    [c.hygiene, c.relevance, c.salesTool, c.differentiation, c.advancedStrategy]
  }

  /** `chartData` */
  function ChartData(results: AnalysisResult): (data: seq<ChartPoint>)
    ensures |data| == |ChartSubjects| == 5
    ensures forall i :: 0 <= i < 5 ==>
              data[i].subject == ChartSubjects[i] && data[i].fullMark == 100 &&
              data[i].score == CategoryList(results.categories)[i].score
  {
    var c := results.categories;
    [ChartPoint("Hygiene", c.hygiene.score, 100),
     ChartPoint("Relevance", c.relevance.score, 100),
     ChartPoint("Sales Tool", c.salesTool.score, 100),
     ChartPoint("Differentiation", c.differentiation.score, 100),
     ChartPoint("Strategy", c.advancedStrategy.score, 100)]
  }

  /** For a post-processed result of the declared shape, every plotted score lies within its full mark. */
  lemma ChartWithinFullMark(p: GeminiService.ParsedResult, chunks: Option<seq<GeminiService.GroundingChunk>>)
    requires GeminiService.AsAnalysisResult(GeminiService.Normalized(p, chunks)).Some?
    ensures var data := ChartData(GeminiService.AsAnalysisResult(GeminiService.Normalized(p, chunks)).value);
            forall i :: 0 <= i < |data| ==> 0 <= data[i].score <= data[i].fullMark
  {
    GeminiService.TypedViewInRange(p, chunks);
  }

  /**
   * The chart reads each category by its key, whatever order the parsed object lists
   * them in: point i plots the score stored under the i-th key.
   */
  lemma ChartReadsByKey(p: GeminiService.ParsedResult)
    requires GeminiService.AsAnalysisResult(p).Some?
    ensures var data := ChartData(GeminiService.AsAnalysisResult(p).value);
            forall i :: 0 <= i < |data| ==>
              GeminiService.CategoryKeys[i] in p.categories.value &&
              p.categories.value[GeminiService.CategoryKeys[i]].score == Some(data[i].score)
  {
    var cs := p.categories.value;
    assert GeminiService.HasScoredCategory(cs, GeminiService.CategoryKeys[0]);
    assert GeminiService.HasScoredCategory(cs, GeminiService.CategoryKeys[1]);
    assert GeminiService.HasScoredCategory(cs, GeminiService.CategoryKeys[2]);
    assert GeminiService.HasScoredCategory(cs, GeminiService.CategoryKeys[3]);
    assert GeminiService.HasScoredCategory(cs, GeminiService.CategoryKeys[4]);
  }

  /** `source.title || source.uri` */
  function SourceLabel(s: Source): (text: string)
    ensures text == s.title || text == s.uri
    ensures text == s.uri <== s.title == ""
    ensures text == s.title <== s.title != ""
    ensures text == "" <==> s.title == "" && s.uri == ""
  {
    if s.title != "" then s.title else s.uri
  }

  /** The sources block renders only for a present, non-empty list. */
  predicate ShowsSources(sources: Option<seq<Source>>) {
    sources.Some? && |sources.value| > 0
  }

  /**
   * After post-processing with grounding chunks, the sources block shows exactly when
   * some chunk carried a web reference.
   */
  lemma SourcesShownIffWebChunk(p: GeminiService.ParsedResult, chunks: seq<GeminiService.GroundingChunk>)
    ensures ShowsSources(GeminiService.Normalized(p, Some(chunks)).groundingSources) <==>
            exists i :: 0 <= i < |chunks| && chunks[i].web.Some?
  {
    var sources := GeminiService.WebSources(chunks);
    if |sources| > 0 {
      var s := sources[0];
      GeminiService.WebSourcesMembership(chunks, s);
    }
    if exists i :: 0 <= i < |chunks| && chunks[i].web.Some? {
      var i :| 0 <= i < |chunks| && chunks[i].web.Some?;
      var w := chunks[i].web.value;
      GeminiService.WebSourcesMembership(chunks, Source(w.title, w.uri));
    }
  }

  /** `replace(/^https?:\/\//, '')`: one leading `https://` or `http://` removed. */
  function StripScheme(url: string): (rest: string)
    ensures url == "https://" + rest || url == "http://" + rest ||
            (rest == url && !StartsWith(url, "https://") && !StartsWith(url, "http://"))
    ensures StartsWith(url, "https://") ==> url == "https://" + rest
    ensures StartsWith(url, "http://") ==> url == "http://" + rest
  {
    if StartsWith(url, "https://") then
      assert url == url[..8] + url[8..];
      assert url[..8][4] == 's';
      url[8..]
    else if StartsWith(url, "http://") then
      assert url == url[..7] + url[7..];
      url[7..]
    else url
  }

  /** `split('/')[0]`: the text before the first `/`, or all of it. */
  function FirstSegment(s: string): (seg: string)
    ensures '/' !in seg
    ensures StartsWith(s, seg)
    ensures seg == s || s[|seg|] == '/'
  {
    match FirstIndexOf(s, '/')
    case None => s
    case Some(k) => s[..k]
  }

  const PdfPrefix: string := "LexiConn_Audit_"
  const PdfSuffix: string := ".pdf"

  /** The name passed to `pdf.save`: the host part of the URL between a prefix and `.pdf`. */
  function PdfFileName(websiteUrl: string): (name: string)
    ensures exists host :: name == PdfPrefix + host + PdfSuffix && host == FirstSegment(StripScheme(websiteUrl))
    ensures StartsWith(name, PdfPrefix)
  {
    var host := FirstSegment(StripScheme(websiteUrl));
    assert (PdfPrefix + host + PdfSuffix)[..|PdfPrefix|] == PdfPrefix;
    PdfPrefix + host + PdfSuffix
  }

  /** For a submitted `https://` URL the file is named after its host alone. */
  lemma PdfNameOfHost(host: string, path: string)
    requires '/' !in host
    ensures PdfFileName("https://" + host + "/" + path) == PdfPrefix + host + PdfSuffix
    ensures PdfFileName("https://" + host) == PdfPrefix + host + PdfSuffix
  {
    var url := "https://" + host + "/" + path;
    assert url[..8] == "https://";
    assert StripScheme(url) == host + "/" + path;
    var seg := FirstSegment(host + "/" + path);
    assert (host + "/" + path)[..|host|] == host;
    assert (host + "/" + path)[|host|] == '/';
    assert seg == host;
    var bare := "https://" + host;
    assert bare[..8] == "https://";
    assert StripScheme(bare) == host;
  }

  /** The gate and PDF state of one mounted dashboard. */
  class ReportView {
    var isLocked: bool
    var email: string
    var isGeneratingPdf: bool

    constructor ()
      ensures isLocked && email == "" && !isGeneratingPdf
    {
      isLocked := true;
      email := "";
      isGeneratingPdf := false;
    }

    /** The email field's `onChange`. */
    method SetEmail(value: string)
      modifies this
      ensures email == value
      ensures isLocked == old(isLocked) && isGeneratingPdf == old(isGeneratingPdf)
    {
      email := value;
    }

    /** `handleUnlock`: unlock only for a non-empty address containing `@`; the report never relocks. */
    method HandleUnlock()
      modifies this
      ensures isLocked == (old(isLocked) && !('@' in email))
      ensures !old(isLocked) ==> !isLocked
      ensures email == old(email) && isGeneratingPdf == old(isGeneratingPdf)
    {
      if email != "" && '@' in email {
        isLocked := false;
      }
    }

    /** The guard and first step of `handleDownloadPdf`; `reportMounted` is `reportRef.current`. */
    method BeginDownloadPdf(reportMounted: bool) returns (started: bool)
      modifies this
      ensures started == (reportMounted && !isLocked)
      ensures started ==> isGeneratingPdf
      ensures !started ==> isGeneratingPdf == old(isGeneratingPdf)
      ensures isLocked == old(isLocked) && email == old(email)
    {
      if !reportMounted || isLocked {
        return false;
      }
      isGeneratingPdf := true;
      return true;
    }

    /**
     * The rest of `handleDownloadPdf` once rasterising ended: the file is saved on
     * success, and the `finally` clears the flag either way.
     */
    method FinishDownloadPdf(rendered: bool, websiteUrl: string) returns (saved: Option<string>)
      modifies this
      ensures saved == if rendered then Some(PdfFileName(websiteUrl)) else None
      ensures !isGeneratingPdf
      ensures isLocked == old(isLocked) && email == old(email)
    {
      saved := if rendered then Some(PdfFileName(websiteUrl)) else None;
      isGeneratingPdf := false;
    }

    /** `handleDownloadPdf` run to completion: a no-op while locked, and never left generating. */
    method HandleDownloadPdf(reportMounted: bool, rendered: bool, websiteUrl: string) returns (saved: Option<string>)
      modifies this
      ensures old(isLocked) || !reportMounted ==> saved == None && isGeneratingPdf == old(isGeneratingPdf)
      ensures !old(isLocked) && reportMounted ==>
                !isGeneratingPdf && saved == (if rendered then Some(PdfFileName(websiteUrl)) else None)
      ensures isLocked == old(isLocked) && email == old(email)
    {
      var started := BeginDownloadPdf(reportMounted);
      if !started {
        return None;
      }
      saved := FinishDownloadPdf(rendered, websiteUrl);
    }
  }
}
