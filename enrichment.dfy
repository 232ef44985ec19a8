/** Normalisation of the AI provider's reply in services/geminiService.ts.
    The provider call itself is abstract: a reply datatype shaped like the
    fields the service reads, or the fact that the call threw. */
module Enrichment {
  import opened Wrappers

  /** `chunk.web`: the web page a grounding chunk cites. */
  datatype WebRef = WebRef(title: string, uri: string)

  datatype GroundingChunk = GroundingChunk(web: Option<WebRef>)

  datatype GroundingMetadata = GroundingMetadata(groundingChunks: Option<seq<GroundingChunk>>)

  datatype Candidate = Candidate(groundingMetadata: Option<GroundingMetadata>)

  /** The parts of the provider's response that the service reads. */
  datatype ProviderResponse = ProviderResponse(text: Option<string>, candidates: Option<seq<Candidate>>)

  /** What the awaited provider call produced: a response, or an exception. */
  datatype ProviderCall = Replied(response: ProviderResponse) | Threw

  /** `GroundingSource` and `CrystalSearchResponse` of types.ts. */
  datatype GroundingSource = GroundingSource(title: string, uri: string)

  datatype CrystalSearchResponse = CrystalSearchResponse(content: string, sources: seq<GroundingSource>)

  const NoInformationFound := "No information found."
  const NoSiteDataAvailable := "No site data available."
  const FetchFailedMessage := "Failed to fetch crystal data. Please try again."
  const SiteAccessFailedMessage := "Failed to access site data."

  /** `response.text || fallback`: an absent or empty text is replaced. */
  function ContentOr(text: Option<string>, fallback: string): (r: string)
    ensures text.Some? && text.value != "" ==> r == text.value
    ensures (text.None? || text.value == "") ==> r == fallback
  {
    if text.Some? && text.value != "" then text.value else fallback
  }

  /** `response.candidates?.[0]?.groundingMetadata?.groundingChunks || []`. */
  function FirstCandidateChunks(response: ProviderResponse): (r: seq<GroundingChunk>)
    ensures response.candidates.None? || response.candidates.value == [] ==> r == []
    ensures response.candidates.Some? && response.candidates.value != [] ==>
      var first := response.candidates.value[0];
      if first.groundingMetadata.Some? && first.groundingMetadata.value.groundingChunks.Some?
      then r == first.groundingMetadata.value.groundingChunks.value
      else r == []
  {
    match response.candidates
    case None => []
    case Some(cands) =>
      if cands == [] then []
      else match cands[0].groundingMetadata
        case None => []
        case Some(meta) => meta.groundingChunks.GetOr([])
  }

  /** `.filter(chunk => chunk.web).map(chunk => ({title, uri}))`. */
  function WebSources(chunks: seq<GroundingChunk>): (r: seq<GroundingSource>)
    ensures |r| <= |chunks|
  {
    if chunks == [] then []
    else
      var rest := WebSources(chunks[1..]);
      match chunks[0].web
      case Some(w) => [GroundingSource(w.title, w.uri)] + rest
      case None => rest
  }

  /** Number of chunks that carry a web reference. */
  function WebCount(chunks: seq<GroundingChunk>): nat {
    if chunks == [] then 0 else (if chunks[0].web.Some? then 1 else 0) + WebCount(chunks[1..])
  }

  /** The normalised result: content with its fallback, and the web sources. */
  function Normalize(response: ProviderResponse, fallback: string): (r: CrystalSearchResponse)
    ensures r.content == ContentOr(response.text, fallback)
    ensures r.sources == WebSources(FirstCandidateChunks(response))
  {
    CrystalSearchResponse(ContentOr(response.text, fallback), WebSources(FirstCandidateChunks(response)))
  }

  /** `searchCrystalInfo`: the query only shapes the prompt, which is not modelled. */
  function SearchCrystalInfo(call: ProviderCall): (r: Result<CrystalSearchResponse, string>)
    ensures call.Threw? <==> r == Failure(FetchFailedMessage)
    ensures call.Replied? ==> r == Success(Normalize(call.response, NoInformationFound))
  {
    match call
    case Threw => Failure(FetchFailedMessage)
    case Replied(response) => Success(Normalize(response, NoInformationFound))
  }

  /** `crawlSpecificSite`. */
  function CrawlSpecificSite(call: ProviderCall): (r: Result<CrystalSearchResponse, string>)
    ensures call.Threw? <==> r == Failure(SiteAccessFailedMessage)
    ensures call.Replied? ==> r == Success(Normalize(call.response, NoSiteDataAvailable))
  {
    match call
    case Threw => Failure(SiteAccessFailedMessage)
    case Replied(response) => Success(Normalize(response, NoSiteDataAvailable))
  }

  // ---------------------------------------------------------------------
  // Properties of the normalisation

  /** Filtering distributes over concatenation, so chunk order is kept. */
  lemma {:induction false} WebSourcesAppend(a: seq<GroundingChunk>, b: seq<GroundingChunk>)
    ensures WebSources(a + b) == WebSources(a) + WebSources(b)
  {
    if a == [] {
      assert a + b == b;
    } else {
      assert (a + b)[1..] == a[1..] + b;
      WebSourcesAppend(a[1..], b);
    }
  }

  /** A source is listed exactly when some chunk cites that title and uri. */
  lemma {:induction false} WebSourcesMembership(chunks: seq<GroundingChunk>, s: GroundingSource)
    ensures s in WebSources(chunks) <==> exists c :: c in chunks && c.web == Some(WebRef(s.title, s.uri))
  {
    if chunks != [] {
      WebSourcesMembership(chunks[1..], s);
      assert forall c :: c in chunks <==> c == chunks[0] || c in chunks[1..];
    }
  }

  /** One source per web chunk: the client does not cap the list. */
  lemma {:induction false} WebSourcesCount(chunks: seq<GroundingChunk>)
    ensures |WebSources(chunks)| == WebCount(chunks)
    ensures |WebSources(chunks)| == |chunks| <==> forall c :: c in chunks ==> c.web.Some?
  {
    if chunks != [] {
      WebSourcesCount(chunks[1..]);
      assert forall c :: c in chunks <==> c == chunks[0] || c in chunks[1..];
    }
  }

  /** Chunks without a web field contribute nothing. */
  lemma {:induction false} WebSourcesDropsNonWeb(chunks: seq<GroundingChunk>)
    requires forall c :: c in chunks ==> c.web.None?
    ensures WebSources(chunks) == []
  {
    if chunks != [] {
      WebSourcesDropsNonWeb(chunks[1..]);
    }
  }

  /** Only the first candidate is consulted: later candidates never change the result. */
  lemma OnlyFirstCandidateCounts(text: Option<string>, first: Candidate, rest1: seq<Candidate>,
                                 rest2: seq<Candidate>, fallback: string)
    ensures Normalize(ProviderResponse(text, Some([first] + rest1)), fallback)
         == Normalize(ProviderResponse(text, Some([first] + rest2)), fallback)
  {
  }

  /** An empty reply normalises to the fallback text and no sources. */
  lemma EmptyReply(text: Option<string>, candidates: Option<seq<Candidate>>, fallback: string)
    requires text.None? || text.value == ""
    requires candidates.None? || candidates.value == []
    ensures Normalize(ProviderResponse(text, candidates), fallback) == CrystalSearchResponse(fallback, [])
  {
  }

  /** The search and the crawl differ only in their fixed fallback and error texts. */
  lemma SearchAndCrawlDifferOnlyInTexts(response: ProviderResponse)
    ensures SearchCrystalInfo(Replied(response)).value.sources == CrawlSpecificSite(Replied(response)).value.sources
    ensures response.text.Some? && response.text.value != "" ==>
      SearchCrystalInfo(Replied(response)) == CrawlSpecificSite(Replied(response))
    ensures SearchCrystalInfo(Threw).error != CrawlSpecificSite(Threw).error
  {
  }
}
