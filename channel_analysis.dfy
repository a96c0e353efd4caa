/** analyze_channel_and_find_tools.py: reading a channel's video metadata,
    classifying its content by keyword counts, turning the classification
    into repository search queries, and de-duplicating the repositories
    found. The download tool, the web search and the pauses between
    searches are outside the model: their outputs are parameters. */
module Channel {
  import opened Values
  import opened Text
  import VideoIds

  // Parsing the metadata listing

  /** One line of the listing, as the fields `id|||title|||description|||
      duration|||view_count|||upload_date`. */
  datatype Video = Video(videoId: string, title: string, description: string,
                         duration: string, viewCount: string, uploadDate: string,
                         url: string)

  const FieldSep := "|||"

  function FieldOr(parts: seq<string>, k: nat, default: string): string
  {
    if k < |parts| then parts[k] else default
  }

  /** A line becomes a video when it holds at least three fields; missing
      trailing fields get their defaults. */
  function ParseLine(line: string): (r: Option<Video>)
    ensures r.Some? <==> Count(line, FieldSep) >= 2
    ensures r.Some? ==> r.value.url == VideoIds.WatchUrl(r.value.videoId)
  {
    CountIsSplitsMinusOne(line, FieldSep);
    SplitFirstPieces(line, FieldSep);
    if Contains(line, FieldSep) then
      var parts := SplitAll(line, FieldSep);
      if |parts| >= 3 then
        Some(Video(parts[0], parts[1], parts[2], FieldOr(parts, 3, "0"),
                   FieldOr(parts, 4, "0"), FieldOr(parts, 5, ""),
                   VideoIds.WatchUrl(parts[0])))
      else None
    else None
  }

  /** The six metadata fields of a video, in listing order. */
  function Fields(v: Video): seq<string>
  {
    [v.videoId, v.title, v.description, v.duration, v.viewCount, v.uploadDate]
  }

  const Defaults: seq<string> := ["", "", "", "0", "0", ""]

  /** A line with at most six fields is exactly its parsed fields joined by
      the separator, and every field it lacks holds its default. */
  lemma ParseLineRejoins(line: string)
    requires ParseLine(line).Some? && Count(line, FieldSep) <= 5
    ensures var v := ParseLine(line).value; var n := Count(line, FieldSep) + 1;
      && JoinWith(Fields(v)[..n], FieldSep) == line
      && forall k :: n <= k < 6 ==> Fields(v)[k] == Defaults[k]
  {
    var v := ParseLine(line).value;
    var parts := SplitAll(line, FieldSep);
    CountIsSplitsMinusOne(line, FieldSep);
    SplitFirstPieces(line, FieldSep);
    var n := |parts|;
    assert Fields(v)[..n] == parts;
    JoinSplit(line, FieldSep);
  }

  /** The lines of the download tool's output: `stdout.strip().split('\n')`. */
  function Lines(stdout: string): seq<string>
  {
    SplitAll(Strip(stdout), "\n")
  }

  /** The videos of the listing, in line order. */
  function ParsedVideos(lines: seq<string>): seq<Video>
  {
    if |lines| == 0 then []
    else
      var rest := ParsedVideos(lines[..|lines| - 1]);
      match ParseLine(lines[|lines| - 1])
      case Some(v) => rest + [v]
      case None => rest
  }

  /** A video is listed exactly when some line parses to it. */
  lemma {:induction false} ParsedVideosFromLines(lines: seq<string>)
    ensures |ParsedVideos(lines)| <= |lines|
    ensures forall v :: v in ParsedVideos(lines) <==> exists l :: l in lines && ParseLine(l) == Some(v)
  {
    if |lines| > 0 {
      var init := lines[..|lines| - 1];
      ParsedVideosFromLines(init);
      assert lines == init + [lines[|lines| - 1]];
    }
  }

  /** One more line adds its video, if it has one, at the end. */
  lemma ParsedVideosSnoc(lines: seq<string>, line: string)
    ensures ParsedVideos(lines + [line]) ==
      if ParseLine(line).Some? then ParsedVideos(lines) + [ParseLine(line).value] else ParsedVideos(lines)
  {
    assert (lines + [line])[..|lines|] == lines;
  }

  /** The listing loop of `ChannelAnalyzer.fetch_channel_videos`. */
  method ParseVideos(stdout: string) returns (videos: seq<Video>)
    ensures videos == ParsedVideos(Lines(stdout))
  {
    videos := ParseLines(Lines(stdout));
  }

  /** The body of the listing loop, over the lines already split. */
  method ParseLines(lines: seq<string>) returns (videos: seq<Video>)
    ensures videos == ParsedVideos(lines)
  {
    videos := [];
    var i := 0;
    while i < |lines|
      invariant 0 <= i <= |lines|
      invariant videos == ParsedVideos(lines[..i])
    {
      var line := lines[i];
      var parsed := ParseLine(line);
      ParsedVideosSnoc(lines[..i], line);
      assert lines[..i + 1] == lines[..i] + [line];
      if parsed.Some? {
        videos := videos + [parsed.value];
      }
      i := i + 1;
    }
    assert lines[..|lines|] == lines;
  }

  // Classifying the channel

  const AutomationKeywords: seq<string> :=
    ["automation", "script", "generate", "create", "batch", "bulk",
     "api", "python", "tool", "software", "app", "program"]

  const TechTerms: seq<string> :=
    ["python", "javascript", "react", "node", "api", "github", "docker", "aws"]

  datatype VideoType = Coding | Ai | Tech | Educational | Automated

  const AllVideoTypes: seq<VideoType> := [Coding, Ai, Tech, Educational, Automated]

  function TypeKeywords(t: VideoType): (kws: seq<string>)
    ensures forall k :: k in kws ==> |k| > 0
  {
    match t
    case Coding => ["code", "programming", "tutorial", "coding", "developer", "software"]
    case Ai => ["ai", "artificial intelligence", "machine learning", "ml", "llm", "gpt"]
    case Tech => ["technology", "tech", "software", "hardware", "review"]
    case Educational => ["tutorial", "how to", "learn", "guide", "explain"]
    case Automated => ["auto", "generated", "batch", "bulk", "script"]
  }

  datatype ContentPattern = CodingTutorials | AiContent | AutomatedContent | MixedContent

  datatype Analysis = Analysis(
    totalVideos: nat,
    commonKeywords: seq<(string, nat)>,
    videoTypes: map<VideoType, nat>,
    automationIndicators: seq<string>,
    techStackHints: seq<string>,
    contentPattern: ContentPattern)

  predicate NonEmptyWords(kws: seq<string>)
  {
    forall k :: k in kws ==> |k| > 0
  }

  /** All titles and descriptions, each title followed by a space and its
      description, joined by spaces. */
  function AllText(videos: seq<Video>): string
  {
    JoinWith(seq(|videos|, i requires 0 <= i < |videos| => videos[i].title + " " + videos[i].description), " ")
  }

  /** The keywords that occur, each with its count, in keyword order. */
  function KeywordCounts(text: string, kws: seq<string>): seq<(string, nat)>
    requires NonEmptyWords(kws)
  {
    if |kws| == 0 then []
    else
      var rest := KeywordCounts(text, kws[..|kws| - 1]);
      var k := kws[|kws| - 1];
      if Count(text, k) > 0 then rest + [(k, Count(text, k))] else rest
  }

  /** A keyword is listed with a count exactly when it occurs that many
      times, and at least once. */
  lemma {:induction false} KeywordCountsMeaning(text: string, kws: seq<string>)
    requires NonEmptyWords(kws)
    ensures forall k, c ::
      (k, c) in KeywordCounts(text, kws) <==> k in kws && c == Count(text, k) && c > 0
  {
    if |kws| > 0 {
      var init := kws[..|kws| - 1];
      KeywordCountsMeaning(text, init);
      assert kws == init + [kws[|kws| - 1]];
    }
  }

  /** The score of a video type: the total count of its keywords. */
  function TypeScore(text: string, kws: seq<string>): nat
    requires NonEmptyWords(kws)
  {
    if |kws| == 0 then 0 else TypeScore(text, kws[..|kws| - 1]) + Count(text, kws[|kws| - 1])
  }

  /** A type's score is positive exactly when one of its keywords occurs. */
  lemma {:induction false} TypeScorePositive(text: string, kws: seq<string>)
    requires NonEmptyWords(kws)
    ensures TypeScore(text, kws) > 0 <==> exists k :: k in kws && Contains(text, k)
  {
    if |kws| > 0 {
      var init := kws[..|kws| - 1];
      TypeScorePositive(text, init);
      assert kws == init + [kws[|kws| - 1]];
    }
  }

  function TypeScores(text: string, types: seq<VideoType>): map<VideoType, nat>
  {
    if |types| == 0 then map[]
    else
      var rest := TypeScores(text, types[..|types| - 1]);
      var t := types[|types| - 1];
      var score := TypeScore(text, TypeKeywords(t));
      if score > 0 then rest[t := score] else rest
  }

  /** Exactly the listed types with a positive score are recorded, each with
      its score. */
  lemma {:induction false} TypeScoresMeaning(text: string, types: seq<VideoType>)
    ensures forall t ::
      t in TypeScores(text, types) <==> t in types && TypeScore(text, TypeKeywords(t)) > 0
    ensures forall t ::
      t in TypeScores(text, types) ==> TypeScores(text, types)[t] == TypeScore(text, TypeKeywords(t))
  {
    if |types| > 0 {
      var init := types[..|types| - 1];
      TypeScoresMeaning(text, init);
      assert types == init + [types[|types| - 1]];
    }
  }

  /** The terms that occur in the text, in term order. */
  function TechHints(text: string, terms: seq<string>): seq<string>
  {
    if |terms| == 0 then []
    else
      var rest := TechHints(text, terms[..|terms| - 1]);
      var t := terms[|terms| - 1];
      if Contains(text, t) then rest + [t] else rest
  }

  lemma {:induction false} TechHintsMeaning(text: string, terms: seq<string>)
    ensures forall t :: t in TechHints(text, terms) <==> t in terms && Contains(text, t)
  {
    if |terms| > 0 {
      var init := terms[..|terms| - 1];
      TechHintsMeaning(text, init);
      assert terms == init + [terms[|terms| - 1]];
    }
  }

  /** `scores.get(t, 0)`. */
  function ScoreOf(scores: map<VideoType, nat>, t: VideoType): nat
  {
    if t in scores then scores[t] else 0
  }

  /** The content pattern: coding beats ai, which beats automated; anything
      else is mixed. */
  function PatternOf(scores: map<VideoType, nat>): (p: ContentPattern)
    ensures p == CodingTutorials <==> ScoreOf(scores, Coding) > 5
    ensures p == AiContent <==> ScoreOf(scores, Coding) <= 5 && ScoreOf(scores, Ai) > 5
    ensures p == AutomatedContent <==>
      ScoreOf(scores, Coding) <= 5 && ScoreOf(scores, Ai) <= 5 && ScoreOf(scores, Automated) > 3
  {
    if ScoreOf(scores, Coding) > 5 then CodingTutorials
    else if ScoreOf(scores, Ai) > 5 then AiContent
    else if ScoreOf(scores, Automated) > 3 then AutomatedContent
    else MixedContent
  }

  /** Text without any keyword of a type is classified as mixed content. */
  lemma QuietTextIsMixed(text: string)
    requires forall t, k :: k in TypeKeywords(t) ==> !Contains(text, k)
    ensures PatternOf(TypeScores(text, AllVideoTypes)) == MixedContent
  {
    TypeScoresMeaning(text, AllVideoTypes);
    TypeScorePositive(text, TypeKeywords(Coding));
    TypeScorePositive(text, TypeKeywords(Ai));
    TypeScorePositive(text, TypeKeywords(Automated));
  }

  /** The analysis of a non-empty video list. */
  function AnalysisOf(videos: seq<Video>): Analysis
  {
    var text := Lower(AllText(videos));
    var scores := TypeScores(text, AllVideoTypes);
    Analysis(|videos|, KeywordCounts(text, AutomationKeywords), scores, [],
             TechHints(text, TechTerms), PatternOf(scores))
  }

  /** The keyword-counting loop of `analyze_video_patterns`. */
  method CountKeywords(text: string) returns (common: seq<(string, nat)>)
    ensures common == KeywordCounts(text, AutomationKeywords)
  {
    common := [];
    var i := 0;
    while i < |AutomationKeywords|
      invariant 0 <= i <= |AutomationKeywords|
      invariant common == KeywordCounts(text, AutomationKeywords[..i])
    {
      assert AutomationKeywords[..i + 1][..i] == AutomationKeywords[..i];
      var keyword := AutomationKeywords[i];
      var count := Count(text, keyword);
      if count > 0 {
        common := common + [(keyword, count)];
      }
      i := i + 1;
    }
    assert AutomationKeywords[..i] == AutomationKeywords;
  }

  /** The video-type scoring loop of `analyze_video_patterns`. */
  method ScoreTypes(text: string) returns (scores: map<VideoType, nat>)
    ensures scores == TypeScores(text, AllVideoTypes)
  {
    scores := map[];
    var i := 0;
    while i < |AllVideoTypes|
      invariant 0 <= i <= |AllVideoTypes|
      invariant scores == TypeScores(text, AllVideoTypes[..i])
    {
      assert AllVideoTypes[..i + 1][..i] == AllVideoTypes[..i];
      var vtype := AllVideoTypes[i];
      var score := TypeScore(text, TypeKeywords(vtype));
      if score > 0 {
        scores := scores[vtype := score];
      }
      i := i + 1;
    }
    assert AllVideoTypes[..i] == AllVideoTypes;
  }

  /** The tech-term loop of `analyze_video_patterns`. */
  method FindTechHints(text: string) returns (hints: seq<string>)
    ensures hints == TechHints(text, TechTerms)
  {
    hints := [];
    var i := 0;
    while i < |TechTerms|
      invariant 0 <= i <= |TechTerms|
      invariant hints == TechHints(text, TechTerms[..i])
    {
      assert TechTerms[..i + 1][..i] == TechTerms[..i];
      var term := TechTerms[i];
      if Contains(text, term) {
        hints := hints + [term];
      }
      i := i + 1;
    }
    assert TechTerms[..i] == TechTerms;
  }

  class ChannelAnalyzer {
    const channelUrl: string
    var videos: seq<Video>
    /** `None` stands for the empty dictionary the analyzer starts with. */
    var analysis: Option<Analysis>

    constructor(channelUrl: string)
      ensures this.channelUrl == channelUrl && videos == [] && analysis == None
    {
      this.channelUrl := channelUrl;
      videos := [];
      analysis := None;
    }

    /** `fetch_channel_videos`, given what the download tool produced: its
        standard output, or an error (a non-zero exit status, a timeout or a
        failure to start). */
    method FetchChannelVideos(output: Result<string, string>) returns (ok: bool)
      modifies this`videos
      ensures ok <==> output.Ok?
      ensures ok ==> videos == ParsedVideos(Lines(output.value))
      ensures !ok ==> videos == old(videos)
    {
      if output.Err? {
        return false;
      }
      videos := ParseVideos(output.value);
      return true;
    }

    /** `analyze_video_patterns`. */
    method AnalyzeVideoPatterns() returns (r: Option<Analysis>)
      modifies this`analysis
      ensures videos == [] ==> r == None && analysis == old(analysis)
      ensures videos != [] ==> r == Some(AnalysisOf(videos)) && analysis == r
    {
      if |videos| == 0 {
        return None;
      }
      var text := Lower(AllText(videos));
      var common := CountKeywords(text);
      var scores := ScoreTypes(text);
      var hints := FindTechHints(text);
      r := Some(Analysis(|videos|, common, scores, [], hints, PatternOf(scores)));
      analysis := r;
    }
  }

  // Search queries and search URLs

  function PatternQueries(p: ContentPattern): seq<string>
  {
    match p
    case CodingTutorials =>
      ["coding tutorial video generator", "programming video automation",
       "code explanation video creator"]
    case AiContent =>
      ["ai video generator", "llm video content creator", "ai automated video production"]
    case _ => []
  }

  function HintQueries(hints: seq<string>): seq<string>
  {
    (if "python" in hints then ["python youtube automation"] else [])
    + (if "api" in hints then ["youtube api video creator"] else [])
  }

  function KeywordQuery(keyword: string): string
  {
    "youtube " + keyword + " automation"
  }

  /** The names of the first `n` counted keywords. */
  function FirstKeywords(common: seq<(string, nat)>, n: nat): (ks: seq<string>)
    ensures |ks| == if n < |common| then n else |common|
    ensures forall i :: 0 <= i < |ks| ==> ks[i] == common[i].0
  {
    var m := if n < |common| then n else |common|;
    seq(m, i requires 0 <= i < m => common[i].0)
  }

  /** The queries for an analysis; an empty analysis (`None`) has no
      pattern, no hints and no keywords. */
  function SearchQueries(a: Option<Analysis>): seq<string>
  {
    match a
    case None => []
    case Some(an) =>
      var keywords := FirstKeywords(an.commonKeywords, 5);
      var firstThree := keywords[..if 3 < |keywords| then 3 else |keywords|];
      PatternQueries(an.contentPattern) + HintQueries(an.techStackHints)
      + seq(|firstThree|, i requires 0 <= i < |firstThree| => KeywordQuery(firstThree[i]))
  }

  /** Three pattern queries for coding or ai content only, one query per
      python/api hint, then one query per keyword for at most the first
      three keywords, in keyword order. */
  lemma QueriesLayout(an: Analysis)
    ensures var qs := SearchQueries(Some(an));
      var pat := if an.contentPattern in {CodingTutorials, AiContent} then 3 else 0;
      var hints := (if "python" in an.techStackHints then 1 else 0)
        + (if "api" in an.techStackHints then 1 else 0);
      var kw := if 3 < |an.commonKeywords| then 3 else |an.commonKeywords|;
      && |qs| == pat + hints + kw
      && (forall i :: 0 <= i < kw ==> qs[pat + hints + i] == KeywordQuery(an.commonKeywords[i].0))
  {
  }

  /** `search_github`'s search URL: spaces in the query become `+`. */
  function SearchUrl(query: string): string
  {
    "https://github.com/search?q=" + ReplaceChar(query, ' ', '+') + "&type=repositories"
  }

  const SearchUrlPrefix := "https://github.com/search?q="
  const SearchUrlSuffix := "&type=repositories"

  /** The query part of a search URL has no spaces, and a query without `+`
      can be read back from it. */
  lemma SearchUrlQuery(query: string)
    ensures var u := SearchUrl(query);
      && |u| == |SearchUrlPrefix| + |query| + |SearchUrlSuffix|
      && u[..|SearchUrlPrefix|] == SearchUrlPrefix
      && u[|u| - |SearchUrlSuffix|..] == SearchUrlSuffix
      && ' ' !in u[|SearchUrlPrefix|..|u| - |SearchUrlSuffix|]
      && ('+' !in query ==> ReplaceChar(u[|SearchUrlPrefix|..|u| - |SearchUrlSuffix|], '+', ' ') == query)
  {
    var q := ReplaceChar(query, ' ', '+');
    var u := SearchUrl(query);
    assert u == SearchUrlPrefix + q + SearchUrlSuffix;
    assert u[|SearchUrlPrefix|..|u| - |SearchUrlSuffix|] == q;
    ReplaceCharInverse(query, ' ', '+');
  }

  /** What `search_github` returns: the query, its URL and no results. */
  datatype SearchResult = SearchResult(query: string, searchUrl: string, results: seq<string>)

  class GitHubToolFinder {
    const analysis: Option<Analysis>
    var searchQueries: seq<string>
    var repositories: seq<SearchResult>

    constructor(analysis: Option<Analysis>)
      ensures this.analysis == analysis && searchQueries == [] && repositories == []
    {
      this.analysis := analysis;
      searchQueries := [];
      repositories := [];
    }

    /** `generate_search_queries`. */
    method GenerateSearchQueries() returns (queries: seq<string>)
      modifies this`searchQueries
      ensures queries == SearchQueries(analysis) && searchQueries == queries
    {
      if analysis.None? {
        queries := [];
        searchQueries := queries;
        return;
      }
      var an := analysis.value;
      var keywords := FirstKeywords(an.commonKeywords, 5);
      queries := PatternQueries(an.contentPattern);
      if "python" in an.techStackHints {
        queries := queries + ["python youtube automation"];
      }
      if "api" in an.techStackHints {
        queries := queries + ["youtube api video creator"];
      }
      var base := queries;
      assert base == PatternQueries(an.contentPattern) + HintQueries(an.techStackHints);
      var firstThree := keywords[..if 3 < |keywords| then 3 else |keywords|];
      var i := 0;
      while i < |firstThree|
        invariant 0 <= i <= |firstThree|
        invariant queries == base + seq(i, j requires 0 <= j < i => KeywordQuery(firstThree[j]))
      {
        queries := queries + [KeywordQuery(firstThree[i])];
        i := i + 1;
      }
      searchQueries := queries;
    }

    /** `find_relevant_repos`: one search result for each of the first five
        queries, in order. */
    method FindRelevantRepos() returns (all: seq<SearchResult>)
      modifies this`repositories
      ensures |all| == if |searchQueries| < 5 then |searchQueries| else 5
      ensures forall i :: 0 <= i < |all| ==>
        all[i] == SearchResult(searchQueries[i], SearchUrl(searchQueries[i]), [])
      ensures repositories == all
    {
      var n := if |searchQueries| < 5 then |searchQueries| else 5;
      all := [];
      var i := 0;
      while i < n
        invariant 0 <= i <= n
        invariant |all| == i
        invariant forall j :: 0 <= j < i ==>
          all[j] == SearchResult(searchQueries[j], SearchUrl(searchQueries[j]), [])
      {
        var query := searchQueries[i];
        all := all + [SearchResult(query, SearchUrl(query), [])];
        i := i + 1;
      }
      repositories := all;
    }
  }

  // De-duplicating the repositories found

  datatype Repo = Repo(title: string, url: string, snippet: string)

  function Urls(repos: seq<Repo>): set<string>
  {
    set r | r in repos :: r.url
  }

  /** The repositories with the first occurrence of each URL, in order. */
  function Unique(repos: seq<Repo>): seq<Repo>
  {
    if |repos| == 0 then []
    else
      var init := repos[..|repos| - 1];
      var last := repos[|repos| - 1];
      if last.url in Urls(init) then Unique(init) else Unique(init) + [last]
  }

  /** The position of the first repository with `url`. */
  function FirstIndex(repos: seq<Repo>, url: string): (i: nat)
    requires url in Urls(repos)
    ensures i < |repos| && repos[i].url == url
    ensures forall j :: 0 <= j < i ==> repos[j].url != url
  {
    var init := repos[..|repos| - 1];
    assert repos == init + [repos[|repos| - 1]];
    if url in Urls(init) then FirstIndex(init, url) else |repos| - 1
  }

  lemma UrlsOfSnoc(init: seq<Repo>, last: Repo)
    ensures Urls(init + [last]) == Urls(init) + {last.url}
  {
    assert forall r :: r in init + [last] <==> r in init || r == last;
  }

  /** Every URL is kept, and only once. */
  lemma {:induction false} UniqueUrls(repos: seq<Repo>)
    ensures Urls(Unique(repos)) == Urls(repos)
    ensures forall i, j :: 0 <= i < j < |Unique(repos)| ==> Unique(repos)[i].url != Unique(repos)[j].url
  {
    if |repos| > 0 {
      var init := repos[..|repos| - 1];
      var last := repos[|repos| - 1];
      UniqueUrls(init);
      assert repos == init + [last];
      UrlsOfSnoc(init, last);
      if last.url !in Urls(init) {
        UrlsOfSnoc(Unique(init), last);
      }
    }
  }

  /** Each kept repository is the first one with its URL, and the kept
      repositories stay in their original order. */
  lemma {:induction false} UniqueKeepsFirst(repos: seq<Repo>)
    ensures Urls(Unique(repos)) == Urls(repos)
    ensures forall i :: 0 <= i < |Unique(repos)| ==>
      Unique(repos)[i] == repos[FirstIndex(repos, Unique(repos)[i].url)]
    ensures forall i, j :: 0 <= i < j < |Unique(repos)| ==>
      FirstIndex(repos, Unique(repos)[i].url) < FirstIndex(repos, Unique(repos)[j].url)
  {
    UniqueUrls(repos);
    if |repos| > 0 {
      var init := repos[..|repos| - 1];
      var last := repos[|repos| - 1];
      UniqueKeepsFirst(init);
      assert repos == init + [last];
      UrlsOfSnoc(init, last);
      var u := Unique(init);
      forall r | r in u
        ensures FirstIndex(repos, r.url) == FirstIndex(init, r.url)
      {
      }
    }
  }

  /** The de-duplication loop of `main`. */
  method Dedup(allRepos: seq<Repo>) returns (unique: seq<Repo>)
    ensures unique == Unique(allRepos)
  {
    var seen: set<string> := {};
    unique := [];
    var i := 0;
    while i < |allRepos|
      invariant 0 <= i <= |allRepos|
      invariant seen == Urls(allRepos[..i])
      invariant unique == Unique(allRepos[..i])
    {
      var repo := allRepos[i];
      assert allRepos[..i + 1] == allRepos[..i] + [repo];
      UrlsOfSnoc(allRepos[..i], repo);
      if repo.url !in seen {
        seen := seen + {repo.url};
        unique := unique + [repo];
      }
      i := i + 1;
    }
    assert allRepos[..i] == allRepos;
  }
}
