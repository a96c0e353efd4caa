/** The two YouTube video-id extractors and the choice of where the
    downloaded audio goes: `YouTubeDownloader` in
    scripts/modular_youtube_downloader.py and `YouTubeAudioProcessor` in
    scripts/youtube_downloader.py. */
module VideoIds {
  import opened Values
  import opened Text

  /** `t` is a contiguous piece of `s`. */
  predicate IsPiece(t: string, s: string)
  {
    exists i :: 0 <= i <= |s| && t <= s[i..]
  }

  lemma PieceOfItself(s: string)
    ensures IsPiece(s, s)
  {
    assert s <= s[0..];
  }

  /** `r` is the text after the first `a` in `s`, cut where the next `a` or
      `b` begins (or at the end): it starts right after that `a`, holds
      neither separator, and is followed by one of them or by nothing. */
  predicate CutAfter(s: string, a: string, b: string, r: string)
  {
    && Contains(s, a)
    && var t := After(s, a);
    && r <= t && !Contains(r, a) && !Contains(r, b)
    && (|r| == |t| || OccursAt(t, a, |r|) || OccursAt(t, b, |r|))
  }

  /** `s.split(a)[1].split(b)[0]`, for a string in which `a` occurs: the text
      after the first `a`, up to the next `a` or `b`. */
  function SplitPiece(s: string, a: string, b: string): (r: string)
    requires |a| > 0 && |b| > 0 && Contains(s, a)
    ensures CutAfter(s, a, b, r)
    ensures IsPiece(r, s)
  {
    SplitFirstPieces(s, a);
    var r := SplitAll(SplitAll(s, a)[1], b)[0];
    SplitFirstPieces(SplitAll(s, a)[1], b);
    PieceFacts(s, a, b);
    r
  }

  /** `Before` stops at the end or where the separator begins. */
  lemma BeforeStops(s: string, p: string)
    ensures |Before(s, p)| == |s| || OccursAt(s, p, |Before(s, p)|)
  {
  }

  lemma PieceFacts(s: string, a: string, b: string)
    requires |a| > 0 && |b| > 0 && Contains(s, a)
    ensures var r := Before(Second(s, a), b);
      CutAfter(s, a, b, r) && IsPiece(r, s)
  {
    var t := After(s, a);
    var u := Before(t, a);
    var r := Before(u, b);
    BeforeHasNoSep(t, a);
    BeforeHasNoSep(u, b);
    PrefixHasNoSep(u, |r|, a);
    var off := |s| - |t|;
    assert t == s[off..];
    assert r <= u && u <= t;
    BeforeStops(t, a);
    BeforeStops(u, b);
    if |r| < |u| {
      OccursInPrefix(t, |u|, b, |r|);
    }
  }

  /** Where `p` occurs, so does every tail of `p`. */
  lemma ContainsTail(s: string, p: string, n: nat)
    requires Contains(s, p) && n <= |p|
    ensures Contains(s, p[n..])
  {
    var i := IndexOf(s, p).value;
    assert s[i + n..i + |p|] == p[n..];
    ContainsAt(s, p[n..], i + n);
  }

  /** `YouTubeDownloader.extract_video_id`: the branches are tried in order
      and a string that matches none is taken to be an id already. */
  function ExtractModular(url: string): (id: string)
    ensures IsPiece(id, url)
    ensures Contains(url, "youtube.com/video/") ==> CutAfter(url, "/video/", "/", id)
    ensures !Contains(url, "youtube.com/video/")
      && Contains(url, "youtube.com/watch") && Contains(url, "v=")
      ==> CutAfter(url, "v=", "&", id)
    ensures !Contains(url, "youtube.com/video/")
      && !(Contains(url, "youtube.com/watch") && Contains(url, "v="))
      && Contains(url, "youtu.be/")
      ==> CutAfter(url, "youtu.be/", "?", id)
    ensures !Contains(url, "youtube.com/video/")
      && !(Contains(url, "youtube.com/watch") && Contains(url, "v="))
      && !Contains(url, "youtu.be/")
      && !Contains(url, "studio.youtube.com/video/")
      ==> id == url
  {
    if Contains(url, "youtube.com/video/") then
      ContainsTail(url, "youtube.com/video/", 11);
      assert "youtube.com/video/"[11..] == "/video/";
      SplitPiece(url, "/video/", "/")
    else if Contains(url, "youtube.com/watch") && Contains(url, "v=") then
      SplitPiece(url, "v=", "&")
    else if Contains(url, "youtu.be/") then
      SplitPiece(url, "youtu.be/", "?")
    else if Contains(url, "studio.youtube.com/video/") then
      SplitPiece(url, "studio.youtube.com/video/", "/")
    else
      PieceOfItself(url);
      url
  }

  /** `YouTubeAudioProcessor.extract_video_id`: the same idea with a
      different order of tests and no domain check on `v=`. */
  function ExtractSimple(url: string): (id: string)
    ensures IsPiece(id, url)
    ensures Contains(url, "youtube.com/video/") ==> CutAfter(url, "/video/", "/", id)
    ensures !Contains(url, "youtube.com/video/") && Contains(url, "youtu.be/")
      ==> CutAfter(url, "youtu.be/", "?", id)
    ensures !Contains(url, "youtube.com/video/") && !Contains(url, "youtu.be/")
      && Contains(url, "v=")
      ==> CutAfter(url, "v=", "&", id)
    ensures !Contains(url, "youtube.com/video/") && !Contains(url, "youtu.be/")
      && !Contains(url, "v=")
      ==> id == url
  {
    if Contains(url, "youtube.com/video/") then
      ContainsTail(url, "youtube.com/video/", 11);
      assert "youtube.com/video/"[11..] == "/video/";
      SplitPiece(url, "/video/", "/")
    else if Contains(url, "youtu.be/") then
      SplitPiece(url, "youtu.be/", "?")
    else if Contains(url, "v=") then
      SplitPiece(url, "v=", "&")
    else
      PieceOfItself(url);
      url
  }

  /** The studio branch of `ExtractModular` is dead: every URL it would
      accept already contains "youtube.com/video/", so the first branch
      takes it. */
  lemma StudioBranchUnreachable(url: string)
    requires Contains(url, "studio.youtube.com/video/")
    ensures Contains(url, "youtube.com/video/")
    ensures ExtractModular(url) == ExtractSimple(url)
  {
    ContainsTail(url, "studio.youtube.com/video/", 7);
    assert "studio.youtube.com/video/"[7..] == "youtube.com/video/";
  }

  /** Where neither a short link nor a stray `v=` outside a watch URL is
      involved, the two extractors agree. */
  lemma ExtractorsAgree(url: string)
    requires !Contains(url, "youtu.be/")
    requires Contains(url, "v=") ==> Contains(url, "youtube.com/watch")
    ensures ExtractModular(url) == ExtractSimple(url)
  {
    if Contains(url, "studio.youtube.com/video/") {
      StudioBranchUnreachable(url);
    }
  }

  /** A URL with `v=` but neither a watch path, a `/video/` path nor a short
      link is passed through by the modular extractor, while the other one
      cuts an id out of it. */
  lemma ExtractorsDiverge(url: string)
    requires Contains(url, "v=") && !Contains(url, "youtube.com/watch")
    requires !Contains(url, "youtube.com/video/") && !Contains(url, "youtu.be/")
    ensures ExtractModular(url) == url
    ensures ExtractSimple(url) != url
  {
    if Contains(url, "studio.youtube.com/video/") {
      StudioBranchUnreachable(url);
    }
  }

  /** The characters of a YouTube video id. */
  predicate IdChar(c: char)
  {
    ('a' <= c <= 'z') || ('A' <= c <= 'Z') || ('0' <= c <= '9') || c == '-' || c == '_'
  }

  predicate IsPlainId(s: string)
  {
    forall i :: 0 <= i < |s| ==> IdChar(s[i])
  }

  /** A pattern with a character that no id has cannot occur in an id. */
  lemma NotInPlainId(s: string, p: string, k: nat)
    requires IsPlainId(s) && k < |p| && !IdChar(p[k])
    ensures !Contains(s, p)
  {
  }

  /** A bare id goes through both extractors unchanged. */
  lemma PlainIdKept(id: string)
    requires IsPlainId(id)
    ensures ExtractModular(id) == id
    ensures ExtractSimple(id) == id
  {
    NotInPlainId(id, "youtube.com/video/", 11);
    NotInPlainId(id, "youtube.com/watch", 11);
    NotInPlainId(id, "youtu.be/", 8);
    NotInPlainId(id, "studio.youtube.com/video/", 6);
    NotInPlainId(id, "v=", 1);
  }

  /** The URL both downloaders hand to the download tool. */
  const WatchPrefix := "https://www.youtube.com/watch?v="

  function WatchUrl(id: string): (u: string)
    ensures |u| == |id| + 32
  {
    WatchPrefix + id
  }

  /** The first occurrence is where `p` occurs and nowhere earlier. */
  lemma FirstOccurrence(s: string, p: string, i: nat)
    requires OccursAt(s, p, i)
    requires forall j :: 0 <= j < i ==> !OccursAt(s, p, j)
    ensures IndexOf(s, p) == Some(i)
  {
  }

  lemma BeforeAbsent(s: string, p: string)
    requires !Contains(s, p)
    ensures Before(s, p) == s
  {
  }

  /** Only three slashes, two dots and one `=` occur in the watch URL. */
  lemma WatchUrlChars(id: string)
    requires IsPlainId(id)
    ensures forall k :: 0 <= k < |WatchUrl(id)| && WatchUrl(id)[k] == '/' ==> k == 6 || k == 7 || k == 23
    ensures forall k :: 0 <= k < |WatchUrl(id)| && WatchUrl(id)[k] == '.' ==> k == 11 || k == 19
    ensures forall k :: 0 <= k < |WatchUrl(id)| && WatchUrl(id)[k] == '=' ==> k == 31
  {
    var u := WatchUrl(id);
    forall k | 32 <= k < |u|
      ensures IdChar(u[k])
    {
      assert u[k] == id[k - 32];
    }
    assert forall k :: 0 <= k < 32 ==> u[k] == WatchPrefix[k];
  }

  /** Inside an occurrence of `p` at `i`, `s` agrees with `p`. */
  lemma CharOfOccurrence(s: string, p: string, i: nat, k: nat)
    requires OccursAt(s, p, i) && k < |p|
    ensures s[i + k] == p[k]
  {
    assert s[i..i + |p|][k] == s[i + k];
  }

  lemma NoVideoPathInWatchUrl(id: string)
    requires IsPlainId(id)
    ensures !Contains(WatchUrl(id), "youtube.com/video/")
  {
    var u := WatchUrl(id);
    if Contains(u, "youtube.com/video/") {
      var i := IndexOf(u, "youtube.com/video/").value;
      CharOfOccurrence(u, "youtube.com/video/", i, 11);
      CharOfOccurrence(u, "youtube.com/video/", i, 17);
      WatchUrlChars(id);
    }
  }

  lemma NoShortLinkInWatchUrl(id: string)
    requires IsPlainId(id)
    ensures !Contains(WatchUrl(id), "youtu.be/")
  {
    var u := WatchUrl(id);
    if Contains(u, "youtu.be/") {
      var i := IndexOf(u, "youtu.be/").value;
      CharOfOccurrence(u, "youtu.be/", i, 5);
      CharOfOccurrence(u, "youtu.be/", i, 8);
      WatchUrlChars(id);
    }
  }

  lemma WatchUrlFirstQuery(id: string)
    requires IsPlainId(id)
    ensures Contains(WatchUrl(id), "youtube.com/watch")
    ensures IndexOf(WatchUrl(id), "v=") == Some(30)
  {
    var u := WatchUrl(id);
    assert u[12..29] == WatchPrefix[12..29] == "youtube.com/watch";
    ContainsAt(u, "youtube.com/watch", 12);
    assert u[30..32] == "v=";
    WatchUrlChars(id);
    forall j | 0 <= j < 30
      ensures !OccursAt(u, "v=", j)
    {
      if OccursAt(u, "v=", j) {
        CharOfOccurrence(u, "v=", j, 1);
      }
    }
    FirstOccurrence(u, "v=", 30);
  }

  /** The id a downloader puts into its watch URL is the id either
      extractor reads back from that URL. */
  lemma WatchUrlRoundTrip(id: string)
    requires IsPlainId(id)
    ensures ExtractModular(WatchUrl(id)) == id
    ensures ExtractSimple(WatchUrl(id)) == id
  {
    var u := WatchUrl(id);
    NoVideoPathInWatchUrl(id);
    NoShortLinkInWatchUrl(id);
    WatchUrlFirstQuery(id);
    ContainsAt(u, "v=", 30);
    assert After(u, "v=") == id;
    NotInPlainId(id, "v=", 1);
    NotInPlainId(id, "&", 0);
    BeforeAbsent(id, "v=");
    BeforeAbsent(id, "&");
    SplitFirstPieces(u, "v=");
    SplitFirstPieces(Second(u, "v="), "&");
  }

  // Output locations

  /** The fields of a download tool's output template: `%(id)s`,
      `%(title)s` and `%(ext)s`. */
  datatype Field = VideoIdField | TitleField | ExtField

  datatype Piece = Lit(text: string) | Slot(field: Field)

  /** Where the download goes: a path given by the caller, used as it is,
      or a file name template inside the output directory. */
  datatype OutputTarget = Verbatim(path: string) | InDir(dir: string, name: seq<Piece>)

  /** What the download tool makes of a file name template once it knows the
      video's id, title and audio extension. */
  function ExpandName(name: seq<Piece>, id: string, title: string, ext: string): string
  {
    if |name| == 0 then ""
    else
      (match name[0]
       case Lit(t) => t
       case Slot(VideoIdField) => id
       case Slot(TitleField) => title
       case Slot(ExtField) => ext)
      + ExpandName(name[1..], id, title, ext)
  }

  /** The output template of `YouTubeDownloader.download_audio`. An empty
      output path counts as none. `md5Hex` is the hexadecimal MD5 digest. */
  function OutputTemplate(dir: string, outputPath: Option<string>, includeVideoId: bool,
                          includeTitle: bool, videoId: string,
                          md5Hex: string -> string): (t: OutputTarget)
    ensures t.Verbatim? <==> outputPath.Some? && outputPath.value != ""
    ensures t.Verbatim? ==> t.path == outputPath.value
    ensures t.InDir? ==> t.dir == dir
    ensures t.InDir? ==> (Slot(VideoIdField) in t.name <==> includeVideoId)
    ensures t.InDir? ==> (Slot(TitleField) in t.name <==> includeTitle)
    ensures t.InDir? ==> |t.name| >= 2 && t.name[|t.name| - 2..] == [Lit("."), Slot(ExtField)]
  {
    if outputPath.Some? && outputPath.value != "" then Verbatim(outputPath.value)
    else if includeTitle && includeVideoId then
      InDir(dir, [Slot(VideoIdField), Lit("_"), Slot(TitleField), Lit("."), Slot(ExtField)])
    else if includeTitle then
      InDir(dir, [Slot(TitleField), Lit("."), Slot(ExtField)])
    else if includeVideoId then
      InDir(dir, [Slot(VideoIdField), Lit("."), Slot(ExtField)])
    else
      InDir(dir, [Lit(Take(md5Hex(videoId), 10)), Lit("."), Slot(ExtField)])
  }

  /** The file `YouTubeDownloader.download_audio` expects to find when the
      title is not part of the name. */
  function PredictedFile(dir: string, videoId: string, audioFormat: string,
                         includeVideoId: bool, md5Hex: string -> string): string
  {
    if includeVideoId then dir + "/" + videoId + "." + audioFormat
    else dir + "/" + Take(md5Hex(videoId), 10) + "." + audioFormat
  }

  /** Without a title in the name, the file the download tool writes from the
      template is the file the downloader then looks for. */
  lemma {:induction false} TemplatePredictsFile(dir: string, includeVideoId: bool, videoId: string,
                                                title: string, audioFormat: string,
                                                md5Hex: string -> string)
    ensures var t := OutputTemplate(dir, None, includeVideoId, false, videoId, md5Hex);
      t.InDir? && t.dir + "/" + ExpandName(t.name, videoId, title, audioFormat)
        == PredictedFile(dir, videoId, audioFormat, includeVideoId, md5Hex)
  {
    var t := OutputTemplate(dir, None, includeVideoId, false, videoId, md5Hex);
    var x := if includeVideoId then videoId else Take(md5Hex(videoId), 10);
    assert ExpandName(t.name[2..], videoId, title, audioFormat) == audioFormat;
    assert ExpandName(t.name[1..], videoId, title, audioFormat) == "." + audioFormat;
    assert ExpandName(t.name, videoId, title, audioFormat) == x + "." + audioFormat;
  }

  /** `YouTubeAudioProcessor.download_audio`: the download template and the
      path it reports. */
  function SimpleTemplate(dir: string): OutputTarget
  {
    InDir(dir, [Slot(VideoIdField), Lit("."), Slot(ExtField)])
  }

  function SimpleOutputPath(dir: string, videoId: string): string
  {
    dir + "/" + videoId + ".mp3"
  }

  /** The reported path is the file the template makes for an mp3 download. */
  lemma {:induction false} SimplePathMatchesTemplate(dir: string, videoId: string, title: string)
    ensures SimpleTemplate(dir).dir + "/" + ExpandName(SimpleTemplate(dir).name, videoId, title, "mp3")
      == SimpleOutputPath(dir, videoId)
  {
    var name := SimpleTemplate(dir).name;
    assert ExpandName(name[2..], videoId, title, "mp3") == "mp3";
    assert ExpandName(name[1..], videoId, title, "mp3") == ".mp3";
  }
}
