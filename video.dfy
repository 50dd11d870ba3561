/** services/videoDownloadService.js: platform detection, the YouTube id
    extraction, the per-platform download chains with their fallbacks, the
    download counter and the temporary-file age rule. yt-dlp, the HTTP APIs
    and the file system are the `Tools` parameter; file paths and the clock
    are left out. */
module VideoDownload {
  import opened Wrappers
  import opened JsText

  datatype Platform = YouTube | TikTok | Facebook | Instagram | Unknown

  /** The string `detectPlatform` returns. */
  function PlatformName(p: Platform): string
  {
    match p
    case YouTube => "youtube"
    case TikTok => "tiktok"
    case Facebook => "facebook"
    case Instagram => "instagram"
    case Unknown => "unknown"
  }

  predicate IsYouTubeLink(url: string) { Contains(url, "youtube.com") || Contains(url, "youtu.be") }
  predicate IsTikTokLink(url: string) { Contains(url, "tiktok.com") }
  predicate IsFacebookLink(url: string) { Contains(url, "facebook.com") || Contains(url, "fb.watch") }
  predicate IsInstagramLink(url: string) { Contains(url, "instagram.com") }

  /** `detectPlatform`: YouTube first, then TikTok, Facebook and Instagram. */
  function DetectPlatform(url: string): (p: Platform)
    ensures p == YouTube <==> IsYouTubeLink(url)
    ensures p == TikTok <==> !IsYouTubeLink(url) && IsTikTokLink(url)
    ensures p == Facebook <==> !IsYouTubeLink(url) && !IsTikTokLink(url) && IsFacebookLink(url)
    ensures p == Instagram <==> !IsYouTubeLink(url) && !IsTikTokLink(url) && !IsFacebookLink(url)
                                && IsInstagramLink(url)
    ensures p == Unknown <==> !IsYouTubeLink(url) && !IsTikTokLink(url) && !IsFacebookLink(url)
                              && !IsInstagramLink(url)
  {
    if IsYouTubeLink(url) then YouTube
    else if IsTikTokLink(url) then TikTok
    else if IsFacebookLink(url) then Facebook
    else if IsInstagramLink(url) then Instagram
    else Unknown
  }

  /** Whatever the link, the name is one of the five the service knows. */
  lemma PlatformNameKnown(url: string)
    ensures PlatformName(DetectPlatform(url)) in ["youtube", "tiktok", "facebook", "instagram", "unknown"]
  {
  }

  // ----- the YouTube id -----

  /** The class `[^&\n?#]` of the id's capture group. */
  predicate IdChar(c: char)
  {
    c != '&' && c != '\n' && c != '?' && c != '#'
  }

  /** The greedy `[^&\n?#]*` from index `j`: the longest run of id
      characters there. */
  function RunFrom(s: string, j: nat): (r: string)
    requires j <= |s|
    ensures j + |r| <= |s| && r == s[j..j + |r|]
    ensures forall k :: 0 <= k < |r| ==> IdChar(r[k])
    ensures j + |r| == |s| || !IdChar(s[j + |r|])
    decreases |s| - j
  {
    if j < |s| && IdChar(s[j]) then [s[j]] + RunFrom(s, j + 1) else []
  }

  /** Alternative `lit` of a pattern matches at `i`: the literal is there and
      the capture group can take at least one character after it. */
  predicate Fits(s: string, lit: string, i: int)
  {
    OccursAt(s, lit, i) && i + |lit| < |s| && IdChar(s[i + |lit|])
  }

  /** At index `i`, the capture of the first alternative that fits, tried
      from alternative `k` on. */
  function MatchAt(s: string, alts: seq<string>, i: nat, k: nat): (m: Option<string>)
    requires i <= |s|
    ensures m.None? <==> forall a :: k <= a < |alts| ==> !Fits(s, alts[a], i)
    ensures m.Some? ==> |m.value| >= 1 && forall c :: 0 <= c < |m.value| ==> IdChar(m.value[c])
    decreases |alts| - k
  {
    if k >= |alts| then None
    else if Fits(s, alts[k], i) then Some(RunFrom(s, i + |alts[k]|))
    else MatchAt(s, alts, i, k + 1)
  }

  /** `s.match(pattern)[1]` for the pattern `(?:alts[0]|alts[1]|…)([^&\n?#]+)`:
      the leftmost index where an alternative fits decides. */
  function Search(s: string, alts: seq<string>, i: nat): (m: Option<string>)
    requires i <= |s|
    ensures m.None? <==> forall j, a :: i <= j <= |s| && 0 <= a < |alts| ==> !Fits(s, alts[a], j)
    ensures m.Some? ==> |m.value| >= 1 && forall c :: 0 <= c < |m.value| ==> IdChar(m.value[c])
    decreases |s| - i
  {
    var here := MatchAt(s, alts, i, 0);
    if here.Some? then here
    else if i == |s| then None
    else Search(s, alts, i + 1)
  }

  /** The three patterns, as the alternatives before the capture group. */
  const ID_PATTERNS: seq<seq<string>> :=
    [["youtube.com/watch?v=", "youtu.be/"], ["youtube.com/embed/"], ["youtube.com/v/"]]

  /** The capture of the first pattern that matches, from pattern `p` on. */
  function FirstCapture(url: string, patterns: seq<seq<string>>, p: nat): Option<string>
    decreases |patterns| - p
  {
    if p >= |patterns| then None
    else
      var m := Search(url, patterns[p], 0);
      if m.Some? then m else FirstCapture(url, patterns, p + 1)
  }

  /** A returned id is non-empty and holds none of `&`, `\n`, `?`, `#`; there
      is none exactly when no alternative of any pattern fits anywhere. */
  lemma {:induction false} FirstCaptureShape(url: string, patterns: seq<seq<string>>, p: nat)
    ensures var m := FirstCapture(url, patterns, p);
            && (m.Some? ==> |m.value| >= 1 && forall c :: 0 <= c < |m.value| ==> IdChar(m.value[c]))
            && (m.None? <==> forall q, j, a :: p <= q < |patterns| && 0 <= j <= |url| && 0 <= a < |patterns[q]|
                                               ==> !Fits(url, patterns[q][a], j))
    decreases |patterns| - p
  {
    if p < |patterns| {
      FirstCaptureShape(url, patterns, p + 1);
    }
  }

  /** An earlier pattern that matches decides, whatever the later ones say. */
  lemma EarlierPatternWins(url: string, patterns: seq<seq<string>>, p: nat)
    requires p < |patterns| && Search(url, patterns[p], 0).Some?
    requires forall q :: 0 <= q < p ==> Search(url, patterns[q], 0).None?
    ensures FirstCapture(url, patterns, 0) == Search(url, patterns[p], 0)
  {
    var q := 0;
    while q < p
      invariant 0 <= q <= p
      invariant FirstCapture(url, patterns, 0) == FirstCapture(url, patterns, q)
    {
      q := q + 1;
    }
  }

  // ----- the download chains -----

  /** What a download resolves to: a saved file, or the note of the
      API path that reports success without a file. */
  datatype Video = Saved(platform: string, fileSize: nat, title: Option<string>)
                 | Noted(platform: string, message: string)

  /** The foreign calls: yt-dlp for a platform (the size of the file it left,
      or `None` when it failed or left none), `yt-dlp --get-title`, and the
      web APIs whose answers are read (the Instagram API's never is). */
  datatype Tools = Tools(ytDlp: (Platform, string) -> Option<nat>,
                         getTitle: string -> Option<string>,
                         y2mate: string -> bool,
                         tikwm: string -> Option<string>,
                         fetchVideo: string -> Option<nat>)

  const YOUTUBE_API_NOTE: string := "تم التحميل باستخدام API"
  const YOUTUBE_TITLE_FALLBACK: string := "فيديو YouTube"
  const YOUTUBE_FAILED: string := "فشل تحميل فيديو YouTube. جرب رابط آخر."
  const TIKTOK_FAILED: string := "فشل تحميل فيديو TikTok"
  const FACEBOOK_FAILED: string := "فشل تحميل فيديو Facebook. الفيديو قد يكون خاص."
  const INSTAGRAM_FAILED: string := "فشل تحميل من Instagram. جرب رابط آخر."
  const GENERIC_FAILED: string := "لا أستطيع تحميل من هذا الرابط. تأكد أنه رابط فيديو صحيح."

  /** `getYouTubeTitle`: yt-dlp's trimmed output, or the fixed fallback. */
  function TitleOf(tools: Tools, url: string): string
  {
    match tools.getTitle(url)
    case Some(out) => Trim(out)
    case None => YOUTUBE_TITLE_FALLBACK
  }

  /** `downloadYouTube`, then `downloadYouTubeAPI` when yt-dlp fails. */
  function FromYouTube(tools: Tools, url: string): Result<Video, string>
  {
    match tools.ytDlp(YouTube, url)
    case Some(size) => Success(Saved("youtube", size, Some(TitleOf(tools, url))))
    case None =>
      if tools.y2mate(url) then Success(Noted("youtube", YOUTUBE_API_NOTE)) else Failure(YOUTUBE_FAILED)
  }

  /** `downloadTikTok`, then `downloadTikTokAPI` when yt-dlp fails. */
  function FromTikTok(tools: Tools, url: string): Result<Video, string>
  {
    match tools.ytDlp(TikTok, url)
    case Some(size) => Success(Saved("tiktok", size, None))
    case None =>
      match tools.tikwm(url)
      case Some(play) =>
        (if play != "" && tools.fetchVideo(play).Some?
         then Success(Saved("tiktok", tools.fetchVideo(play).value, None))
         else Failure(TIKTOK_FAILED))
      case None => Failure(TIKTOK_FAILED)
  }

  /** `downloadFacebook`: no fallback. */
  function FromFacebook(tools: Tools, url: string): Result<Video, string>
  {
    match tools.ytDlp(Facebook, url)
    case Some(size) => Success(Saved("facebook", size, None))
    case None => Failure(FACEBOOK_FAILED)
  }

  /** `downloadInstagram`, then `downloadInstagramAPI`, which never finishes
      the download: whether its request succeeds or not, it fails. */
  function FromInstagram(tools: Tools, url: string): Result<Video, string>
  {
    match tools.ytDlp(Instagram, url)
    case Some(size) => Success(Saved("instagram", size, None))
    case None => Failure(INSTAGRAM_FAILED)
  }

  /** `downloadGeneric`: no fallback. */
  function FromGeneric(tools: Tools, url: string): Result<Video, string>
  {
    match tools.ytDlp(Unknown, url)
    case Some(size) => Success(Saved("generic", size, None))
    case None => Failure(GENERIC_FAILED)
  }

  /** What `downloadVideo` resolves to, or the message it throws. */
  function Download(tools: Tools, url: string): Result<Video, string>
  {
    match DetectPlatform(url)
    case YouTube => FromYouTube(tools, url)
    case TikTok => FromTikTok(tools, url)
    case Facebook => FromFacebook(tools, url)
    case Instagram => FromInstagram(tools, url)
    case Unknown => FromGeneric(tools, url)
  }

  /** When yt-dlp fails: YouTube and TikTok fall back to their APIs,
      Facebook and other links fail with their own message, and Instagram
      fails whatever its API answers. */
  lemma FallbackChains(tools: Tools, url: string)
    requires tools.ytDlp(DetectPlatform(url), url).None?
    ensures var r := Download(tools, url);
            && (DetectPlatform(url) == YouTube ==>
                  r == (if tools.y2mate(url) then Success(Noted("youtube", YOUTUBE_API_NOTE)) else Failure(YOUTUBE_FAILED)))
            && (DetectPlatform(url) == TikTok ==>
                  (r.Success? <==> tools.tikwm(url).Some? && tools.tikwm(url).value != ""
                                   && tools.fetchVideo(tools.tikwm(url).value).Some?))
            && (DetectPlatform(url) == Facebook ==> r == Failure(FACEBOOK_FAILED))
            && (DetectPlatform(url) == Instagram ==> r == Failure(INSTAGRAM_FAILED))
            && (DetectPlatform(url) == Unknown ==> r == Failure(GENERIC_FAILED))
  {
  }

  /** A file yt-dlp left is always what the chain returns, labelled with the
      detected platform ('generic' for an unknown one). */
  lemma SavedWhenToolSucceeds(tools: Tools, url: string)
    requires tools.ytDlp(DetectPlatform(url), url).Some?
    ensures var p := DetectPlatform(url);
            Download(tools, url).Success?
            && Download(tools, url).value.Saved?
            && Download(tools, url).value.platform == (if p == Unknown then "generic" else PlatformName(p))
            && Download(tools, url).value.fileSize == tools.ytDlp(p, url).value
  {
  }

  // ----- temporary files -----

  /** `maxAge` of `cleanupOldFiles`: one hour in milliseconds. */
  const MAX_AGE: int := 60 * 60 * 1000

  /** A directory entry: its name and its modification time in milliseconds. */
  datatype TempFile = TempFile(name: string, mtime: int)

  predicate Expired(now: int, f: TempFile)
  {
    now - f.mtime > MAX_AGE
  }

  /** The entries that stay, in order. */
  function Fresh(now: int, files: seq<TempFile>): seq<TempFile>
  {
    if files == [] then []
    else Fresh(now, files[..|files| - 1]) + (if Expired(now, files[|files| - 1]) then [] else [files[|files| - 1]])
  }

  /** The entries that are deleted, in order. */
  function Stale(now: int, files: seq<TempFile>): seq<TempFile>
  {
    if files == [] then []
    else Stale(now, files[..|files| - 1]) + (if Expired(now, files[|files| - 1]) then [files[|files| - 1]] else [])
  }

  /** Every deleted entry is a directory entry strictly more than an hour
      old. */
  lemma {:induction false} StaleAreExpired(now: int, files: seq<TempFile>)
    ensures forall f :: f in Stale(now, files) ==> f in files && now - f.mtime > MAX_AGE
  {
    if files != [] {
      var init := files[..|files| - 1];
      StaleAreExpired(now, init);
      assert files == init + [files[|files| - 1]];
    }
  }

  /** Every kept entry is a directory entry at most an hour old. */
  lemma {:induction false} FreshAreRecent(now: int, files: seq<TempFile>)
    ensures forall f :: f in Fresh(now, files) ==> f in files && now - f.mtime <= MAX_AGE
  {
    if files != [] {
      var init := files[..|files| - 1];
      FreshAreRecent(now, init);
      assert files == init + [files[|files| - 1]];
    }
  }

  /** Together the two lists hold the directory's entries, each once. */
  lemma {:induction false} CleanupPartition(now: int, files: seq<TempFile>)
    ensures multiset(Fresh(now, files)) + multiset(Stale(now, files)) == multiset(files)
  {
    if files != [] {
      var init := files[..|files| - 1];
      var last := files[|files| - 1];
      CleanupPartition(now, init);
      assert files == init + [last];
      var keep := if Expired(now, last) then [] else [last];
      var drop := if Expired(now, last) then [last] else [];
      assert multiset(keep) + multiset(drop) == multiset{last};
      assert multiset(Fresh(now, files)) == multiset(Fresh(now, init)) + multiset(keep);
      assert multiset(Stale(now, files)) == multiset(Stale(now, init)) + multiset(drop);
    }
  }

  /** The two lists split the directory: every deleted entry is strictly more
      than an hour old, every kept one at most an hour old, and together they
      are the directory. */
  lemma CleanupSplits(now: int, files: seq<TempFile>)
    ensures forall f :: f in Stale(now, files) ==> f in files && now - f.mtime > MAX_AGE
    ensures forall f :: f in Fresh(now, files) ==> f in files && now - f.mtime <= MAX_AGE
    ensures multiset(Fresh(now, files)) + multiset(Stale(now, files)) == multiset(files)
  {
    StaleAreExpired(now, files);
    FreshAreRecent(now, files);
    CleanupPartition(now, files);
  }

  /** `cleanupOldFiles`'s `forEach` over the directory: each entry more than
      an hour old is deleted, the others stay. */
  method Cleanup(now: int, files: seq<TempFile>) returns (kept: seq<TempFile>, deleted: seq<TempFile>)
    ensures kept == Fresh(now, files) && deleted == Stale(now, files)
  {
    kept, deleted := [], [];
    var i := 0;
    while i < |files|
      invariant 0 <= i <= |files|
      invariant kept == Fresh(now, files[..i]) && deleted == Stale(now, files[..i])
    {
      assert files[..i + 1][..i] == files[..i];
      if now - files[i].mtime > MAX_AGE {
        deleted := deleted + [files[i]];
      } else {
        kept := kept + [files[i]];
      }
      i := i + 1;
    }
    assert files[..|files|] == files;
  }

  datatype Stats = Stats(totalDownloads: nat)

  /** The exported service object. */
  class VideoDownloadService {
    var downloadCount: nat

    constructor()
      ensures downloadCount == 0
    {
      downloadCount := 0;
    }

    /** `downloadVideo`: count first, then run the chain for the detected
        platform; a failure is thrown on to the caller after counting. */
    method DownloadVideo(url: string, tools: Tools) returns (r: Result<Video, string>)
      modifies this
      ensures downloadCount == old(downloadCount) + 1
      ensures r == Download(tools, url)
    {
      downloadCount := downloadCount + 1;
      var platform := DetectPlatform(url);
      match platform
      case YouTube => r := FromYouTube(tools, url);
      case TikTok => r := FromTikTok(tools, url);
      case Facebook => r := FromFacebook(tools, url);
      case Instagram => r := FromInstagram(tools, url);
      case Unknown => r := FromGeneric(tools, url);
    }

    /** `extractYouTubeId`: try the patterns in order and return the capture
        of the first that matches. */
    method ExtractYouTubeId(url: string) returns (id: Option<string>)
      ensures id == FirstCapture(url, ID_PATTERNS, 0)
      ensures id.Some? ==> |id.value| >= 1 && forall c :: 0 <= c < |id.value| ==> IdChar(id.value[c])
    {
      FirstCaptureShape(url, ID_PATTERNS, 0);
      var p := 0;
      while p < |ID_PATTERNS|
        invariant 0 <= p <= |ID_PATTERNS|
        invariant FirstCapture(url, ID_PATTERNS, 0) == FirstCapture(url, ID_PATTERNS, p)
      {
        var m := Search(url, ID_PATTERNS[p], 0);
        if m.Some? {
          return m;
        }
        p := p + 1;
      }
      return None;
    }

    /** `getStats`. */
    function GetStats(): (s: Stats)
      reads this
      ensures s.totalDownloads == downloadCount
    {
      Stats(downloadCount)
    }
  }
}
