/** services/advancedSearchService.js: the Google and DuckDuckGo result
    scrapers with their caps, filters and redirect unwrapping, the page-text
    extraction and cleanup, the deep-search record and the image-URL test.
    HTTP, cheerio's element selection, the WHATWG URL parser,
    `decodeURIComponent` and the AI analysis are the `Web` parameter. */
module AdvancedSearch {
  import opened Wrappers
  import opened JsText

  // ----- page-text cleanup -----

  /** `replace(/\s+/g, ' ')`: every maximal run of whitespace becomes one
      space. */
  function Collapse(s: string): (r: string)
    ensures |r| <= |s|
    ensures r == [] <==> s == []
    ensures s != [] ==> r[0] == (if IsJsSpace(s[0]) then ' ' else s[0])
    decreases |s|
  {
    if s == [] then []
    else if IsJsSpace(s[0]) then [' '] + Collapse(TrimStart(s[1..]))
    else [s[0]] + Collapse(s[1..])
  }

  /** After collapsing, whitespace is single spaces, never two in a row. */
  lemma {:induction false} CollapseTidy(s: string)
    ensures Tidy(Collapse(s))
    decreases |s|
  {
    if s != [] {
      var tail := if IsJsSpace(s[0]) then TrimStart(s[1..]) else s[1..];
      CollapseTidy(tail);
      var head := if IsJsSpace(s[0]) then ' ' else s[0];
      var c := Collapse(tail);
      assert Collapse(s) == [head] + c;
      assert IsJsSpace(s[0]) ==> c == [] || c[0] != ' ';
      forall k | 0 <= k < |c| + 1 ensures ([head] + c)[k] == if k == 0 then head else c[k - 1] { }
    }
  }

  /** The text with its whitespace removed. */
  function Visible(s: string): string
  {
    if s == [] then [] else (if IsJsSpace(s[0]) then [] else [s[0]]) + Visible(s[1..])
  }

  lemma {:induction false} VisibleTrimStart(s: string)
    ensures Visible(TrimStart(s)) == Visible(s)
  {
    if s != [] && IsJsSpace(s[0]) {
      VisibleTrimStart(s[1..]);
    }
  }

  /** Collapsing whitespace loses no other character and reorders nothing. */
  lemma {:induction false} CollapseKeepsText(s: string)
    ensures Visible(Collapse(s)) == Visible(s)
    decreases |s|
  {
    if s != [] {
      if IsJsSpace(s[0]) {
        var rest := TrimStart(s[1..]);
        CollapseKeepsText(rest);
        VisibleTrimStart(s[1..]);
        assert Visible(Collapse(s)) == Visible([' '] + Collapse(rest));
        assert ([' '] + Collapse(rest))[1..] == Collapse(rest);
      } else {
        CollapseKeepsText(s[1..]);
        assert ([s[0]] + Collapse(s[1..]))[1..] == Collapse(s[1..]);
      }
    }
  }

  /** `replace(/\n+/g, '\n')`. */
  function SquashLineFeeds(s: string): string
    decreases |s|
  {
    if s == [] then []
    else if s[0] == '\n' then ['\n'] + SquashLineFeeds(DropLineFeeds(s[1..]))
    else [s[0]] + SquashLineFeeds(s[1..])
  }

  function DropLineFeeds(s: string): (r: string)
    ensures |r| <= |s|
  {
    if s != [] && s[0] == '\n' then DropLineFeeds(s[1..]) else s
  }

  /** The second replacement finds nothing to do once whitespace is
      collapsed: there is no line feed left. */
  lemma {:induction false} SquashWithoutLineFeeds(s: string)
    requires forall k :: 0 <= k < |s| ==> s[k] != '\n'
    ensures SquashLineFeeds(s) == s
  {
    if s != [] {
      SquashWithoutLineFeeds(s[1..]);
    }
  }

  /** How much page text a result carries. */
  const CONTENT_LIMIT: nat := 3000

  /** The cleanup chain of `fetchPageContent`. */
  function CleanText(text: string): string
  {
    Prefix(Trim(SquashLineFeeds(Collapse(text))), CONTENT_LIMIT)
  }

  /** Whitespace is single spaces, never two in a row. */
  predicate Tidy(s: string)
  {
    && (forall k :: 0 <= k < |s| && IsJsSpace(s[k]) ==> s[k] == ' ')
    && (forall k :: 0 <= k < |s| - 1 ==> !(s[k] == ' ' && s[k + 1] == ' '))
  }

  lemma TidySlice(s: string, i: nat, j: nat)
    requires Tidy(s) && i <= j <= |s|
    ensures Tidy(s[i..j])
  {
    var t := s[i..j];
    forall k | 0 <= k < |t| ensures t[k] == s[i + k] { }
  }

  /** A tidy text has no line breaks: each would have been a space. */
  lemma TidyHasNoBreaks(s: string)
    requires Tidy(s)
    ensures forall k :: 0 <= k < |s| ==> !IsLineTerminator(s[k])
  {
    forall k | 0 <= k < |s| ensures !IsLineTerminator(s[k]) {
      if IsLineTerminator(s[k]) { assert IsJsSpace(s[k]); }
    }
  }

  lemma TrimKeepsTidy(s: string)
    requires Tidy(s)
    ensures Tidy(Trim(s))
  {
    var started := TrimStart(s);
    TidySlice(s, |s| - |started|, |s|);
    TidySlice(started, 0, |TrimEnd(started)|);
  }

  /** Cleaned text has no line breaks, no two whitespace characters in a row,
      no leading whitespace and at most 3000 chars. */
  lemma CleanTextShape(text: string)
    ensures var c := CleanText(text);
            && |c| <= CONTENT_LIMIT
            && Tidy(c)
            && (forall k :: 0 <= k < |c| ==> !IsLineTerminator(c[k]))
            && (c == [] || !IsJsSpace(c[0]))
  {
    var collapsed := Collapse(text);
    CollapseTidy(text);
    TidyHasNoBreaks(collapsed);
    assert forall k :: 0 <= k < |collapsed| ==> collapsed[k] != '\n';
    SquashWithoutLineFeeds(collapsed);
    var trimmed := Trim(collapsed);
    TrimKeepsTidy(collapsed);
    var c := Prefix(trimmed, CONTENT_LIMIT);
    TidySlice(trimmed, 0, |c|);
    assert c == [] || c[0] == trimmed[0];
    TidyHasNoBreaks(c);
  }

  // ----- search results -----

  /** A scraped result. */
  datatype Hit = Hit(title: string, url: string, snippet: string)

  /** `{...result, content, fetched}`. */
  datatype Enriched = Enriched(hit: Hit, content: string, fetched: bool)

  /** One `.g` block of Google's page: the text of its first `h3`, the
      `href` of its first link and the text of its first snippet element. */
  datatype GoogleBlock = GoogleBlock(titleText: string, href: Option<string>, snippetText: string)
  /** One `.result` block of DuckDuckGo's page. */
  datatype DuckBlock = DuckBlock(titleText: string, href: Option<string>, snippetText: string)

  /** A fetched page: the text of the first element a selector picks, when
      there is one, and the text of `body`. */
  datatype Page = Page(select: string -> Option<string>, body: string)

  /** The foreign calls: the two result pages (`None` when the request
      fails; Google's request also carries the wanted count), `isValidUrl`, `decodeURIComponent` (`None` when it throws), the
      page fetch and the AI analysis of a query and its enriched results. */
  datatype Web = Web(google: (string, int) -> Option<seq<GoogleBlock>>,
                     duckDuckGo: string -> Option<seq<DuckBlock>>,
                     isValidUrl: string -> bool,
                     decode: string -> Option<string>,
                     fetch: string -> Option<Page>,
                     analyze: (string, seq<Enriched>) -> Result<string, string>)

  const REDIRECT: string := "/url?q="

  /** `url.split('/url?q=')[1].split('&')[0]` for a redirect link. */
  function RedirectTarget(href: string): string
    requires StartsWith(href, REDIRECT)
  {
    SplitLeading(href, REDIRECT);
    Split(Split(href, REDIRECT)[1], "&")[0]
  }

  /** The first piece of a split is the text up to the first separator. */
  lemma SplitHead(s: string, sep: string)
    requires sep != ""
    ensures var h := Split(s, sep)[0];
            && |h| <= |s| && h == s[..|h|]
            && (|h| == |s| || OccursAt(s, sep, |h|))
            && !Contains(h, sep)
  {
  }

  /** Splitting a text that starts with the separator: the second piece is
      the first piece of the rest. */
  lemma SplitAfterLeading(s: string, sep: string)
    requires sep != "" && StartsWith(s, sep)
    ensures |Split(s, sep)| >= 2 && Split(s, sep)[1] == Split(s[|sep|..], sep)[0]
  {
    assert IndexOf(s, sep) == 0;
  }

  /** A prefix of a text lacking `t` lacks it too. */
  lemma PrefixLacks(s: string, t: string, n: nat)
    requires n <= |s| && !Contains(s, t)
    ensures !Contains(s[..n], t)
  {
    if Contains(s[..n], t) {
      ContainsWitness(s[..n], t);
      OccursInPrefix(s, t, n, IndexOf(s[..n], t));
      ContainsAt(s, t, IndexOf(s[..n], t));
      assert false;
    }
  }

  lemma OccursInSuffix(s: string, t: string, d: nat, i: int)
    requires d <= |s| && OccursAt(s[d..], t, i)
    ensures OccursAt(s, t, d + i)
  {
    assert s[d..][i..i + |t|] == s[d + i..d + i + |t|];
  }

  /** The redirect target is the text right after '/url?q=' up to the next
      '&' (or the next '/url?q=', or the end), and holds neither. */
  lemma RedirectTargetIs(href: string)
    requires StartsWith(href, REDIRECT)
    ensures var t := RedirectTarget(href);
            var end := |REDIRECT| + |t|;
            && end <= |href| && href[|REDIRECT|..end] == t
            && !Contains(t, "&") && !Contains(t, REDIRECT)
            && (end == |href| || OccursAt(href, "&", end) || OccursAt(href, REDIRECT, end))
  {
    var rest := href[|REDIRECT|..];
    SplitAfterLeading(href, REDIRECT);
    var piece := Split(rest, REDIRECT)[0];
    SplitHead(rest, REDIRECT);
    var t := Split(piece, "&")[0];
    SplitHead(piece, "&");
    assert t == rest[..|t|];
    PrefixLacks(piece, REDIRECT, |t|);
    if |t| < |piece| {
      OccursInPrefix(rest, "&", |piece|, |t|);
      OccursInSuffix(href, "&", |REDIRECT|, |t|);
    } else if |piece| < |rest| {
      OccursInSuffix(href, REDIRECT, |REDIRECT|, |piece|);
    }
  }

  // ----- one scraped block -----

  /** What the `each` callback does with one block: push a hit, skip the
      block, or throw (a `decodeURIComponent` failure, which ends the whole
      Google scrape). */
  datatype Step = Keep(hit: Hit) | Skip | Throw

  /** A hit both scrapers accept: a non-empty title and a non-empty url. */
  predicate Titled(h: Hit)
  {
    h.title != "" && h.url != ""
  }

  /** A hit Google's scraper accepts: titled, with an http(s) url. */
  predicate GoogleAccepts(web: Web, h: Hit)
  {
    Titled(h) && web.isValidUrl(h.url)
  }

  /** Google's callback on one `.g` block (lines 79-94). */
  function GoogleStep(web: Web, b: GoogleBlock): (r: Step)
    ensures r.Keep? ==> GoogleAccepts(web, r.hit)
    ensures r.Keep? ==> r.hit.title == Trim(b.titleText) && r.hit.snippet == Trim(b.snippetText)
    ensures r.Throw? <==> b.href.Some? && StartsWith(b.href.value, REDIRECT)
                          && web.decode(RedirectTarget(b.href.value)).None?
    ensures r.Keep? ==>
              && b.href.Some?
              && (if StartsWith(b.href.value, REDIRECT) then Some(r.hit.url) == web.decode(RedirectTarget(b.href.value))
                  else r.hit.url == b.href.value)
  {
    var title := Trim(b.titleText);
    var snippet := Trim(b.snippetText);
    match b.href
    case None => Skip
    case Some(href) =>
      if StartsWith(href, REDIRECT) then
        match web.decode(RedirectTarget(href))
        case None => Throw
        case Some(url) =>
          if title != "" && url != "" && web.isValidUrl(url) then Keep(Hit(title, url, snippet)) else Skip
      else if title != "" && href != "" && web.isValidUrl(href) then Keep(Hit(title, href, snippet))
      else Skip
  }

  /** DuckDuckGo's callback on one `.result` block (lines 129-135): it never
      throws and keeps the `href` as it is. */
  function DuckStep(b: DuckBlock): (r: Step)
    ensures !r.Throw?
    ensures r.Keep? <==> Trim(b.titleText) != "" && b.href.Some? && b.href.value != ""
    ensures r.Keep? ==> r.hit == Hit(Trim(b.titleText), b.href.value, Trim(b.snippetText))
  {
    var title := Trim(b.titleText);
    match b.href
    case Some(url) => if title != "" && url != "" then Keep(Hit(title, url, Trim(b.snippetText))) else Skip
    case None => Skip
  }

  function GoogleSteps(web: Web, blocks: seq<GoogleBlock>): (r: seq<Step>)
    ensures |r| == |blocks| && forall k :: 0 <= k < |blocks| ==> r[k] == GoogleStep(web, blocks[k])
  {
    seq(|blocks|, k requires 0 <= k < |blocks| => GoogleStep(web, blocks[k]))
  }

  function DuckSteps(blocks: seq<DuckBlock>): (r: seq<Step>)
    ensures |r| == |blocks| && forall k :: 0 <= k < |blocks| ==> r[k] == DuckStep(blocks[k])
  {
    seq(|blocks|, k requires 0 <= k < |blocks| => DuckStep(blocks[k]))
  }

  // ----- the `each` loop with its early stop -----

  /** The scrape from `results` on: stop once `max` hits are held (the
      callback's `return false`), fail at a reached `Throw`. */
  function Collected(steps: seq<Step>, max: int, results: seq<Hit>): Option<seq<Hit>>
    decreases |steps|
  {
    if steps == [] || |results| >= max then Some(results)
    else match steps[0]
      case Throw => None
      case Skip => Collected(steps[1..], max, results)
      case Keep(h) => Collected(steps[1..], max, results + [h])
  }

  /** The hits of `steps`, in order. */
  function Kept(steps: seq<Step>): seq<Hit>
  {
    if steps == [] then [] else (if steps[0].Keep? then [steps[0].hit] else []) + Kept(steps[1..])
  }

  /** `$(...).each(...)` pushing into `results`. */
  method Collect(steps: seq<Step>, max: int) returns (r: Option<seq<Hit>>)
    ensures r == Collected(steps, max, [])
  {
    var results: seq<Hit> := [];
    var i := 0;
    while i < |steps| && |results| < max
      invariant 0 <= i <= |steps|
      invariant Collected(steps, max, []) == Collected(steps[i..], max, results)
    {
      assert steps[i..][0] == steps[i] && steps[i..][1..] == steps[i + 1..];
      if steps[i].Throw? {
        return None;
      } else if steps[i].Keep? {
        results := results + [steps[i].hit];
      }
      i := i + 1;
    }
    return Some(results);
  }

  /** A finished scrape holds the hits of a prefix of the blocks, in order;
      it stopped before the last block only because it held `max` hits, it
      never grows past `max` and it is what it started with when that was
      already full. */
  lemma {:induction false} CollectedIs(steps: seq<Step>, max: int, results: seq<Hit>) returns (n: nat)
    requires Collected(steps, max, results).Some?
    ensures var v := Collected(steps, max, results).value;
            && n <= |steps|
            && v == results + Kept(steps[..n])
            && (forall k :: 0 <= k < n ==> !steps[k].Throw?)
            && (n < |steps| ==> |v| >= max)
            && (|results| <= max ==> |v| <= max)
            && (|results| >= max ==> v == results)
    decreases |steps|
  {
    if steps == [] || |results| >= max {
      n := 0;
      assert steps[..0] == [];
    } else {
      var more := if steps[0].Keep? then results + [steps[0].hit] else results;
      var m := CollectedIs(steps[1..], max, more);
      n := m + 1;
      assert steps[..n][0] == steps[0] && steps[..n][1..] == steps[1..][..m];
      forall k | 0 <= k < n ensures !steps[k].Throw? {
        if k > 0 { assert steps[k] == steps[1..][k - 1]; }
      }
    }
  }

  /** A scrape fails exactly when it reaches a `Throw` before holding `max`
      hits: this is the first such step. */
  lemma {:induction false} CollectedFails(steps: seq<Step>, max: int, results: seq<Hit>) returns (n: nat)
    requires Collected(steps, max, results).None?
    ensures n < |steps| && steps[n].Throw?
    ensures forall k :: 0 <= k < n ==> !steps[k].Throw?
    ensures |results| + |Kept(steps[..n])| < max
    decreases |steps|
  {
    if steps[0].Throw? {
      n := 0;
      assert steps[..0] == [];
    } else {
      var more := if steps[0].Keep? then results + [steps[0].hit] else results;
      var m := CollectedFails(steps[1..], max, more);
      n := m + 1;
      assert steps[..n][0] == steps[0] && steps[..n][1..] == steps[1..][..m];
      forall k | 0 <= k < n ensures !steps[k].Throw? {
        if k > 0 { assert steps[k] == steps[1..][k - 1]; }
      }
    }
  }

  /** ... and a `Throw` reached before `max` hits makes it fail. */
  lemma {:induction false} ThrowReachedFails(steps: seq<Step>, max: int, results: seq<Hit>, n: nat)
    requires n < |steps| && steps[n].Throw?
    requires forall k :: 0 <= k < n ==> !steps[k].Throw?
    requires |results| + |Kept(steps[..n])| < max
    ensures Collected(steps, max, results).None?
    decreases n
  {
    if n > 0 {
      var more := if steps[0].Keep? then results + [steps[0].hit] else results;
      assert steps[..n][0] == steps[0] && steps[..n][1..] == steps[1..][..n - 1];
      forall k | 0 <= k < n - 1 ensures !steps[1..][k].Throw? {
        assert steps[1..][k] == steps[k + 1];
      }
      ThrowReachedFails(steps[1..], max, more, n - 1);
    }
  }

  /** Without a `Throw` the scrape always finishes. */
  lemma {:induction false} NoThrowCollects(steps: seq<Step>, max: int, results: seq<Hit>)
    requires forall k :: 0 <= k < |steps| ==> !steps[k].Throw?
    ensures Collected(steps, max, results).Some?
    decreases |steps|
  {
    if steps != [] && |results| < max {
      assert forall k :: 0 <= k < |steps| - 1 ==> steps[1..][k] == steps[k + 1];
      NoThrowCollects(steps[1..], max, if steps[0].Keep? then results + [steps[0].hit] else results);
    }
  }

  /** Every hit of `steps` satisfies what each kept step's hit satisfies. */
  lemma {:induction false} KeptSatisfies(steps: seq<Step>, p: Hit -> bool)
    requires forall k :: 0 <= k < |steps| && steps[k].Keep? ==> p(steps[k].hit)
    ensures forall k :: 0 <= k < |Kept(steps)| ==> p(Kept(steps)[k])
  {
    if steps != [] {
      assert forall k :: 0 <= k < |steps| - 1 ==> steps[1..][k] == steps[k + 1];
      KeptSatisfies(steps[1..], p);
    }
  }

  // ----- the two scrapers -----

  /** `duckDuckGoSearch(query, max)`: a failed request gives no hits. */
  function DuckHits(web: Web, query: string, max: int): seq<Hit>
  {
    match web.duckDuckGo(query)
    case None => []
    case Some(blocks) =>
      NoThrowCollects(DuckSteps(blocks), max, []);
      Collected(DuckSteps(blocks), max, []).value
  }

  /** `googleSearch(query, max)`: a failed request or a throwing callback
      falls back to DuckDuckGo. */
  function GoogleHits(web: Web, query: string, max: int): seq<Hit>
  {
    match web.google(query, max)
    case None => DuckHits(web, query, max)
    case Some(blocks) =>
      match Collected(GoogleSteps(web, blocks), max, [])
      case None => DuckHits(web, query, max)
      case Some(hits) => hits
  }

  method DuckDuckGoSearch(web: Web, query: string, max: int) returns (hits: seq<Hit>)
    ensures hits == DuckHits(web, query, max)
  {
    match web.duckDuckGo(query)
    case None => hits := [];
    case Some(blocks) =>
      NoThrowCollects(DuckSteps(blocks), max, []);
      var r := Collect(DuckSteps(blocks), max);
      hits := r.value;
  }

  method GoogleSearch(web: Web, query: string, max: int) returns (hits: seq<Hit>)
    ensures hits == GoogleHits(web, query, max)
  {
    match web.google(query, max)
    case None => hits := DuckDuckGoSearch(web, query, max);
    case Some(blocks) =>
      var r := Collect(GoogleSteps(web, blocks), max);
      if r.None? {
        hits := DuckDuckGoSearch(web, query, max);
      } else {
        hits := r.value;
      }
  }

  /** DuckDuckGo keeps titled hits, in page order, at most `max` of them
      (none when `max` is not positive), and every titled block before the
      stop. */
  lemma DuckHitsShape(web: Web, query: string, max: int)
    ensures var hits := DuckHits(web, query, max);
            && |hits| <= (if max < 0 then 0 else max)
            && (forall k :: 0 <= k < |hits| ==> Titled(hits[k]))
            && (web.duckDuckGo(query).None? ==> hits == [])
            && (web.duckDuckGo(query).Some? ==>
                  exists n :: 0 <= n <= |web.duckDuckGo(query).value|
                    && hits == Kept(DuckSteps(web.duckDuckGo(query).value)[..n]))
  {
    if web.duckDuckGo(query).Some? {
      var steps := DuckSteps(web.duckDuckGo(query).value);
      NoThrowCollects(steps, max, []);
      var n := CollectedIs(steps, max, []);
      KeptSatisfies(steps[..n], Titled);
      assert [] + Kept(steps[..n]) == Kept(steps[..n]);
    }
  }

  /** Google's own hits are accepted ones, at most `max`, in page order; when
      it fails the hits are DuckDuckGo's. */
  lemma GoogleHitsShape(web: Web, query: string, max: int)
    ensures var hits := GoogleHits(web, query, max);
            && |hits| <= (if max < 0 then 0 else max)
            && (forall k :: 0 <= k < |hits| ==> Titled(hits[k]))
            && (web.google(query, max).None? ==> hits == DuckHits(web, query, max))
            && (web.google(query, max).Some? ==>
                  var steps := GoogleSteps(web, web.google(query, max).value);
                  if Collected(steps, max, []).None? then hits == DuckHits(web, query, max)
                  else (forall k :: 0 <= k < |hits| ==> GoogleAccepts(web, hits[k]))
                       && exists n :: 0 <= n <= |steps| && hits == Kept(steps[..n]))
  {
    DuckHitsShape(web, query, max);
    if web.google(query, max).Some? {
      var steps := GoogleSteps(web, web.google(query, max).value);
      if Collected(steps, max, []).Some? {
        var n := CollectedIs(steps, max, []);
        var accepts := h => GoogleAccepts(web, h);
        KeptSatisfies(steps[..n], accepts);
        assert [] + Kept(steps[..n]) == Kept(steps[..n]);
        assert forall k :: 0 <= k < |Kept(steps[..n])| ==> Titled(Kept(steps[..n])[k]);
      }
    }
  }

  // ----- page content -----

  /** The selectors tried for the main text, in order. */
  const CONTENT_SELECTORS: seq<string> :=
    ["article", "main", "[role=\"main\"]", ".content", ".post-content", ".entry-content", "#content"]

  /** The text of the first selector that picks an element. */
  function FirstSelected(page: Page, selectors: seq<string>): Option<string>
  {
    if selectors == [] then None
    else if page.select(selectors[0]).Some? then page.select(selectors[0])
    else FirstSelected(page, selectors[1..])
  }

  /** The main text: the first matching selector's text, or `body`'s when
      nothing matched or that text is empty. */
  function MainContent(page: Page): string
  {
    var picked := FirstSelected(page, CONTENT_SELECTORS);
    if picked.Some? && picked.value != "" then picked.value else page.body
  }

  /** The first selector that matches decides, whatever the later ones pick. */
  lemma {:induction false} FirstSelectedIs(page: Page, selectors: seq<string>, k: nat)
    requires k < |selectors| && page.select(selectors[k]).Some?
    requires forall j :: 0 <= j < k ==> page.select(selectors[j]).None?
    ensures FirstSelected(page, selectors) == page.select(selectors[k])
    decreases k
  {
    if k > 0 {
      assert forall j :: 0 <= j < k - 1 ==> selectors[1..][j] == selectors[j + 1];
      FirstSelectedIs(page, selectors[1..], k - 1);
    }
  }

  lemma {:induction false} NoneSelected(page: Page, selectors: seq<string>)
    requires forall j :: 0 <= j < |selectors| ==> page.select(selectors[j]).None?
    ensures FirstSelected(page, selectors).None?
  {
    if selectors != [] {
      assert forall j :: 0 <= j < |selectors| - 1 ==> selectors[1..][j] == selectors[j + 1];
      NoneSelected(page, selectors[1..]);
    }
  }

  /** Content comes from the first listed selector that matches; from `body`
      when that text is empty or none matches. */
  lemma MainContentFromFirstMatch(page: Page)
    ensures forall k :: (&& 0 <= k < |CONTENT_SELECTORS| && page.select(CONTENT_SELECTORS[k]).Some?
                         && (forall j :: 0 <= j < k ==> page.select(CONTENT_SELECTORS[j]).None?)) ==>
              MainContent(page) == (if page.select(CONTENT_SELECTORS[k]).value != "" then
                                      page.select(CONTENT_SELECTORS[k]).value else page.body)
    ensures (forall j :: 0 <= j < |CONTENT_SELECTORS| ==> page.select(CONTENT_SELECTORS[j]).None?) ==>
              MainContent(page) == page.body
  {
    forall k | 0 <= k < |CONTENT_SELECTORS| && page.select(CONTENT_SELECTORS[k]).Some?
                 && (forall j :: 0 <= j < k ==> page.select(CONTENT_SELECTORS[j]).None?)
      ensures MainContent(page) == (if page.select(CONTENT_SELECTORS[k]).value != "" then
                                      page.select(CONTENT_SELECTORS[k]).value else page.body)
    {
      FirstSelectedIs(page, CONTENT_SELECTORS, k);
    }
    if forall j :: 0 <= j < |CONTENT_SELECTORS| ==> page.select(CONTENT_SELECTORS[j]).None? {
      NoneSelected(page, CONTENT_SELECTORS);
    }
  }

  /** The selector loop with its `break`, then the `body` fallback. */
  method ExtractMainContent(page: Page) returns (content: string)
    ensures content == MainContent(page)
  {
    content := "";
    var i := 0;
    while i < |CONTENT_SELECTORS|
      invariant 0 <= i <= |CONTENT_SELECTORS|
      invariant FirstSelected(page, CONTENT_SELECTORS) == FirstSelected(page, CONTENT_SELECTORS[i..])
      invariant content == ""
    {
      assert CONTENT_SELECTORS[i..][0] == CONTENT_SELECTORS[i];
      assert CONTENT_SELECTORS[i..][1..] == CONTENT_SELECTORS[i + 1..];
      var elem := page.select(CONTENT_SELECTORS[i]);
      if elem.Some? {
        content := elem.value;
        break;
      }
      i := i + 1;
    }
    if content == "" {
      content := page.body;
    }
  }

  /** `fetchPageContent(result)`: the hit with the cleaned main text when the
      page loads, with its snippet when it does not. */
  function Enrich(web: Web, hit: Hit): (r: Enriched)
    ensures r.hit == hit
    ensures r.fetched <==> web.fetch(hit.url).Some?
    ensures !r.fetched ==> r.content == hit.snippet
    ensures r.fetched ==> && |r.content| <= CONTENT_LIMIT && Tidy(r.content)
                          && (forall k :: 0 <= k < |r.content| ==> !IsLineTerminator(r.content[k]))
  {
    match web.fetch(hit.url)
    case None => Enriched(hit, hit.snippet, false)
    case Some(page) =>
      CleanTextShape(MainContent(page));
      Enriched(hit, CleanText(MainContent(page)), true)
  }

  method FetchPageContent(web: Web, hit: Hit) returns (r: Enriched)
    ensures r == Enrich(web, hit)
  {
    match web.fetch(hit.url)
    case None => r := Enriched(hit, hit.snippet, false);
    case Some(page) =>
      var text := ExtractMainContent(page);
      r := Enriched(hit, CleanText(text), true);
  }

  /** `searchResults.map(fetchPageContent)`. */
  function EnrichAll(web: Web, hits: seq<Hit>): (r: seq<Enriched>)
    ensures |r| == |hits|
    ensures forall k :: 0 <= k < |hits| ==> r[k] == Enrich(web, hits[k])
  {
    if hits == [] then [] else [Enrich(web, hits[0])] + EnrichAll(web, hits[1..])
  }

  // ----- deep search -----

  /** An entry of `sources`. */
  datatype Source = Source(title: string, url: string)

  /** What `deepSearch` resolves to. */
  datatype Report =
    | NoResults(message: string)
    | Found(query: string, resultsCount: nat, results: seq<Enriched>, analysis: string, sources: seq<Source>)

  const NO_RESULTS: string := "لم أجد نتائج للبحث"
  const DEFAULT_MAX_RESULTS: int := 5

  /** `options.maxResults || 5`. */
  function MaxResultsOf(option: Option<int>): (max: int)
    ensures max != 0
    ensures option.Some? && option.value != 0 ==> max == option.value
  {
    if option.None? || option.value == 0 then DEFAULT_MAX_RESULTS else option.value
  }

  /** `detailedResults.map(r => ({ title: r.title, url: r.url }))`. */
  function SourcesOf(results: seq<Enriched>): (r: seq<Source>)
    ensures |r| == |results|
    ensures forall k :: 0 <= k < |results| ==> r[k] == Source(results[k].hit.title, results[k].hit.url)
  {
    if results == [] then [] else [Source(results[0].hit.title, results[0].hit.url)] + SourcesOf(results[1..])
  }

  /** `deepSearch(query)` with its count settled; a failed analysis throws. */
  function DeepSearchResult(web: Web, query: string, max: int): Result<Report, string>
  {
    var hits := GoogleHits(web, query, max);
    if hits == [] then Success(NoResults(NO_RESULTS))
    else
      var detailed := EnrichAll(web, hits);
      match web.analyze(query, detailed)
      case Failure(e) => Failure(e)
      case Success(analysis) => Success(Found(query, |detailed|, detailed, analysis, SourcesOf(detailed)))
  }

  /** No hits means the no-results answer; otherwise every hit is fetched in
      order, the count is the number of hits, and `sources` mirror `results`
      entry by entry; only the analysis can make it throw. */
  lemma DeepSearchShape(web: Web, query: string, max: int)
    ensures var hits := GoogleHits(web, query, max);
            var r := DeepSearchResult(web, query, max);
            && (hits == [] <==> r == Success(NoResults(NO_RESULTS)))
            && (r.Failure? <==> hits != [] && web.analyze(query, EnrichAll(web, hits)).Failure?)
            && (r.Success? && r.value.Found? ==>
                  && r.value.query == query
                  && r.value.resultsCount == |r.value.results| == |r.value.sources| == |hits|
                  && (forall k :: 0 <= k < |hits| ==> r.value.results[k] == Enrich(web, hits[k]))
                  && (forall k :: 0 <= k < |hits| ==>
                        r.value.sources[k] == Source(hits[k].title, hits[k].url)))
  {
  }

  /** The record `getStats` returns. */
  datatype SearchStats = SearchStats(totalSearches: nat, cacheSize: nat)

  // ----- image links -----

  const IMAGE_EXTENSIONS: seq<string> := ["jpg", "jpeg", "png", "gif", "webp"]

  /** `(\?.*)?$`: the end, or '?' and then anything but a line break. */
  predicate QueryTail(s: string)
  {
    s == [] || (s[0] == '?' && forall k :: 1 <= k < |s| ==> !IsLineTerminator(s[k]))
  }

  /** Some extension, in any letter case, from `i` on, and then a query tail. */
  predicate ExtensionFrom(lower: string, i: nat, url: string, exts: seq<string>)
    requires |lower| == |url|
  {
    exts != [] &&
    ((i + |exts[0]| <= |lower| && lower[i..i + |exts[0]|] == exts[0] && QueryTail(url[i + |exts[0]|..]))
     || ExtensionFrom(lower, i, url, exts[1..]))
  }

  /** The regular expression matches with its '.' at `i`. */
  predicate ImageMatchAt(url: string, i: nat)
  {
    i < |url| && url[i] == '.' && ExtensionFrom(ToLower(url), i + 1, url, IMAGE_EXTENSIONS)
  }

  /** `/\.(jpg|jpeg|png|gif|webp)(\?.*)?$/i.test(url)`. */
  predicate ImageEnding(url: string)
  {
    exists i :: 0 <= i < |url| && ImageMatchAt(url, i)
  }

  /** `isValidImageUrl(url)`. */
  predicate IsValidImageUrl(web: Web, url: string)
  {
    web.isValidUrl(url) && ImageEnding(url)
  }

  lemma {:induction false} ExtensionFromListed(lower: string, i: nat, url: string, exts: seq<string>, e: nat)
    requires |lower| == |url| && e < |exts|
    requires i + |exts[e]| <= |lower| && lower[i..i + |exts[e]|] == exts[e] && QueryTail(url[i + |exts[e]|..])
    ensures ExtensionFrom(lower, i, url, exts)
    decreases e
  {
    if e > 0 {
      ExtensionFromListed(lower, i, url, exts[1..], e - 1);
    }
  }

  /** A path ending in '.', a listed extension in any letter case and an
      optional '?'-query without line breaks is an image link. */
  lemma ImageLinkAccepted(path: string, ext: string, query: string)
    requires ToLower(ext) in IMAGE_EXTENSIONS
    requires QueryTail(query)
    ensures ImageEnding(path + "." + ext + query)
  {
    var url := path + "." + ext + query;
    var i := |path|;
    var e :| 0 <= e < |IMAGE_EXTENSIONS| && IMAGE_EXTENSIONS[e] == ToLower(ext);
    assert url[i + 1..i + 1 + |ext|] == ext;
    assert ToLower(url)[i + 1..i + 1 + |ext|] == ToLower(ext);
    assert url[i + 1 + |ext|..] == query;
    ExtensionFromListed(ToLower(url), i + 1, url, IMAGE_EXTENSIONS, e);
    assert ImageMatchAt(url, i);
  }

  /** Without any '.' a link is never an image link. */
  lemma NoDotNoImage(url: string)
    requires forall k :: 0 <= k < |url| ==> url[k] != '.'
    ensures !ImageEnding(url)
  {
  }

  // ----- the service object -----

  /** `new AdvancedSearchService()`: the search counter and the cache, which
      nothing ever writes. */
  class AdvancedSearchService {
    var searchCount: nat
    var cache: map<string, Report>

    ghost predicate Valid()
      reads this
    {
      cache == map[]
    }

    constructor()
      ensures Valid() && searchCount == 0
    {
      searchCount := 0;
      cache := map[];
    }

    /** `deepSearch(query, options)`: counts the call, then searches,
        fetches every hit and asks for the analysis. */
    method DeepSearch(web: Web, query: string, maxResults: Option<int>) returns (r: Result<Report, string>)
      requires Valid()
      modifies this
      ensures Valid()
      ensures searchCount == old(searchCount) + 1
      ensures r == DeepSearchResult(web, query, MaxResultsOf(maxResults))
    {
      searchCount := searchCount + 1;
      var max := MaxResultsOf(maxResults);
      var hits := GoogleSearch(web, query, max);
      if |hits| == 0 {
        return Success(NoResults(NO_RESULTS));
      }
      var detailed := EnrichAll(web, hits);
      var analysis := web.analyze(query, detailed);
      if analysis.Failure? {
        return Failure(analysis.error);
      }
      r := Success(Found(query, |detailed|, detailed, analysis.value, SourcesOf(detailed)));
    }

    /** `getStats()`: the cache is never filled, so its size is always 0. */
    function GetStats(): (stats: SearchStats)
      reads this
      ensures stats.totalSearches == searchCount
      ensures Valid() ==> stats.cacheSize == 0
    {
      SearchStats(searchCount, |cache|)
    }
  }
}
