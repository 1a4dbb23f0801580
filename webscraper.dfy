/** The web scraper for sources without a feed: the article links of a parsed page,
    joined against the page's url and kept once per url, and the signals built from
    them. Fetching and parsing the page are a parameter that yields the elements
    the extraction looks at, or nothing when the request fails. */
module WebScraper {
  import opened Model
  import opened Text
  import Seqs

  // ---------------------------------------------------------------- url joining

  /** The url of a link: an href starting with "http" as it is; any other joined to
      the base with exactly one "/" between them. */
  function JoinUrl(base: string, href: string): (url: string)
    ensures StartsWith(href, "http") ==> url == href
    ensures !StartsWith(href, "http") ==>
      url == RStrip(base, '/') + "/" + LStrip(href, '/')
  {
    if StartsWith(href, "http") then href else RStrip(base, '/') + "/" + LStrip(href, '/')
  }

  /** `n` slashes. */
  function Slashes(n: nat): (r: string)
    ensures |r| == n && forall i :: 0 <= i < n ==> r[i] == '/'
  {
    seq(n, _ => '/')
  }

  lemma {:induction false} RStripSlashes(base: string, m: nat)
    requires base == [] || base[|base| - 1] != '/'
    ensures RStrip(base + Slashes(m), '/') == base
    decreases m
  {
    var s := base + Slashes(m);
    if m > 0 {
      assert s != [] && s[|s| - 1] == '/';
      assert s[..|s| - 1] == base + Slashes(m - 1);
      RStripSlashes(base, m - 1);
    } else {
      assert s == base;
    }
  }

  lemma {:induction false} LStripSlashes(href: string, n: nat)
    requires href == [] || href[0] != '/'
    ensures LStrip(Slashes(n) + href, '/') == href
    decreases n
  {
    var s := Slashes(n) + href;
    if n > 0 {
      assert s != [] && s[0] == '/';
      assert s[1..] == Slashes(n - 1) + href;
      LStripSlashes(href, n - 1);
    } else {
      assert s == href;
    }
  }

  /** However many slashes end the base and start a relative href, the joined url
      has exactly one between them. */
  lemma JoinUrlSlashes(base: string, href: string, m: nat, n: nat)
    requires base == [] || base[|base| - 1] != '/'
    requires href == [] || href[0] != '/'
    requires !StartsWith(href, "http")
    ensures JoinUrl(base + Slashes(m), Slashes(n) + href) == base + "/" + href
  {
    var rel := Slashes(n) + href;
    if n > 0 {
      assert rel[0] == '/';
    } else {
      assert rel == href;
    }
    assert !StartsWith(rel, "http");
    RStripSlashes(base, m);
    LStripSlashes(href, n);
  }

  // ---------------------------------------------------------------- extract_articles

  /** An `<a>` element with an href: the href and the element's stripped text. */
  datatype Anchor = Anchor(href: string, text: string)

  /** An `<article>` element, as far as the extraction looks into it: its first link
      with an href, the stripped text of its first h1-h4 heading and of its first
      paragraph. */
  datatype ArticleElement = ArticleElement(link: Option<Anchor>, heading: Option<string>, paragraph: Option<string>)

  /** An h2 or h3 element: its first link with an href. */
  datatype HeadingElement = HeadingElement(link: Option<Anchor>)

  /** A parsed page: its article elements and its h2/h3 elements in document order. */
  datatype Page = Page(articles: seq<ArticleElement>, headings: seq<HeadingElement>)

  datatype Article = Article(title: string, url: string, summary: string)

  /** What an element offers: a title, an href still to be joined, and a summary. */
  datatype Candidate = Candidate(title: string, href: string, summary: string)

  /** An article element offers an article only with both a link and a heading; the
      summary is its paragraph's text, or "" without one. */
  function FromArticle(el: ArticleElement): Option<Candidate> {
    if el.link.Some? && el.heading.Some? then
      Some(Candidate(el.heading.value, el.link.value.href, if el.paragraph.Some? then el.paragraph.value else ""))
    else None
  }

  /** A heading offers its link, titled by the link's text, with no summary. */
  function FromHeading(h: HeadingElement): Option<Candidate> {
    if h.link.Some? then Some(Candidate(h.link.value.text, h.link.value.href, "")) else None
  }

  /** The urls of a list of articles. */
  function Urls(articles: seq<Article>): set<string>
    decreases |articles|
  {
    if articles == [] then {}
    else Urls(articles[..|articles| - 1]) + {articles[|articles| - 1].url}
  }

  /** One strategy of the extraction: the candidates in order, each under its joined
      url, except one whose url is already taken. */
  function Gather<T>(xs: seq<T>, pick: T -> Option<Candidate>, base: string): seq<Article>
    decreases |xs|
  {
    if xs == [] then []
    else
      var kept := Gather(xs[..|xs| - 1], pick, base);
      match pick(xs[|xs| - 1])
      case None => kept
      case Some(c) =>
        var url := JoinUrl(base, c.href);
        if url in Urls(kept) then kept else kept + [Article(c.title, url, c.summary)]
  }

  /** `extract_articles`: the article elements first; the headings only when the
      article elements gave nothing. */
  function Extract(page: Page, base: string): seq<Article> {
    var first := Gather(page.articles, FromArticle, base);
    if first != [] then first else Gather(page.headings, FromHeading, base)
  }

  lemma UrlsAppend(articles: seq<Article>, a: Article)
    ensures Urls(articles + [a]) == Urls(articles) + {a.url}
  {
    assert (articles + [a])[..|articles|] == articles;
  }

  /** A url is taken exactly when some article has it. */
  lemma {:induction false} UrlsExact(articles: seq<Article>, u: string)
    ensures u in Urls(articles) <==> exists i :: 0 <= i < |articles| && articles[i].url == u
    decreases |articles|
  {
    if articles != [] {
      var init := articles[..|articles| - 1];
      UrlsExact(init, u);
      assert forall i :: 0 <= i < |init| ==> init[i] == articles[i];
    }
  }

  /** Element `k` offers the article `a`: a candidate under its joined url. */
  predicate Offers<T>(xs: seq<T>, pick: T -> Option<Candidate>, base: string, k: int, a: Article)
    requires 0 <= k < |xs|
  {
    pick(xs[k]).Some?
    && a == Article(pick(xs[k]).value.title, JoinUrl(base, pick(xs[k]).value.href), pick(xs[k]).value.summary)
  }

  /** The last element's contribution to a strategy. */
  lemma GatherLast<T>(xs: seq<T>, pick: T -> Option<Candidate>, base: string)
    requires xs != []
    ensures var kept := Gather(xs[..|xs| - 1], pick, base);
      && (pick(xs[|xs| - 1]).None? ==> Gather(xs, pick, base) == kept)
      && (pick(xs[|xs| - 1]).Some? ==>
            var c := pick(xs[|xs| - 1]).value;
            var url := JoinUrl(base, c.href);
            Gather(xs, pick, base) == if url in Urls(kept) then kept else kept + [Article(c.title, url, c.summary)])
  {
  }

  /** No two articles share a url. */
  predicate DistinctUrls(r: seq<Article>) {
    forall i, j :: 0 <= i < j < |r| ==> r[i].url != r[j].url
  }

  /** No url is kept twice. */
  lemma {:induction false} GatherDistinct<T>(xs: seq<T>, pick: T -> Option<Candidate>, base: string)
    ensures DistinctUrls(Gather(xs, pick, base))
    decreases |xs|
  {
    if xs != [] {
      var kept := Gather(xs[..|xs| - 1], pick, base);
      GatherDistinct(xs[..|xs| - 1], pick, base);
      GatherLast(xs, pick, base);
      if pick(xs[|xs| - 1]).Some? {
        var c := pick(xs[|xs| - 1]).value;
        var url := JoinUrl(base, c.href);
        if url !in Urls(kept) {
          UrlsExact(kept, url);
          var r := kept + [Article(c.title, url, c.summary)];
          assert forall i :: 0 <= i < |kept| ==> r[i] == kept[i];
        }
      }
    }
  }

  /** Every kept article is a candidate under its joined url. */
  lemma {:induction false} GatherSound<T>(xs: seq<T>, pick: T -> Option<Candidate>, base: string, a: Article)
    requires a in Gather(xs, pick, base)
    ensures exists k :: 0 <= k < |xs| && Offers(xs, pick, base, k, a)
    decreases |xs|
  {
    var init := xs[..|xs| - 1];
    var kept := Gather(init, pick, base);
    GatherLast(xs, pick, base);
    if a in kept {
      GatherSound(init, pick, base, a);
      var k :| 0 <= k < |init| && Offers(init, pick, base, k, a);
      assert init[k] == xs[k];
      assert Offers(xs, pick, base, k, a);
    } else {
      assert Offers(xs, pick, base, |xs| - 1, a);
    }
  }

  /** Every candidate's joined url is kept. */
  lemma {:induction false} GatherComplete<T>(xs: seq<T>, pick: T -> Option<Candidate>, base: string)
    ensures forall k :: 0 <= k < |xs| && pick(xs[k]).Some? ==>
      JoinUrl(base, pick(xs[k]).value.href) in Urls(Gather(xs, pick, base))
    decreases |xs|
  {
    if xs != [] {
      var init := xs[..|xs| - 1];
      var kept := Gather(init, pick, base);
      GatherComplete(init, pick, base);
      GatherLast(xs, pick, base);
      assert forall k :: 0 <= k < |init| ==> init[k] == xs[k];
      if pick(xs[|xs| - 1]).Some? {
        var c := pick(xs[|xs| - 1]).value;
        var url := JoinUrl(base, c.href);
        if url !in Urls(kept) {
          UrlsAppend(kept, Article(c.title, url, c.summary));
        }
      }
    }
  }

  /** A strategy gives nothing exactly when no element offers a candidate. */
  lemma GatherEmpty<T>(xs: seq<T>, pick: T -> Option<Candidate>, base: string)
    ensures Gather(xs, pick, base) == [] <==> forall k :: 0 <= k < |xs| ==> pick(xs[k]).None?
  {
    var r := Gather(xs, pick, base);
    GatherComplete(xs, pick, base);
    if r == [] {
      assert Urls(r) == {};
    } else {
      GatherSound(xs, pick, base, r[0]);
      var k :| 0 <= k < |xs| && Offers(xs, pick, base, k, r[0]);
      assert pick(xs[k]).Some?;
    }
  }

  /** The url of every extracted article is unique. */
  lemma ExtractDistinct(page: Page, base: string)
    ensures DistinctUrls(Extract(page, base))
  {
    GatherDistinct(page.articles, FromArticle, base);
    GatherDistinct(page.headings, FromHeading, base);
  }

  /** The headings are looked at only when no article element has both a link and a
      heading; the article elements then decide everything. */
  lemma ExtractFallback(page: Page, base: string)
    ensures (exists k :: 0 <= k < |page.articles| && page.articles[k].link.Some? && page.articles[k].heading.Some?)
      ==> Extract(page, base) == Gather(page.articles, FromArticle, base)
    ensures (forall k :: 0 <= k < |page.articles| ==> page.articles[k].link.None? || page.articles[k].heading.None?)
      ==> Extract(page, base) == Gather(page.headings, FromHeading, base)
  {
    GatherEmpty(page.articles, FromArticle, base);
    if exists k :: 0 <= k < |page.articles| && page.articles[k].link.Some? && page.articles[k].heading.Some? {
      var k :| 0 <= k < |page.articles| && page.articles[k].link.Some? && page.articles[k].heading.Some?;
      assert FromArticle(page.articles[k]).Some?;
    }
  }

  /** An article of the first strategy comes from an element with both a link and
      a heading: its title is the heading, its url the joined href, its summary the
      paragraph or "". */
  lemma ArticleProvenance(page: Page, base: string)
    ensures var r := Gather(page.articles, FromArticle, base);
      forall i :: 0 <= i < |r| ==> exists k :: 0 <= k < |page.articles| && FromElement(page.articles[k], base, r[i])
  {
    var r := Gather(page.articles, FromArticle, base);
    forall i | 0 <= i < |r|
      ensures exists k :: 0 <= k < |page.articles| && FromElement(page.articles[k], base, r[i])
    {
      GatherSound(page.articles, FromArticle, base, r[i]);
      var k :| 0 <= k < |page.articles| && Offers(page.articles, FromArticle, base, k, r[i]);
      assert FromElement(page.articles[k], base, r[i]);
    }
  }

  /** The article an element with both a link and a heading gives. */
  predicate FromElement(el: ArticleElement, base: string, a: Article) {
    && el.link.Some? && el.heading.Some?
    && a.title == el.heading.value
    && a.url == JoinUrl(base, el.link.value.href)
    && a.summary == (if el.paragraph.Some? then el.paragraph.value else "")
  }

  /** The first loop of `extract_articles`: each article element with a link and a
      heading, under its joined url, unless the url is already seen. */
  method ScanArticles(els: seq<ArticleElement>, base: string) returns (articles: seq<Article>, seen: set<string>)
    ensures articles == Gather(els, FromArticle, base) && seen == Urls(articles)
  {
    articles, seen := [], {};
    var k := 0;
    while k < |els|
      invariant k <= |els|
      invariant articles == Gather(els[..k], FromArticle, base)
      invariant seen == Urls(articles)
    {
      assert els[..k + 1][..k] == els[..k];
      GatherLast(els[..k + 1], FromArticle, base);
      var el := els[k];
      if el.link.Some? && el.heading.Some? {
        var url := el.link.value.href;
        if !StartsWith(url, "http") {
          url := RStrip(base, '/') + "/" + LStrip(url, '/');
        }
        if url !in seen {
          seen := seen + {url};
          var summary := if el.paragraph.Some? then el.paragraph.value else "";
          UrlsAppend(articles, Article(el.heading.value, url, summary));
          articles := articles + [Article(el.heading.value, url, summary)];
        }
      }
      k := k + 1;
    }
    assert els[..k] == els;
  }

  /** The second loop of `extract_articles`: each h2/h3 link, titled by its text,
      under its joined url, unless the url is already seen. It runs only when the
      first loop kept nothing, so nothing is seen yet. */
  method ScanHeadings(hs: seq<HeadingElement>, base: string) returns (articles: seq<Article>)
    ensures articles == Gather(hs, FromHeading, base)
  {
    articles := [];
    var seen: set<string> := {};
    var k := 0;
    while k < |hs|
      invariant k <= |hs|
      invariant articles == Gather(hs[..k], FromHeading, base)
      invariant seen == Urls(articles)
    {
      assert hs[..k + 1][..k] == hs[..k];
      GatherLast(hs[..k + 1], FromHeading, base);
      var h := hs[k];
      if h.link.Some? {
        var url := h.link.value.href;
        if !StartsWith(url, "http") {
          url := RStrip(base, '/') + "/" + LStrip(url, '/');
        }
        if url !in seen {
          seen := seen + {url};
          UrlsAppend(articles, Article(h.link.value.text, url, ""));
          articles := articles + [Article(h.link.value.text, url, "")];
        }
      }
      k := k + 1;
    }
    assert hs[..k] == hs;
  }

  /** `extract_articles`: the article elements, then the headings when those gave
      nothing. */
  method ExtractArticles(page: Page, base: string) returns (articles: seq<Article>)
    ensures articles == Extract(page, base)
  {
    var seen;
    articles, seen := ScanArticles(page.articles, base);
    if articles == [] {
      articles := ScanHeadings(page.headings, base);
    }
  }

  // ---------------------------------------------------------------- scrape_source

  /** The signal of one article; the identifier is the digest of url and title. */
  function SignalOf(source: SourceConfig, a: Article, signalId: (string, string) -> string): Collected {
    Collected(signalId(a.url, a.title), a.title, a.summary, a.url, source.id, source.name,
              source.Tier(), None, None, None)
  }

  /** `scrape_source`: nothing when the page cannot be fetched, otherwise one signal
      per extracted article, in order. */
  function Scraped(source: SourceConfig, fetch: string -> Option<Page>,
                   signalId: (string, string) -> string): seq<Collected>
  {
    match fetch(source.url)
    case None => []
    case Some(page) =>
      var articles := Extract(page, source.url);
      seq(|articles|, i requires 0 <= i < |articles| => SignalOf(source, articles[i], signalId))
  }

  method ScrapeSource(source: SourceConfig, fetch: string -> Option<Page>,
                      signalId: (string, string) -> string) returns (signals: seq<Collected>)
    ensures signals == Scraped(source, fetch, signalId)
  {
    var page := fetch(source.url);
    if page.None? {
      return [];
    }
    var articles := ExtractArticles(page.value, source.url);
    signals := [];
    var k := 0;
    while k < |articles|
      invariant k <= |articles|
      invariant |signals| == k
      invariant forall i :: 0 <= i < k ==> signals[i] == SignalOf(source, articles[i], signalId)
    {
      var a := articles[k];
      signals := signals + [Collected(signalId(a.url, a.title), a.title, a.summary, a.url,
                                      source.id, source.name, source.Tier(), None, None, None)];
      k := k + 1;
    }
  }

  /** Every signal is of this source, with its tier, and without a date or an image. */
  predicate OfSource(r: seq<Collected>, source: SourceConfig) {
    forall i :: 0 <= i < |r| ==>
      && r[i].sourceId == source.id && r[i].sourceName == source.name
      && r[i].sourceTier == (if source.tier.Some? then source.tier.value else 2)
      && r[i].publishedAt.None? && r[i].imageUrl.None?
  }

  /** The signals of a source: none when the page cannot be fetched, otherwise as
      many as the extracted articles, no url twice, all from this source with its
      tier (2 when it has none) and no date or image. */
  lemma ScrapedShape(source: SourceConfig, fetch: string -> Option<Page>,
                     signalId: (string, string) -> string)
    ensures fetch(source.url).None? ==> Scraped(source, fetch, signalId) == []
    ensures fetch(source.url).Some? ==>
      |Scraped(source, fetch, signalId)| == |Extract(fetch(source.url).value, source.url)|
    ensures forall i, j :: 0 <= i < j < |Scraped(source, fetch, signalId)| ==>
      Scraped(source, fetch, signalId)[i].url != Scraped(source, fetch, signalId)[j].url
    ensures OfSource(Scraped(source, fetch, signalId), source)
  {
    if fetch(source.url).Some? {
      ExtractDistinct(fetch(source.url).value, source.url);
    }
  }

  // ---------------------------------------------------------------- collect_all_scraped

  /** A source the scraper takes: not switched off, of type "scrape". */
  predicate IsScrapeSource(s: SourceConfig) {
    s.Enabled() && s.sourceType == Some("scrape")
  }

  /** `collect_all_scraped`: the signals of the scrape sources, in configuration order. */
  function CollectScraped(sources: seq<SourceConfig>, fetch: string -> Option<Page>,
                          signalId: (string, string) -> string): seq<Collected>
    decreases |sources|
  {
    if sources == [] then []
    else
      var last := sources[|sources| - 1];
      CollectScraped(sources[..|sources| - 1], fetch, signalId)
        + (if IsScrapeSource(last) then Scraped(last, fetch, signalId) else [])
  }

  /** The pause after each scraped source, in seconds: `request_delay_ms`, 2000 by
      default, over 1000. */
  function Delay(requestDelayMs: Option<real>): real {
    (if requestDelayMs.Some? then requestDelayMs.value else 2000.0) / 1000.0
  }

  method CollectAllScraped(sources: seq<SourceConfig>, fetch: string -> Option<Page>,
                           signalId: (string, string) -> string, requestDelayMs: Option<real>)
    returns (all: seq<Collected>, pauses: seq<real>)
    ensures all == CollectScraped(sources, fetch, signalId)
    ensures |pauses| == |Seqs.Filter(sources, IsScrapeSource)|
    ensures forall i :: 0 <= i < |pauses| ==> pauses[i] == Delay(requestDelayMs)
  {
    var delay := (if requestDelayMs.Some? then requestDelayMs.value else 2000.0) / 1000.0;
    all := [];
    pauses := [];
    var k := 0;
    while k < |sources|
      invariant k <= |sources|
      invariant all == CollectScraped(sources[..k], fetch, signalId)
      invariant |pauses| == |Seqs.Filter(sources[..k], IsScrapeSource)|
      invariant forall i :: 0 <= i < |pauses| ==> pauses[i] == delay
    {
      assert sources[..k + 1][..k] == sources[..k];
      var source := sources[k];
      if source.active == Some(false) {
        k := k + 1;
        continue;
      }
      if source.sourceType != Some("scrape") {
        k := k + 1;
        continue;
      }
      var signals := ScrapeSource(source, fetch, signalId);
      all := all + signals;
      pauses := pauses + [delay];
      k := k + 1;
    }
    assert sources[..k] == sources;
  }

  lemma CollectScrapedAppend(sources: seq<SourceConfig>, s: SourceConfig, fetch: string -> Option<Page>,
                             signalId: (string, string) -> string)
    ensures CollectScraped(sources + [s], fetch, signalId)
      == CollectScraped(sources, fetch, signalId) + (if IsScrapeSource(s) then Scraped(s, fetch, signalId) else [])
  {
    assert (sources + [s])[..|sources|] == sources;
  }

  /** Only the scrape sources count: dropping every other source changes nothing. */
  lemma {:induction false} CollectScrapedFiltered(sources: seq<SourceConfig>, fetch: string -> Option<Page>,
                                                  signalId: (string, string) -> string)
    ensures CollectScraped(sources, fetch, signalId)
      == CollectScraped(Seqs.Filter(sources, IsScrapeSource), fetch, signalId)
    decreases |sources|
  {
    if sources != [] {
      var init := sources[..|sources| - 1];
      var last := sources[|sources| - 1];
      CollectScrapedFiltered(init, fetch, signalId);
      assert sources == init + [last];
      assert Seqs.Filter(sources, IsScrapeSource)
        == Seqs.Filter(init, IsScrapeSource) + (if IsScrapeSource(last) then [last] else []);
      if IsScrapeSource(last) {
        CollectScrapedAppend(Seqs.Filter(init, IsScrapeSource), last, fetch, signalId);
        assert CollectScraped(sources, fetch, signalId)
          == CollectScraped(init, fetch, signalId) + Scraped(last, fetch, signalId);
      } else {
        assert Seqs.Filter(sources, IsScrapeSource) == Seqs.Filter(init, IsScrapeSource);
        assert CollectScraped(sources, fetch, signalId) == CollectScraped(init, fetch, signalId) + [];
      }
    }
  }

  /** The signal names a scrape source of the list. */
  predicate FromScrapeSource(c: Collected, sources: seq<SourceConfig>) {
    exists k :: 0 <= k < |sources| && IsScrapeSource(sources[k]) && c.sourceId == sources[k].id
  }

  predicate FromScrapeSources(r: seq<Collected>, sources: seq<SourceConfig>) {
    forall i :: 0 <= i < |r| ==> FromScrapeSource(r[i], sources)
  }

  /** Every collected signal comes from a scrape source of the list. */
  lemma {:induction false} CollectScrapedSources(sources: seq<SourceConfig>, fetch: string -> Option<Page>,
                                                 signalId: (string, string) -> string)
    ensures FromScrapeSources(CollectScraped(sources, fetch, signalId), sources)
    decreases |sources|
  {
    if sources != [] {
      var init := sources[..|sources| - 1];
      var last := sources[|sources| - 1];
      var r := CollectScraped(sources, fetch, signalId);
      var front := CollectScraped(init, fetch, signalId);
      CollectScrapedSources(init, fetch, signalId);
      ScrapedShape(last, fetch, signalId);
      forall i | 0 <= i < |r|
        ensures FromScrapeSource(r[i], sources)
      {
        assert r == front + (if IsScrapeSource(last) then Scraped(last, fetch, signalId) else []);
        if i < |front| {
          assert r[i] == front[i];
          var w :| 0 <= w < |init| && IsScrapeSource(init[w]) && front[i].sourceId == init[w].id;
          assert sources[w] == init[w];
        } else {
          assert IsScrapeSource(last);
          assert r[i] == Scraped(last, fetch, signalId)[i - |front|];
          assert sources[|sources| - 1] == last;
        }
      }
    }
  }
}
