/** The feed collector: the signals of the entries of a parsed RSS or Atom feed,
    with their publication date and image, and the collection over all feed
    sources. Parsing the feed and building a date from its time tuple are
    parameters. */
module RssCollector {
  import opened Model
  import opened Text
  import Seqs

  /** A `media_content` item: its medium, its type ("" when it has none) and its url. */
  datatype Media = Media(medium: Option<string>, mediaType: string, url: Option<string>)

  /** An enclosure: its type ("" when it has none) and its href. */
  datatype Enclosure = Enclosure(encType: string, href: Option<string>)

  /** A feed entry. A missing link, title or summary is "", a missing media or
      enclosure list is empty; `raises` marks an entry whose reading raises an
      error the loop does not catch. */
  datatype Entry = Entry(
    link: string,
    title: string,
    summary: string,
    published: Option<seq<int>>,
    updated: Option<seq<int>>,
    media: seq<Media>,
    enclosures: seq<Enclosure>,
    raises: bool)

  /** The parsed feed: whether it is malformed and its entries; or the parse raised. */
  datatype Feed = Parsed(bozo: bool, entries: seq<Entry>) | Unreadable

  // ---------------------------------------------------------------- image

  /** A media item is an image by its medium or by a type starting with "image". */
  predicate IsImageMedia(m: Media) {
    m.medium == Some("image") || StartsWith(m.mediaType, "image")
  }

  predicate IsImageEnclosure(e: Enclosure) {
    StartsWith(e.encType, "image")
  }

  /** The image of an entry: the url of the first image media item; when that is
      missing or empty, the href of the first image enclosure if there is one. */
  function ImageOf(e: Entry): (image: Option<string>) {
    var i := Seqs.FirstIndex(e.media, IsImageMedia);
    var fromMedia := if i < |e.media| then e.media[i].url else None;
    if fromMedia.Some? && fromMedia.value != "" then fromMedia
    else
      var j := Seqs.FirstIndex(e.enclosures, IsImageEnclosure);
      if j < |e.enclosures| then e.enclosures[j].href else fromMedia
  }

  /** The two searches of `collect_from_feed`, each stopping at its first match. */
  method ChooseImage(e: Entry) returns (image: Option<string>)
    ensures image == ImageOf(e)
  {
    image := None;
    var i := 0;
    while i < |e.media|
      invariant i <= Seqs.FirstIndex(e.media, IsImageMedia)
      invariant image.None?
    {
      var m := e.media[i];
      if m.medium == Some("image") || StartsWith(m.mediaType, "image") {
        image := m.url;
        break;
      }
      i := i + 1;
    }
    ghost var fromMedia := image;
    assert fromMedia == if Seqs.FirstIndex(e.media, IsImageMedia) < |e.media|
      then e.media[Seqs.FirstIndex(e.media, IsImageMedia)].url else None;
    if image.None? || image.value == "" {
      var j := 0;
      while j < |e.enclosures|
        invariant j <= Seqs.FirstIndex(e.enclosures, IsImageEnclosure)
        invariant image == fromMedia
      {
        var enc := e.enclosures[j];
        if StartsWith(enc.encType, "image") {
          image := enc.href;
          break;
        }
        j := j + 1;
      }
    }
  }

  /** Item `i` is the first image media item. */
  predicate FirstImageMedia(e: Entry, i: int) {
    0 <= i < |e.media| && IsImageMedia(e.media[i]) && forall j :: 0 <= j < i ==> !IsImageMedia(e.media[j])
  }

  /** Enclosure `j` is the first image enclosure. */
  predicate FirstImageEnclosure(e: Entry, j: int) {
    0 <= j < |e.enclosures| && IsImageEnclosure(e.enclosures[j])
    && forall k :: 0 <= k < j ==> !IsImageEnclosure(e.enclosures[k])
  }

  /** The preference between the sources of the image: a non-empty media url wins;
      without an image media item the first image enclosure decides; no image item
      at all gives none. */
  lemma ImagePreference(e: Entry, i: int, j: int)
    ensures FirstImageMedia(e, i) && e.media[i].url.Some? && e.media[i].url.value != ""
      ==> ImageOf(e) == e.media[i].url
    ensures (forall m :: 0 <= m < |e.media| ==> !IsImageMedia(e.media[m])) && FirstImageEnclosure(e, j)
      ==> ImageOf(e) == e.enclosures[j].href
    ensures (forall m :: 0 <= m < |e.media| ==> !IsImageMedia(e.media[m]))
      && (forall n :: 0 <= n < |e.enclosures| ==> !IsImageEnclosure(e.enclosures[n]))
      ==> ImageOf(e).None?
  {
    var fi := Seqs.FirstIndex(e.media, IsImageMedia);
    var fj := Seqs.FirstIndex(e.enclosures, IsImageEnclosure);
    assert fi < |e.media| ==> IsImageMedia(e.media[fi]);
    assert fj < |e.enclosures| ==> IsImageEnclosure(e.enclosures[fj]);
    if FirstImageMedia(e, i) {
      assert fi == i;
    }
    if FirstImageEnclosure(e, j) {
      assert fj == j;
    }
  }

  // ---------------------------------------------------------------- collect_from_feed

  /** `published_parsed or updated_parsed`: the publication time unless it is missing
      or empty. */
  function Stamp(e: Entry): Option<seq<int>> {
    if e.published.Some? && e.published.value != [] then e.published else e.updated
  }

  /** The publication date: `iso` of the first six fields of the time, None when the
      entry has none or `iso` finds the fields invalid. */
  function PublishedAt(e: Entry, iso: seq<int> -> Option<string>): Option<string> {
    var stamp := Stamp(e);
    if stamp.Some? && stamp.value != [] then iso(Prefix(stamp.value, 6)) else None
  }

  /** The signal of an entry; none without a link or a title. */
  function EntrySignal(source: SourceConfig, e: Entry, signalId: (string, string) -> string,
                       iso: seq<int> -> Option<string>): Option<Collected>
  {
    if e.link == "" || e.title == "" then None
    else Some(Collected(signalId(e.link, e.title), e.title, e.summary, e.link, source.id, source.name,
                        source.Tier(), PublishedAt(e, iso), None, ImageOf(e)))
  }

  predicate Raises(e: Entry) {
    e.raises
  }

  lemma EntrySignalsLast(source: SourceConfig, entries: seq<Entry>, signalId: (string, string) -> string,
                         iso: seq<int> -> Option<string>)
    requires entries != []
    ensures var e := entries[|entries| - 1];
      EntrySignals(source, entries, signalId, iso)
        == EntrySignals(source, entries[..|entries| - 1], signalId, iso)
           + (if e.link == "" || e.title == "" then [] else [EntrySignal(source, e, signalId, iso).value])
  {
  }

  /** The signals of entries read without error, in order. */
  function EntrySignals(source: SourceConfig, entries: seq<Entry>, signalId: (string, string) -> string,
                        iso: seq<int> -> Option<string>): seq<Collected>
    decreases |entries|
  {
    if entries == [] then []
    else
      EntrySignals(source, entries[..|entries| - 1], signalId, iso)
        + match EntrySignal(source, entries[|entries| - 1], signalId, iso)
          case Some(c) => [c]
          case None => []
  }

  /** `collect_from_feed`: nothing for a feed that cannot be read or is malformed
      and empty; otherwise the signals of the entries before the first that raises. */
  function FeedSignals(source: SourceConfig, feed: Feed, signalId: (string, string) -> string,
                       iso: seq<int> -> Option<string>): seq<Collected>
  {
    match feed
    case Unreadable => []
    case Parsed(bozo, entries) =>
      if bozo && entries == [] then []
      else EntrySignals(source, entries[..Seqs.FirstIndex(entries, Raises)], signalId, iso)
  }

  method CollectFromFeed(source: SourceConfig, feed: Feed, signalId: (string, string) -> string,
                         iso: seq<int> -> Option<string>) returns (signals: seq<Collected>)
    ensures signals == FeedSignals(source, feed, signalId, iso)
  {
    signals := [];
    if feed.Unreadable? {
      return;
    }
    if feed.bozo && feed.entries == [] {
      return;
    }
    var entries := feed.entries;
    ghost var stop := Seqs.FirstIndex(entries, Raises);
    var k := 0;
    while k < |entries|
      invariant k <= stop
      invariant signals == EntrySignals(source, entries[..k], signalId, iso)
    {
      var entry := entries[k];
      if entry.raises {
        assert k == stop;
        break;
      }
      assert entries[..k + 1][..k] == entries[..k];
      EntrySignalsLast(source, entries[..k + 1], signalId, iso);
      var url := entry.link;
      var title := entry.title;
      if url == "" || title == "" {
        k := k + 1;
        continue;
      }
      var stamp := if entry.published.Some? && entry.published.value != [] then entry.published else entry.updated;
      var publishedAt := None;
      if stamp.Some? && stamp.value != [] {
        publishedAt := iso(Prefix(stamp.value, 6));
      }
      assert publishedAt == PublishedAt(entry, iso);
      var image := ChooseImage(entry);
      var signal := Collected(signalId(url, title), title, entry.summary, url, source.id, source.name,
                              source.Tier(), publishedAt, None, image);
      assert EntrySignal(source, entry, signalId, iso) == Some(signal);
      signals := signals + [signal];
      k := k + 1;
    }
    assert entries[..k] == entries[..stop];
  }

  /** What the signals of entries hold: one per entry with a link and a title, of
      this source, with its tier (2 when it has none) and no raw content. */
  predicate OfEntry(c: Collected, source: SourceConfig, entries: seq<Entry>, signalId: (string, string) -> string,
                    iso: seq<int> -> Option<string>)
  {
    exists k :: 0 <= k < |entries| && EntrySignal(source, entries[k], signalId, iso) == Some(c)
  }

  /** A signal is collected exactly when an entry with a link and a title gives it. */
  lemma {:induction false} EntrySignalsExact(source: SourceConfig, entries: seq<Entry>,
                                             signalId: (string, string) -> string,
                                             iso: seq<int> -> Option<string>, c: Collected)
    ensures c in EntrySignals(source, entries, signalId, iso) <==> OfEntry(c, source, entries, signalId, iso)
    decreases |entries|
  {
    if entries != [] {
      var init := entries[..|entries| - 1];
      var last := EntrySignal(source, entries[|entries| - 1], signalId, iso);
      var before := EntrySignals(source, init, signalId, iso);
      var tail := if last.Some? then [last.value] else [];
      assert EntrySignals(source, entries, signalId, iso) == before + tail;
      assert c in EntrySignals(source, entries, signalId, iso) <==> c in before || last == Some(c);
      EntrySignalsExact(source, init, signalId, iso, c);
      if c in before {
        var k :| 0 <= k < |init| && EntrySignal(source, init[k], signalId, iso) == Some(c);
        assert entries[k] == init[k];
        assert OfEntry(c, source, entries, signalId, iso);
      } else if last == Some(c) {
        assert OfEntry(c, source, entries, signalId, iso);
      }
      if OfEntry(c, source, entries, signalId, iso) {
        var k :| 0 <= k < |entries| && EntrySignal(source, entries[k], signalId, iso) == Some(c);
        if k < |init| {
          assert init[k] == entries[k];
          assert OfEntry(c, source, init, signalId, iso);
        } else {
          assert last == Some(c);
        }
      }
    }
  }

  /** Every signal has a link and a title, and is of its source. */
  lemma EntrySignalShape(source: SourceConfig, e: Entry, signalId: (string, string) -> string,
                         iso: seq<int> -> Option<string>)
    ensures EntrySignal(source, e, signalId, iso).Some? <==> e.link != "" && e.title != ""
    ensures EntrySignal(source, e, signalId, iso).Some? ==>
      var c := EntrySignal(source, e, signalId, iso).value;
      && c.url == e.link && c.title == e.title && c.summary == e.summary
      && c.sourceId == source.id && c.sourceTier == (if source.tier.Some? then source.tier.value else 2)
      && c.publishedAt == PublishedAt(e, iso) && c.imageUrl == ImageOf(e) && c.rawContent.None?
  {
  }

  /** An entry that raises ends the collection: the signals are those of the entries
      before it, and nothing after it counts. */
  lemma RaiseKeepsEarlier(source: SourceConfig, bozo: bool, before: seq<Entry>, bad: Entry, after: seq<Entry>,
                          signalId: (string, string) -> string, iso: seq<int> -> Option<string>)
    requires forall k :: 0 <= k < |before| ==> !before[k].raises
    requires bad.raises
    ensures FeedSignals(source, Parsed(bozo, before + [bad] + after), signalId, iso)
      == EntrySignals(source, before, signalId, iso)
  {
    var entries := before + [bad] + after;
    var stop := Seqs.FirstIndex(entries, Raises);
    assert entries[|before|] == bad;
    assert forall k :: 0 <= k < |before| ==> entries[k] == before[k];
    assert stop == |before|;
    assert entries[..stop] == before;
  }

  /** The malformed flag changes nothing: a feed without entries gives no signal
      either way, and one with entries is read either way. */
  lemma BozoIrrelevant(source: SourceConfig, entries: seq<Entry>,
                       signalId: (string, string) -> string, iso: seq<int> -> Option<string>)
    ensures FeedSignals(source, Parsed(true, entries), signalId, iso)
      == FeedSignals(source, Parsed(false, entries), signalId, iso)
  {
    if entries == [] {
      assert entries[..Seqs.FirstIndex(entries, Raises)] == [];
    }
  }

  /** Without an entry that raises, the signals are exactly those of the entries
      with a link and a title, in feed order. */
  lemma FeedSignalsExact(source: SourceConfig, bozo: bool, entries: seq<Entry>,
                         signalId: (string, string) -> string, iso: seq<int> -> Option<string>, c: Collected)
    requires forall k :: 0 <= k < |entries| ==> !entries[k].raises
    ensures FeedSignals(source, Parsed(bozo, entries), signalId, iso) == EntrySignals(source, entries, signalId, iso)
    ensures c in FeedSignals(source, Parsed(bozo, entries), signalId, iso) <==> OfEntry(c, source, entries, signalId, iso)
  {
    assert Seqs.FirstIndex(entries, Raises) == |entries|;
    assert entries[..|entries|] == entries;
    EntrySignalsExact(source, entries, signalId, iso, c);
  }

  // ---------------------------------------------------------------- collect_all_rss

  /** A source the feed collector takes: not switched off, of type "rss". */
  predicate IsRssSource(s: SourceConfig) {
    s.Enabled() && s.sourceType == Some("rss")
  }

  /** `collect_all_rss`: the signals of the feed sources, in configuration order. */
  function CollectRss(sources: seq<SourceConfig>, parse: string -> Feed, signalId: (string, string) -> string,
                      iso: seq<int> -> Option<string>): seq<Collected>
    decreases |sources|
  {
    if sources == [] then []
    else
      var last := sources[|sources| - 1];
      CollectRss(sources[..|sources| - 1], parse, signalId, iso)
        + (if IsRssSource(last) then FeedSignals(last, parse(last.url), signalId, iso) else [])
  }

  method CollectAllRss(sources: seq<SourceConfig>, parse: string -> Feed, signalId: (string, string) -> string,
                       iso: seq<int> -> Option<string>) returns (all: seq<Collected>)
    ensures all == CollectRss(sources, parse, signalId, iso)
  {
    all := [];
    var k := 0;
    while k < |sources|
      invariant k <= |sources|
      invariant all == CollectRss(sources[..k], parse, signalId, iso)
    {
      assert sources[..k + 1][..k] == sources[..k];
      var source := sources[k];
      if source.active == Some(false) {
        k := k + 1;
        continue;
      }
      if source.sourceType != Some("rss") {
        k := k + 1;
        continue;
      }
      var signals := CollectFromFeed(source, parse(source.url), signalId, iso);
      all := all + signals;
      k := k + 1;
    }
    assert sources[..k] == sources;
  }

  lemma CollectRssAppend(sources: seq<SourceConfig>, s: SourceConfig, parse: string -> Feed,
                         signalId: (string, string) -> string, iso: seq<int> -> Option<string>)
    ensures CollectRss(sources + [s], parse, signalId, iso)
      == CollectRss(sources, parse, signalId, iso) + (if IsRssSource(s) then FeedSignals(s, parse(s.url), signalId, iso) else [])
  {
    assert (sources + [s])[..|sources|] == sources;
  }

  /** Only the feed sources count: dropping every other source changes nothing. */
  lemma {:induction false} CollectRssFiltered(sources: seq<SourceConfig>, parse: string -> Feed,
                                              signalId: (string, string) -> string, iso: seq<int> -> Option<string>)
    ensures CollectRss(sources, parse, signalId, iso) == CollectRss(Seqs.Filter(sources, IsRssSource), parse, signalId, iso)
    decreases |sources|
  {
    if sources != [] {
      var init := sources[..|sources| - 1];
      var last := sources[|sources| - 1];
      CollectRssFiltered(init, parse, signalId, iso);
      assert sources == init + [last];
      assert Seqs.Filter(sources, IsRssSource)
        == Seqs.Filter(init, IsRssSource) + (if IsRssSource(last) then [last] else []);
      if IsRssSource(last) {
        CollectRssAppend(Seqs.Filter(init, IsRssSource), last, parse, signalId, iso);
        assert CollectRss(sources, parse, signalId, iso)
          == CollectRss(init, parse, signalId, iso) + FeedSignals(last, parse(last.url), signalId, iso);
      } else {
        assert Seqs.Filter(sources, IsRssSource) == Seqs.Filter(init, IsRssSource);
        assert CollectRss(sources, parse, signalId, iso) == CollectRss(init, parse, signalId, iso) + [];
      }
    }
  }
}
