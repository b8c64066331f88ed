/**
 * The agent object: the set of processed URLs it keeps between checks, and the checks that read
 * the listings, send the reports and remember them.
 */
module Agent {
  import opened Wrappers
  import opened Externals
  import opened Filter
  import opened Resolve
  import opened Extraction
  import opened Report
  import opened Chunking
  import opened Pipeline

  class MacroAgent {
    const world: World
    const config: Config

    /** `processed_urls`: listing URLs whose report was sent. */
    var processed: set<string>

    /** Every fetch, send and recording so far, in order. */
    ghost var log: seq<Event>

    /** Every Telegram post attempted so far, in order. */
    ghost var outbox: seq<string>

    /** The posts are exactly those the sends in the log call for. */
    ghost predicate Valid()
      reads this
    {
      outbox == Outbox(config.telegram, log)
    }

    /**
     * `__init__` with `load_history`: `history` is the list read from `history.json`, or `None`
     * when the file is missing or unreadable, which starts from the empty set.
     */
    constructor (world: World, config: Config, history: Option<seq<string>>)
      ensures Valid()
      ensures this.world == world && this.config == config
      ensures processed == (if history.Some? then set u | u in history.value else {})
      ensures log == [] && outbox == []
    {
      this.world := world;
      this.config := config;
      processed := if history.Some? then set u | u in history.value else {};
      log := [];
      outbox := [];
    }

    /** `save_history`: remember `url`; nothing already remembered is lost. */
    method SaveHistory(url: string)
      requires Valid()
      modifies this`processed, this`log
      ensures Valid()
      ensures processed == old(processed) + {url}
      ensures url in old(processed) ==> processed == old(processed)
      ensures log == old(log) + [Record(url)]
    {
      processed := processed + {url};
      log := log + [Record(url)];
      OutboxAppend(config.telegram, old(log), [Record(url)]);
    }

    /**
     * `send_telegram`, called for the report of the listing URL `key`: the send is logged;
     * without both keys nothing is posted, otherwise each piece in turn.
     */
    method SendTelegram(ghost key: string, message: string)
      requires Valid()
      modifies this`log, this`outbox
      ensures Valid()
      ensures log == old(log) + [Sent(key, message)]
      ensures outbox == old(outbox) + (if config.telegram then Chunks(message) else [])
    {
      log := log + [Sent(key, message)];
      OutboxAppend(config.telegram, old(log), [Sent(key, message)]);
      OutboxOfSend(config.telegram, key, message);
      if !config.telegram {
        return;
      }
      PostPieces(message);
    }

    /** The loop of `send_telegram`: one post per piece of the message, in order. */
    method PostPieces(message: string)
      modifies this`outbox
      ensures outbox == old(outbox) + Chunks(message)
    {
      var chunks := Chunks(message);
      for k := 0 to |chunks|
        invariant outbox == old(outbox) + chunks[..k]
      {
        outbox := outbox + [chunks[k]];
      }
    }

    /** `get_soup`: one GET; the anchors of the page, or `None` when it failed. */
    method GetSoup(url: string) returns (page: Option<seq<Anchor>>)
      requires Valid()
      modifies this`log
      ensures Valid()
      ensures page == world.page(url)
      ensures log == old(log) + [Get(url)]
    {
      log := log + [Get(url)];
      OutboxAppend(config.telegram, old(log), [Get(url)]);
      page := world.page(url);
    }

    /** `extract_text_from_pdf`: one GET; the text of the first pages, or `None` when it failed. */
    method ExtractTextFromPdf(pdfUrl: string) returns (text: Option<string>)
      requires Valid()
      modifies this`log
      ensures Valid()
      ensures text == PdfText(world.pdf(pdfUrl))
      ensures log == old(log) + [Get(pdfUrl)]
    {
      log := log + [Get(pdfUrl)];
      OutboxAppend(config.telegram, old(log), [Get(pdfUrl)]);
      var download := world.pdf(pdfUrl);
      if download.None? {
        return None;
      }
      var read := ReadPages(download.value);
      text := Some(read);
    }

    /** The PDF lookup for a report link, with the page fetch it needs. */
    method FindPdf(site: Site, href: string, fullUrl: string) returns (outcome: Outcome)
      requires Valid()
      modifies this`log
      ensures Valid()
      ensures outcome == ResolvePdf(world, site, href, fullUrl).outcome
      ensures log == old(log) + ResolvePdf(world, site, href, fullUrl).fetches
    {
      if site.source == Cbr && IsPdfHref(world.fold, href) {
        return PdfAt(fullUrl);
      }
      var subSoup := GetSoup(fullUrl);
      if subSoup.None? {
        return NoPdf;
      }
      var sub := subSoup.value;
      var pdfLink := FirstWhere(world.fold, sub, ByHref);
      if pdfLink.None? && site.source == Cbr {
        pdfLink := FirstWhere(world.fold, sub, ByText(site.labels));
      }
      if pdfLink.None? {
        return NoPdf;
      }
      var link := sub[pdfLink.value];
      if link.href.None? {
        return MissingHref;
      }
      outcome := PdfAt(world.join(site.base, link.href.value));
    }

    /** The body of the loop over a listing's anchors; `false` when it raised. */
    method Consider(site: Site, a: Anchor) returns (ok: bool)
      requires Valid()
      modifies this`processed, this`log, this`outbox
      ensures Valid()
      ensures log == old(log) + Visit(world, config, site, a, old(processed)).events
      ensures processed == old(processed) + RecordedKeys(Visit(world, config, site, a, old(processed)).events)
      ensures ok == !Visit(world, config, site, a, old(processed)).crashed
    {
      var title, href := a.title, a.href;
      if href.None? || href.value == "" || title == "" {
        return true;
      }
      var isTarget := IsTarget(world.fold, title, site.targets);
      if !isTarget {
        return true;
      }
      var fullUrl := world.join(site.base, href.value);
      if fullUrl in processed {
        return true;
      }
      ok := Pursue(site, title, href.value, fullUrl);
    }

    /** A new target link: look up its PDF, then publish it; `false` when the lookup raised. */
    method Pursue(site: Site, title: string, href: string, fullUrl: string) returns (ok: bool)
      requires Valid()
      modifies this`processed, this`log, this`outbox
      ensures Valid()
      ensures log == old(log) + Follow(world, config, site, title, href, fullUrl).events
      ensures processed == old(processed) + RecordedKeys(Follow(world, config, site, title, href, fullUrl).events)
      ensures ok == !Follow(world, config, site, title, href, fullUrl).crashed
    {
      ghost var res := ResolvePdf(world, site, href, fullUrl);
      FetchesDisciplined(res.fetches, processed);
      var outcome := FindPdf(site, href, fullUrl);
      if outcome.MissingHref? {
        return false;
      }
      if outcome.NoPdf? {
        return true;
      }
      PublishPdf(site, title, fullUrl, outcome.url);
      PublishKeys(world, config, site, title, fullUrl, outcome.url);
      ghost var pub := Publish(world, config, site, title, fullUrl, outcome.url);
      AppendAssoc(old(log), res.fetches, pub);
      KeysAppend(res.fetches, pub);
      ok := true;
    }

    /** Download the PDF and, when it yields text, send the report and remember the listing URL. */
    method PublishPdf(site: Site, title: string, fullUrl: string, pdfUrl: string)
      requires Valid()
      modifies this`processed, this`log, this`outbox
      ensures Valid()
      ensures log == old(log) + Publish(world, config, site, title, fullUrl, pdfUrl)
      ensures processed == old(processed) + RecordedKeys(Publish(world, config, site, title, fullUrl, pdfUrl))
    {
      var text := ExtractTextFromPdf(pdfUrl);
      if text.None? || text.value == "" {
        FetchesDisciplined([Get(pdfUrl)], processed);
        return;
      }
      Deliver(site, title, fullUrl, pdfUrl, text.value);
      PublishKeys(world, config, site, title, fullUrl, pdfUrl);
      ghost var msg := Compose(site.header, title, Analyze(config, world, text.value, title, site.publisher), pdfUrl);
      AppendAssoc(old(log), [Get(pdfUrl)], [Sent(fullUrl, msg), Record(fullUrl)]);
    }

    /** Analyse the text, send the message, then remember the listing URL. */
    method Deliver(site: Site, title: string, fullUrl: string, pdfUrl: string, text: string)
      requires Valid()
      modifies this`processed, this`log, this`outbox
      ensures Valid()
      ensures processed == old(processed) + {fullUrl}
      ensures log == old(log) + [Sent(fullUrl, Compose(site.header, title, Analyze(config, world, text, title, site.publisher), pdfUrl)), Record(fullUrl)]
    {
      var analysis := Analyze(config, world, text, title, site.publisher);
      var msg := Compose(site.header, title, analysis, pdfUrl);
      ghost var before := log;
      SendTelegram(fullUrl, msg);
      SaveHistory(fullUrl);
      AppendAssoc(before, [Sent(fullUrl, msg)], [Record(fullUrl)]);
    }

    /** `check_cbr` / `check_minec`: the listing fetch and the loop over its anchors. */
    method CheckSite(site: Site) returns (completed: bool)
      requires Valid()
      modifies this`processed, this`log, this`outbox
      ensures Valid()
      ensures log == old(log) + RunSource(world, config, site, old(processed)).events
      ensures processed == RunSource(world, config, site, old(processed)).seen
      ensures completed == RunSource(world, config, site, old(processed)).completed
    {
      var soup := GetSoup(site.listing);
      if soup.None? {
        return true;
      }
      ghost var whole := Pass(world, config, site, soup.value, old(processed));
      completed := Walk(site, soup.value);
      AppendAssoc(old(log), [Get(site.listing)], whole.events);
    }

    /** `for link in links:` over a listing's anchors, the seen-set updated as it goes; `false` when an iteration raised. */
    method Walk(site: Site, links: seq<Anchor>) returns (completed: bool)
      requires Valid()
      modifies this`processed, this`log, this`outbox
      ensures Valid()
      ensures log == old(log) + Pass(world, config, site, links, old(processed)).events
      ensures processed == Pass(world, config, site, links, old(processed)).seen
      ensures completed == Pass(world, config, site, links, old(processed)).completed
    {
      ghost var whole := Pass(world, config, site, links, old(processed));
      ghost var done: seq<Event> := [];
      var i := 0;
      while i < |links|
        invariant Valid()
        invariant 0 <= i <= |links|
        invariant log == old(log) + done
        invariant whole.events == done + Pass(world, config, site, links[i..], processed).events
        invariant whole.seen == Pass(world, config, site, links[i..], processed).seen
        invariant whole.completed == Pass(world, config, site, links[i..], processed).completed
      {
        ghost var st := Visit(world, config, site, links[i], processed);
        PassAdvance(world, config, site, links, i, processed, done, whole);
        var ok := Consider(site, links[i]);
        AppendAssoc(old(log), done, st.events);
        done := done + st.events;
        if !ok {
          return false;
        }
        i := i + 1;
      }
      assert links[i..] == [];
      completed := true;
    }

    method CheckCbr() returns (completed: bool)
      requires Valid()
      modifies this`processed, this`log, this`outbox
      ensures Valid()
      ensures log == old(log) + RunSource(world, config, SiteOf(Cbr), old(processed)).events
      ensures processed == RunSource(world, config, SiteOf(Cbr), old(processed)).seen
      ensures completed == RunSource(world, config, SiteOf(Cbr), old(processed)).completed
    {
      completed := CheckSite(SiteOf(Cbr));
    }

    method CheckMinec() returns (completed: bool)
      requires Valid()
      modifies this`processed, this`log, this`outbox
      ensures Valid()
      ensures log == old(log) + RunSource(world, config, SiteOf(Minec), old(processed)).events
      ensures processed == RunSource(world, config, SiteOf(Minec), old(processed)).seen
      ensures completed == RunSource(world, config, SiteOf(Minec), old(processed)).completed
    {
      completed := CheckSite(SiteOf(Minec));
    }

    /** `run`: both checks in order; an exception in the first ends the run. */
    method RunChecks() returns (completed: bool)
      requires Valid()
      modifies this`processed, this`log, this`outbox
      ensures Valid()
      ensures log == old(log) + Run(world, config, SiteOf(Cbr), SiteOf(Minec), old(processed)).events
      ensures processed == Run(world, config, SiteOf(Cbr), SiteOf(Minec), old(processed)).seen
      ensures completed == Run(world, config, SiteOf(Cbr), SiteOf(Minec), old(processed)).completed
    {
      ghost var c := RunSource(world, config, SiteOf(Cbr), processed);
      completed := CheckCbr();
      if !completed {
        return;
      }
      ghost var mid := log;
      ghost var m := RunSource(world, config, SiteOf(Minec), processed);
      completed := CheckMinec();
      assert Run(world, config, SiteOf(Cbr), SiteOf(Minec), old(processed)) == PassResult(c.events + m.events, m.seen, m.completed);
      AppendAssoc(old(log), c.events, m.events);
    }
  }
}
