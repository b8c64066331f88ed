/**
 * The watch-and-notify pass over one source, as a function of the outside world and of the
 * set of URLs already processed: which anchors are looked at, what is fetched, what is sent
 * and what is recorded.
 */
module Pipeline {
  import opened Wrappers
  import opened Text
  import opened Externals
  import opened Filter
  import opened Resolve
  import opened Extraction
  import opened Report
  import opened Chunking

  /** The two watched sources: the Bank of Russia calendar and the Ministry's review section. */
  datatype Source = Cbr | Minec

  /**
   * What a check knows of its source: the base of its links, its listing page, the report titles
   * it looks for, the download labels tried on a report page, the publisher named to the analysis
   * and the header of its message.
   */
  datatype Site = Site(source: Source, base: string, listing: string, targets: seq<string>,
                       labels: seq<string>, publisher: string, header: string)

  /** The constants `check_cbr` and `check_minec` are written with. */
  function SiteOf(src: Source): Site
  {
    match src
    case Cbr =>
      Site(Cbr, "https://www.cbr.ru", "https://www.cbr.ru/calendar", CbrTargets, DownloadLabels,
           "Банка России", CbrHeader)
    case Minec =>
      Site(Minec, "https://www.economy.gov.ru",
           "https://www.economy.gov.ru/material/directions/makroec/ekonomicheskie_obzory/", MinecTargets, [],
           "Минэкономразвития", MinecHeader)
  }

  /** `full_url = urljoin(base_url, href)`: the key under which a report is remembered. */
  function KeyOf(w: World, site: Site, a: Anchor): string
    requires a.href.Some?
  {
    w.join(site.base, a.href.value)
  }

  /** The PDF lookup of the source for a report link. */
  function ResolvePdf(w: World, site: Site, href: string, key: string): Resolution
  {
    match site.source
    case Cbr => ResolveCbr(w, site.base, site.labels, href, key)
    case Minec => ResolveMinec(w, site.base, key)
  }

  /** The PDF at `url` yields a non-empty text (`if text:`). */
  predicate Readable(w: World, url: string)
  {
    var text := PdfText(w.pdf(url));
    text.Some? && text.value != ""
  }

  /** The anchor is a target of the source whose PDF is found and yields text. */
  predicate Delivers(w: World, site: Site, a: Anchor)
  {
    IsCandidate(a) && IsTarget(w.fold, a.title, site.targets)
    && var r := ResolvePdf(w, site, a.href.value, KeyOf(w, site, a));
    r.outcome.PdfAt? && Readable(w, r.outcome.url)
  }

  function SentKeys(evs: seq<Event>): set<string>
  {
    set e | e in evs && e.Sent? :: e.url
  }

  function RecordedKeys(evs: seq<Event>): set<string>
  {
    set e | e in evs && e.Record? :: e.url
  }

  /** Every send is directly followed by the recording of its URL, and every recording directly follows that send. */
  predicate SendThenRecord(evs: seq<Event>)
  {
    (forall j :: 0 <= j < |evs| && evs[j].Sent? ==> j + 1 < |evs| && evs[j + 1] == Record(evs[j].url))
    && (forall j :: 0 <= j < |evs| && evs[j].Record? ==> RecordFollowsSend(evs, j))
  }

  predicate RecordFollowsSend(evs: seq<Event>, j: int)
    requires 0 <= j < |evs|
  {
    j > 0 && evs[j - 1].Sent? && evs[j - 1].url == evs[j].url
  }

  /** No URL is sent twice. */
  predicate SentOnce(evs: seq<Event>)
  {
    forall i, j :: 0 <= i < j < |evs| && evs[i].Sent? && evs[j].Sent? ==> evs[i].url != evs[j].url
  }

  /**
   * What the pass promises about a trace that starts from the seen-set `seen`: exactly the sent
   * URLs are recorded, each right after its send; none of them was already seen; none is sent twice.
   */
  predicate Disciplined(evs: seq<Event>, seen: set<string>)
  {
    RecordedKeys(evs) == SentKeys(evs) && SentKeys(evs) !! seen && SentOnce(evs) && SendThenRecord(evs)
  }

  /** The effects of one iteration of the loop over the listing's anchors; `crashed` when it raised. */
  datatype Step = Step(events: seq<Event>, crashed: bool)

  /** A trace made of page and PDF fetches only. */
  predicate OnlyFetches(evs: seq<Event>)
  {
    forall j :: 0 <= j < |evs| ==> evs[j].Get?
  }

  /** A trace of fetches sends and records nothing. */
  lemma FetchesDisciplined(evs: seq<Event>, seen: set<string>)
    requires OnlyFetches(evs)
    ensures Disciplined(evs, seen) && RecordedKeys(evs) == {}
  {
    forall e | e in evs ensures e.Get? {
      var j :| 0 <= j < |evs| && evs[j] == e;
    }
  }

  /**
   * What follows a PDF found at `pdfUrl`: its download and, when it yields text, the send of the
   * message built from the analysis, then the recording of `key`.
   */
  function Publish(w: World, cfg: Config, site: Site, title: string, key: string, pdfUrl: string): seq<Event>
  {
    var text := PdfText(w.pdf(pdfUrl));
    if text.None? || text.value == "" then [Get(pdfUrl)]
    else
      var msg := Compose(site.header, title, Analyze(cfg, w, text.value, title, site.publisher), pdfUrl);
      [Get(pdfUrl)] + [Sent(key, msg), Record(key)]
  }

  /**
   * A publication fetches the PDF first; it sends and records `key`, once and in that order,
   * exactly when the PDF yields text, and otherwise does nothing more.
   */
  lemma PublishKeys(w: World, cfg: Config, site: Site, title: string, key: string, pdfUrl: string)
    ensures var evs := Publish(w, cfg, site, title, key, pdfUrl);
      evs[0] == Get(pdfUrl)
      && (Readable(w, pdfUrl) ==> SentKeys(evs) == {key} && RecordedKeys(evs) == {key} && SendThenRecord(evs) && SentOnce(evs))
      && (!Readable(w, pdfUrl) ==> evs == [Get(pdfUrl)])
  {
    var evs := Publish(w, cfg, site, title, key, pdfUrl);
    if Readable(w, pdfUrl) {
      var text := PdfText(w.pdf(pdfUrl));
      var msg := Compose(site.header, title, Analyze(cfg, w, text.value, title, site.publisher), pdfUrl);
      assert evs == [Get(pdfUrl), Sent(key, msg), Record(key)];
      assert forall e :: e in evs ==> e == Get(pdfUrl) || e == Sent(key, msg) || e == Record(key);
    }
  }

  /** What follows the dedup check for a target anchor: the PDF lookup, then the publication. */
  function Follow(w: World, cfg: Config, site: Site, title: string, href: string, key: string): (st: Step)
    ensures st.crashed ==> site.source == Cbr && OnlyFetches(st.events)
  {
    var res := ResolvePdf(w, site, href, key);
    match res.outcome
    case MissingHref => Step(res.fetches, true)
    case NoPdf => Step(res.fetches, false)
    case PdfAt(pdfUrl) => Step(res.fetches + Publish(w, cfg, site, title, key, pdfUrl), false)
  }

  /** One iteration of the loop in `check_cbr` / `check_minec`. */
  function Visit(w: World, cfg: Config, site: Site, a: Anchor, seen: set<string>): (st: Step)
    ensures st.crashed ==> site.source == Cbr && OnlyFetches(st.events)
  {
    if !IsCandidate(a) || !IsTarget(w.fold, a.title, site.targets) then Step([], false)
    else
      var key := KeyOf(w, site, a);
      if key in seen then Step([], false)
      else Follow(w, cfg, site, a.title, a.href.value, key)
  }

  /** Each iteration keeps the promises of the pass on its own. */
  lemma VisitDisciplined(w: World, cfg: Config, site: Site, a: Anchor, seen: set<string>)
    ensures Disciplined(Visit(w, cfg, site, a, seen).events, seen)
  {
    var st := Visit(w, cfg, site, a, seen);
    if IsCandidate(a) && IsTarget(w.fold, a.title, site.targets) && KeyOf(w, site, a) !in seen {
      var key := KeyOf(w, site, a);
      var res := ResolvePdf(w, site, a.href.value, key);
      FetchesDisciplined(res.fetches, seen);
      if res.outcome.PdfAt? {
        var pub := Publish(w, cfg, site, a.title, key, res.outcome.url);
        PublishKeys(w, cfg, site, a.title, key, res.outcome.url);
        if Readable(w, res.outcome.url) {
          assert Disciplined(pub, seen);
        } else {
          FetchesDisciplined(pub, seen);
        }
        assert seen + RecordedKeys(res.fetches) == seen;
        DisciplinedAppend(res.fetches, pub, seen);
      }
    } else {
      FetchesDisciplined(st.events, seen);
    }
  }

  /**
   * Dedup skip: an anchor that is not a candidate, not a target, or whose URL was already seen
   * causes no fetch, no send and no recording.
   */
  lemma VisitSkips(w: World, cfg: Config, site: Site, a: Anchor, seen: set<string>)
    requires !IsCandidate(a) || !IsTarget(w.fold, a.title, site.targets) || KeyOf(w, site, a) in seen
    ensures Visit(w, cfg, site, a, seen) == Step([], false)
  {
  }

  /**
   * Record only after delivery: an iteration records a URL exactly when the anchor is a target
   * with a readable PDF that was not seen before, and then it records the anchor's own URL.
   */
  lemma VisitRecordsIffDelivers(w: World, cfg: Config, site: Site, a: Anchor, seen: set<string>)
    ensures RecordedKeys(Visit(w, cfg, site, a, seen).events) != {} <==> Delivers(w, site, a) && KeyOf(w, site, a) !in seen
    ensures RecordedKeys(Visit(w, cfg, site, a, seen).events) != {} ==> RecordedKeys(Visit(w, cfg, site, a, seen).events) == {KeyOf(w, site, a)}
  {
    var st := Visit(w, cfg, site, a, seen);
    if IsCandidate(a) && IsTarget(w.fold, a.title, site.targets) && KeyOf(w, site, a) !in seen {
      var key := KeyOf(w, site, a);
      var res := ResolvePdf(w, site, a.href.value, key);
      FetchesDisciplined(res.fetches, seen);
      if res.outcome.PdfAt? {
        var pub := Publish(w, cfg, site, a.title, key, res.outcome.url);
        PublishKeys(w, cfg, site, a.title, key, res.outcome.url);
        KeysAppend(res.fetches, pub);
        if !Readable(w, res.outcome.url) {
          FetchesDisciplined(pub, seen);
        }
      }
    } else {
      FetchesDisciplined(st.events, seen);
    }
  }

  /** The result of a pass: its effects, the seen-set after it, and whether it ran to the end. */
  datatype PassResult = PassResult(events: seq<Event>, seen: set<string>, completed: bool)

  /** The loop over the anchors of a listing page; an iteration that raises ends it. */
  function Pass(w: World, cfg: Config, site: Site, links: seq<Anchor>, seen: set<string>): PassResult
    decreases |links|
  {
    if links == [] then PassResult([], seen, true)
    else
      var st := Visit(w, cfg, site, links[0], seen);
      if st.crashed then PassResult(st.events, seen, false)
      else
        var rest := Pass(w, cfg, site, links[1..], seen + RecordedKeys(st.events));
        PassResult(st.events + rest.events, rest.seen, rest.completed)
  }

  /** The pass from anchor `i` on: the iteration at `i`, then, unless it raised, the pass from `i + 1`. */
  lemma PassFrom(w: World, cfg: Config, site: Site, links: seq<Anchor>, i: nat, seen: set<string>)
    requires i < |links|
    ensures var st := Visit(w, cfg, site, links[i], seen);
      Pass(w, cfg, site, links[i..], seen) ==
        if st.crashed then PassResult(st.events, seen, false)
        else
          var rest := Pass(w, cfg, site, links[i + 1..], seen + RecordedKeys(st.events));
          PassResult(st.events + rest.events, rest.seen, rest.completed)
  {
    assert links[i..][0] == links[i] && links[i..][1..] == links[i + 1..];
  }

  /**
   * One turn of the loop, seen from the whole pass: if the pass from anchor `i` is `whole` minus
   * the events `done` so far, then after iteration `i` it is either over (the iteration raised, and
   * recorded nothing) or it continues from `i + 1` with the grown seen-set.
   */
  lemma PassAdvance(w: World, cfg: Config, site: Site, links: seq<Anchor>, i: nat, seen: set<string>,
                    done: seq<Event>, whole: PassResult)
    requires i < |links|
    requires whole.events == done + Pass(w, cfg, site, links[i..], seen).events
    requires whole.seen == Pass(w, cfg, site, links[i..], seen).seen
    requires whole.completed == Pass(w, cfg, site, links[i..], seen).completed
    ensures var st := Visit(w, cfg, site, links[i], seen);
      if st.crashed then
        whole == PassResult(done + st.events, seen + RecordedKeys(st.events), false)
      else
        var rest := Pass(w, cfg, site, links[i + 1..], seen + RecordedKeys(st.events));
        whole.events == (done + st.events) + rest.events && whole.seen == rest.seen && whole.completed == rest.completed
  {
    var st := Visit(w, cfg, site, links[i], seen);
    PassFrom(w, cfg, site, links, i, seen);
    if st.crashed {
      FetchesDisciplined(st.events, seen);
    } else {
      var rest := Pass(w, cfg, site, links[i + 1..], seen + RecordedKeys(st.events));
      AppendAssoc(done, st.events, rest.events);
    }
  }

  /** `check_cbr` / `check_minec`: fetch the listing page, then the pass over its anchors. */
  function RunSource(w: World, cfg: Config, site: Site, seen: set<string>): PassResult
  {
    match w.page(site.listing)
    case None => PassResult([Get(site.listing)], seen, true)
    case Some(links) =>
      var r := Pass(w, cfg, site, links, seen);
      PassResult([Get(site.listing)] + r.events, r.seen, r.completed)
  }

  /**
   * `run`: the check of `first`, then, unless it raised, the check of `second`; the agent runs it
   * with the Bank of Russia first and the Ministry second.
   */
  function Run(w: World, cfg: Config, first: Site, second: Site, seen: set<string>): PassResult
  {
    var c := RunSource(w, cfg, first, seen);
    if !c.completed then c
    else
      var m := RunSource(w, cfg, second, c.seen);
      PassResult(c.events + m.events, m.seen, m.completed)
  }

  lemma AppendAssoc(a: seq<Event>, b: seq<Event>, c: seq<Event>)
    ensures a + (b + c) == (a + b) + c
  {
  }

  lemma KeysAppend(a: seq<Event>, b: seq<Event>)
    ensures SentKeys(a + b) == SentKeys(a) + SentKeys(b)
    ensures RecordedKeys(a + b) == RecordedKeys(a) + RecordedKeys(b)
  {
    forall e | e in a + b ensures e in a || e in b { }
    forall e | e in a || e in b ensures e in a + b { }
  }

  /** Two disciplined traces, the second starting from what the first recorded, make a disciplined trace. */
  lemma DisciplinedAppend(a: seq<Event>, b: seq<Event>, seen: set<string>)
    requires Disciplined(a, seen)
    requires Disciplined(b, seen + RecordedKeys(a))
    ensures Disciplined(a + b, seen)
  {
    var ab := a + b;
    KeysAppend(a, b);
    forall i, j | 0 <= i < j < |ab| && ab[i].Sent? && ab[j].Sent?
      ensures ab[i].url != ab[j].url
    {
      if i < |a| && j >= |a| {
        assert ab[i] == a[i] && a[i] in a;
        assert ab[j] == b[j - |a|] && b[j - |a|] in b;
        assert ab[i].url in SentKeys(a);
        assert ab[j].url in SentKeys(b);
      } else if j < |a| {
        assert ab[i] == a[i] && ab[j] == a[j];
      } else {
        assert ab[i] == b[i - |a|] && ab[j] == b[j - |a|];
      }
    }
    forall j | 0 <= j < |ab| && ab[j].Sent?
      ensures j + 1 < |ab| && ab[j + 1] == Record(ab[j].url)
    {
      if j < |a| {
        assert ab[j] == a[j];
      } else {
        assert ab[j] == b[j - |a|];
      }
    }
    forall j | 0 <= j < |ab| && ab[j].Record?
      ensures RecordFollowsSend(ab, j)
    {
      if j < |a| {
        assert ab[j] == a[j] && RecordFollowsSend(a, j);
      } else {
        assert ab[j] == b[j - |a|] && RecordFollowsSend(b, j - |a|);
      }
    }
  }

  /**
   * A pass records exactly what it sends, each right after the send, never sends a URL that was
   * seen before it, never sends a URL twice, and leaves the seen-set grown by what it recorded.
   */
  lemma {:induction false} PassKeepsPromises(w: World, cfg: Config, site: Site, links: seq<Anchor>, seen: set<string>)
    ensures Disciplined(Pass(w, cfg, site, links, seen).events, seen)
    ensures Pass(w, cfg, site, links, seen).seen == seen + RecordedKeys(Pass(w, cfg, site, links, seen).events)
    decreases |links|
  {
    if links != [] {
      var st := Visit(w, cfg, site, links[0], seen);
      VisitDisciplined(w, cfg, site, links[0], seen);
      if !st.crashed {
        var seen' := seen + RecordedKeys(st.events);
        var rest := Pass(w, cfg, site, links[1..], seen');
        PassKeepsPromises(w, cfg, site, links[1..], seen');
        DisciplinedAppend(st.events, rest.events, seen);
        KeysAppend(st.events, rest.events);
      } else {
        FetchesDisciplined(st.events, seen);
      }
    }
  }

  /**
   * No silent loss: after a pass that ran to the end, every anchor of the listing that is a target
   * with a readable PDF has its URL in the seen-set, sent in this pass or seen before it.
   */
  lemma {:induction false} PassLosesNothing(w: World, cfg: Config, site: Site, links: seq<Anchor>, seen: set<string>, i: nat)
    requires i < |links| && Delivers(w, site, links[i])
    requires Pass(w, cfg, site, links, seen).completed
    ensures KeyOf(w, site, links[i]) in Pass(w, cfg, site, links, seen).seen
    decreases |links|
  {
    var st := Visit(w, cfg, site, links[0], seen);
    var seen' := seen + RecordedKeys(st.events);
    assert !st.crashed;
    PassKeepsPromises(w, cfg, site, links[1..], seen');
    if i == 0 {
      VisitRecordsIffDelivers(w, cfg, site, links[0], seen);
    } else {
      assert links[1..][i - 1] == links[i];
      PassLosesNothing(w, cfg, site, links[1..], seen', i - 1);
    }
  }

  /** The pass raises at one of the anchors `0..i`, each looked at with the seen-set it had then. */
  predicate RaisesBy(w: World, cfg: Config, site: Site, links: seq<Anchor>, seen: set<string>, i: nat)
    decreases |links|
  {
    links != []
    && var st := Visit(w, cfg, site, links[0], seen);
    (st.crashed || (i > 0 && RaisesBy(w, cfg, site, links[1..], seen + RecordedKeys(st.events), i - 1)))
  }

  /**
   * No silent loss up to a raise: every anchor that is a target with a readable PDF has its URL in
   * the final seen-set, unless the pass raised at that anchor or before it.
   */
  lemma {:induction false} PassLosesNothingBeforeRaise(w: World, cfg: Config, site: Site, links: seq<Anchor>, seen: set<string>, i: nat)
    requires i < |links| && Delivers(w, site, links[i])
    ensures KeyOf(w, site, links[i]) in Pass(w, cfg, site, links, seen).seen || RaisesBy(w, cfg, site, links, seen, i)
    decreases |links|
  {
    var st := Visit(w, cfg, site, links[0], seen);
    if !st.crashed {
      var seen' := seen + RecordedKeys(st.events);
      PassKeepsPromises(w, cfg, site, links[1..], seen');
      if i == 0 {
        VisitRecordsIffDelivers(w, cfg, site, links[0], seen);
      } else {
        assert links[1..][i - 1] == links[i];
        PassLosesNothingBeforeRaise(w, cfg, site, links[1..], seen', i - 1);
      }
    }
  }

  /** Conversely, a pass records a URL only for an anchor that is a target with a readable PDF. */
  lemma {:induction false} PassRecordsOnlyDelivered(w: World, cfg: Config, site: Site, links: seq<Anchor>, seen: set<string>, key: string)
    requires key in RecordedKeys(Pass(w, cfg, site, links, seen).events)
    ensures exists i :: 0 <= i < |links| && Delivers(w, site, links[i]) && KeyOf(w, site, links[i]) == key
    decreases |links|
  {
    var st := Visit(w, cfg, site, links[0], seen);
    VisitRecordsIffDelivers(w, cfg, site, links[0], seen);
    if key !in RecordedKeys(st.events) {
      var seen' := seen + RecordedKeys(st.events);
      var rest := Pass(w, cfg, site, links[1..], seen');
      KeysAppend(st.events, rest.events);
      PassRecordsOnlyDelivered(w, cfg, site, links[1..], seen', key);
      var i :| 0 <= i < |links[1..]| && Delivers(w, site, links[1..][i]) && KeyOf(w, site, links[1..][i]) == key;
      assert links[1..][i] == links[i + 1];
    }
  }

  /** The whole run keeps the promises of each pass, across both sources. */
  lemma RunKeepsPromises(w: World, cfg: Config, first: Site, second: Site, seen: set<string>)
    ensures Disciplined(Run(w, cfg, first, second, seen).events, seen)
    ensures Run(w, cfg, first, second, seen).seen == seen + RecordedKeys(Run(w, cfg, first, second, seen).events)
  {
    var c := RunSource(w, cfg, first, seen);
    RunSourceKeepsPromises(w, cfg, first, seen);
    if c.completed {
      var m := RunSource(w, cfg, second, c.seen);
      RunSourceKeepsPromises(w, cfg, second, c.seen);
      DisciplinedAppend(c.events, m.events, seen);
      KeysAppend(c.events, m.events);
    }
  }

  /** A check of one source keeps the promises of its pass; the listing fetch adds no send. */
  lemma RunSourceKeepsPromises(w: World, cfg: Config, site: Site, seen: set<string>)
    ensures Disciplined(RunSource(w, cfg, site, seen).events, seen)
    ensures RunSource(w, cfg, site, seen).seen == seen + RecordedKeys(RunSource(w, cfg, site, seen).events)
  {
    var listing := [Get(site.listing)];
    FetchesDisciplined(listing, seen);
    match w.page(site.listing)
    case None =>
    case Some(links) =>
      var p := Pass(w, cfg, site, links, seen);
      PassKeepsPromises(w, cfg, site, links, seen);
      DisciplinedAppend(listing, p.events, seen);
      KeysAppend(listing, p.events);
  }

  /** The Telegram posts one send produces: the pieces of its message, or none without the keys. */
  function Posts(telegram: bool, e: Event): seq<string>
  {
    if telegram && e.Sent? then Chunks(e.message) else []
  }

  /** Every Telegram post of a trace, in order. */
  function Outbox(telegram: bool, evs: seq<Event>): seq<string>
  {
    if evs == [] then [] else Posts(telegram, evs[0]) + Outbox(telegram, evs[1..])
  }

  /** The messages sent in a trace, in order. */
  function Messages(evs: seq<Event>): seq<string>
  {
    if evs == [] then [] else (if evs[0].Sent? then [evs[0].message] else []) + Messages(evs[1..])
  }

  lemma {:induction false} OutboxAppend(telegram: bool, a: seq<Event>, b: seq<Event>)
    ensures Outbox(telegram, a + b) == Outbox(telegram, a) + Outbox(telegram, b)
  {
    if a == [] {
      assert a + b == b;
    } else {
      assert (a + b)[0] == a[0] && (a + b)[1..] == a[1..] + b;
      OutboxAppend(telegram, a[1..], b);
    }
  }

  /** One send posts the pieces of its message, or nothing without the keys. */
  lemma OutboxOfSend(telegram: bool, key: string, message: string)
    ensures Outbox(telegram, [Sent(key, message)]) == if telegram then Chunks(message) else []
  {
    assert [Sent(key, message)][1..] == [];
  }

  /** With the Telegram keys set, the posts of a trace join back to its messages, in order. */
  lemma {:induction false} OutboxReassembles(evs: seq<Event>)
    ensures Concat(Outbox(true, evs)) == Concat(Messages(evs))
  {
    if evs != [] {
      var head := if evs[0].Sent? then [evs[0].message] else [];
      OutboxReassembles(evs[1..]);
      ConcatAppend(Posts(true, evs[0]), Outbox(true, evs[1..]));
      ConcatAppend(head, Messages(evs[1..]));
      if evs[0].Sent? {
        ChunksReassemble(evs[0].message);
        assert Concat(head) == evs[0].message + Concat([]);
      }
    }
  }

  /** Without the Telegram keys nothing is posted. */
  lemma {:induction false} OutboxSilentWithoutKeys(evs: seq<Event>)
    ensures Outbox(false, evs) == []
  {
    if evs != [] {
      OutboxSilentWithoutKeys(evs[1..]);
    }
  }
}
