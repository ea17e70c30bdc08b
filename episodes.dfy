/**
 * The episode feed of the homepage (src/App.tsx:36-54, 137-148, 260-303,
 * 366-423): the `Episode` record, the one `episodes` state cell that the
 * load completion overwrites, and the pure projections the render pass
 * derives from it — the featured "latest" panel and the card grid.
 */
module Episodes {
  import opened Wrappers
  import Links

  /** One podcast installment as it comes from `/episodes.json`; `date` is `YYYY-MM-DD`. */
  datatype Episode = Episode(
    id: string,
    guest: string,
    title: string,
    blurb: string,
    youtube: string,
    spotify: string,
    date: string,
    cover: Option<string>)

  // ---------------------------------------------------------------- covers

  /** JavaScript truthiness of the optional `cover`: an absent cover and the empty string are both falsy. */
  predicate CoverTruthy(cover: Option<string>) {
    cover.Some? && cover.value != ""
  }

  /** An `<img>` element: its `src` and `alt` attributes. */
  datatype Image = Image(src: string, alt: string)

  /** `ep.cover && <img src={ep.cover} alt={`Portada ${ep.title}`} />`. */
  function CoverImage(ep: Episode): (img: Option<Image>)
    ensures img.Some? <==> CoverTruthy(ep.cover)
    ensures img.Some? ==> img.value.src == ep.cover.value
    ensures img.Some? ==> img.value.alt == "Portada " + ep.title
  {
    match ep.cover
    case Some(src) => if src != "" then Some(Image(src, "Portada " + ep.title)) else None
    case None => None
  }

  // ---------------------------------------------------------------- dates

  /** What `formatDateEsCO` appends so that the date is read as midnight UTC. */
  const UtcMidnightSuffix := "T00:00:00Z"

  /** Recovers the calendar date from a UTC-midnight stamp; None for any other string. */
  function DateOfStamp(stamp: string): (date: Option<string>)
    ensures date.Some? ==> |stamp| >= |UtcMidnightSuffix| && stamp == date.value + UtcMidnightSuffix
  {
    var n := |UtcMidnightSuffix|;
    if |stamp| >= n && stamp[|stamp| - n..] == UtcMidnightSuffix then
      assert stamp == stamp[..|stamp| - n] + stamp[|stamp| - n..];
      Some(stamp[..|stamp| - n])
    else None
  }

  /**
   * `${dateISO}T00:00:00Z`, the string handed to `new Date`: the date
   * followed by midnight UTC, from which the date reads back unchanged.
   */
  function UtcMidnight(dateISO: string): (stamp: string)
    ensures |stamp| == |dateISO| + |UtcMidnightSuffix|
    ensures stamp[..|dateISO|] == dateISO && stamp[|dateISO|..] == UtcMidnightSuffix
    ensures DateOfStamp(stamp) == Some(dateISO)
  {
    var stamp := dateISO + UtcMidnightSuffix;
    assert stamp[|stamp| - |UtcMidnightSuffix|..] == UtcMidnightSuffix;
    assert stamp[..|stamp| - |UtcMidnightSuffix|] == dateISO;
    stamp
  }

  /** Distinct dates are never handed to the formatter as the same instant. */
  lemma UtcMidnightInjective(d1: string, d2: string)
    requires UtcMidnight(d1) == UtcMidnight(d2)
    ensures d1 == d2
  {
  }

  /**
   * The options of `toLocaleDateString`: locale, year, month and day styles,
   * and the `timeZone` option, None when it is not given.
   */
  datatype DateFormat = DateFormat(locale: string, year: string, month: string, day: string, timeZone: Option<string>)

  /** `toLocaleDateString("es-CO", { year: "numeric", month: "short", day: "2-digit" })`: no `timeZone` is passed. */
  const EsCoDate := DateFormat("es-CO", "numeric", "short", "2-digit", None)

  /**
   * The JavaScript `Date` and `Intl` runtime of the browser, which is not
   * modelled: the host's default time zone, and
   * `toLocaleDate(stamp, format, zone)` for
   * `new Date(stamp).toLocaleDateString(format.locale, …)` shown in `zone`.
   */
  datatype DateHost = DateHost(timeZone: string, toLocaleDate: (string, DateFormat, string) -> string)

  /** The zone a date is shown in: the `timeZone` option when given, otherwise the host's default. */
  function ZoneFor(format: DateFormat, host: DateHost): (zone: string)
    ensures format.timeZone.None? ==> zone == host.timeZone
  {
    if format.timeZone.Some? then format.timeZone.value else host.timeZone
  }

  /**
   * `formatDateEsCO(dateISO)`: the runtime formats the UTC-midnight stamp
   * of `dateISO` in the es-CO style and in the HOST's time zone.
   */
  function FormatDateEsCO(dateISO: string, host: DateHost): (text: string)
    ensures text == host.toLocaleDate(UtcMidnight(dateISO), EsCoDate, host.timeZone)
  {
    host.toLocaleDate(UtcMidnight(dateISO), EsCoDate, ZoneFor(EsCoDate, host))
  }

  // ---------------------------------------------------------------- projection

  /** The "latest" episode: the first of the collection, or None (`null`) when it is empty. */
  function Latest(episodes: seq<Episode>): (latest: Option<Episode>)
    ensures latest.None? <==> |episodes| == 0
    ensures latest.Some? ==> latest.value == episodes[0]
  {
    if |episodes| > 0 then Some(episodes[0]) else None
  }

  /** The byline under a title, `Con {guest}`. */
  function Byline(ep: Episode): string {
    "Con " + ep.guest
  }

  /** One `<article>` of the grid: its React key, cover, date line, title, byline, blurb and its two links. */
  datatype Card = Card(
    key: string,
    image: Option<Image>,
    dateText: string,
    title: string,
    byline: string,
    blurb: string,
    watch: map<string, string>,
    listen: map<string, string>)

  /** The card that `episodes.map` renders for one episode. */
  function CardOf(ep: Episode, host: DateHost): (card: Card)
    ensures card.key == ep.id && card.title == ep.title && card.byline == "Con " + ep.guest
    ensures card.dateText == FormatDateEsCO(ep.date, host)
    ensures card.image == CoverImage(ep) && card.blurb == ep.blurb
    ensures card.watch == Links.SmartAnchor(ep.youtube, None) && card.listen == Links.SmartAnchor(ep.spotify, None)
    ensures "href" in card.watch && card.watch["href"] == ep.youtube
    ensures "href" in card.listen && card.listen["href"] == ep.spotify
    ensures ("target" in card.watch <==> Links.IsExternalHref(ep.youtube))
    ensures ("target" in card.listen <==> Links.IsExternalHref(ep.spotify))
  {
    Card(ep.id, CoverImage(ep), FormatDateEsCO(ep.date, host), ep.title, Byline(ep), ep.blurb,
         Links.SmartAnchor(ep.youtube, None), Links.SmartAnchor(ep.spotify, None))
  }

  /** The card grid: one card per episode, in collection order. */
  function Cards(episodes: seq<Episode>, host: DateHost): (cards: seq<Card>)
    ensures |cards| == |episodes|
    ensures forall i :: 0 <= i < |episodes| ==> cards[i] == CardOf(episodes[i], host)
  {
    seq(|episodes|, i requires 0 <= i < |episodes| => CardOf(episodes[i], host))
  }

  /** The featured panel `#ultimo-episodio`: title, byline, cover, blurb and its two links. */
  datatype Featured = Featured(
    anchorId: string,
    title: string,
    byline: string,
    image: Option<Image>,
    blurb: string,
    watch: map<string, string>,
    listen: map<string, string>)

  /** The id the hero's "Ver último episodio" link jumps to. */
  const FeaturedAnchorId := "ultimo-episodio"

  /** The panel rendered for the latest episode. */
  function FeaturedOf(ep: Episode): (panel: Featured)
    ensures panel.anchorId == FeaturedAnchorId
    ensures panel.title == ep.title && panel.byline == "Con " + ep.guest && panel.blurb == ep.blurb
    ensures panel.image == CoverImage(ep)
    ensures panel.watch == Links.SmartAnchor(ep.youtube, None) && panel.listen == Links.SmartAnchor(ep.spotify, None)
  {
    Featured(FeaturedAnchorId, ep.title, Byline(ep), CoverImage(ep), ep.blurb,
             Links.SmartAnchor(ep.youtube, None), Links.SmartAnchor(ep.spotify, None))
  }

  /** What the episode parts of the page show: the featured panel, if any, and the card grid. */
  datatype Page = Page(featured: Option<Featured>, cards: seq<Card>)

  /** `{latest && …}` and `{episodes.map(…)}` of one render pass. */
  function Render(episodes: seq<Episode>, host: DateHost): (page: Page)
    ensures page.featured.Some? <==> |episodes| > 0
    ensures |episodes| > 0 ==> page.featured.value == FeaturedOf(episodes[0])
    ensures |page.cards| == |episodes|
    ensures forall i :: 0 <= i < |episodes| ==> page.cards[i] == CardOf(episodes[i], host)
  {
    Page(
      match Latest(episodes) case Some(ep) => Some(FeaturedOf(ep)) case None => None,
      Cards(episodes, host))
  }

  /**
   * Every episode gets a card, in the same order, showing its own key,
   * formatted date, title and guest; a card has an image exactly when its
   * episode's cover is truthy.
   */
  lemma RenderCardsShowEpisodes(episodes: seq<Episode>, host: DateHost)
    ensures var cards := Render(episodes, host).cards;
      |cards| == |episodes|
      && forall i :: 0 <= i < |episodes| ==>
           && cards[i].key == episodes[i].id
           && cards[i].dateText == host.toLocaleDate(episodes[i].date + UtcMidnightSuffix, EsCoDate, host.timeZone)
           && cards[i].title == episodes[i].title
           && cards[i].byline == "Con " + episodes[i].guest
           && (cards[i].image.Some? <==> CoverTruthy(episodes[i].cover))
  {
  }

  /** The latest episode is shown twice: in the featured panel and as the first card, with the same content. */
  lemma FeaturedIsFirstCard(episodes: seq<Episode>, host: DateHost)
    requires |episodes| > 0
    ensures var page := Render(episodes, host);
      page.featured.Some? && |page.cards| > 0
      && page.cards[0].title == page.featured.value.title
      && page.cards[0].byline == page.featured.value.byline
      && page.cards[0].image == page.featured.value.image
      && page.cards[0].blurb == page.featured.value.blurb
      && page.cards[0].watch == page.featured.value.watch
      && page.cards[0].listen == page.featured.value.listen
  {
  }

  /** The identifiers are unique within the collection (the page never checks this). */
  predicate UniqueIds(episodes: seq<Episode>) {
    forall i, j :: 0 <= i < j < |episodes| ==> episodes[i].id != episodes[j].id
  }

  /** React's list keys are distinct exactly when the identifiers are. */
  lemma CardKeysUniqueIff(episodes: seq<Episode>, host: DateHost)
    ensures var cards := Cards(episodes, host);
      UniqueIds(episodes) <==> forall i, j :: 0 <= i < j < |cards| ==> cards[i].key != cards[j].key
  {
  }

  // ---------------------------------------------------------------- state

  /** How the `fetch(…).then(res => res.json())` chain settled: a parsed array, or any rejection. */
  datatype LoadOutcome = Loaded(data: seq<Episode>) | Failed

  /** The collection after the chain settles: `setEpisodes(data)` on success, unchanged after `.catch`. */
  function AfterLoad(episodes: seq<Episode>, outcome: LoadOutcome): (after: seq<Episode>)
    ensures outcome.Loaded? ==> after == outcome.data
    ensures outcome.Failed? ==> after == episodes
  {
    match outcome
    case Loaded(data) => data
    case Failed => episodes
  }

  /** A successful load replaces the collection wholesale: what was there before plays no part. */
  lemma LoadReplacesWholesale(before1: seq<Episode>, before2: seq<Episode>, data: seq<Episode>)
    ensures AfterLoad(before1, Loaded(data)) == AfterLoad(before2, Loaded(data)) == data
  {
  }

  /** A failure, however often it happens, leaves the collection as it was. */
  lemma FailureLeavesEpisodes(episodes: seq<Episode>, outcome: LoadOutcome)
    ensures AfterLoad(episodes, Failed) == episodes
    ensures AfterLoad(AfterLoad(episodes, outcome), Failed) == AfterLoad(episodes, outcome)
  {
  }

  /** A successful but empty response and a failure look the same: no panel, no cards. */
  lemma EmptyAndFailedLookAlike(host: DateHost)
    ensures Render(AfterLoad([], Loaded([])), host) == Render(AfterLoad([], Failed), host)
    ensures Render(AfterLoad([], Failed), host) == Page(None, [])
  {
  }

  /** The `episodes` state cell of `App` (`useState<Episode[]>([])`). */
  class EpisodeFeed {
    var episodes: seq<Episode>

    /** The cell starts empty. */
    constructor ()
      ensures episodes == []
    {
      episodes := [];
    }

    /** `setEpisodes(data)`: the loaded array becomes the collection, with no merge. */
    method SetEpisodes(data: seq<Episode>)
      modifies this
      ensures episodes == data
    {
      episodes := data;
    }

    /** The completion of the load chain: success stores the data, failure changes nothing. */
    method Settle(outcome: LoadOutcome)
      modifies this
      ensures episodes == AfterLoad(old(episodes), outcome)
      ensures outcome.Failed? ==> episodes == old(episodes)
    {
      match outcome {
        case Loaded(data) => SetEpisodes(data);
        case Failed =>
      }
    }

    /** `latest`, derived from the current collection. */
    function LatestEpisode(): (latest: Option<Episode>)
      reads this
      ensures latest.None? <==> |episodes| == 0
      ensures latest.Some? ==> latest.value == episodes[0]
    {
      Latest(episodes)
    }

    /** The episode parts of the page for the current collection. */
    function View(host: DateHost): (page: Page)
      reads this
      ensures page.featured.Some? <==> |episodes| > 0
      ensures |episodes| > 0 ==> page.featured.value == FeaturedOf(episodes[0])
      ensures |page.cards| == |episodes|
      ensures forall i :: 0 <= i < |episodes| ==> page.cards[i] == CardOf(episodes[i], host)
    {
      Render(episodes, host)
    }
  }

  /**
   * One mount of `App`: the cell starts empty, the effect's load settles
   * once, and the page is rendered from the resulting collection.
   */
  method Mount(outcome: LoadOutcome, host: DateHost)
    returns (initial: Page, settled: Page)
    ensures initial == Page(None, [])
    ensures settled == Render(AfterLoad([], outcome), host)
    ensures outcome.Loaded? ==> |settled.cards| == |outcome.data|
    ensures outcome.Failed? ==> settled == Page(None, [])
  {
    var feed := new EpisodeFeed();
    initial := feed.View(host);
    feed.Settle(outcome);
    settled := feed.View(host);
  }
}
