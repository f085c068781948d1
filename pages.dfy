/**
 * The pages the crawler reads, reduced to the selector results it uses, and the records it
 * builds from them, with the functions that say what each step of the crawl produces.
 */
module Pages {
  import opened Wrappers
  import opened Text

  /** The site origin prefixed to every business link. */
  const Origin := "https://www.yelp.com"
  /** The `h3` text with which the search service marks a page past the last one. */
  const Sentinel := "We're sorry, the page of results you requested is unavailable."
  /** The paragraph text that labels a business's website on its detail page. */
  const WebsiteLabel := "Business website"

  /** One business card of a search page: its name link, its rating and its review count. */
  datatype Card = Card(nameLink: Option<Node>, rating: Option<Node>, reviewCount: Option<Node>)

  /**
   * A search page: the `string` of each of its `h3` headings (absent for a heading with mixed
   * content) and its business cards in document order (ads already excluded).
   */
  datatype ListingPage = ListingPage(headings: seq<Option<string>>, cards: seq<Card>)

  /**
   * A `p` of a detail page: its `string` (absent for mixed content) and the second `p` below its
   * parent, the one `parent.find_all('p')[1]` returns.
   */
  datatype Paragraph = Paragraph(str: Option<string>, secondUnderParent: Node)

  /** One `li` of the reviews list: the reviewer's name link and location span. */
  datatype ReviewItem = ReviewItem(name: Option<Node>, location: Option<Node>)

  /**
   * A business's detail page: its paragraphs in document order, the items of its reviews list
   * (absent when the page has no such list), and the date span found inside the second
   * page-wide match of the date selector `li > div > div`.
   */
  datatype DetailPage = DetailPage(
    paragraphs: seq<Paragraph>,
    reviewList: Option<seq<ReviewItem>>,
    dateSpan: Option<Node>)

  /** The fetch-and-parse collaborators: a search page per (search URL, offset), a detail page per URL. */
  datatype Site = Site(listing: (string, nat) -> ListingPage, detail: string -> DetailPage)

  datatype Review = Review(reviewerName: Option<string>, reviewerLocation: Option<string>, reviewDate: Option<string>)

  /** A dictionary entry that may never have been set. */
  datatype Key<T> = Missing | Present(value: T)

  /** One output record; `website` stays `Missing` when the detail page was never fetched. */
  datatype Business = Business(
    name: Option<string>,
    rating: Option<string>,
    reviewsCount: Option<string>,
    yelpUrl: Option<string>,
    reviews: seq<Review>,
    website: Key<Option<string>>)

  /** What `get_object_reviews` returns. */
  datatype Details = Details(reviews: seq<Review>, website: Option<string>)

  function Min(a: int, b: int): int { if a <= b then a else b }

  /** Proof helper: associativity of concatenation, proved apart so that loop proofs stay small. */
  lemma ConcatAssoc<T>(a: seq<T>, b: seq<T>, c: seq<T>)
    ensures (a + b) + c == a + (b + c)
  {
  }

  // ---------------------------------------------------------------- detail page

  /** The first paragraph whose `string` is exactly the website label, if any. */
  function FirstLabel(ps: seq<Paragraph>): (r: Option<nat>)
    ensures r.Some? ==> r.value < |ps|
  {
    if ps == [] then None
    else if ps[0].str == Some(WebsiteLabel) then Some(0)
    else match FirstLabel(ps[1..])
      case None => None
      case Some(i) => Some(i + 1)
  }

  /**
   * `find_all("p", string=...)[0]`: there is a first labelled paragraph exactly when some
   * paragraph's `string` equals the label, and no paragraph before it is labelled.
   */
  lemma {:induction false} FirstLabelSpec(ps: seq<Paragraph>)
    ensures var r := FirstLabel(ps);
      (r.None? <==> forall i :: 0 <= i < |ps| ==> ps[i].str != Some(WebsiteLabel))
      && (r.Some? ==>
            ps[r.value].str == Some(WebsiteLabel)
            && (forall i :: 0 <= i < r.value ==> ps[i].str != Some(WebsiteLabel)))
  {
    if ps != [] && ps[0].str != Some(WebsiteLabel) {
      FirstLabelSpec(ps[1..]);
      assert forall i :: 1 <= i < |ps| ==> ps[i] == ps[1..][i - 1];
    }
  }

  /** The website: the second paragraph under the parent of the first label, stripped. */
  function Website(page: DetailPage): Option<string> {
    match FirstLabel(page.paragraphs)
    case None => None
    case Some(i) => Sanitize(Some(page.paragraphs[i].secondUnderParent), [])
  }

  /** The date given to every review of the page: read page-wide, not from the review item. */
  function PageDate(page: DetailPage): Option<string> {
    Sanitize(page.dateSpan, [])
  }

  function MakeReview(item: ReviewItem, date: Option<string>): Review {
    Review(Sanitize(item.name, []), Sanitize(item.location, []), date)
  }

  /** Reviews built from the items in order until `n` of them are collected. */
  function TakeReviews(items: seq<ReviewItem>, n: nat, date: Option<string>): seq<Review>
    decreases |items|
  {
    if n == 0 || items == [] then []
    else [MakeReview(items[0], date)] + TakeReviews(items[1..], n - 1, date)
  }

  /** What `get_object_reviews` returns for a detail page and a cap of `n` reviews. */
  function ObjectReviews(page: DetailPage, n: nat): Details {
    match page.reviewList
    case None => Details([], Website(page))
    case Some(items) => Details(TakeReviews(items, n, PageDate(page)), Website(page))
  }

  /** `TakeReviews` yields the first `min(n, |items|)` items, one review each, in document order. */
  lemma {:induction false} TakeReviewsFirstItems(items: seq<ReviewItem>, n: nat, date: Option<string>)
    ensures |TakeReviews(items, n, date)| == Min(n, |items|)
    ensures forall i :: 0 <= i < |TakeReviews(items, n, date)| ==>
      TakeReviews(items, n, date)[i] == MakeReview(items[i], date)
    decreases |items|
  {
    if n > 0 && items != [] {
      TakeReviewsFirstItems(items[1..], n - 1, date);
    }
  }

  /**
   * The reviews of a detail page: none when the list block is absent; otherwise the first
   * `min(n, #items)` items in document order, with the name and location read from the item
   * and one date, read page-wide, shared by all of them.
   */
  lemma ObjectReviewsSpec(page: DetailPage, n: nat)
    ensures var d := ObjectReviews(page, n);
      |d.reviews| <= n
      && (page.reviewList.None? ==> d.reviews == [])
      && (page.reviewList.Some? ==> |d.reviews| == Min(n, |page.reviewList.value|))
      && (forall i :: 0 <= i < |d.reviews| ==>
            d.reviews[i].reviewerName == Sanitize(page.reviewList.value[i].name, [])
            && d.reviews[i].reviewerLocation == Sanitize(page.reviewList.value[i].location, [])
            && d.reviews[i].reviewDate == Sanitize(page.dateSpan, []))
  {
    if page.reviewList.Some? {
      TakeReviewsFirstItems(page.reviewList.value, n, PageDate(page));
    }
  }

  /**
   * The website does not depend on the review cap. It is absent exactly when no paragraph's text
   * is exactly the label; otherwise it is the stripped text of the second paragraph under the
   * first label's parent.
   */
  lemma WebsiteSpec(page: DetailPage)
    ensures forall n: nat :: ObjectReviews(page, n).website == Website(page)
    ensures var w := Website(page);
      (w.None? <==> forall i :: 0 <= i < |page.paragraphs| ==> page.paragraphs[i].str != Some(WebsiteLabel))
      && (w.Some? ==>
            var i := FirstLabel(page.paragraphs).value;
            page.paragraphs[i].str == Some(WebsiteLabel)
            && w.value == Strip(page.paragraphs[i].secondUnderParent.text))
  {
    FirstLabelSpec(page.paragraphs);
  }

  // ---------------------------------------------------------------- card

  /** The f-string renders a missing `href` as the text `None`. */
  function HrefText(href: Option<string>): string {
    match href
    case None => "None"
    case Some(h) => h
  }

  function YelpUrl(link: Node): string {
    Origin + HrefText(link.href)
  }

  /** What `get_object_data` returns for a card. */
  function ObjectData(card: Card, detail: string -> DetailPage, n: nat): Business {
    var url := if card.nameLink.Some? then Some(YelpUrl(card.nameLink.value)) else None;
    var summary := Business(
      Sanitize(card.nameLink, []),
      Sanitize(card.rating, []),
      Sanitize(card.reviewCount, ["(", ")"]),
      url, [], Missing);
    if url.Some? && url.value != "" then
      var d := ObjectReviews(detail(url.value), n);
      summary.(reviews := d.reviews, website := Present(d.website))
    else summary
  }

  /**
   * The shape every record has: at most `n` reviews; the website key is set exactly when the
   * record has a link; a record without one has no name and no reviews; the review count holds
   * no parenthesis.
   */
  predicate WellShaped(b: Business, n: nat) {
    |b.reviews| <= n
    && (b.yelpUrl.None? <==> b.website.Missing?)
    && (b.yelpUrl.None? ==> b.name.None? && b.reviews == [])
    && (b.reviewsCount.Some? ==> '(' !in b.reviewsCount.value && ')' !in b.reviewsCount.value)
  }

  /**
   * A card without a name link: no name, no URL, no reviews, no website key, and the detail
   * collaborator is never consulted (any other one gives the same record).
   */
  lemma ObjectDataWithoutLink(card: Card, detail: string -> DetailPage, other: string -> DetailPage, n: nat)
    requires card.nameLink.None?
    ensures var b := ObjectData(card, detail, n);
      b.name.None? && b.yelpUrl.None? && b.reviews == [] && b.website == Missing
      && b == ObjectData(card, other, n)
  {
  }

  /**
   * A card with a name link: the URL is the origin followed by the link's `href`, and the record
   * carries the reviews and website of the detail page at that URL.
   */
  lemma ObjectDataWithLink(card: Card, detail: string -> DetailPage, n: nat)
    requires card.nameLink.Some?
    ensures var b := ObjectData(card, detail, n);
      var url := Origin + HrefText(card.nameLink.value.href);
      b.yelpUrl == Some(url)
      && b.name == Some(Strip(card.nameLink.value.text))
      && b.reviews == ObjectReviews(detail(url), n).reviews
      && b.website == Present(ObjectReviews(detail(url), n).website)
  {
  }

  /** Every record built from a card is well shaped. */
  lemma ObjectDataWellShaped(card: Card, detail: string -> DetailPage, n: nat)
    ensures WellShaped(ObjectData(card, detail, n), n)
  {
    var b := ObjectData(card, detail, n);
    if card.nameLink.Some? {
      var url := YelpUrl(card.nameLink.value);
      assert |url| >= |Origin|;
      ObjectReviewsSpec(detail(url), n);
    }
    if card.reviewCount.Some? {
      SanitizeSingleCharSymbols(card.reviewCount.value, ["(", ")"]);
      assert ["(", ")"][0][0] == '(' && ["(", ")"][1][0] == ')';
    }
  }

  // ---------------------------------------------------------------- pagination

  /** A page is terminal when one of its `h3` headings is exactly the sentinel text. */
  predicate IsTerminal(page: ListingPage) {
    Some(Sentinel) in page.headings
  }

  /** The search page requested on the `i`-th trip round the loop (counting from 0), at offset `10 * i`. */
  function PageAt(site: Site, search: string, i: nat): ListingPage {
    site.listing(search, 10 * i)
  }

  /** The records of a page's cards, in card order. */
  function CardRecords(cards: seq<Card>, detail: string -> DetailPage, n: nat): (r: seq<Business>)
    ensures |r| == |cards|
  {
    if cards == [] then []
    else CardRecords(cards[..|cards| - 1], detail, n) + [ObjectData(cards[|cards| - 1], detail, n)]
  }

  /** The `i`-th record of a page is the record of its `i`-th card. */
  lemma {:induction false} CardRecordsAt(cards: seq<Card>, detail: string -> DetailPage, n: nat)
    ensures forall i :: 0 <= i < |cards| ==> CardRecords(cards, detail, n)[i] == ObjectData(cards[i], detail, n)
    decreases |cards|
  {
    if cards != [] {
      CardRecordsAt(cards[..|cards| - 1], detail, n);
    }
  }

  /**
   * The first page at or after `from` that is terminal, or `limit` when there is none before it
   * (`from` itself when `from` is already past `limit`).
   */
  function StopPage(site: Site, search: string, from: nat, limit: nat): (r: nat)
    ensures from <= r && (r <= limit || r == from)
    ensures r < limit ==> IsTerminal(PageAt(site, search, r))
    ensures forall j :: from <= j < r ==> !IsTerminal(PageAt(site, search, j))
    decreases limit - from
  {
    if from >= limit || IsTerminal(PageAt(site, search, from)) then from
    else StopPage(site, search, from + 1, limit)
  }

  /** The records `get_objects_list` collects from page `from` on, with at most `limit` pages. */
  function Crawl(site: Site, search: string, n: nat, from: nat, limit: nat): seq<Business>
    decreases limit - from
  {
    if from >= limit then []
    else
      var page := PageAt(site, search, from);
      if IsTerminal(page) then []
      else CardRecords(page.cards, site.detail, n) + Crawl(site, search, n, from + 1, limit)
  }

  /**
   * Proof helper for the pagination loop: the unfolding of `Crawl` on a page within the cap that
   * is not terminal, proved on its own so that the loop's proof does not repeat it.
   */
  lemma CrawlStep(site: Site, search: string, n: nat, from: nat, limit: nat)
    requires from < limit && !IsTerminal(PageAt(site, search, from))
    ensures Crawl(site, search, n, from, limit)
         == CardRecords(PageAt(site, search, from).cards, site.detail, n) + Crawl(site, search, n, from + 1, limit)
  {
  }

  /** The offsets `get_objects_list` requests, in order, from page `from` on. */
  function Fetched(site: Site, search: string, from: nat, limit: nat): seq<nat>
    decreases limit - from
  {
    if from >= limit then []
    else
      var rest := if IsTerminal(PageAt(site, search, from)) then [] else Fetched(site, search, from + 1, limit);
      [10 * from] + rest
  }

  /** Proof helper for the pagination loop: the unfolding of `Fetched` on a page within the cap that is not terminal. */
  lemma FetchedStep(site: Site, search: string, from: nat, limit: nat)
    requires from < limit && !IsTerminal(PageAt(site, search, from))
    ensures Fetched(site, search, from, limit) == [10 * from] + Fetched(site, search, from + 1, limit)
  {
  }

  /** The records of the cards of pages `from` to `until - 1`, page after page. */
  function Records(site: Site, search: string, n: nat, from: nat, until: nat): seq<Business>
    decreases until - from
  {
    if from >= until then []
    else CardRecords(PageAt(site, search, from).cards, site.detail, n) + Records(site, search, n, from + 1, until)
  }

  lemma {:induction false} FetchedFrom(site: Site, search: string, from: nat, limit: nat)
    requires from <= limit
    ensures var s := StopPage(site, search, from, limit);
      var f := Fetched(site, search, from, limit);
      |f| == (if s < limit then s + 1 else limit) - from
      && forall i :: 0 <= i < |f| ==> f[i] == 10 * (from + i)
    decreases limit - from
  {
    if from < limit && !IsTerminal(PageAt(site, search, from)) {
      FetchedFrom(site, search, from + 1, limit);
    }
  }

  /**
   * The search pages requested: the `i`-th request uses offset `10 * i`; requests go on up to and
   * including the first terminal page, and never beyond `limit` pages. Which cards a page holds,
   * none included, plays no part.
   */
  lemma FetchedPages(site: Site, search: string, limit: nat)
    ensures var s := StopPage(site, search, 0, limit);
      var f := Fetched(site, search, 0, limit);
      |f| <= limit
      && |f| == (if s < limit then s + 1 else limit)
      && forall i :: 0 <= i < |f| ==> f[i] == 10 * i
  {
    FetchedFrom(site, search, 0, limit);
  }

  /**
   * A page that holds no cards and is not terminal does not end the crawl: if no earlier page was
   * terminal and the cap allows another page, the next page is requested too.
   */
  lemma EmptyPageDoesNotStop(site: Site, search: string, limit: nat, i: nat)
    requires i + 1 < limit
    requires forall j :: 0 <= j <= i ==> !IsTerminal(PageAt(site, search, j))
    requires PageAt(site, search, i).cards == []
    ensures |Fetched(site, search, 0, limit)| >= i + 2
    ensures Fetched(site, search, 0, limit)[i + 1] == 10 * (i + 1)
  {
    FetchedPages(site, search, limit);
  }

  /**
   * The first terminal page is the last one requested, and neither it nor any later page adds a
   * record: the crawl is the records of the pages before it.
   */
  lemma {:induction false} SentinelStops(site: Site, search: string, n: nat, from: nat, limit: nat, t: nat)
    requires from <= t < limit && IsTerminal(PageAt(site, search, t))
    requires forall j :: from <= j < t ==> !IsTerminal(PageAt(site, search, j))
    ensures Crawl(site, search, n, from, limit) == Crawl(site, search, n, from, t)
    ensures |Fetched(site, search, from, limit)| == t + 1 - from
    decreases t - from
  {
    if from < t {
      SentinelStops(site, search, n, from + 1, limit, t);
    }
  }

  /**
   * The crawl is the concatenation of the records of every page before the stop page (the first
   * terminal page, or the cap), in page order and, within a page, in card order.
   */
  lemma {:induction false} CrawlIsConcatenation(site: Site, search: string, n: nat, from: nat, limit: nat)
    ensures var s := StopPage(site, search, from, limit);
      Crawl(site, search, n, from, limit) == Records(site, search, n, from, s)
    decreases limit - from
  {
    if from < limit && !IsTerminal(PageAt(site, search, from)) {
      CrawlIsConcatenation(site, search, n, from + 1, limit);
    }
  }

  /** Every record of a crawl is well shaped; in particular none has more than `n` reviews. */
  lemma {:induction false} CrawlWellShaped(site: Site, search: string, n: nat, from: nat, limit: nat)
    ensures forall b :: b in Crawl(site, search, n, from, limit) ==> WellShaped(b, n)
    decreases limit - from
  {
    if from < limit && !IsTerminal(PageAt(site, search, from)) {
      CrawlWellShaped(site, search, n, from + 1, limit);
      var cards := PageAt(site, search, from).cards;
      CardRecordsAt(cards, site.detail, n);
      forall i | 0 <= i < |cards|
        ensures WellShaped(CardRecords(cards, site.detail, n)[i], n)
      {
        ObjectDataWellShaped(cards[i], site.detail, n);
      }
    }
  }

  /**
   * With a cap of two pages and two non-terminal pages of 10 and 6 cards, the crawl requests
   * offsets 0 and 10 only and yields 16 records: those of the first page, then of the second.
   */
  lemma TwoPageCrawl(site: Site, search: string, n: nat)
    requires !IsTerminal(PageAt(site, search, 0)) && !IsTerminal(PageAt(site, search, 1))
    requires |PageAt(site, search, 0).cards| == 10 && |PageAt(site, search, 1).cards| == 6
    ensures Fetched(site, search, 0, 2) == [0, 10]
    ensures |Crawl(site, search, n, 0, 2)| == 16
    ensures Crawl(site, search, n, 0, 2)
      == CardRecords(PageAt(site, search, 0).cards, site.detail, n)
       + CardRecords(PageAt(site, search, 1).cards, site.detail, n)
  {
  }
}
