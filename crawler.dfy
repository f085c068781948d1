/**
 * The crawler object: its configuration and result fields, and the loops of
 * `sanitize_element_text`, `get_object_reviews`, `get_object_data` and `get_objects_list`,
 * each proved to compute the function of the same step in `Text` and `Pages`.
 */
module Crawler {
  import opened Wrappers
  import opened Text
  import opened Pages

  /** The search URL built from the url-encoded `find_desc`/`find_loc` query. */
  function SearchUrl(query: string): (r: string)
    ensures |r| == |Origin| + 8 + |query|
    ensures r[..|Origin|] == Origin && r[|Origin| + 8..] == query
    ensures r[|Origin|..|Origin| + 8] == "/search?"
  {
    Origin + "/search?" + query
  }

  class YelpCrawler {
    var category: string
    var location: string
    var data: seq<Business>
    var search: string
    /** Reviews kept per business. */
    var numberOfReviews: nat
    /** Search pages requested at most. */
    var maxPages: nat

    constructor (category: string, location: string)
      ensures this.category == category && this.location == location
      ensures data == [] && search == ""
      ensures numberOfReviews == 5 && maxPages == 5
    {
      this.category := category;
      this.location := location;
      data := [];
      search := "";
      numberOfReviews := 5;
      maxPages := 5;
    }

    /** Builds the search URL, crawls, and keeps the records in `data`. */
    method Run(site: Site, query: string) returns (result: seq<Business>)
      modifies this`search, this`data
      ensures search == SearchUrl(query)
      ensures data == result == Crawl(site, search, numberOfReviews, 0, maxPages)
    {
      search := SearchUrl(query);
      ghost var requested;
      data, requested := GetObjectsList(site);
      result := data;
    }

    /**
     * The pagination loop: page `i` is requested at offset `10 * i` until the cap is passed or a
     * page carries the sentinel heading; each other page's cards become records in order.
     * `requested` is the log of the offsets asked for.
     */
    method GetObjectsList(site: Site) returns (objects: seq<Business>, ghost requested: seq<nat>)
      ensures objects == Crawl(site, search, numberOfReviews, 0, maxPages)
      ensures requested == Fetched(site, search, 0, maxPages)
    {
      var page: nat := 0;
      objects := [];
      requested := [];
      while true
        invariant page <= maxPages
        invariant objects + Crawl(site, search, numberOfReviews, page, maxPages)
               == Crawl(site, search, numberOfReviews, 0, maxPages)
        invariant requested + Fetched(site, search, page, maxPages) == Fetched(site, search, 0, maxPages)
        decreases maxPages - page
      {
        var offset := page * 10;
        page := page + 1;
        if page > maxPages {
          break;
        }
        ghost var log := requested;
        requested := requested + [offset];
        var response := site.listing(search, offset);
        assert response == PageAt(site, search, page - 1);
        if IsTerminal(response) {
          break;
        }
        FetchedStep(site, search, page - 1, maxPages);
        ConcatAssoc(log, [offset], Fetched(site, search, page, maxPages));
        var cards := response.cards;
        CrawlStep(site, search, numberOfReviews, page - 1, maxPages);
        ghost var before := objects;
        var added := GetPageObjects(cards, site.detail);
        objects := objects + added;
        ConcatAssoc(before, added, Crawl(site, search, numberOfReviews, page, maxPages));
      }
    }

    /** The inner loop of `get_objects_list`: one record per card of a page, in card order. */
    method GetPageObjects(cards: seq<Card>, detail: string -> DetailPage) returns (records: seq<Business>)
      ensures records == CardRecords(cards, detail, numberOfReviews)
    {
      records := [];
      var j := 0;
      while j < |cards|
        invariant 0 <= j <= |cards|
        invariant records == CardRecords(cards[..j], detail, numberOfReviews)
      {
        assert cards[..j + 1][..j] == cards[..j];
        var record := GetObjectData(cards[j], detail);
        records := records + [record];
        j := j + 1;
      }
      assert cards[..j] == cards;
    }

    /** `sanitize_element_text`: strip the element's text, then delete each symbol in turn. */
    method SanitizeElementText(element: Option<Node>, additionalSymbols: seq<string>) returns (r: Option<string>)
      ensures r == Sanitize(element, additionalSymbols)
    {
      if element.None? {
        return None;
      }
      var text := Strip(element.value.text);
      var i := 0;
      while i < |additionalSymbols|
        invariant 0 <= i <= |additionalSymbols|
        invariant RemoveSymbols(text, additionalSymbols[i..])
               == RemoveSymbols(Strip(element.value.text), additionalSymbols)
      {
        assert additionalSymbols[i..][1..] == additionalSymbols[i + 1..];
        text := RemoveAll(text, additionalSymbols[i]);
        i := i + 1;
      }
      r := Some(text);
    }

    /** `get_object_data`: the summary record of a card, enriched from its detail page when it has a link. */
    method GetObjectData(card: Card, detail: string -> DetailPage) returns (b: Business)
      ensures b == ObjectData(card, detail, numberOfReviews)
    {
      var name := SanitizeElementText(card.nameLink, []);
      var rating := SanitizeElementText(card.rating, []);
      var reviewsCount := SanitizeElementText(card.reviewCount, ["(", ")"]);
      var yelpUrl := if card.nameLink.Some? then Some(YelpUrl(card.nameLink.value)) else None;
      b := Business(name, rating, reviewsCount, yelpUrl, [], Missing);
      if yelpUrl.Some? && yelpUrl.value != "" {
        var reviews, website := GetObjectReviews(yelpUrl.value, detail);
        b := b.(reviews := reviews, website := Present(website));
      }
    }

    /**
     * `get_object_reviews`: the website of the detail page at `objectUrl`, and its review items
     * in order until `numberOfReviews` reviews are collected.
     */
    method GetObjectReviews(objectUrl: string, detail: string -> DetailPage)
      returns (reviews: seq<Review>, website: Option<string>)
      ensures Details(reviews, website) == ObjectReviews(detail(objectUrl), numberOfReviews)
    {
      var page := detail(objectUrl);
      website := None;
      var first := FirstLabel(page.paragraphs);
      if first.Some? {
        var element := page.paragraphs[first.value].secondUnderParent;
        website := SanitizeElementText(Some(element), []);
      }
      reviews := [];
      if page.reviewList.None? {
        return;
      }
      var items := page.reviewList.value;
      ghost var date := PageDate(page);
      TakeReviewsFirstItems(items, numberOfReviews, date);
      var i := 0;
      while i < |items|
        invariant 0 <= i <= |items| && i <= numberOfReviews
        invariant |reviews| == i
        invariant forall k :: 0 <= k < i ==> reviews[k] == MakeReview(items[k], date)
      {
        if |reviews| >= numberOfReviews {
          break;
        }
        var name := SanitizeElementText(items[i].name, []);
        var location := SanitizeElementText(items[i].location, []);
        var reviewDate := SanitizeElementText(page.dateSpan, []);
        reviews := reviews + [Review(name, location, reviewDate)];
        i := i + 1;
      }
      assert reviews == TakeReviews(items, numberOfReviews, date);
    }
  }
}
