# yelp-crawler in Dafny

A model of the crawler core of `crawler.py`: the `YelpCrawler` object and its steps.
- **Pagination.** It requests search-result pages at offsets 0, 10, 20, … It stops when the page cap `max_pages` is passed or a page carries the "page of results … unavailable" heading.
- **Records.** It turns every business card into a record: name, rating, review count, Yelp URL, reviews and website.
- **Detail pages.** For every card with a name link, it fetches the business's detail page to read the website and up to `number_of_reviews` reviews.
- **Sanitiser.** Every text goes through `sanitize_element_text`: Python's `str.strip()`, then `str.replace(symbol, "")` for each extra symbol in turn.

The project has four modules:

- `Wrappers` holds `Option`.
- `Text` holds the sanitiser. `Strip` uses the whitespace set of `str.isspace`. `RemoveAll` is the left-to-right, non-overlapping `str.replace(symbol, "")`. `RemoveSymbols` is the loop over the symbols, and `Sanitize` is the whole function. The module also proves what they keep and drop.
- `Pages` holds two things:
  - The pages, reduced to what the crawler's CSS selectors return from them: `ListingPage`, `Card`, `DetailPage`, `Paragraph` and `ReviewItem`. It also holds the output records, `Business` and `Review`. A dictionary key that may never be set is `Key.Missing`.
  - The functions that specify each step: `ObjectReviews`, `ObjectData`, `CardRecords`, `Crawl` and `Fetched` (the log of requested offsets). The properties of these functions are proved as lemmas.
- `Crawler` holds the class `YelpCrawler`. It has the source's fields and its constructor's constants (5 reviews, 5 pages). Its methods are the source's loops, each proved equal to the function that specifies it.

HTTP and HTML parsing are parameters. A `Site` value gives the parsed search page for a (search URL, offset) pair, and the parsed detail page for a URL.

Behaviour of the code a reader might not expect:

- **No empty-page exit.** The pagination loop has no exit for a page without cards. Such a page is skipped and the next one is requested (`Pages.EmptyPageDoesNotStop`).
- **The sanitiser is not idempotent.** `"( )"` sanitises to `" "`, and that sanitises to `""` (`Text.SanitizeNotIdempotent`).
- **Symbol order matters.** It matters once a symbol is longer than one character (`Text.SymbolOrderMatters`). With one-character symbols, which is the only case the crawler uses, the order does not matter (`Text.SingleCharSymbolOrder`). The result is the text with exactly those characters deleted and every other character kept in order (`Text.RemoveSymbolsIsFilter`).

## Model

| member | source | states |
|---|---|---|
| Text.TrimLeft | crawler.py:83 | stripping the left margin never lengthens the text |
| Text.TrimRight | crawler.py:83 | stripping the right margin never lengthens the text |
| Text.Strip | crawler.py:83 | `strip()` with no argument: both margins of `str.isspace` characters dropped; never lengthens the text (its full shape is `StripShape`) |
| Text.TrimLeftShape | crawler.py:83 | the left strip keeps a suffix that does not start with whitespace, and drops only whitespace |
| Text.TrimRightShape | crawler.py:83 | the right strip keeps a prefix that does not end with whitespace, and drops only whitespace |
| Text.StripShape | crawler.py:83 | `strip()` returns the slice between the whitespace margins; it neither starts nor ends with whitespace |
| Text.StripIdempotent | crawler.py:83 | stripping twice equals stripping once |
| Text.RemoveAll | crawler.py:85 | `replace(symbol, "")` never lengthens the text |
| Text.RemoveSymbols | crawler.py:84-85 | the symbol loop never lengthens the text |
| Text.Sanitize | crawler.py:77-86 | the result is `None` exactly when the element is `None`; otherwise it is a string |
| Text.SanitizeWithoutSymbols | crawler.py:77-86 | with no extra symbols the result is the stripped text, and sanitising that again changes nothing |
| Text.RemoveCharCounts | crawler.py:85 | removing a one-character symbol deletes every occurrence of that character and keeps the count of every other character |
| Text.RemoveSingleCharSymbols | crawler.py:84-85 | after the loop over one-character symbols none of them remains, and every other character keeps its count |
| Text.Filter | crawler.py:84-85 | reference definition of deleting a set of characters: the characters of the text outside the set, in order; never longer than the text |
| Text.FilterMembers | crawler.py:84-85 | a character is in the filtered text exactly when it is in the text and not in the set |
| Text.RemoveCharIsFilter | crawler.py:85 | `replace(c, "")` for a one-character `c` is the text with every `c` deleted and every other character kept, in order |
| Text.RemoveSymbolsIsFilter | crawler.py:84-85 | with one-character symbols the loop keeps exactly the characters that are not symbols, in their original order |
| Text.SingleCharSymbolOrder | crawler.py:84-85 | with one-character symbols, any two lists holding the same symbols give the same result |
| Text.ParenthesesInEitherOrder | crawler.py:101 | removing `"("` then `")"` gives the same review count as removing `")"` then `"("` |
| Text.SanitizeSingleCharSymbols | crawler.py:77-86 | for one-character symbols such as the `"("` and `")"` of the review count, the result holds none of them, is no longer than the stripped text, and is the stripped text with exactly those characters deleted, every other one kept in order |
| Text.StripSamples | crawler.py:83 | `"( )".strip()` is unchanged, and `" ".strip()` is empty |
| Text.RemoveParenSamples | crawler.py:84-85 | removing `"("` then `")"` turns `"( )"` into `" "` and leaves `""` empty |
| Text.SanitizeNotIdempotent | crawler.py:77-86 | sanitising with the parentheses is not idempotent: `"( )"` gives `" "`, which gives `""` |
| Text.SymbolOrderMatters | crawler.py:84-85 | the symbols are applied in list order: `"abc"` with `["b", "ac"]` gives `""`, with `["ac", "b"]` gives `"ac"` |
| Pages.FirstLabel | crawler.py:127-129 | the index found is a valid paragraph index |
| Pages.FirstLabelSpec | crawler.py:127-129 | a label paragraph is found exactly when some paragraph's `string` is "Business website", and the one found is the first such paragraph |
| Pages.TakeReviewsFirstItems | crawler.py:137-155 | the loop yields `min(n, #items)` reviews; review `i` is built from item `i` |
| Pages.ObjectReviewsSpec | crawler.py:132-157 | no reviews without the list block; otherwise the first `min(n, #items)` items in order, with name and location from the item and the page-wide date shared by all |
| Pages.WebsiteSpec | crawler.py:126-130 | the website does not depend on the review cap; it is `None` exactly when no paragraph is labelled; otherwise it is the stripped text of the second `p` under the first label's parent |
| Pages.Website | crawler.py:126-130 | defines the website lookup: the second `p` under the first label's parent, sanitised, or `None` without a label; its contract is stated by `WebsiteSpec` |
| Pages.PageDate | crawler.py:144-148 | defines the review date: the date span of the page-wide `[1]` match, sanitised, the same for every review; stated by `ObjectReviewsSpec` |
| Pages.MakeReview | crawler.py:142-155 | defines one review: name and location sanitised from the item, and the page date; stated by `TakeReviewsFirstItems` |
| Pages.TakeReviews | crawler.py:137-155 | defines the review loop with its early exit at `n`; stated by `TakeReviewsFirstItems` |
| Pages.ObjectReviews | crawler.py:119-157 | defines what `get_object_reviews` returns; stated by `ObjectReviewsSpec` and `WebsiteSpec`, and matched by `GetObjectReviews` |
| Pages.ObjectData | crawler.py:89-115 | defines what `get_object_data` returns; stated by `ObjectDataWithoutLink`, `ObjectDataWithLink` and `ObjectDataWellShaped`, and matched by `GetObjectData` |
| Pages.ObjectDataWithoutLink | crawler.py:93-107 | a card without a name link gives no name, no URL, no reviews and no `website` key, and no detail page is read |
| Pages.ObjectDataWithLink | crawler.py:93-108 | a card with a name link gets the URL "https://www.yelp.com" + href (the text `None` when the href is missing), and the reviews and website of the detail page at that URL |
| Pages.ObjectDataWellShaped | crawler.py:89-115 | every record has at most `n` reviews, a `website` key exactly when it has a URL, and a review count free of parentheses |
| Pages.CardRecords | crawler.py:71-73 | a page yields exactly one record per card |
| Pages.CardRecordsAt | crawler.py:71-73 | record `i` of a page is the record of its card `i` |
| Pages.IsTerminal | crawler.py:66-69 | defines the stop test: some `h3` whose `string` is exactly the sentinel text; used by `StopPage` and `SentinelStops` |
| Pages.Crawl | crawler.py:52-75 | defines what `get_objects_list` returns; stated by `CrawlIsConcatenation`, `SentinelStops` and `CrawlWellShaped`, and matched by `GetObjectsList` |
| Pages.Fetched | crawler.py:59-64 | defines the offsets `get_objects_list` requests; stated by `FetchedPages` and `EmptyPageDoesNotStop`, and matched by `GetObjectsList` |
| Pages.Records | crawler.py:71-73 | reference definition: the card records of a range of pages, page after page, against which `CrawlIsConcatenation` states the crawl |
| Pages.StopPage | crawler.py:59-69 | the page where the loop stops is the first terminal page, or the cap when none comes first |
| Pages.FetchedFrom | crawler.py:59-69 | from page `from` on, the requests are the consecutive offsets `10 * (from + i)` up to the stop page |
| Pages.FetchedPages | crawler.py:56-69 | request `i` uses offset `10 * i`; requests run up to and including the first terminal page; there are never more than `max_pages` of them |
| Pages.EmptyPageDoesNotStop | crawler.py:59-73 | a non-terminal page without cards does not end the loop: the next page is requested if the cap allows |
| Pages.SentinelStops | crawler.py:66-69 | the first terminal page is the last one requested, and it and any later pages add no records |
| Pages.CrawlIsConcatenation | crawler.py:52-75 | the result is the records of every page before the stop page, in page order and then card order |
| Pages.CrawlWellShaped | crawler.py:52-75 | every collected record is well shaped, so none has more than `number_of_reviews` reviews |
| Pages.TwoPageCrawl | crawler.py:59-73 | with a cap of two and two non-terminal pages of 10 and 6 cards, offsets 0 and 10 are requested and 16 records are collected, page by page |
| Crawler.YelpCrawler.constructor | crawler.py:31-37 | the fields start as given, with `data` empty, `search` empty, 5 reviews and 5 pages |
| Crawler.SearchUrl | crawler.py:47 | the search URL is the origin, then `/search?`, then the encoded query, which is its suffix |
| Crawler.YelpCrawler.Run | crawler.py:39-49 | `search` becomes the search URL, and `data` and the result are the crawl of that URL |
| Crawler.YelpCrawler.GetObjectsList | crawler.py:52-75 | the pagination loop returns exactly `Crawl`; its log of requested offsets is exactly `Fetched` |
| Crawler.YelpCrawler.GetPageObjects | crawler.py:71-73 | the card loop returns exactly the page's `CardRecords` |
| Crawler.YelpCrawler.SanitizeElementText | crawler.py:77-86 | the strip-then-replace loop returns exactly `Sanitize` |
| Crawler.YelpCrawler.GetObjectData | crawler.py:89-115 | the record built is exactly `ObjectData` |
| Crawler.YelpCrawler.GetObjectReviews | crawler.py:119-157 | the website and the review loop, with its early exit at `number_of_reviews`, return exactly `ObjectReviews` |

## Left out

- Network and parsing: `requests.get`, `BeautifulSoup` and the CSS selectors are not modelled as code. The `Site` parameter returns the parsed page, reduced to the selector results the crawler uses. Ads (`.ABP`) are already excluded from `ListingPage.cards`.
- `urlencode` of the category and location: `Run` takes the encoded query string as a parameter.
- The debugging write of `fix.html` for a card without a name link (crawler.py:111-113) is file I/O. It does not affect the returned record.
- `write_output` and the `__main__` block (JSON file output) are I/O.
- `max_pages = None`, which turns off the page cap, is not modelled. `maxPages` is a `nat`, and the source only ever sets 5.
- IndexError crash paths are not modelled. There are two:
  - `parent.find_all('p')[1]` when the label's parent holds fewer than two `p`;
  - `soup.select('li > div > div')[1]` when the page has fewer than two matches.

  The data model gives every labelled paragraph the second `p` found anywhere below its parent and every detail page its date span, so these lookups always succeed.
- Website: the model gives every labelled paragraph a second `p` somewhere below its parent, so a page where the source would raise IndexError there is not represented.
- GetObjectReviews: the model gives every detail page a date span, so a page where the source would raise IndexError on the page-wide date lookup is not represented.
- The `requested` log of `GetObjectsList` is ghost. Only the returned records are real output.
