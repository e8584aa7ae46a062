/**
 * The scraper object: a base URL and the `data` dictionary of six lists that
 * a scrape fills in place.
 */
module Scraper {
  import opened Wrappers
  import opened Crawl

  class WebScraper {
    var baseUrl: string
    var data: map<string, seq<string>>

    /** The dictionary has exactly the six keys of a corpus. */
    predicate Valid()
      reads this
    {
      data.Keys == DataKeys()
    }

    /** A fresh scraper: the six keys, each with an empty list. */
    constructor (baseUrl: string)
      ensures this.baseUrl == baseUrl
      ensures Valid()
      ensures forall k :: k in data ==> data[k] == []
    {
      this.baseUrl := baseUrl;
      data := map[MainUrlsTitlesKey := [], SectionTreeUrlKey := [], SectionTitleKey := [],
                  ArticleLinksKey := [], ArticleLinkTitleKey := [], ArticleBodyKey := []];
    }

    /**
     * `scrape`: categories, then sections per category, then articles per
     * section, then one body per article. The category titles are stored
     * first; the other five lists are stored only once every body has been
     * extracted, so an article page without a body leaves them as they were.
     */
    method Scrape(fetch: Fetch) returns (r: Result<(), string>)
      modifies this
      ensures old(Valid()) ==> Valid()
      ensures baseUrl == old(baseUrl)
      ensures CrawlResult(baseUrl, fetch).Ok? ==>
        r == Ok(()) && data == old(data) + CorpusData(CrawlResult(baseUrl, fetch).value)
      ensures CrawlResult(baseUrl, fetch).Err? ==>
        r == Err(CrawlResult(baseUrl, fetch).error)
        && data == old(data)[MainUrlsTitlesKey := CategoryLinks(baseUrl, fetch).1]
    {
      var base := baseUrl;
      var mainTags := fetch(base, CategorySelector);
      var mainUrls, mainUrlsTitles := GetUrlsText(base, mainTags, false);
      var stored := data[MainUrlsTitlesKey := mainUrlsTitles];

      var crawled := CrawlBelow(base, mainUrls, mainUrlsTitles, fetch);
      if crawled.Err? {
        data := stored;
        return Err(crawled.error);
      }
      var corpus := crawled.value;
      StoredUpdates(old(data), corpus);
      data := stored[SectionTreeUrlKey := corpus.sectionTreeUrl][SectionTitleKey := corpus.sectionTitle]
                    [ArticleLinksKey := corpus.articleLinks][ArticleLinkTitleKey := corpus.articleLinkTitle]
                    [ArticleBodyKey := corpus.articleBody];
      r := Ok(());
    }
  }

  /**
   * Either outcome of a scrape keeps a dictionary with exactly the six keys:
   * storing the category titles and merging in a corpus add no key.
   */
  lemma ScrapeKeepsKeys(d: map<string, seq<string>>, titles: seq<string>, c: Corpus)
    requires d.Keys == DataKeys()
    ensures d[MainUrlsTitlesKey := titles].Keys == DataKeys()
    ensures (d + CorpusData(c)).Keys == DataKeys()
    ensures d + CorpusData(c) == CorpusData(c)
  {
  }

  /** Writing the category titles, then the five crawled lists, gives the dictionary merged with the corpus. */
  lemma StoredUpdates(d: map<string, seq<string>>, c: Corpus)
    ensures d[MainUrlsTitlesKey := c.mainUrlsTitles]
             [SectionTreeUrlKey := c.sectionTreeUrl][SectionTitleKey := c.sectionTitle]
             [ArticleLinksKey := c.articleLinks][ArticleLinkTitleKey := c.articleLinkTitle]
             [ArticleBodyKey := c.articleBody]
         == d + CorpusData(c)
  {
  }
}
