/**
 * The stand-alone crawl script: the same traversal as the scraper object, run
 * once at module level against the help-centre home page, ending in the
 * `data` dictionary that is then written out as JSON.
 */
module ScraperScript {
  import opened Wrappers
  import opened Crawl

  /** The home page the script crawls. */
  const BaseUrl: string := "https://stackuphelpcentre.zendesk.com/"

  /** The home page without its trailing `/`: the prefix of every joined link. */
  const SiteRoot: string := "https://stackuphelpcentre.zendesk.com"

  /**
   * The module-level crawl: category links of the home page, the section and
   * article levels, the body loop, then the dictionary. A body-less article
   * page raises before the dictionary exists, so there is no partial result.
   */
  method BuildData(fetch: Fetch) returns (r: Result<map<string, seq<string>>, string>)
    ensures CrawlResult(BaseUrl, fetch).Ok? ==> r == Ok(CorpusData(CrawlResult(BaseUrl, fetch).value))
    ensures CrawlResult(BaseUrl, fetch).Err? ==> r == Err(CrawlResult(BaseUrl, fetch).error)
  {
    var mainTags := fetch(BaseUrl, CategorySelector);
    var mainUrls, mainUrlsTitles := GetUrlsText(BaseUrl, mainTags, false);
    var crawled := CrawlBelow(BaseUrl, mainUrls, mainUrlsTitles, fetch);
    if crawled.Err? {
      return Err(crawled.error);
    }
    r := Ok(CorpusData(crawled.value));
  }

  /** Every section URL and article link the script collects lies on the help-centre site. */
  lemma LinksOnSite(fetch: Fetch)
    ensures forall u :: u in SectionUrls(BaseUrl, fetch) ==> SiteRoot <= u
    ensures forall u :: u in ArticleLinks(BaseUrl, fetch) ==> SiteRoot <= u
  {
    assert DropLast(BaseUrl) == SiteRoot;
    CrawlLinksUnderBase(BaseUrl, fetch);
  }
}
