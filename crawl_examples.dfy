/**
 * The crawl on a small stub site: a home page with one category, whose page
 * lists two sections, the first with one article and the second with none.
 */
module CrawlExamples {
  import opened Wrappers
  import opened Text
  import opened Crawl

  const Home: string := "s/"

  /**
   * The stub site, serving `body` as the matches of the article page's body
   * selector, and nothing anywhere else.
   */
  function Site(body: seq<Tag>): Fetch
  {
    (url: string, selector: string) =>
      if url == "s/" && selector == CategorySelector then [Tag(Some("/c"), "Cat\n")]
      else if url == "s/c" && selector == SectionSelector then [Tag(Some("/a"), "A"), Tag(Some("/b"), "B")]
      else if url == "s/a" && selector == ArticleListSelector then [Tag(Some("/x"), "X")]
      else if url == "s/x" && selector == ArticleBodySelector then body
      else []
  }

  /** The article page with its body. */
  const ArticlePage: seq<Tag> := [Tag(None, "hi\n")]

  /** Links on the stub site are joined to the home page without its `/`. */
  lemma JoinHome(href: string)
    ensures ConcatenateUrl(Home, href, false) == "s" + href
  {
    assert DropLast(Home) == "s";
  }

  /** A title without a newline is kept as it is. */
  lemma PlainTitle(text: string)
    requires forall i :: 0 <= i < |text| ==> text[i] != '\n'
    ensures LinkTitle(text) == text
  {
    DeleteWhereAbsent(text, IsNewline);
  }

  /** `get_urls_text` on a linked first tag: its URL and title, then the rest. */
  lemma UrlsTextCons(t: Tag, rest: seq<Tag>)
    requires t.href.Some?
    ensures UrlsText(Home, [t] + rest, false)
         == ([ConcatenateUrl(Home, t.href.value, false)] + UrlsText(Home, rest, false).0,
             [LinkTitle(t.text)] + UrlsText(Home, rest, false).1)
  {
    assert ([t] + rest)[1..] == rest;
  }

  /** A linked tag with a one-line title contributes `"s" + href` and the title unchanged. */
  lemma LinkedTag(href: string, title: string, rest: seq<Tag>)
    requires forall i :: 0 <= i < |title| ==> title[i] != '\n'
    ensures UrlsText(Home, [Tag(Some(href), title)] + rest, false)
         == (["s" + href] + UrlsText(Home, rest, false).0, [title] + UrlsText(Home, rest, false).1)
  {
    UrlsTextCons(Tag(Some(href), title), rest);
    JoinHome(href);
    PlainTitle(title);
  }

  /** A level over a single parent is that parent's group. */
  lemma SingleParent(parent: string, selector: string, fetch: Fetch)
    ensures Flatten(LevelUrls(Home, [parent], selector, fetch)) == UrlsText(Home, fetch(parent, selector), false).0
    ensures Flatten(LevelTitles(Home, [parent], selector, fetch)) == UrlsText(Home, fetch(parent, selector), false).1
  {
    var urls, titles := LevelUrls(Home, [parent], selector, fetch), LevelTitles(Home, [parent], selector, fetch);
    assert urls[1..] == [] && titles[1..] == [];
  }

  /** A level over two parents is their groups, one after the other. */
  lemma TwoParents(p: string, q: string, selector: string, fetch: Fetch)
    ensures Flatten(LevelUrls(Home, [p, q], selector, fetch))
         == UrlsText(Home, fetch(p, selector), false).0 + UrlsText(Home, fetch(q, selector), false).0
    ensures Flatten(LevelTitles(Home, [p, q], selector, fetch))
         == UrlsText(Home, fetch(p, selector), false).1 + UrlsText(Home, fetch(q, selector), false).1
  {
    var urls, titles := LevelUrls(Home, [p, q], selector, fetch), LevelTitles(Home, [p, q], selector, fetch);
    assert urls == [urls[0]] + [urls[1]] && titles == [titles[0]] + [titles[1]];
    FlattenAppend([urls[0]], [urls[1]]);
    FlattenAppend([titles[0]], [titles[1]]);
    assert [urls[0]][1..] == [] && [urls[1]][1..] == [];
    assert [titles[0]][1..] == [] && [titles[1]][1..] == [];
  }

  /** The category link's trailing newline is dropped from its title. */
  lemma CategoryTitle()
    ensures LinkTitle("Cat\n") == "Cat"
  {
    var t := "Cat\n";
    assert DeleteWhere(t[3..], IsNewline) == "";
    assert DeleteWhere(t[2..], IsNewline) == "t";
    assert DeleteWhere(t[1..], IsNewline) == "at";
  }

  /** The article body's newline becomes a space. */
  lemma ArticleBody()
    ensures BodyText("hi\n") == "hi "
  {
    assert ReplaceChar("hi\n", '\n', ' ') == "hi ";
    DeleteWhereAbsent("hi ", IsNoBreakSpace);
  }

  lemma StubCategories(body: seq<Tag>)
    ensures CategoryLinks(Home, Site(body)) == (["s/c"], ["Cat"])
  {
    var c := Tag(Some("/c"), "Cat\n");
    assert Site(body)(Home, CategorySelector) == [c] + [];
    UrlsTextCons(c, []);
    JoinHome("/c");
    assert "s" + "/c" == "s/c";
    CategoryTitle();
    assert UrlsText(Home, [], false) == ([], []);
    var r := UrlsText(Home, [c] + [], false);
    assert r.0 == ["s/c"] && r.1 == ["Cat"];
    assert CategoryLinks(Home, Site(body)) == r;
  }

  lemma StubSections(body: seq<Tag>)
    ensures SectionUrls(Home, Site(body)) == ["s/a", "s/b"]
    ensures SectionTitles(Home, Site(body)) == ["A", "B"]
  {
    StubCategories(body);
    var tags := [Tag(Some("/a"), "A")] + ([Tag(Some("/b"), "B")] + []);
    assert Site(body)("s/c", SectionSelector) == tags;
    assert UrlsText(Home, [], false) == ([], []);
    LinkedTag("/b", "B", []);
    LinkedTag("/a", "A", [Tag(Some("/b"), "B")] + []);
    assert "s" + "/a" == "s/a" && "s" + "/b" == "s/b";
    var r := UrlsText(Home, tags, false);
    assert r.0 == ["s/a", "s/b"] && r.1 == ["A", "B"];
    SingleParent("s/c", SectionSelector, Site(body));
  }

  lemma StubArticles(body: seq<Tag>)
    ensures ArticleLinks(Home, Site(body)) == ["s/x"]
    ensures ArticleTitles(Home, Site(body)) == ["X"]
  {
    StubSections(body);
    var tags := [Tag(Some("/x"), "X")] + [];
    assert Site(body)("s/a", ArticleListSelector) == tags;
    assert Site(body)("s/b", ArticleListSelector) == [];
    assert UrlsText(Home, [], false) == ([], []);
    LinkedTag("/x", "X", []);
    assert "s" + "/x" == "s/x";
    var r := UrlsText(Home, tags, false);
    assert r.0 == ["s/x"] && r.1 == ["X"];
    TwoParents("s/a", "s/b", ArticleListSelector, Site(body));
    assert ["s/x"] + [] == ["s/x"] && ["X"] + [] == ["X"];
  }

  /**
   * The whole crawl of the stub site: one category title, both sections (the
   * empty one included), the one article, and its body with the newline
   * turned into a space.
   */
  lemma StubSiteCrawl()
    ensures CrawlResult(Home, Site(ArticlePage))
         == Ok(Corpus(["Cat"], ["s/a", "s/b"], ["A", "B"], ["s/x"], ["X"], ["hi "]))
  {
    var fetch := Site(ArticlePage);
    StubCategories(ArticlePage);
    StubSections(ArticlePage);
    StubArticles(ArticlePage);
    var links, titles := ["s/x"], ["X"];
    assert fetch("s/x", ArticleBodySelector) == ArticlePage;
    ArticleBody();
    assert FirstIndex(links, links[0]) == 0;
    assert BodyEntry(links, titles, fetch, 0) == ("X", "hi ");
    BodiesComplete(links, titles, fetch, [("X", "hi ")]);
    assert BodiesOnly([("X", "hi ")]) == ["hi "];
  }

  /** With no body on the article page, the crawl fails naming that article. */
  lemma BrokenSiteCrawl()
    ensures CrawlResult(Home, Site([])) == Err("s/x")
  {
    StubArticles([]);
    BodiesFailAt(["s/x"], ["X"], Site([]), 0);
  }
}
