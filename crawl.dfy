/**
 * The crawl bookkeeping of the help-centre scraper: joining hrefs to the base
 * URL, turning the link tags of one page into parallel URL and title lists,
 * one traversal level over a list of parent pages, flattening the per-parent
 * groups, and extracting article bodies. The page fetch is a parameter: a
 * total function from a URL and a CSS selector to the matching tags, with a
 * failed request yielding no tags.
 */
module Crawl {
  import opened Wrappers
  import opened Text

  /** A matched HTML element: its `href` attribute, if any, and its text. */
  datatype Tag = Tag(href: Option<string>, text: string)

  /** `make_request(url, selector)`: the tags matching `selector` on the page at `url`, `[]` on failure. */
  type Fetch = (string, string) -> seq<Tag>

  const CategorySelector: string := "a.blocks-item-link"
  const SectionSelector: string := "section.section h2 a"
  const ArticleListSelector: string := "a.article-list-link"
  const ArticleBodySelector: string := "div.article-body"

  /** Python `url[:-1]`: all but the last character, `""` for `""`. */
  function DropLast(url: string): (r: string)
    ensures url == [] ==> r == []
    ensures url != [] ==> r + [url[|url| - 1]] == url
  {
    if url == [] then [] else url[..|url| - 1]
  }

  /**
   * `concatenate_url`: with `adjust` the href is appended to the whole URL,
   * otherwise the URL's last character is dropped first.
   */
  function ConcatenateUrl(url: string, href: string, adjust: bool): string
  {
    if adjust then url + href else DropLast(url) + href
  }

  /** A joined URL ends with the href, preceded by the URL or by the URL minus its last character. */
  lemma ConcatenateUrlParts(url: string, href: string, adjust: bool)
    ensures var r := ConcatenateUrl(url, href, adjust);
      && |r| >= |href| && r[|r| - |href|..] == href
      && (adjust ==> r[..|r| - |href|] == url)
      && (!adjust && url != [] ==> |r| == |url| - 1 + |href| && r[..|r| - |href|] == url[..|url| - 1])
      && (!adjust && url == [] ==> r == href)
  {
  }

  /** The two joining rules on the examples a help-centre base URL calls for. */
  lemma ConcatenateUrlExamples()
    ensures ConcatenateUrl("https://x.com/", "/hc/a", false) == "https://x.com/hc/a"
    ensures ConcatenateUrl("https://x.com/", "hc/a", true) == "https://x.com/hc/a"
  {
    assert DropLast("https://x.com/") == "https://x.com";
  }

  predicate IsNewline(c: char) { c == '\n' }

  /** The title of a link: `tag.get_text().replace('\n', '')`. */
  function LinkTitle(text: string): (r: string)
    ensures forall i :: 0 <= i < |r| ==> r[i] != '\n'
  {
    DeleteWhere(text, IsNewline)
  }

  /** A link title keeps every other character of the link text, as often as it occurs there. */
  lemma LinkTitleCounts(text: string)
    ensures forall c :: c != '\n' ==> multiset(LinkTitle(text))[c] == multiset(text)[c]
  {
    DeleteWhereCounts(text, IsNewline);
  }

  /** How many leading tags carry an href: the join of the next one raises. */
  function LinkCount(tags: seq<Tag>): (n: nat)
    ensures n <= |tags|
    ensures forall i :: 0 <= i < n ==> tags[i].href.Some?
    ensures n < |tags| ==> tags[n].href.None?
  {
    if tags == [] || tags[0].href.None? then 0 else 1 + LinkCount(tags[1..])
  }

  /**
   * What `get_urls_text` returns: for every tag before the first one without
   * an href, its joined URL and its title, in two lists of equal length.
   */
  function UrlsText(base: string, tags: seq<Tag>, adjust: bool): (r: (seq<string>, seq<string>))
    ensures |r.0| == |r.1| == LinkCount(tags)
  {
    if tags == [] || tags[0].href.None? then ([], [])
    else
      var rest := UrlsText(base, tags[1..], adjust);
      ([ConcatenateUrl(base, tags[0].href.value, adjust)] + rest.0, [LinkTitle(tags[0].text)] + rest.1)
  }

  /** Entry `i` of both lists comes from tag `i`: its joined href and its title. */
  lemma {:induction false} UrlsTextAt(base: string, tags: seq<Tag>, adjust: bool, i: nat)
    requires i < LinkCount(tags)
    ensures UrlsText(base, tags, adjust).0[i] == ConcatenateUrl(base, tags[i].href.value, adjust)
    ensures UrlsText(base, tags, adjust).1[i] == LinkTitle(tags[i].text)
  {
    var rest := UrlsText(base, tags[1..], adjust);
    assert UrlsText(base, tags, adjust)
      == ([ConcatenateUrl(base, tags[0].href.value, adjust)] + rest.0, [LinkTitle(tags[0].text)] + rest.1);
    if i > 0 {
      UrlsTextAt(base, tags[1..], adjust, i - 1);
      assert tags[1..][i - 1] == tags[i];
    }
  }

  /** A tag without an href cuts the lists off: they hold exactly the tags before it. */
  lemma {:induction false} UrlsTextStopsAtMissingHref(base: string, tags: seq<Tag>, k: nat, adjust: bool)
    requires k < |tags| && tags[k].href.None?
    requires forall i :: 0 <= i < k ==> tags[i].href.Some?
    ensures UrlsText(base, tags, adjust) == UrlsText(base, tags[..k], adjust)
    ensures |UrlsText(base, tags, adjust).0| == k
  {
    if k > 0 {
      UrlsTextStopsAtMissingHref(base, tags[1..], k - 1, adjust);
      assert tags[1..][..k - 1] == tags[..k][1..];
    }
  }

  /** `get_urls_text`: the loop that appends to both lists until a join raises. */
  method GetUrlsText(base: string, tags: seq<Tag>, adjust: bool) returns (urls: seq<string>, text: seq<string>)
    ensures (urls, text) == UrlsText(base, tags, adjust)
  {
    urls, text := [], [];
    var i := 0;
    while i < |tags|
      invariant 0 <= i <= |tags|
      invariant forall j :: 0 <= j < i ==> tags[j].href.Some?
      invariant |urls| == |text| == i
      invariant forall j :: 0 <= j < i ==> urls[j] == ConcatenateUrl(base, tags[j].href.value, adjust)
      invariant forall j :: 0 <= j < i ==> text[j] == LinkTitle(tags[j].text)
    {
      if tags[i].href.None? {
        // joining a missing href raises; the exception handler returns what was appended so far
        break;
      }
      var hrefUrl := ConcatenateUrl(base, tags[i].href.value, adjust);
      var textContent := LinkTitle(tags[i].text);
      urls := urls + [hrefUrl];
      text := text + [textContent];
      i := i + 1;
    }
    UrlsTextMatches(base, tags, adjust, urls, text);
  }

  /** Lists that agree entry by entry with the linked prefix of the tags are what `UrlsText` gives. */
  lemma UrlsTextMatches(base: string, tags: seq<Tag>, adjust: bool, urls: seq<string>, text: seq<string>)
    requires |urls| == |text| <= |tags|
    requires forall j :: 0 <= j < |urls| ==> tags[j].href.Some?
    requires |urls| < |tags| ==> tags[|urls|].href.None?
    requires forall j :: 0 <= j < |urls| ==> urls[j] == ConcatenateUrl(base, tags[j].href.value, adjust)
    requires forall j :: 0 <= j < |urls| ==> text[j] == LinkTitle(tags[j].text)
    ensures (urls, text) == UrlsText(base, tags, adjust)
  {
    var r := UrlsText(base, tags, adjust);
    assert |urls| == LinkCount(tags);
    forall j | 0 <= j < |urls|
      ensures urls[j] == r.0[j] && text[j] == r.1[j]
    {
      UrlsTextAt(base, tags, adjust, j);
    }
    assert urls == r.0;
    assert text == r.1;
  }

  /** `[x for xs in groups for x in xs]`: the groups concatenated in order. */
  function Flatten(groups: seq<seq<string>>): seq<string>
  {
    if groups == [] then [] else groups[0] + Flatten(groups[1..])
  }

  lemma {:induction false} FlattenAppend(a: seq<seq<string>>, b: seq<seq<string>>)
    ensures Flatten(a + b) == Flatten(a) + Flatten(b)
  {
    if a == [] {
      assert a + b == b;
    } else {
      var ab := a + b;
      assert ab[0] == a[0] && ab[1..] == a[1..] + b;
      FlattenAppend(a[1..], b);
      calc {
        Flatten(ab);
        a[0] + Flatten(a[1..] + b);
        a[0] + (Flatten(a[1..]) + Flatten(b));
        (a[0] + Flatten(a[1..])) + Flatten(b);
      }
    }
  }

  /** Element `j` of group `i` sits right after the elements of the groups before it. */
  lemma {:induction false} FlattenIndex(groups: seq<seq<string>>, i: nat, j: nat)
    requires i < |groups| && j < |groups[i]|
    ensures |Flatten(groups[..i])| + j < |Flatten(groups)|
    ensures Flatten(groups)[|Flatten(groups[..i])| + j] == groups[i][j]
  {
    if i == 0 {
      assert groups[..0] == [];
    } else {
      FlattenIndex(groups[1..], i - 1, j);
      assert groups[..i] == [groups[0]] + groups[1..][..i - 1];
      FlattenAppend([groups[0]], groups[1..][..i - 1]);
      assert Flatten([groups[0]]) == groups[0];
    }
  }

  /** Every flattened element comes from some group. */
  lemma {:induction false} FlattenMember(groups: seq<seq<string>>, x: string)
    requires x in Flatten(groups)
    ensures exists i, j :: 0 <= i < |groups| && 0 <= j < |groups[i]| && groups[i][j] == x
  {
    if x in groups[0] {
      var j :| 0 <= j < |groups[0]| && groups[0][j] == x;
      assert groups[0][j] == x;
    } else {
      FlattenMember(groups[1..], x);
      var i, j :| 0 <= i < |groups[1..]| && 0 <= j < |groups[1..][i]| && groups[1..][i][j] == x;
      assert groups[i + 1][j] == x;
    }
  }

  /** Two lists of groups with the same group sizes flatten to lists of the same length. */
  lemma {:induction false} FlattenAligned(a: seq<seq<string>>, b: seq<seq<string>>)
    requires |a| == |b|
    requires forall i :: 0 <= i < |a| ==> |a[i]| == |b[i]|
    ensures |Flatten(a)| == |Flatten(b)|
  {
    if a != [] {
      FlattenAligned(a[1..], b[1..]);
    }
  }

  /** The URL groups of one level: group `i` from the page of parent `i`. */
  function LevelUrls(base: string, parents: seq<string>, selector: string, fetch: Fetch): (g: seq<seq<string>>)
    ensures |g| == |parents|
  {
    seq(|parents|, i requires 0 <= i < |parents| => UrlsText(base, fetch(parents[i], selector), false).0)
  }

  /** The title groups of one level, aligned with `LevelUrls`. */
  function LevelTitles(base: string, parents: seq<string>, selector: string, fetch: Fetch): (g: seq<seq<string>>)
    ensures |g| == |parents|
  {
    seq(|parents|, i requires 0 <= i < |parents| => UrlsText(base, fetch(parents[i], selector), false).1)
  }

  /** Each URL group has as many entries as its title group. */
  lemma LevelAligned(base: string, parents: seq<string>, selector: string, fetch: Fetch)
    ensures |LevelUrls(base, parents, selector, fetch)| == |LevelTitles(base, parents, selector, fetch)|
    ensures forall i :: 0 <= i < |parents| ==>
      |LevelUrls(base, parents, selector, fetch)[i]| == |LevelTitles(base, parents, selector, fetch)[i]|
    ensures |Flatten(LevelUrls(base, parents, selector, fetch))| == |Flatten(LevelTitles(base, parents, selector, fetch))|
  {
    var urls, titles := LevelUrls(base, parents, selector, fetch), LevelTitles(base, parents, selector, fetch);
    forall i | 0 <= i < |parents| ensures |urls[i]| == |titles[i]| {
      var r := UrlsText(base, fetch(parents[i], selector), false);
      assert urls[i] == r.0 && titles[i] == r.1;
    }
    FlattenAligned(urls, titles);
  }

  /**
   * One traversal level: fetch each parent page once, in order, and keep the
   * joined links and titles found there as one group per parent.
   */
  method CrawlLevel(base: string, parents: seq<string>, selector: string, fetch: Fetch)
    returns (urlGroups: seq<seq<string>>, titleGroups: seq<seq<string>>)
    ensures urlGroups == LevelUrls(base, parents, selector, fetch)
    ensures titleGroups == LevelTitles(base, parents, selector, fetch)
  {
    urlGroups, titleGroups := [], [];
    for i := 0 to |parents|
      invariant urlGroups == LevelUrls(base, parents[..i], selector, fetch)
      invariant titleGroups == LevelTitles(base, parents[..i], selector, fetch)
    {
      var tags := fetch(parents[i], selector);
      var urls, titles := GetUrlsText(base, tags, false);
      assert parents[..i + 1] == parents[..i] + [parents[i]];
      urlGroups := urlGroups + [urls];
      titleGroups := titleGroups + [titles];
      assert urlGroups == LevelUrls(base, parents[..i + 1], selector, fetch);
      assert titleGroups == LevelTitles(base, parents[..i + 1], selector, fetch);
    }
    assert parents[..|parents|] == parents;
  }

  /** An empty group leaves no trace in the flattening. */
  lemma FlattenSkipsEmpty(g: seq<seq<string>>, k: nat)
    requires k < |g| && g[k] == []
    ensures Flatten(g) == Flatten(g[..k] + g[k + 1..])
  {
    var before, after, empty := g[..k], g[k + 1..], [g[k]];
    assert g == (before + empty) + after;
    FlattenAppend(before + empty, after);
    FlattenAppend(before, empty);
    assert Flatten(empty) == [] by { assert empty[1..] == []; }
    assert Flatten(before + empty) == Flatten(before);
    FlattenAppend(before, after);
  }

  /** Dropping a parent drops its group from the level, and nothing else. */
  lemma LevelWithout(base: string, parents: seq<string>, k: nat, selector: string, fetch: Fetch)
    requires k < |parents|
    ensures var urls := LevelUrls(base, parents, selector, fetch);
      LevelUrls(base, parents[..k] + parents[k + 1..], selector, fetch) == urls[..k] + urls[k + 1..]
    ensures var titles := LevelTitles(base, parents, selector, fetch);
      LevelTitles(base, parents[..k] + parents[k + 1..], selector, fetch) == titles[..k] + titles[k + 1..]
  {
    var rest := parents[..k] + parents[k + 1..];
    var urls, titles := LevelUrls(base, parents, selector, fetch), LevelTitles(base, parents, selector, fetch);
    var restUrls, restTitles := LevelUrls(base, rest, selector, fetch), LevelTitles(base, rest, selector, fetch);
    forall i | 0 <= i < |rest|
      ensures restUrls[i] == (urls[..k] + urls[k + 1..])[i]
      ensures restTitles[i] == (titles[..k] + titles[k + 1..])[i]
    {
      var p := if i < k then i else i + 1;
      assert rest[i] == parents[p];
    }
  }

  /** A parent page that yields no links leaves no trace in the flattened level. */
  lemma PageWithoutLinksSkipped(base: string, parents: seq<string>, k: nat, selector: string, fetch: Fetch)
    requires k < |parents| && fetch(parents[k], selector) == []
    ensures Flatten(LevelUrls(base, parents, selector, fetch))
         == Flatten(LevelUrls(base, parents[..k] + parents[k + 1..], selector, fetch))
    ensures Flatten(LevelTitles(base, parents, selector, fetch))
         == Flatten(LevelTitles(base, parents[..k] + parents[k + 1..], selector, fetch))
  {
    LevelWithout(base, parents, k, selector, fetch);
    FlattenSkipsEmpty(LevelUrls(base, parents, selector, fetch), k);
    FlattenSkipsEmpty(LevelTitles(base, parents, selector, fetch), k);
  }

  /** `seq.index(x)`: the first position holding `x`. */
  function FirstIndex(s: seq<string>, x: string): (k: nat)
    requires x in s
    ensures k < |s| && s[k] == x
    ensures forall j :: 0 <= j < k ==> s[j] != x
  {
    if s[0] == x then 0 else 1 + FirstIndex(s[1..], x)
  }

  predicate IsNoBreakSpace(c: char) { c == '\U{A0}' }

  /** The stored body: `text.replace('\n', ' ').replace('\xa0', '')`. */
  function BodyText(text: string): (r: string)
    ensures forall i :: 0 <= i < |r| ==> r[i] != '\n' && r[i] != '\U{A0}'
  {
    DeleteWhere(ReplaceChar(text, '\n', ' '), IsNoBreakSpace)
  }

  /** The stored body keeps every character other than newline, space and no-break space, as often as it occurs. */
  lemma BodyTextKeepsOthers(text: string)
    ensures forall c :: c != '\n' && c != ' ' && c != '\U{A0}' ==> multiset(BodyText(text))[c] == multiset(text)[c]
    ensures multiset(BodyText(text))[' '] == multiset(text)[' '] + multiset(text)['\n']
  {
    var spaced := ReplaceChar(text, '\n', ' ');
    BodyTextCounts(text, spaced);
    BodyTextSpaces(text, spaced);
    DeleteWhereCounts(spaced, IsNoBreakSpace);
  }

  lemma {:induction false} BodyTextCounts(text: string, spaced: string)
    requires spaced == ReplaceChar(text, '\n', ' ')
    ensures forall c :: c != '\n' && c != ' ' ==> multiset(spaced)[c] == multiset(text)[c]
  {
    if text != [] {
      BodyTextCounts(text[1..], spaced[1..]);
      assert text == [text[0]] + text[1..];
      assert spaced == [spaced[0]] + spaced[1..];
    }
  }

  /** Turning newlines into spaces adds one space per newline. */
  lemma {:induction false} BodyTextSpaces(text: string, spaced: string)
    requires spaced == ReplaceChar(text, '\n', ' ')
    ensures multiset(spaced)[' '] == multiset(text)[' '] + multiset(text)['\n']
  {
    if text != [] {
      BodyTextSpaces(text[1..], spaced[1..]);
      assert text == [text[0]] + text[1..];
      assert spaced == [spaced[0]] + spaced[1..];
      assert multiset(text) == multiset([text[0]]) + multiset(text[1..]);
      assert multiset(spaced) == multiset([spaced[0]]) + multiset(spaced[1..]);
    }
  }

  /** The first article whose page has no `div.article-body` match, or `|links|` if all have one. */
  function FirstMissingBody(links: seq<string>, fetch: Fetch): (k: nat)
    ensures k <= |links|
    ensures forall i :: 0 <= i < k ==> fetch(links[i], ArticleBodySelector) != []
    ensures k < |links| ==> fetch(links[k], ArticleBodySelector) == []
  {
    if links == [] || fetch(links[0], ArticleBodySelector) == [] then 0
    else 1 + FirstMissingBody(links[1..], fetch)
  }

  /**
   * The entry appended for article `i`: the title found at the first position
   * of its URL, and the text of the first body match.
   */
  function BodyEntry(links: seq<string>, titles: seq<string>, fetch: Fetch, i: nat): (string, string)
    requires |links| == |titles| && i < |links| && fetch(links[i], ArticleBodySelector) != []
  {
    (titles[FirstIndex(links, links[i])], BodyText(fetch(links[i], ArticleBodySelector)[0].text))
  }

  /**
   * The body phase: one entry per article link, in order, or the link of the
   * first article page without a body match, where `[...][0]` raises.
   */
  function Bodies(links: seq<string>, titles: seq<string>, fetch: Fetch): (r: Result<seq<(string, string)>, string>)
    requires |links| == |titles|
    ensures r.Ok? ==> |r.value| == |links|
  {
    var k := FirstMissingBody(links, fetch);
    if k < |links| then Err(links[k])
    else Ok(seq(|links|, i requires 0 <= i < |links| => BodyEntry(links, titles, fetch, i)))
  }

  /**
   * The body phase succeeds exactly when every article page has a body match;
   * it then holds entry `i` for link `i`, and otherwise it names the first
   * link without one.
   */
  lemma BodiesOutcome(links: seq<string>, titles: seq<string>, fetch: Fetch)
    requires |links| == |titles|
    ensures Bodies(links, titles, fetch).Ok? <==> forall i :: 0 <= i < |links| ==> fetch(links[i], ArticleBodySelector) != []
    ensures Bodies(links, titles, fetch).Err? ==>
      var k := FirstMissingBody(links, fetch);
      k < |links| && Bodies(links, titles, fetch).error == links[k] && fetch(links[k], ArticleBodySelector) == []
    ensures Bodies(links, titles, fetch).Ok? ==>
      forall i :: 0 <= i < |links| ==> Bodies(links, titles, fetch).value[i] == BodyEntry(links, titles, fetch, i)
  {
    var k := FirstMissingBody(links, fetch);
    if k < |links| {
      assert Bodies(links, titles, fetch) == Err(links[k]);
    }
  }

  /** A link that occurs twice gets the same entry twice: the title of its first occurrence and the same body. */
  lemma DuplicateLinksShareEntry(links: seq<string>, titles: seq<string>, fetch: Fetch, i: nat, j: nat)
    requires |links| == |titles| && Bodies(links, titles, fetch).Ok?
    requires i < j < |links| && links[i] == links[j]
    ensures Bodies(links, titles, fetch).value[j] == Bodies(links, titles, fetch).value[i]
    ensures Bodies(links, titles, fetch).value[j].0 == titles[FirstIndex(links, links[j])]
    ensures FirstIndex(links, links[j]) <= i
  {
    BodiesOutcome(links, titles, fetch);
  }

  /**
   * The body loop of the crawl: one entry per article page, in order, until a
   * page without a body match makes `[...][0]` raise.
   */
  method ExtractBodies(links: seq<string>, titles: seq<string>, fetch: Fetch) returns (r: Result<seq<(string, string)>, string>)
    requires |links| == |titles|
    ensures r == Bodies(links, titles, fetch)
  {
    var entries: seq<(string, string)> := [];
    for i := 0 to |links|
      invariant |entries| == i
      invariant forall j :: 0 <= j < i ==> fetch(links[j], ArticleBodySelector) != []
      invariant forall j :: 0 <= j < i ==> entries[j] == BodyEntry(links, titles, fetch, j)
    {
      var tags := fetch(links[i], ArticleBodySelector);
      if tags == [] {
        // `[tag.get_text() for tag in article_tags][0]` raises IndexError
        BodiesFailAt(links, titles, fetch, i);
        return Err(links[i]);
      }
      var articleText := tags[0].text;
      var articleTitle := titles[FirstIndex(links, links[i])];
      entries := entries + [(articleTitle, BodyText(articleText))];
    }
    BodiesComplete(links, titles, fetch, entries);
    r := Ok(entries);
  }

  lemma BodiesFailAt(links: seq<string>, titles: seq<string>, fetch: Fetch, i: nat)
    requires |links| == |titles| && i < |links|
    requires forall j :: 0 <= j < i ==> fetch(links[j], ArticleBodySelector) != []
    requires fetch(links[i], ArticleBodySelector) == []
    ensures Bodies(links, titles, fetch) == Err(links[i])
  {
    assert FirstMissingBody(links, fetch) == i;
  }

  lemma BodiesComplete(links: seq<string>, titles: seq<string>, fetch: Fetch, entries: seq<(string, string)>)
    requires |links| == |titles| == |entries|
    requires forall j :: 0 <= j < |links| ==> fetch(links[j], ArticleBodySelector) != []
    requires forall j :: 0 <= j < |links| ==> entries[j] == BodyEntry(links, titles, fetch, j)
    ensures Bodies(links, titles, fetch) == Ok(entries)
  {
    assert FirstMissingBody(links, fetch) == |links|;
    var all := seq(|links|, i requires 0 <= i < |links| => BodyEntry(links, titles, fetch, i));
    assert Bodies(links, titles, fetch) == Ok(all);
    assert entries == all;
  }

  /**
   * The section and article levels below the given category URLs: sections
   * per category, flattened; then articles per section, flattened.
   */
  method CrawlTree(base: string, categoryUrls: seq<string>, fetch: Fetch)
    returns (sectionUrls: seq<string>, sectionTitles: seq<string>, articleLinks: seq<string>, articleTitles: seq<string>)
    ensures sectionUrls == Flatten(LevelUrls(base, categoryUrls, SectionSelector, fetch))
    ensures sectionTitles == Flatten(LevelTitles(base, categoryUrls, SectionSelector, fetch))
    ensures articleLinks == Flatten(LevelUrls(base, sectionUrls, ArticleListSelector, fetch))
    ensures articleTitles == Flatten(LevelTitles(base, sectionUrls, ArticleListSelector, fetch))
    ensures |articleLinks| == |articleTitles|
  {
    var sectionTreeUrl, sectionTitle := CrawlLevel(base, categoryUrls, SectionSelector, fetch);
    sectionUrls := Flatten(sectionTreeUrl);
    sectionTitles := Flatten(sectionTitle);
    var articleUrls, articleTitleGroups := CrawlLevel(base, sectionUrls, ArticleListSelector, fetch);
    articleLinks := Flatten(articleUrls);
    articleTitles := Flatten(articleTitleGroups);
    LevelAligned(base, sectionUrls, ArticleListSelector, fetch);
  }

  /** The six lists the crawl produces. */
  datatype Corpus = Corpus(
    mainUrlsTitles: seq<string>,
    sectionTreeUrl: seq<string>,
    sectionTitle: seq<string>,
    articleLinks: seq<string>,
    articleLinkTitle: seq<string>,
    articleBody: seq<string>)

  /** The category links and titles found on the home page, joined with `adjust=False`. */
  function CategoryLinks(base: string, fetch: Fetch): (seq<string>, seq<string>)
  {
    UrlsText(base, fetch(base, CategorySelector), false)
  }

  /** The section URLs of all categories, flattened. */
  function SectionUrls(base: string, fetch: Fetch): seq<string>
  {
    Flatten(LevelUrls(base, CategoryLinks(base, fetch).0, SectionSelector, fetch))
  }

  function SectionTitles(base: string, fetch: Fetch): seq<string>
  {
    Flatten(LevelTitles(base, CategoryLinks(base, fetch).0, SectionSelector, fetch))
  }

  /** The article URLs of all sections, flattened. */
  function ArticleLinks(base: string, fetch: Fetch): seq<string>
  {
    Flatten(LevelUrls(base, SectionUrls(base, fetch), ArticleListSelector, fetch))
  }

  function ArticleTitles(base: string, fetch: Fetch): (r: seq<string>)
    ensures |r| == |ArticleLinks(base, fetch)|
  {
    LevelAligned(base, SectionUrls(base, fetch), ArticleListSelector, fetch);
    Flatten(LevelTitles(base, SectionUrls(base, fetch), ArticleListSelector, fetch))
  }

  /** The second components of the body entries: the titles are dropped. */
  function BodiesOnly(entries: seq<(string, string)>): seq<string>
  {
    seq(|entries|, i requires 0 <= i < |entries| => entries[i].1)
  }

  /** What a complete crawl from `base` produces, or the article link whose page has no body. */
  function CrawlResult(base: string, fetch: Fetch): Result<Corpus, string>
  {
    var links, titles := ArticleLinks(base, fetch), ArticleTitles(base, fetch);
    match Bodies(links, titles, fetch)
    case Err(url) => Err(url)
    case Ok(entries) =>
      Ok(Corpus(CategoryLinks(base, fetch).1, SectionUrls(base, fetch), SectionTitles(base, fetch),
                links, titles, BodiesOnly(entries)))
  }

  /** Position `k` of two aligned flattenings comes from the same group and the same place in it. */
  lemma {:induction false} FlattenPairAt(a: seq<seq<string>>, b: seq<seq<string>>, k: nat)
    requires |a| == |b|
    requires forall i :: 0 <= i < |a| ==> |a[i]| == |b[i]|
    requires k < |Flatten(a)|
    ensures k < |Flatten(b)|
    ensures exists i, j :: 0 <= i < |a| && 0 <= j < |a[i]| && Flatten(a)[k] == a[i][j] && Flatten(b)[k] == b[i][j]
  {
    FlattenAligned(a, b);
    if k < |a[0]| {
      assert Flatten(a)[k] == a[0][k] && Flatten(b)[k] == b[0][k];
    } else {
      FlattenPairAt(a[1..], b[1..], k - |a[0]|);
      var i, j :| 0 <= i < |a[1..]| && 0 <= j < |a[1..][i]|
        && Flatten(a[1..])[k - |a[0]|] == a[1..][i][j] && Flatten(b[1..])[k - |a[0]|] == b[1..][i][j];
      assert Flatten(a)[k] == a[i + 1][j] && Flatten(b)[k] == b[i + 1][j];
    }
  }

  /**
   * Entry `k` of a flattened level: some parent's page had a linked tag whose
   * href, joined to `base` with `adjust=False`, is the URL and whose text,
   * newlines removed, is the title at the same position.
   */
  lemma LevelEntryAt(base: string, parents: seq<string>, selector: string, fetch: Fetch, k: nat)
    requires k < |Flatten(LevelUrls(base, parents, selector, fetch))|
    ensures k < |Flatten(LevelTitles(base, parents, selector, fetch))|
    ensures exists i, j ::
      && 0 <= i < |parents| && 0 <= j < LinkCount(fetch(parents[i], selector))
      && Flatten(LevelUrls(base, parents, selector, fetch))[k]
         == ConcatenateUrl(base, fetch(parents[i], selector)[j].href.value, false)
      && Flatten(LevelTitles(base, parents, selector, fetch))[k]
         == LinkTitle(fetch(parents[i], selector)[j].text)
  {
    var urls, titles := LevelUrls(base, parents, selector, fetch), LevelTitles(base, parents, selector, fetch);
    LevelAligned(base, parents, selector, fetch);
    FlattenPairAt(urls, titles, k);
    var i, j :| 0 <= i < |urls| && 0 <= j < |urls[i]| && Flatten(urls)[k] == urls[i][j] && Flatten(titles)[k] == titles[i][j];
    var tags := fetch(parents[i], selector);
    assert urls[i] == UrlsText(base, tags, false).0 && titles[i] == UrlsText(base, tags, false).1;
    UrlsTextAt(base, tags, false, j);
  }

  /** Every joined URL of a level is the base without its last character followed by an href. */
  lemma LevelUnderBase(base: string, parents: seq<string>, selector: string, fetch: Fetch)
    ensures forall u :: u in Flatten(LevelUrls(base, parents, selector, fetch)) ==> DropLast(base) <= u
  {
    forall u | u in Flatten(LevelUrls(base, parents, selector, fetch))
      ensures DropLast(base) <= u
    {
      var k :| 0 <= k < |Flatten(LevelUrls(base, parents, selector, fetch))| && Flatten(LevelUrls(base, parents, selector, fetch))[k] == u;
      LevelEntryAt(base, parents, selector, fetch, k);
    }
  }

  /**
   * A completed crawl keeps its parallel lists aligned: as many section titles
   * as section URLs, and as many article titles and bodies as article links.
   */
  lemma CrawlAligned(base: string, fetch: Fetch)
    ensures CrawlResult(base, fetch).Ok? ==>
      var c := CrawlResult(base, fetch).value;
      && |c.sectionTreeUrl| == |c.sectionTitle|
      && |c.articleLinks| == |c.articleLinkTitle| == |c.articleBody|
  {
    LevelAligned(base, CategoryLinks(base, fetch).0, SectionSelector, fetch);
  }

  /**
   * The crawl fails exactly when some article page has no body match, and it
   * names the first such article; otherwise body `k` is the normalised text of
   * the first match on the page of article link `k`.
   */
  lemma CrawlBodies(base: string, fetch: Fetch)
    ensures var links := ArticleLinks(base, fetch);
      CrawlResult(base, fetch).Err? <==> exists k :: 0 <= k < |links| && fetch(links[k], ArticleBodySelector) == []
    ensures CrawlResult(base, fetch).Err? ==>
      CrawlResult(base, fetch).error == ArticleLinks(base, fetch)[FirstMissingBody(ArticleLinks(base, fetch), fetch)]
    ensures CrawlResult(base, fetch).Ok? ==>
      var c := CrawlResult(base, fetch).value;
      forall k :: 0 <= k < |c.articleBody| ==>
        c.articleBody[k] == BodyText(fetch(c.articleLinks[k], ArticleBodySelector)[0].text)
  {
    BodiesOutcome(ArticleLinks(base, fetch), ArticleTitles(base, fetch), fetch);
  }

  /** Every section URL and article link is the base URL minus its last character, then an href. */
  lemma CrawlLinksUnderBase(base: string, fetch: Fetch)
    ensures forall u :: u in SectionUrls(base, fetch) ==> DropLast(base) <= u
    ensures forall u :: u in ArticleLinks(base, fetch) ==> DropLast(base) <= u
  {
    LevelUnderBase(base, CategoryLinks(base, fetch).0, SectionSelector, fetch);
    LevelUnderBase(base, SectionUrls(base, fetch), ArticleListSelector, fetch);
  }

  /**
   * Everything below the home page: the section and article levels and the
   * body phase, given the category links found on the home page.
   */
  method CrawlBelow(base: string, categoryUrls: seq<string>, mainTitles: seq<string>, fetch: Fetch)
    returns (r: Result<Corpus, string>)
    requires (categoryUrls, mainTitles) == CategoryLinks(base, fetch)
    ensures r == CrawlResult(base, fetch)
    ensures r.Ok? ==> r.value.mainUrlsTitles == mainTitles
  {
    var sectionUrls, sectionTitles, articleLinks, articleTitles := CrawlTree(base, categoryUrls, fetch);
    var entries := ExtractBodies(articleLinks, articleTitles, fetch);
    if entries.Err? {
      return Err(entries.error);
    }
    r := Ok(Corpus(mainTitles, sectionUrls, sectionTitles, articleLinks, articleTitles, BodiesOnly(entries.value)));
  }

  const MainUrlsTitlesKey: string := "main_urls_titles"
  const SectionTreeUrlKey: string := "section_tree_url"
  const SectionTitleKey: string := "section_title"
  const ArticleLinksKey: string := "article_links"
  const ArticleLinkTitleKey: string := "article_link_title"
  const ArticleBodyKey: string := "article_body"

  /** The six keys of the scraped `data` dictionary. */
  function DataKeys(): set<string>
  {
    {MainUrlsTitlesKey, SectionTreeUrlKey, SectionTitleKey, ArticleLinksKey, ArticleLinkTitleKey, ArticleBodyKey}
  }

  /** The `data` dictionary holding a corpus. */
  function CorpusData(c: Corpus): (m: map<string, seq<string>>)
    ensures m.Keys == DataKeys()
  {
    map[MainUrlsTitlesKey := c.mainUrlsTitles, SectionTreeUrlKey := c.sectionTreeUrl,
        SectionTitleKey := c.sectionTitle, ArticleLinksKey := c.articleLinks,
        ArticleLinkTitleKey := c.articleLinkTitle, ArticleBodyKey := c.articleBody]
  }

  /** A dictionary with the six keys reads back as the corpus it was built from. */
  lemma CorpusDataRoundTrip(c: Corpus)
    ensures var m := CorpusData(c);
      Corpus(m[MainUrlsTitlesKey], m[SectionTreeUrlKey], m[SectionTitleKey],
             m[ArticleLinksKey], m[ArticleLinkTitleKey], m[ArticleBodyKey]) == c
  {
  }
}
