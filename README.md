# Help-centre scraper and question-answering setup, in Dafny

This project models the core of a small retrieval-augmented question-answering
application over the StackUp help centre (a Zendesk site):

- **The scraper** (`web_scraper.py`, class `WebScraper`) crawls the site in
  three levels. It collects category links on the home page, section links on
  each category page and article links on each section page, then one body per
  article page. The results go into a `data` dictionary of six parallel lists.
- **The stand-alone crawl script** (`data_might_delete.py`) does the same
  traversal once at module level, against the fixed base URL, and builds the
  same dictionary.
- **The question-answering setup** (`setup_rag.py`, class `RagSetup`) cleans
  the scraped titles and bodies into a document table: delete `/`, delete
  punctuation, delete digit runs, collapse whitespace runs, lowercase; bodies
  also get an extra double-space pass and an `"Empty"` sentinel. On the first
  question it lazily builds the table, the vector store and the
  question-answering chain, keeps them, and then asks the chain.

Modules:

- `Wrappers`: `Option` and `Result`.
- `Text`: the Python string operations the rest uses.
- `Cleaning`: the text-cleaning pipeline.
- `Crawl`: URL joining, link extraction, traversal levels, flattening, body
  extraction and the `data` dictionary. Each loop of the source is a method
  proved against a specification function.
- `Scraper`: the `WebScraper` class.
- `ScraperScript`: the module-level script.
- `CrawlExamples`: the crawl worked through on a small stub site.
- `SetupRag`: the document table and the `RagSetup` class.

Page fetching is a parameter of type `Fetch`: a total function from a URL and
a CSS selector to the matching tags. A request that fails yields no tags, as
`make_request` returns `[]` after a request exception. The vector-store
builder, the chain builder and the chain's `invoke` are parameters of
`RagSetup.Rag`.

The home page's category links are joined with the default `adjust=False`
(`web_scraper.py:65`, `data_might_delete.py:96`), so they too drop the base
URL's last character; `Crawl.CategoryLinks` does the same.

## Model

| member | source | states |
|---|---|---|
| Text.DeleteWhere | setup_rag.py:42-44 | Deleting a character class keeps no character of that class. Every kept character comes from the input, and the result is no longer than the input. |
| Text.DeleteWhereCounts | setup_rag.py:42-44 | After a deletion every other character occurs exactly as often as before. Every deleted character occurs zero times. |
| Text.DeleteWhereAbsent | web_scraper.py:52 | Deleting a class that does not occur returns the string unchanged. |
| Text.DeleteWhereAbsorbed | setup_rag.py:42-43 | Deleting a class and then a wider class is the same as deleting the wider class. |
| Text.DeleteWhereUnion | setup_rag.py:43-44 | Deleting one character class and then another is deleting their union. |
| Text.DeleteWhereAppend | setup_rag.py:42-44 | Deleting a class from a concatenation deletes it from each part: the kept characters stay in their order. |
| Text.ReplaceChar | web_scraper.py:100 | `replace` of one character by another keeps the length. Position `i` holds the replacement exactly where the input held the replaced character. |
| Cleaning.RunEnd | setup_rag.py:45 | Gives the length of the leading whitespace run: every character before it is whitespace, and the next one is not whitespace or is the end. |
| Cleaning.IsSpace | setup_rag.py:45 | `\s`: the characters Python's `str.isspace` accepts. |
| Cleaning.IsPunctuation | setup_rag.py:43 | The 32 characters of `string.punctuation`. |
| Cleaning.IsDigit | setup_rag.py:44 | `\d`, ASCII digits only (see Left out). |
| Cleaning.CollapseSpaces | setup_rag.py:45 | `re.sub(r"\s{2,}", " ")` leaves no two adjacent whitespace characters and does not lengthen the string. A non-empty input keeps a non-empty result that starts with whitespace exactly when the input does. What each run becomes is pinned down by `Cleaning.CollapseSpacesRun`, `Cleaning.CollapseSpacesLone` and `Cleaning.CollapseSpacesAppend`: each maximal run of two or more becomes `" "`, and a lone whitespace character is kept. |
| Cleaning.CollapseSpacesLone | setup_rag.py:45 | A lone character, whitespace or not, is kept as it is: `\s{2,}` needs two. |
| Cleaning.CollapseSpacesRun | setup_rag.py:45 | A run of two or more whitespace characters of any kind becomes the one character `' '`. |
| Cleaning.RunEndAppend | setup_rag.py:45 | Appending a tail that does not extend a run reaching the end leaves the leading run's length unchanged. |
| Cleaning.CollapseRunStep | setup_rag.py:45 | A string starting with two whitespace characters collapses to one space followed by the collapse of what follows the whole run. |
| Cleaning.CollapseCharStep | setup_rag.py:45 | A string not starting with two whitespace characters keeps its first character, followed by the collapse of the rest. |
| Cleaning.CollapseSpacesAppend | setup_rag.py:45 | Two strings that do not meet inside a whitespace run collapse to their two collapses, one after the other. With `CollapseSpacesLone` and `CollapseSpacesRun` this determines the collapse on every input, as `re.sub` substitutes each match independently. |
| Cleaning.LoneHeadAppend | setup_rag.py:45 | The one-character case of `CollapseSpacesAppend`. |
| Cleaning.CharSplit | setup_rag.py:45 | The collapses of `a` and of `a` followed by `b` share the first character of `a` when `a` does not start with a run. |
| Cleaning.RunSplit | setup_rag.py:45 | The collapses of `a` and of `a` followed by `b` share a leading `' '` when `a` starts with a run, followed by the collapse of the same remainder. |
| Cleaning.RunRest | setup_rag.py:45 | What follows the leading run of `a`, with `b` appended, is what follows the leading run of `a + b`. |
| Cleaning.CollapseSpacesKeeps | setup_rag.py:45 | Every output character is a space or an input character, so any property of all input characters that a space also has holds of all output characters. |
| Cleaning.CollapseSpacesFixpoint | setup_rag.py:45 | A string with no adjacent whitespace is returned unchanged. |
| Cleaning.WordsAfterRun | setup_rag.py:45 | Skipping a leading whitespace run keeps the non-whitespace characters. |
| Cleaning.CollapseSpacesKeepsWords | setup_rag.py:45 | The collapse keeps every non-whitespace character, in order. |
| Cleaning.Squash | setup_rag.py:45 | The reference reading of whitespace, defined independently of the collapse: every maximal whitespace run, lone ones included, becomes one `' '`. The result is no longer than the input. |
| Cleaning.LoneSpaceRun | setup_rag.py:45 | A whitespace character followed by nothing or by a non-whitespace character is a run of length one. |
| Cleaning.SquashLoneSpace | setup_rag.py:45 | A lone whitespace character squashes to one space. |
| Cleaning.SquashCollapseSpaces | setup_rag.py:45 | Read with each whitespace run as one space, the collapse's output equals its input. Every run of two or more whitespace characters therefore becomes exactly one separator, and words stay apart. |
| Cleaning.SquashLower | setup_rag.py:45-46 | Lowercasing commutes with squashing whitespace. |
| Cleaning.LowerChar | setup_rag.py:46 | Maps an upper-case ASCII letter to its lower-case letter (code point + 32) and leaves every other character alone. |
| Cleaning.Lower | setup_rag.py:46 | `str.lower` keeps the length and leaves no upper-case letter. Each position holds the input character lowercased: its own lower-case letter for an upper-case letter, the character itself otherwise. |
| Cleaning.LowerCons | setup_rag.py:46 | Lowercasing works character by character from the front. |
| Cleaning.LowerCharSpace | setup_rag.py:46 | Lowercasing a character keeps it whitespace exactly when it was whitespace. |
| Cleaning.LowerRunEnd | setup_rag.py:46 | Lowercasing keeps the length of the leading whitespace run and commutes with dropping it. |
| Cleaning.LowerAbsent | setup_rag.py:46 | A string without upper-case letters is unchanged by lowercasing. |
| Cleaning.CleanText | setup_rag.py:42-46 | The five title-cleaning steps give a clean string: no punctuation, no digit, no upper-case letter, no two adjacent whitespace characters. |
| Cleaning.CleanTextContent | setup_rag.py:42-46 | Read with each whitespace run as one space, the cleaned text is the input with punctuation and digits deleted, then lowercased. Every other character survives in order, and words stay apart. |
| Cleaning.CollapsedIsClean | setup_rag.py:43-45 | After deleting punctuation and digits, the collapse keeps both absent and removes every double whitespace. |
| Cleaning.LowerKeepsClean | setup_rag.py:46 | Lowercasing a string without punctuation, digits or double whitespace gives a clean string. |
| Cleaning.CleanTextFixpoint | setup_rag.py:42-46 | Cleaning a clean string changes nothing. |
| Cleaning.CleanTextIdempotent | setup_rag.py:42-46 | Cleaning twice is the same as cleaning once. |
| Cleaning.SlashStepSubsumed | setup_rag.py:42-43 | The `/` deletion is subsumed by the punctuation deletion that follows it. |
| Cleaning.ReplaceDoubleSpace | setup_rag.py:53 | `replace('  ', ' ')` does not lengthen the string. |
| Cleaning.ReplaceDoubleSpaceNoOp | setup_rag.py:53 | After the whitespace collapse, the body's extra `'  '` pass changes nothing. |
| Cleaning.CleanBody | setup_rag.py:48-54 | The page content is `"Empty"` exactly when the cleaned body is empty. Otherwise it is the cleaned body, and it is clean. |
| Cleaning.CleanBodyStable | setup_rag.py:48-54 | Cleaning a non-sentinel page content again leaves it unchanged. |
| Cleaning.CleanedSpaceKept | setup_rag.py:51-54 | A body that cleans to a single space is kept as `" "`, not replaced by the sentinel, since the sentinel replaces only the empty string. |
| Cleaning.StrippedBodyIsEmpty | setup_rag.py:48-54 | A body made only of punctuation and digits becomes the sentinel `"Empty"`. |
| Cleaning.LoneSpaceBodyKept | setup_rag.py:51-54 | Example: the body of a tab and a newline cleans to `" "`, which is kept. |
| Cleaning.NumericBodyIsEmpty | setup_rag.py:48-54 | Example: the body `"4.2"` becomes the sentinel `"Empty"`. |
| Crawl.DropLast | web_scraper.py:41 | `url[:-1]`: the empty string stays empty. Otherwise the result with the URL's last character put back is the URL. |
| Crawl.ConcatenateUrl | web_scraper.py:34-41 | `concatenate_url`, with `adjust` choosing between the whole URL and the URL minus its last character. Its properties are stated by `Crawl.ConcatenateUrlParts`. |
| Crawl.ConcatenateUrlParts | web_scraper.py:34-41 | A joined URL ends with the href. With `adjust` it starts with the whole URL. Without `adjust` it starts with the URL minus its last character, or is just the href when the URL is empty. |
| Crawl.ConcatenateUrlExamples | web_scraper.py:34-41 | The two joining rules on a root-relative and a relative href give the same absolute URL. |
| Crawl.LinkTitle | web_scraper.py:52 | A link title holds no newline. |
| Crawl.LinkTitleCounts | web_scraper.py:52 | A link title keeps every other character of the tag text, as often as it occurs there. |
| Crawl.LinkCount | web_scraper.py:49-56 | Counts the leading tags that carry an href. The tag after them, if any, has none, which is where the join raises and the loop stops. |
| Crawl.UrlsText | web_scraper.py:43-57 | `get_urls_text` returns two lists of equal length, one entry per tag before the first tag without an href. |
| Crawl.UrlsTextAt | web_scraper.py:50-54 | Entry `i` of the URL list is tag `i`'s href joined to the base. Entry `i` of the title list is tag `i`'s text without newlines. |
| Crawl.UrlsTextStopsAtMissingHref | web_scraper.py:49-57 | A tag without an href cuts both lists off: they are exactly the lists of the tags before it, and the exception loses nothing already appended. |
| Crawl.GetUrlsText | web_scraper.py:43-57 | The appending loop returns exactly `UrlsText`. |
| Crawl.UrlsTextMatches | web_scraper.py:43-57 | Lists that agree entry by entry with the linked prefix of the tags are `UrlsText`'s result. |
| Crawl.Flatten | web_scraper.py:91-92 | The nested comprehension: the groups concatenated in order. Its properties are stated by the `Flatten…` lemmas below. |
| Crawl.FlattenAppend | web_scraper.py:91-92 | Flattening distributes over concatenation of group lists. |
| Crawl.FlattenIndex | web_scraper.py:91-92 | Element `j` of group `i` is at position (sizes of the groups before `i`) + `j` of the flattening. |
| Crawl.FlattenMember | web_scraper.py:91-92 | Every flattened element comes from some group. |
| Crawl.FlattenAligned | web_scraper.py:91-92 | Group lists with equal group sizes flatten to equally long lists. |
| Crawl.LevelUrls | web_scraper.py:71-75 | One URL group per parent page. |
| Crawl.LevelTitles | web_scraper.py:71-75 | One title group per parent page. |
| Crawl.LevelAligned | web_scraper.py:71-75 | Each URL group is as long as its title group, and so are their flattenings. |
| Crawl.CrawlLevel | web_scraper.py:71-75 | The per-parent loop returns exactly the URL and title groups of the level. |
| Crawl.FlattenSkipsEmpty | web_scraper.py:91-92 | An empty group leaves no trace in the flattening. |
| Crawl.LevelWithout | web_scraper.py:85-89 | Dropping one parent page drops exactly its group from the level. |
| Crawl.PageWithoutLinksSkipped | web_scraper.py:85-92 | A parent page with no matching links, such as a failed request, leaves the flattened URLs and titles the same as if it were absent. |
| Crawl.FirstIndex | web_scraper.py:99 | `list.index` gives the first position holding the value. |
| Crawl.BodyText | web_scraper.py:100 | A stored body holds neither a newline nor a no-break space. |
| Crawl.BodyTextKeepsOthers | web_scraper.py:100 | A stored body keeps every character other than newline, space and no-break space, as often as it occurs. Every newline becomes a space: the body holds as many spaces as the text held spaces and newlines together. |
| Crawl.BodyTextCounts | web_scraper.py:100 | Turning newlines into spaces keeps every other non-space character's count. |
| Crawl.BodyTextSpaces | web_scraper.py:100 | Turning newlines into spaces adds exactly one space per newline. |
| Crawl.FirstMissingBody | web_scraper.py:96-98 | Gives the first article whose page has no body match: every earlier page has one, and at that index the page has none. |
| Crawl.BodyEntry | web_scraper.py:98-100 | The entry for article `i`: the title at the first position of its URL and the normalised text of the first body match. `Crawl.BodiesOutcome` states where it is used. |
| Crawl.Bodies | web_scraper.py:96-100 | A completed body phase has one entry per article link. |
| Crawl.BodiesOutcome | web_scraper.py:96-100 | The body phase succeeds exactly when every article page has a body match. It then holds, for link `i`, the title at the link's first position and the text of the first match. Otherwise it fails naming the first link without a match. |
| Crawl.DuplicateLinksShareEntry | web_scraper.py:99 | A link occurring twice gets the same entry twice, titled from its first occurrence. |
| Crawl.ExtractBodies | web_scraper.py:96-100 | The body loop returns exactly `Bodies`, stopping at the first page where `[...][0]` raises. |
| Crawl.BodiesFailAt | web_scraper.py:96-98 | If pages before `i` have bodies and page `i` has none, the body phase fails with link `i`. |
| Crawl.BodiesComplete | web_scraper.py:96-100 | Entries that match every link's expected entry are the body phase's result. |
| Crawl.CrawlTree | web_scraper.py:71-92 | The section and article loops give the flattened section level over the category URLs, then the flattened article level over the section URLs, with aligned article links and titles. |
| Crawl.CategoryLinks | web_scraper.py:64-65 | The home page's category URLs and titles, from `get_urls_text` with the default `adjust=False`. |
| Crawl.SectionUrls | web_scraper.py:71-75 | The section URLs of all categories, flattened. `Crawl.CrawlLinksUnderBase` states where they lie. |
| Crawl.SectionTitles | web_scraper.py:71-75 | The section titles of all categories, flattened. `Crawl.CrawlAligned` states they match the URLs in number. |
| Crawl.ArticleLinks | web_scraper.py:85-91 | The article URLs of all sections, flattened. |
| Crawl.ArticleTitles | web_scraper.py:91-92 | There are as many article titles as article links. |
| Crawl.BodiesOnly | web_scraper.py:106 | The stored bodies, with the paired titles dropped. What each one is, is stated by `Crawl.CrawlBodies`; by `Crawl.BodiesOutcome`, the title paired with body `i` is the entry of `article_link_title` at the first position of link `i`. |
| Crawl.CrawlResult | web_scraper.py:59-106 | The outcome of a scrape: the six lists, or the first article link whose page has no body. Its properties are stated by `Crawl.CrawlAligned`, `Crawl.CrawlBodies` and `Crawl.CrawlLinksUnderBase`. |
| Crawl.FlattenPairAt | web_scraper.py:91-92 | Position `k` of two aligned flattenings comes from the same group and place. |
| Crawl.LevelEntryAt | web_scraper.py:71-89 | Flattened entry `k` of a level is some parent page's linked tag: its href joined to the base and its newline-free text. |
| Crawl.LevelUnderBase | web_scraper.py:71-89 | Every URL of a level starts with the base URL minus its last character. |
| Crawl.CrawlAligned | web_scraper.py:102-106 | A completed crawl has as many section titles as section URLs, and as many article titles and bodies as article links. |
| Crawl.CrawlBodies | web_scraper.py:96-106 | The crawl fails exactly when some article page has no body, naming the first such link. Otherwise stored body `k` is the normalised text of the first match on article `k`'s page, with the entry's title dropped. |
| Crawl.CrawlLinksUnderBase | web_scraper.py:71-92 | Every section URL and article link starts with the base URL minus its last character. |
| Crawl.CrawlBelow | web_scraper.py:68-106 | The levels below the home page, then the body loop, give exactly the crawl's result, keeping the category titles. |
| Crawl.CorpusData | web_scraper.py:102-106 | The stored dictionary has exactly the six keys. |
| Crawl.CorpusDataRoundTrip | web_scraper.py:102-106 | Reading the six keys back gives the corpus that was stored. |
| Scraper.WebScraper.constructor | web_scraper.py:10-19 | Keeps the base URL. The dictionary has exactly the six keys, each with an empty list. |
| Scraper.WebScraper.Scrape | web_scraper.py:59-106 | A completed crawl merges all six lists into the dictionary. A failed crawl reports the body-less article and stores only the category titles, as the code stores those before the loops. A dictionary with exactly the six keys keeps them. |
| Scraper.ScrapeKeepsKeys | web_scraper.py:66 | Storing the category titles or merging a corpus keeps exactly the six keys, and the merge replaces every list. |
| Scraper.StoredUpdates | web_scraper.py:102-106 | Storing the category titles and then the five lists is the merge of the dictionary with the corpus. |
| ScraperScript.BuildData | data_might_delete.py:92-164 | The script's dictionary is the stored form of the crawl from the fixed base URL, or the failing article link when a body is missing. |
| ScraperScript.LinksOnSite | data_might_delete.py:92-136 | Every section URL and article link the script collects starts with `https://stackuphelpcentre.zendesk.com`. |
| CrawlExamples.StubCategories | web_scraper.py:64-65 | On the stub site the home page gives the category `s/c` titled `Cat`, with its trailing newline dropped. |
| CrawlExamples.StubSections | web_scraper.py:71-75 | The stub category page gives sections `s/a` and `s/b`. |
| CrawlExamples.StubArticles | web_scraper.py:85-92 | The stub sections give the one article `s/x`. The second section's empty page leaves no trace. |
| CrawlExamples.StubSiteCrawl | web_scraper.py:59-106 | The whole stub crawl gives the expected six lists, with the body's newline turned into a space. |
| CrawlExamples.BrokenSiteCrawl | web_scraper.py:96-98 | Without a body on the article page, the stub crawl fails naming that article. |
| SetupRag.CleanRow | setup_rag.py:42-59 | A row keeps the link as its `urls`. Its title is clean. Its page content is clean or the sentinel, and the sentinel exactly when the cleaned body is empty. |
| SetupRag.CleanCorpus | setup_rag.py:33-59 | The table fails exactly when the three columns differ in length. Otherwise it has one row per article, in order, each with its link. |
| SetupRag.CleanCorpusRow | setup_rag.py:42-59 | Row `i` holds article `i`'s cleaned title and cleaned body, or the sentinel exactly when the body cleans to empty. |
| SetupRag.CleanTitlesStable | setup_rag.py:42-46 | Cleaning a table title again changes nothing. |
| SetupRag.RagSetup.constructor | setup_rag.py:16-24 | Keeps the scraped columns. Table, store, model settings and chain all start unset. |
| SetupRag.RagSetup.WrangleData | setup_rag.py:26-62 | Returns the cleaned table and stores it. A failed build stores nothing, and the other fields are unchanged. Keeps each step's prerequisite. |
| SetupRag.RagSetup.SetUpStore | setup_rag.py:64-96 | Builds the store in the index `stackragapp` from the stored table and keeps it. Without a table it fails and stores nothing. Keeps each step's prerequisite. |
| SetupRag.RagSetup.SetupQaChain | setup_rag.py:98-147 | Stores the model settings first. It then builds the chain over the stored store, or fails when there is none. Keeps each step's prerequisite. |
| SetupRag.RagSetup.Rag | setup_rag.py:149-163 | Builds only the missing parts, in order, reusing what exists. It fails only when the table is missing and cannot be built, changing nothing. Otherwise it answers with the kept chain, and each step's prerequisite holds afterwards. |

## Left out

- HTTP requests and HTML parsing (`make_request`, `requests`, BeautifulSoup, the 5-second timeout) are not modelled. The fetch is a parameter, and a failed request is a fetch that returns no tags.
- `save_to_json` (`web_scraper.py:108-116`) and the JSON dump and file write of the script (`data_might_delete.py:166-172`) are file I/O and are left out.
- Reading the JSON file in `wrangle_data` (`setup_rag.py:30-31`) is left out. The three scraped columns are given to the `RagSetup` constructor instead. `data_filepath` and the two API keys are not modelled.
- The Pinecone index check and creation (768 dimensions, cosine metric), the choice between reusing a non-empty index and uploading the documents, and the embeddings are left out. `set_up_store` is the `buildStore` parameter, applied to the index name and the documents.
- The prompt templates and the `ChatTogether` client are left out. The chain is the `buildChain` parameter, applied to the model settings and the store.
- The chain's `invoke` is the `invoke` parameter, and what it returns is not modelled.
- The `print` of caught exceptions is not modelled.
- `Crawl.ExtractBodies` models the uncaught `IndexError` of `[...][0]` on a page without a body as an `Err` carrying that article's URL. The exception's message is not modelled.
- `Crawl.LinkCount` models the exception of joining a missing href, which `get_urls_text` catches, as the end of the lists. Only a missing href raises in the model; the exception's message is not modelled.
- The lazy `zipped_section_title_url` generator (`web_scraper.py:77-78`, `data_might_delete.py:114-115`) is never consumed and is not modelled.
- Crawl.DuplicateLinksShareEntry and Crawl.Bodies: a repeated request for the same URL is assumed to return the same tags, because the fetch is a function. The source requests a duplicated article URL again (`web_scraper.py:97`, `data_might_delete.py:147`), and that second response may differ, or fail and raise `IndexError`.
- `Cleaning.IsDigit` and `Cleaning.LowerChar` cover ASCII only. Python's `\d` also matches other Unicode decimal digits, and `str.lower` also lowercases non-ASCII letters.
- `Cleaning.IsSpace` is the fixed set of characters `str.isspace` accepts.
- `Cleaning.CleanText` deletes digits one at a time. That is the same as deleting maximal `\d+` runs.
- Pandas data-frame mechanics are not modelled: dtypes, the index, the column selection and rename, and missing values. The table is a sequence of rows.
- The other files of the repository are not part of this model: the web front end (`app.py`), `rag.py`, `stamp.py` and `data_checker.py`.
- `SetupRag.RagSetup.Rag` treats the store and chain builders as total. A failure inside an external service is not modelled.
