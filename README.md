# Posts endpoint of the Instagram-style Notion widget

This project models the server side of a small widget that shows Notion
database rows as an Instagram-like grid. The endpoint `GET /api/posts`
(`pages/api/posts.js`) does three things:

- it asks Notion for the database's pages;
- it turns each page into a `Post` with `mapPageToPost`;
- it keeps the posts that are flagged "mostrar no widget" and have a media URL.

Everything here is pure, so the model is written as datatypes, functions and lemmas:

- `js_text.dfy` (module `JsText`): the JavaScript semantics the mapper leans
  on. This covers `null`/`undefined` as `Option` and the truthiness of strings.
  It also covers `String.prototype.trim` over the ECMAScript whitespace and
  line-terminator set, `s.split(c)[0]`, and ASCII case-insensitive suffix comparison.
- `notion.dfy` (module `Notion`): a page is an id plus an optional map from
  property names to typed values (`Title`, `Files`, `Select`, `Checkbox`, `Other`).
  A files entry is uploaded, external or of an unknown kind.
- `post_mapper.dfy` (module `PostMapper`): `MapPageToPost` and the pieces it
  is built from:
  - the first present of the five media column names;
  - the first file's URL;
  - the media type from the URL's extension before the first `?`;
  - the title with its `"sem título"` placeholder;
  - the `formato` select and the `mostrar no widget` checkbox.
- `post_filter.dfy` (module `PostFilter`): `results.map(mapPageToPost)` and the
  two `.filter` calls, with the lemmas that the output is exactly the
  order-preserving selection of eligible posts and that filter order does not
  matter.
- `posts_handler.dfy` (module `PostsHandler`): the handler as a function of
  the HTTP method, the two configuration values and the outcome of the one
  upstream query. The outcome is "answered", "refused" (non-ok status) or "threw".

Notes on the semantics chosen:

- JavaScript property objects are always truthy. So `props[a] || props[b] || …`
  picks the first media column name that is *present*, even if that column has
  no files or is not a files property at all.
- The regular expression `/\.(mp4|mov|webm|m4v)$/i` has an ASCII-only pattern
  and no `u` flag. Its case folding therefore only ever matches ASCII letters
  with their other case, and the model compares ASCII lower-cased characters.
  `$` without the `m` flag is the end of the input.
- `mediaType` is computed only inside the "has files" branch. The model keeps
  that guard. `MapPageToPost`'s contract shows that the guard makes no
  difference: the type is always that of the URL.

Further facts about `pages/api/posts.js` that shape the model:

- The title is read only from the property `"Name"`.
- A post carries no platform and no date.
- The endpoint queries one configured database and takes no client selector.
- The visibility flag is filtered locally, before the media filter. The two
  filters commute; `PostFilter.FilterOrderIrrelevant` proves this.
- A missing configuration and an upstream failure both answer 500 with a `detail` field.

## Model

| member | source | states |
|---|---|---|
| `Notion.Props` | pages/api/posts.js:10 | absent properties read as the empty map; present properties, even an empty map, are used unchanged |
| `JsText.OrEmpty` | pages/api/posts.js:45 | the URL when it is truthy, otherwise the empty string |
| `JsText.Truthy` | pages/api/posts.js:69 | a string is truthy exactly when it is present and non-empty |
| `JsText.TrimStart` | pages/api/posts.js:30 | the result is a suffix of the input, everything dropped is trimmable, and it does not start with a trimmable character |
| `JsText.TrimEnd` | pages/api/posts.js:30 | the result is a prefix of the input, everything dropped is trimmable, and it does not end with a trimmable character |
| `JsText.Trim` | pages/api/posts.js:30 | neither end of the trimmed text is whitespace; it is empty exactly when the text is all whitespace |
| `JsText.TrimIsSlice` | pages/api/posts.js:30 | the trimmed text is a slice of the input with only whitespace outside it |
| `JsText.BeforeFirst` | pages/api/posts.js:45 | `split("?")[0]` is a prefix without `?`, followed in the input by `?` unless it is the whole input |
| `JsText.BeforeFirstOfJoin` | pages/api/posts.js:45 | the cut is at the first `?`: `path + "?" + query` gives back `path` when `path` has no `?` |
| `JsText.BeforeFirstWithout` | pages/api/posts.js:45 | a URL without `?` is kept whole |
| `JsText.EndsWithCaseInvariant` | pages/api/posts.js:46 | suffix comparison ignores ASCII case on both sides |
| `JsText.NoDotNoDottedSuffix` | pages/api/posts.js:46 | only a literal dot matches the dot of the pattern |
| `PostMapper.FirstPresentKey` | pages/api/posts.js:16-21 | the index found is of a present name with all earlier names absent; none is found exactly when no name is present |
| `PostMapper.FileUrl` | pages/api/posts.js:39-43 | an uploaded or external entry gives its URL; an entry of another type gives none |
| `PostMapper.MediaProp` | pages/api/posts.js:16-21 | none exactly when no media column name is present; otherwise the value under the first present name |
| `PostMapper.HasFiles` | pages/api/posts.js:36 | `midiaProp?.files?.length`: the media property is a files property with at least one entry |
| `PostMapper.IsVideoPath` | pages/api/posts.js:46 | the regex test: the path ends, ignoring ASCII case, in a dot and one of `mp4`, `mov`, `webm`, `m4v`, so a match puts a dot four or five characters from the end |
| `PostMapper.MediaTypeOfUrl` | pages/api/posts.js:45-48 | video exactly when the URL is non-empty and its part before the first `?` passes the video test; absent or empty URLs are images |
| `PostMapper.NameText` | pages/api/posts.js:30 | the `plain_text` of the first segment of `Name` when that is a title property with at least one segment; none otherwise, an empty title array included |
| `PostMapper.ShowFlag` | pages/api/posts.js:52 | true exactly when `mostrar no widget` is a checked checkbox |
| `PostMapper.EmptyUrlIsImage` | pages/api/posts.js:33-48 | an absent or empty URL has the image type |
| `PostMapper.TitleOf` | pages/api/posts.js:29-30 | the title is never empty and neither starts nor ends with whitespace |
| `PostMapper.FormatOf` | pages/api/posts.js:51 | the format is present exactly when `formato` is a select with a non-empty option name, and it is that name |
| `PostMapper.MapPageToPost` | pages/api/posts.js:9-62 | total; keeps the page id; title is `TitleOf` of the properties, hence non-empty and trimmed; format is `FormatOf`; URL is the first file's when the media column is a non-empty files list, else none; media type always that of the URL; flag true exactly when the `mostrar no widget` checkbox is present and checked |
| `PostMapper.FirstPresentWins` | pages/api/posts.js:16-21 | the media property is the value under the first present column name |
| `PostMapper.EmptyFirstColumnHidesLater` | pages/api/posts.js:16-36 | a first present column with an empty file list gives no URL and the image type; later names are not consulted |
| `PostMapper.NoMediaMeansImage` | pages/api/posts.js:33-49 | no files, or a first file of unknown type, gives no URL and the image type |
| `PostMapper.NoMediaColumn` | pages/api/posts.js:16-36 | with no media column name present there is no URL and the type is image |
| `PostMapper.MediaFromFirstFile` | pages/api/posts.js:36-43 | with a non-empty files list, the URL is that of its first entry |
| `PostMapper.TitleFromName` | pages/api/posts.js:13-30 | the title is the trimmed text of the first `Name` segment when non-empty, else `"sem título"` |
| `PostMapper.EmptyPageMaps` | pages/api/posts.js:10-61 | a page with no properties maps to the placeholder title, no media, image, no format, not shown |
| `PostMapper.VideoSuffixRecognised` | pages/api/posts.js:46-48 | any path ending in a dot and a video extension, in any ASCII case, is video |
| `PostMapper.VideoPathIgnoresCase` | pages/api/posts.js:46 | paths equal up to ASCII case get the same verdict |
| `PostMapper.DotlessPathIsImage` | pages/api/posts.js:46 | the dot is required: a path without one is never video |
| `PostMapper.QueryStringIgnored` | pages/api/posts.js:45-48 | adding a query string to a URL without `?` never changes its media type |
| `PostMapper.AnchoredAtEnd` | pages/api/posts.js:46 | the match is anchored at the end: a path not ending in `4`, `v` or `m` is never video |
| `PostMapper.UpperCaseVideoWithQuery` | pages/api/posts.js:45-48 | every `p + ".MP4?" + q` with a `?`-free `p` is a video: upper case is recognised and the query string is cut off |
| `PostMapper.DoubleExtensionIsImage` | pages/api/posts.js:46 | every `p + ".mp4.jpg"` with a `?`-free `p` is an image: an inner video extension does not count |
| `PostMapper.VideoNameInQueryIsIgnored` | pages/api/posts.js:45-46 | every `p + ".jpg?" + q` with a `?`-free `p` is an image, whatever video name the query string `q` holds |
| `PostFilter.Filter` | pages/api/posts.js:116-120 | a filtered list is no longer than its input and holds exactly the input elements the predicate accepts |
| `PostFilter.FilterIsSubsequence` | pages/api/posts.js:116-120 | filtering preserves order: the result is a subsequence of the input |
| `PostFilter.FilterSingleton` | pages/api/posts.js:116-120 | a one-element list keeps its element exactly when the predicate accepts it |
| `PostFilter.FilterAppend` | pages/api/posts.js:116-120 | filtering distributes over concatenation |
| `PostFilter.FilterFusion` | pages/api/posts.js:116-120 | two filters in a row equal one filter by the conjunction |
| `PostFilter.FilterCommutes` | pages/api/posts.js:116-120 | two filters applied in either order give the same list |
| `PostFilter.MapPages` | pages/api/posts.js:114 | mapping gives one post per page, the i-th post being the i-th page mapped |
| `PostFilter.IsMarked` | pages/api/posts.js:116 | the flag predicate: the post's `mostrarNoWidget` |
| `PostFilter.HasMedia` | pages/api/posts.js:120 | the media predicate: the post's URL is truthy |
| `PostFilter.PostsForWidget` | pages/api/posts.js:114-120 | every output post is flagged and has a non-empty URL; a post is in the output exactly when it is an eligible mapped page |
| `PostFilter.PostsForWidgetIsSelection` | pages/api/posts.js:114-120 | the output equals an independent page-by-page selection of eligible mapped posts, in page order |
| `PostFilter.PostsForWidgetKeepsOrder` | pages/api/posts.js:114-120 | the output is an order-preserving subsequence of the mapped pages |
| `PostFilter.FilterOrderIrrelevant` | pages/api/posts.js:116-120 | filtering by media first and by the flag second gives the same list |
| `PostsHandler.Handle` | pages/api/posts.js:64-131 | 405 exactly for a non-GET method; 200 with the widget posts exactly for a configured GET whose query answered; 500 with a detail field otherwise |
| `PostsHandler.Configured` | pages/api/posts.js:69 | true only when both the secret and the database id are present and non-empty; false when either is absent or empty |
| `PostsHandler.JsonTruthy` | pages/api/posts.js:105 | parsed `null`, `false`, `0` and `""` are falsy; every other parsed value is truthy |
| `PostsHandler.RefusedDetail` | pages/api/posts.js:105 | the detail is the parsed error body exactly when it parsed to a truthy value, and the upstream status otherwise |
| `PostsHandler.ThrownDetail` | pages/api/posts.js:129 | the detail is the exception's message when non-empty, else its string form |
| `PostsHandler.NonGetIgnoresEverythingElse` | pages/api/posts.js:65-67 | a non-GET answer does not depend on configuration or the upstream outcome, so the query is never reached |
| `PostsHandler.UpstreamFailureDetail` | pages/api/posts.js:100-130 | a refused query reports its error body when that is truthy, else its status; an exception reports its message, else its string form |
| `PostsHandler.MissingConfigIgnoresUpstream` | pages/api/posts.js:69-75 | missing configuration gives 500 whatever the upstream outcome would have been |
| `PostsHandler.SentPostsAreShowable` | pages/api/posts.js:114-124 | every post the handler sends is flagged and has a non-empty media URL |
| `PostsHandler.VideoPageMaps` | pages/api/posts.js:9-62 | the example page `VideoPage()` (flagged, one uploaded `cdn/a.MP4?v=2` file under `imagens e vídeos`) maps to an eligible video post with that URL |
| `PostsHandler.PageWithoutMediaColumnNotShown` | pages/api/posts.js:16-36 | every page with none of the five media column names maps to a post that is not shown, whatever its flag |
| `PostsHandler.BarePageMaps` | pages/api/posts.js:9-62 | the example page `BarePage()` (flagged, no media column) maps to a post that is not shown |
| `PostsHandler.OnlyShowablePageSurvives` | pages/api/posts.js:109-124 | with an eligible page and an ineligible one, the response is 200 with just the first page's post |
| `PostsHandler.OneVideoAmongTwo` | pages/api/posts.js:109-124 | under any configured GET, a flagged page of video type followed by a page with none of the five media column names gives 200 with just the video page's post |
| `PostsHandler.ExamplePagesGiveOneVideo` | pages/api/posts.js:109-124 | the example pages `VideoPage()` then `BarePage()` under the configuration `"secret"`, `"db"` give 200 with one post, the video of page `a` |

## Left out

- The `fetch` to Notion, with its URL, headers, sort order and page size. Response parsing is left out too. The query's outcome is an input value of `PostsHandler.Handle`.
- Reading `NOTION_SECRET` and `NOTION_DATABASE_ID` from the environment. They are two optional string inputs.
- `console.log` and `console.error` diagnostics, which have no effect on the response.
- `pages/index.js`, the React page: fetching, rendering, video play/pause toggling.
- JSON serialisation of the response. A `null` and an `undefined` `mediaUrl` are both `None`, though JSON output omits the latter.
- A parsed upstream error body is kept only up to its truthiness: arrays and objects are kept as their text. Numbers are kept as integers, which is enough for truthiness: a non-zero fraction behaves like any non-zero integer, and JSON cannot produce `NaN`.
- `PostMapper.MapPageToPost`: does not model a malformed files entry whose `file` or `external` object is missing. The source would throw a `TypeError` there, caught by the handler as a 500, and the model assumes Notion always supplies that object. Such an exception is covered only as an abstract `Threw` outcome.
- Strings are sequences of Unicode scalar values, not UTF-16 code units. Nothing in the mapper depends on string length.
