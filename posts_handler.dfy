/** The decision skeleton of the `/api/posts` handler: method check,
    configuration check, upstream outcome, and the success response. The
    upstream query itself is not modelled; its outcome is an input. */
module PostsHandler {
  import opened JsText
  import opened Notion
  import opened PostMapper
  import opened PostFilter

  /** What the single query to the database ended in. */
  datatype Upstream =
      /** An ok response; the parsed body's `results`, which may be missing. */
    | Answered(results: Option<seq<Page>>)
      /** A non-ok response with its status and its parsed error body, none
          when the body does not parse (`.catch(() => null)`). */
    | Refused(status: int, errorBody: Option<Json>)
      /** An exception: its `message` (possibly missing or empty) and its
          `String(error)` rendering. */
    | Threw(message: Option<string>, rendered: string)

  /** A parsed JSON value, as far as its truthiness goes; arrays and objects
      are kept as their text. */
  datatype Json =
    | JsonNull
    | JsonBool(b: bool)
    | JsonNumber(n: int)
    | JsonString(s: string)
    | JsonCompound(text: string)

  /** JavaScript truthiness of a parsed JSON value: `null`, `false`, `0` and
      `""` are falsy; arrays and objects, even empty ones, are truthy. */
  predicate JsonTruthy(j: Json) {
    match j
    case JsonNull => false
    case JsonBool(b) => b
    case JsonNumber(n) => n != 0
    case JsonString(s) => s != ""
    case JsonCompound(_) => true
  }

  /** The `detail` field of an error body. */
  datatype Detail =
    | Text(text: string)
    | UpstreamBody(body: Json)
    | UpstreamStatus(status: int)

  datatype Body =
    | ErrorBody(error: string, detail: Option<Detail>)
    | PostsBody(posts: seq<Post>)

  datatype Response = Response(status: nat, body: Body)

  const MethodNotAllowedMessage := "Método não permitido"
  const MissingConfigMessage := "Configuração faltando"
  const MissingConfigDetail := "NOTION_SECRET ou NOTION_DATABASE_ID não estão definidos no .env.local"
  const UpstreamErrorMessage := "Erro ao consultar Notion"
  const UnexpectedErrorMessage := "Erro inesperado ao carregar posts"

  /** `NOTION_SECRET && NOTION_DATABASE_ID`: both are set and non-empty. */
  predicate Configured(secret: Option<string>, databaseId: Option<string>)
    ensures Configured(secret, databaseId) ==> secret.Some? && secret.value != ""
                                               && databaseId.Some? && databaseId.value != ""
    ensures !Configured(secret, databaseId) ==> secret in {None, Some("")} || databaseId in {None, Some("")}
  {
    Truthy(secret) && Truthy(databaseId)
  }

  /** `errData || { status }`: the parsed error body when it is truthy, and
      otherwise the upstream status. */
  function RefusedDetail(status: int, errorBody: Option<Json>): (d: Detail)
    ensures d.UpstreamBody? <==> errorBody.Some? && JsonTruthy(errorBody.value)
    ensures d.UpstreamBody? ==> d.body == errorBody.value
    ensures !d.UpstreamBody? ==> d == UpstreamStatus(status)
  {
    match errorBody
    case Some(b) => if JsonTruthy(b) then UpstreamBody(b) else UpstreamStatus(status)
    case None => UpstreamStatus(status)
  }

  /** `error.message || String(error)`: the message when it is non-empty,
      else the error's string form. */
  function ThrownDetail(message: Option<string>, rendered: string): (d: Detail)
    ensures d.Text?
    ensures Truthy(message) ==> d.text == message.value
    ensures !Truthy(message) ==> d.text == rendered
  {
    Text(if Truthy(message) then message.value else rendered)
  }

  /** The handler's response. 405 exactly for a method other than GET; 200
      with the widget posts exactly when the request is a GET, the
      configuration is present and the query answered; 500 with a detail
      field in every other case. */
  function Handle(verb: string, secret: Option<string>, databaseId: Option<string>,
                  upstream: Upstream): (r: Response)
    ensures r.status in {200, 405, 500}
    ensures r.status == 405 <==> verb != "GET"
    ensures r.status == 200 <==> verb == "GET" && Configured(secret, databaseId) && upstream.Answered?
    ensures r.status == 200 ==> r.body == PostsBody(PostsForWidget(upstream.results.GetOr([])))
    ensures r.status == 500 ==> r.body.ErrorBody? && r.body.detail.Some?
    ensures r.body.PostsBody? <==> r.status == 200
  {
    if verb != "GET" then
      Response(405, ErrorBody(MethodNotAllowedMessage, None))
    else if !Configured(secret, databaseId) then
      Response(500, ErrorBody(MissingConfigMessage, Some(Text(MissingConfigDetail))))
    else
      match upstream
      case Answered(results) => Response(200, PostsBody(PostsForWidget(results.GetOr([]))))
      case Refused(status, errorBody) =>
        Response(500, ErrorBody(UpstreamErrorMessage, Some(RefusedDetail(status, errorBody))))
      case Threw(message, rendered) =>
        Response(500, ErrorBody(UnexpectedErrorMessage, Some(ThrownDetail(message, rendered))))
  }

  /** A non-GET request is answered before anything else is looked at: the
      configuration and the upstream outcome make no difference. */
  lemma NonGetIgnoresEverythingElse(verb: string, s1: Option<string>, d1: Option<string>, u1: Upstream,
                                    s2: Option<string>, d2: Option<string>, u2: Upstream)
    requires verb != "GET"
    ensures Handle(verb, s1, d1, u1) == Handle(verb, s2, d2, u2)
    ensures Handle(verb, s1, d1, u1) == Response(405, ErrorBody(MethodNotAllowedMessage, None))
  {
  }

  /** The detail of a failed query: the upstream error body when it parsed
      to something truthy, else the upstream status; for an exception its
      message when non-empty, else its string rendering. */
  lemma UpstreamFailureDetail(secret: Option<string>, databaseId: Option<string>, upstream: Upstream)
    requires Configured(secret, databaseId) && !upstream.Answered?
    ensures var r := Handle("GET", secret, databaseId, upstream);
            r.status == 500 &&
            match upstream
            case Refused(status, errorBody) =>
              r.body == ErrorBody(UpstreamErrorMessage,
                                  Some(if errorBody.Some? && JsonTruthy(errorBody.value) then UpstreamBody(errorBody.value)
                                       else UpstreamStatus(status)))
            case Threw(message, rendered) =>
              r.body == ErrorBody(UnexpectedErrorMessage,
                                  Some(Text(if Truthy(message) then message.value else rendered)))
  {
  }

  /** Missing configuration is reported before the query: the upstream
      outcome makes no difference. */
  lemma MissingConfigIgnoresUpstream(secret: Option<string>, databaseId: Option<string>,
                                     u1: Upstream, u2: Upstream)
    requires !Configured(secret, databaseId)
    ensures Handle("GET", secret, databaseId, u1) == Handle("GET", secret, databaseId, u2)
    ensures Handle("GET", secret, databaseId, u1).status == 500
  {
  }

  /** Every post the handler ever sends is marked for the widget and has a
      non-empty media URL. */
  lemma SentPostsAreShowable(verb: string, secret: Option<string>, databaseId: Option<string>,
                             upstream: Upstream, p: Post)
    requires Handle(verb, secret, databaseId, upstream).body.PostsBody?
    requires p in Handle(verb, secret, databaseId, upstream).body.posts
    ensures p.mostrarNoWidget && Truthy(p.mediaUrl)
  {
  }

  /** A flagged page whose media column holds one uploaded MP4 file. */
  function VideoPage(): Page {
    Page("a", Some(map["imagens e vídeos" := Files([Uploaded(Some("cdn/a.MP4?v=2"))]),
                       "mostrar no widget" := Checkbox(true)]))
  }

  /** A flagged page with no file column. */
  function BarePage(): Page {
    Page("b", Some(map["mostrar no widget" := Checkbox(true)]))
  }

  /** The example page `VideoPage()` maps to an eligible video post. */
  lemma VideoPageMaps()
    ensures MapPageToPost(VideoPage()).mediaUrl == Some("cdn/a.MP4?v=2")
    ensures MapPageToPost(VideoPage()).mediaType == Video
    ensures Eligible(MapPageToPost(VideoPage()))
  {
    FirstPresentWins(Props(VideoPage()), 0);
    assert "cdn/a" + ".MP4" + "?" + "v=2" == "cdn/a.MP4?v=2";
    UpperCaseVideoWithQuery("cdn/a", "v=2");
  }

  /** A page with none of the media column names is never shown, whatever
      its flag. */
  lemma PageWithoutMediaColumnNotShown(page: Page)
    requires forall j :: 0 <= j < |MediaKeys| ==> MediaKeys[j] !in Props(page)
    ensures !Eligible(MapPageToPost(page))
  {
    NoMediaColumn(page);
  }

  /** The example page `BarePage()` is not shown. */
  lemma BarePageMaps()
    ensures !Eligible(MapPageToPost(BarePage()))
  {
    var props := Props(BarePage());
    assert props.Keys == {"mostrar no widget"};
    assert forall j :: 0 <= j < |MediaKeys| ==> MediaKeys[j] != "mostrar no widget";
    PageWithoutMediaColumnNotShown(BarePage());
  }

  /** A query answered with a showable page followed by one without
      media yields exactly the first page's post. */
  lemma OnlyShowablePageSurvives(shown: Page, dropped: Page, secret: Option<string>, databaseId: Option<string>)
    requires Configured(secret, databaseId)
    requires Eligible(MapPageToPost(shown)) && !Eligible(MapPageToPost(dropped))
    ensures Handle("GET", secret, databaseId, Answered(Some([shown, dropped])))
            == Response(200, PostsBody([MapPageToPost(shown)]))
  {
    var pages := [shown, dropped];
    assert pages[1..] == [dropped];
    assert WidgetPosts([dropped]) == [] by {
      assert [dropped][1..] == [];
    }
    assert WidgetPosts(pages) == [MapPageToPost(shown)];
    PostsForWidgetIsSelection(pages);
  }

  /** A query answered with two pages, a flagged video page and a page
      with none of the media column names, yields exactly the video's post. */
  lemma OneVideoAmongTwo(video: Page, bare: Page, secret: Option<string>, databaseId: Option<string>)
    requires Configured(secret, databaseId)
    requires MapPageToPost(video).mostrarNoWidget && MapPageToPost(video).mediaType == Video
    requires forall j :: 0 <= j < |MediaKeys| ==> MediaKeys[j] !in Props(bare)
    ensures Handle("GET", secret, databaseId, Answered(Some([video, bare])))
            == Response(200, PostsBody([MapPageToPost(video)]))
  {
    PageWithoutMediaColumnNotShown(bare);
    OnlyShowablePageSurvives(video, bare, secret, databaseId);
  }

  /** The two example pages: the answer holds one post, the video of
      page "a". */
  lemma ExamplePagesGiveOneVideo()
    ensures var r := Handle("GET", Some("secret"), Some("db"), Answered(Some([VideoPage(), BarePage()])));
            r.status == 200 && |r.body.posts| == 1 && r.body.posts[0].mediaType == Video
            && r.body.posts[0].id == "a"
  {
    VideoPageMaps();
    BarePageMaps();
    OnlyShowablePageSurvives(VideoPage(), BarePage(), Some("secret"), Some("db"));
  }
}
