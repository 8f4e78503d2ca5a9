/** `mapPageToPost`: one Notion page becomes one widget post. */
module PostMapper {
  import opened JsText
  import opened Notion

  datatype MediaType = Image | Video

  /** The record the widget receives for one page. */
  datatype Post = Post(
    id: string,
    title: string,
    mediaUrl: Option<string>,
    mediaType: MediaType,
    format: Option<string>,
    mostrarNoWidget: bool)

  const NameKey := "Name"
  const FormatKey := "formato"
  const ShowKey := "mostrar no widget"
  const Placeholder := "sem título"

  /** The column names tried for the media files, in order. */
  const MediaKeys: seq<string> :=
    ["imagens e vídeos", "imagens e videos", "Imagem", "imagens", "imagens e vídeo"]

  /** The extensions `/\.(mp4|mov|webm|m4v)$/i` recognises as video. */
  const VideoExtensions: seq<string> := ["mp4", "mov", "webm", "m4v"]

  // ---------------------------------------------------------------------
  // Media column and URL

  /** The position of the first of `keys` present in `props`. A property
      object is always truthy, so `props[a] || props[b] || …` stops at the
      first name that is present, whatever its value. */
  function FirstPresentKey(props: map<string, Prop>, keys: seq<string>): (r: Option<nat>)
    ensures r.Some? ==> r.value < |keys| && keys[r.value] in props
                        && forall j :: 0 <= j < r.value ==> keys[j] !in props
    ensures r.None? <==> forall j :: 0 <= j < |keys| ==> keys[j] !in props
  {
    if keys == [] then None
    else if keys[0] in props then Some(0)
    else match FirstPresentKey(props, keys[1..])
      case None => None
      case Some(i) => Some(i + 1)
  }

  /** The media property `midiaProp`: the value under the first media column
      name present, none when no such name is present. */
  function MediaProp(props: map<string, Prop>): (r: Option<Prop>)
    ensures r.None? <==> forall j :: 0 <= j < |MediaKeys| ==> MediaKeys[j] !in props
    ensures r.Some? ==> exists i :: 0 <= i < |MediaKeys| && MediaKeys[i] in props
                                    && r.value == props[MediaKeys[i]]
                                    && forall j :: 0 <= j < i ==> MediaKeys[j] !in props
  {
    match FirstPresentKey(props, MediaKeys)
    case None => None
    case Some(i) => Some(props[MediaKeys[i]])
  }

  /** `midiaProp?.files?.length`: the media property is a files property
      with at least one entry. */
  predicate HasFiles(media: Option<Prop>) {
    media.Some? && media.value.Files? && |media.value.files| > 0
  }

  /** The URL of a files entry: `file.file.url` or `file.external.url`,
      none for another kind. */
  function FileUrl(f: FileRef): (u: Option<string>)
    ensures f.UnknownKind? ==> u.None?
    ensures !f.UnknownKind? ==> u == f.url
  {
    match f
    case Uploaded(u) => u
    case External(u) => u
    case UnknownKind => None
  }

  /** The test `/\.(mp4|mov|webm|m4v)$/i` makes of a path: it ends, ignoring
      ASCII case, with a dot followed by one of the video extensions. */
  predicate IsVideoPath(path: string)
    ensures IsVideoPath(path) ==> exists n :: 0 <= n && |path| - 5 <= n <= |path| - 4 && path[n] == '.'
  {
    assert forall k :: 0 <= k < |VideoExtensions| && EndsWithIgnoringCase(path, "." + VideoExtensions[k])
                       ==> path[|path| - |"." + VideoExtensions[k]|] == '.' by {
      forall k | 0 <= k < |VideoExtensions| && EndsWithIgnoringCase(path, "." + VideoExtensions[k])
        ensures path[|path| - |"." + VideoExtensions[k]|] == '.'
      {
        var e := "." + VideoExtensions[k];
        assert path[|path| - |e|..][0] == path[|path| - |e|];
        assert LowerAscii(path[|path| - |e|]) == LowerAscii(e[0]) == '.';
      }
    }
    exists k :: 0 <= k < |VideoExtensions| && EndsWithIgnoringCase(path, "." + VideoExtensions[k])
  }

  /** The media type of a URL, judged on its part before the first `?`;
      an absent URL is judged as the empty one. */
  function MediaTypeOfUrl(url: Option<string>): (t: MediaType)
    ensures !Truthy(url) ==> t == Image
    ensures t == Video <==> Truthy(url) && IsVideoPath(BeforeFirst(url.value, '?'))
  {
    assert BeforeFirst("", '?') == "";
    assert !IsVideoPath("") by {
      forall k | 0 <= k < |VideoExtensions| ensures |"." + VideoExtensions[k]| > 0 { }
    }
    if IsVideoPath(BeforeFirst(OrEmpty(url), '?')) then Video else Image
  }

  /** Without a URL (or with the empty one) there is nothing to recognise:
      the media type is image. */
  lemma EmptyUrlIsImage(url: Option<string>)
    requires !Truthy(url)
    ensures MediaTypeOfUrl(url) == Image
  {
    assert OrEmpty(url) == "";
    assert BeforeFirst("", '?') == "";
    assert !IsVideoPath("") by {
      forall k | 0 <= k < |VideoExtensions| ensures |"." + VideoExtensions[k]| > 0 { }
    }
  }

  // ---------------------------------------------------------------------
  // Title, format, flag

  /** `nameProp?.title?.[0]?.plain_text`: the text of the first segment of
      the `"Name"` title property. */
  function NameText(props: map<string, Prop>): (t: Option<string>)
    ensures NameKey in props && props[NameKey].Title? && |props[NameKey].segments| > 0
            ==> t == props[NameKey].segments[0].plainText
    ensures !(NameKey in props && props[NameKey].Title? && |props[NameKey].segments| > 0) ==> t.None?
  {
    if NameKey in props && props[NameKey].Title? && |props[NameKey].segments| > 0
    then props[NameKey].segments[0].plainText
    else None
  }

  /** A title the widget can show: non-empty, with no whitespace at either end. */
  predicate IsCleanTitle(t: string) {
    t != [] && !IsTrimmable(t[0]) && !IsTrimmable(t[|t| - 1])
  }

  /** `… ?.trim() || "sem título"` */
  function TitleOf(props: map<string, Prop>): (t: string)
    ensures IsCleanTitle(t)
  {
    match NameText(props)
    case Some(text) => if Trim(text) != "" then Trim(text) else Placeholder
    case None => Placeholder
  }

  /** `formatoProp?.select?.name || null`: the selected option's name, none
      when nothing (or an empty name) is selected. */
  function FormatOf(props: map<string, Prop>): (f: Option<string>)
    ensures f.Some? <==> FormatKey in props && props[FormatKey].Select? && Truthy(props[FormatKey].selected)
    ensures f.Some? ==> f.value != "" && props[FormatKey] == Select(f)
  {
    if FormatKey in props && props[FormatKey].Select? && Truthy(props[FormatKey].selected)
    then props[FormatKey].selected
    else None
  }

  /** `!!mostrarProp?.checkbox` */
  predicate ShowFlag(props: map<string, Prop>)
    ensures ShowFlag(props) <==> ShowKey in props && props[ShowKey] == Checkbox(true)
  {
    ShowKey in props && props[ShowKey].Checkbox? && props[ShowKey].checked
  }

  // ---------------------------------------------------------------------
  // The mapper

  /** Converts one page into a post. Total: any page, with or without
      properties, yields a post carrying the page's id and a non-empty,
      trimmed title; the media type always agrees with the media URL. */
  function MapPageToPost(page: Page): (r: Post)
    ensures r.id == page.id
    ensures IsCleanTitle(r.title)
    ensures r.mediaType == MediaTypeOfUrl(r.mediaUrl)
    ensures r.mostrarNoWidget <==> ShowKey in Props(page) && Props(page)[ShowKey] == Checkbox(true)
    ensures r.title == TitleOf(Props(page))
    ensures r.format == FormatOf(Props(page))
    ensures r.mediaUrl == if HasFiles(MediaProp(Props(page))) then FileUrl(MediaProp(Props(page)).value.files[0]) else None
  {
    var props := Props(page);
    var media := MediaProp(props);
    EmptyUrlIsImage(None);
    var mediaUrl := if HasFiles(media) then FileUrl(media.value.files[0]) else None;
    var mediaType :=
      if HasFiles(media) && IsVideoPath(BeforeFirst(OrEmpty(mediaUrl), '?')) then Video else Image;
    Post(page.id, TitleOf(props), mediaUrl, mediaType, FormatOf(props), ShowFlag(props))
  }

  // ---------------------------------------------------------------------
  // Properties of the mapper

  /** First present wins: the media property is the value of the first
      media column name present in the page, whatever it holds. */
  lemma FirstPresentWins(props: map<string, Prop>, i: nat)
    requires i < |MediaKeys| && MediaKeys[i] in props
    requires forall j :: 0 <= j < i ==> MediaKeys[j] !in props
    ensures MediaProp(props) == Some(props[MediaKeys[i]])
  {
    var r := FirstPresentKey(props, MediaKeys);
    assert r.Some?;
    assert !(r.value < i);
    assert !(r.value > i);
  }

  /** The first present media column decides even when its file list is
      empty: the mapper does not fall through to a later column name, and
      the post has no media URL and the image type. */
  lemma EmptyFirstColumnHidesLater(page: Page, i: nat)
    requires i < |MediaKeys| && MediaKeys[i] in Props(page)
    requires forall j :: 0 <= j < i ==> MediaKeys[j] !in Props(page)
    requires Props(page)[MediaKeys[i]] == Files([])
    ensures MapPageToPost(page).mediaUrl == None
    ensures MapPageToPost(page).mediaType == Image
  {
    FirstPresentWins(Props(page), i);
  }

  /** No usable media: no media column, a column that is not a non-empty
      files property, or a first file of an unknown kind all give no URL
      and the image type. */
  lemma NoMediaMeansImage(page: Page)
    requires var media := MediaProp(Props(page));
             !HasFiles(media) || media.value.files[0].UnknownKind?
    ensures MapPageToPost(page).mediaUrl == None
    ensures MapPageToPost(page).mediaType == Image
  {
    EmptyUrlIsImage(None);
  }

  /** With no media column name present at all there is no media. */
  lemma NoMediaColumn(page: Page)
    requires forall j :: 0 <= j < |MediaKeys| ==> MediaKeys[j] !in Props(page)
    ensures MapPageToPost(page).mediaUrl == None
    ensures MapPageToPost(page).mediaType == Image
  {
    assert MediaProp(Props(page)) == None;
    NoMediaMeansImage(page);
  }

  /** Otherwise the URL is that of the first entry of the media column. */
  lemma MediaFromFirstFile(page: Page)
    requires HasFiles(MediaProp(Props(page)))
    ensures MapPageToPost(page).mediaUrl == FileUrl(MediaProp(Props(page)).value.files[0])
  {
  }

  /** The title is the trimmed text of the first `"Name"` segment when that
      is non-empty, and the placeholder otherwise. */
  lemma TitleFromName(page: Page)
    ensures var text := NameText(Props(page));
            MapPageToPost(page).title ==
              if text.Some? && Trim(text.value) != "" then Trim(text.value) else Placeholder
  {
  }

  /** A page without properties still maps: the placeholder title, no media,
      no format and not shown. */
  lemma EmptyPageMaps(id: string)
    ensures MapPageToPost(Page(id, None)) == Post(id, Placeholder, None, Image, None, false)
  {
    NoMediaColumn(Page(id, None));
  }

  /** A path ending in a dot and a video extension, in any ASCII case, is
      recognised as video, whatever precedes it. */
  lemma VideoSuffixRecognised(prefix: string, suffix: string, k: nat)
    requires k < |VideoExtensions|
    requires EqualsIgnoringAsciiCase(suffix, "." + VideoExtensions[k])
    ensures IsVideoPath(prefix + suffix)
  {
    var s := prefix + suffix;
    assert s[|s| - |suffix|..] == suffix;
  }

  /** The test is case-insensitive: paths equal up to ASCII case are
      judged alike. */
  lemma VideoPathIgnoresCase(p: string, q: string)
    requires EqualsIgnoringAsciiCase(p, q)
    ensures IsVideoPath(p) == IsVideoPath(q)
  {
    forall k | 0 <= k < |VideoExtensions|
      ensures EndsWithIgnoringCase(p, "." + VideoExtensions[k])
              == EndsWithIgnoringCase(q, "." + VideoExtensions[k])
    {
      EndsWithCaseInvariant(p, q, "." + VideoExtensions[k]);
    }
  }

  /** The literal dot is required: a path with no dot is never video
      (so `"clipmp4"` is an image). */
  lemma DotlessPathIsImage(path: string)
    requires '.' !in path
    ensures !IsVideoPath(path)
  {
    forall k | 0 <= k < |VideoExtensions|
      ensures !EndsWithIgnoringCase(path, "." + VideoExtensions[k])
    {
      assert ("." + VideoExtensions[k])[0] == '.';
      NoDotNoDottedSuffix(path, "." + VideoExtensions[k]);
    }
  }

  /** The query string is cut at the first `?`: appending one to a URL
      without `?` does not change its media type, whatever it contains. */
  lemma QueryStringIgnored(path: string, query: string)
    requires '?' !in path
    ensures MediaTypeOfUrl(Some(path + "?" + query)) == MediaTypeOfUrl(Some(path))
  {
    BeforeFirstOfJoin(path, '?', query);
    BeforeFirstWithout(path, '?');
  }

  /** The match is anchored at the end: a path whose last character does
      not end any video extension (`4`, `v`, `m`, in either case) is never
      video, whatever extension occurs earlier in it. */
  lemma AnchoredAtEnd(path: string)
    requires path != []
    requires LowerAscii(path[|path| - 1]) != '4'
    requires LowerAscii(path[|path| - 1]) != 'v'
    requires LowerAscii(path[|path| - 1]) != 'm'
    ensures !IsVideoPath(path)
  {
    forall k | 0 <= k < |VideoExtensions|
      ensures !EndsWithIgnoringCase(path, "." + VideoExtensions[k])
    {
      var e := "." + VideoExtensions[k];
      if |e| <= |path| {
        var n := |path| - |e|;
        assert path[n..][|e| - 1] == path[|path| - 1];
        assert e[|e| - 1] in "4vm";
      }
    }
  }

  /** Upper case is recognised, and the query string is cut off:
      `….MP4?…` is a video. */
  lemma UpperCaseVideoWithQuery(prefix: string, query: string)
    requires '?' !in prefix
    ensures MediaTypeOfUrl(Some(prefix + ".MP4" + "?" + query)) == Video
  {
    var path := prefix + ".MP4";
    assert '?' !in path;
    QueryStringIgnored(path, query);
    BeforeFirstWithout(path, '?');
    VideoSuffixRecognised(prefix, ".MP4", 0);
  }

  /** A video extension followed by another one is not recognised:
      `….mp4.jpg` is an image. */
  lemma DoubleExtensionIsImage(prefix: string)
    requires '?' !in prefix
    ensures MediaTypeOfUrl(Some(prefix + ".mp4.jpg")) == Image
  {
    var path := prefix + ".mp4.jpg";
    assert '?' !in path;
    BeforeFirstWithout(path, '?');
    assert path[|path| - 1] == 'g';
    AnchoredAtEnd(path);
  }

  /** A video name inside the query string does not count:
      `….jpg?…` is an image whatever the query holds. */
  lemma VideoNameInQueryIsIgnored(prefix: string, query: string)
    requires '?' !in prefix
    ensures MediaTypeOfUrl(Some(prefix + ".jpg" + "?" + query)) == Image
  {
    var path := prefix + ".jpg";
    assert '?' !in path;
    QueryStringIgnored(path, query);
    BeforeFirstWithout(path, '?');
    assert path[|path| - 1] == 'g';
    AnchoredAtEnd(path);
  }
}
