/** The pipeline that turns the query's pages into the widget's posts:
    `results.map(mapPageToPost)`, then `.filter(p => p.mostrarNoWidget)`,
    then `.filter(p => p.mediaUrl)`. */
module PostFilter {
  import opened JsText
  import opened Notion
  import opened PostMapper

  /** `s.filter(keep)`: the elements of `s` that `keep` accepts, in order. */
  function Filter<T(!new)>(keep: T -> bool, s: seq<T>): (r: seq<T>)
    ensures |r| <= |s|
    ensures forall x :: x in r <==> x in s && keep(x)
  {
    if s == [] then [] else (if keep(s[0]) then [s[0]] else []) + Filter(keep, s[1..])
  }

  /** `a` is an order-preserving subsequence of `b`. */
  predicate IsSubsequence<T(==)>(a: seq<T>, b: seq<T>)
    decreases |b|
  {
    if a == [] then true
    else if b == [] then false
    else (a[0] == b[0] && IsSubsequence(a[1..], b[1..])) || IsSubsequence(a, b[1..])
  }

  /** Filtering keeps order: the result is a subsequence of the input. */
  lemma {:induction false} FilterIsSubsequence<T(!new)>(keep: T -> bool, s: seq<T>)
    ensures IsSubsequence(Filter(keep, s), s)
  {
    if s != [] {
      FilterIsSubsequence(keep, s[1..]);
      var r := Filter(keep, s);
      if keep(s[0]) {
        assert r == [s[0]] + Filter(keep, s[1..]);
        assert r[0] == s[0] && r[1..] == Filter(keep, s[1..]);
      } else {
        assert r == Filter(keep, s[1..]);
      }
    }
  }

  /** Filtering distributes over concatenation. */
  lemma {:induction false} FilterAppend<T(!new)>(keep: T -> bool, a: seq<T>, b: seq<T>)
    ensures Filter(keep, a + b) == Filter(keep, a) + Filter(keep, b)
  {
    if a != [] {
      assert (a + b)[1..] == a[1..] + b;
      FilterAppend(keep, a[1..], b);
    } else {
      assert a + b == b;
    }
  }

  /** Two filters in a row are one filter by the conjunction. */
  lemma {:induction false} FilterFusion<T(!new)>(first: T -> bool, second: T -> bool, both: T -> bool, s: seq<T>)
    requires forall x :: both(x) == (first(x) && second(x))
    ensures Filter(second, Filter(first, s)) == Filter(both, s)
  {
    if s != [] {
      FilterFusion(first, second, both, s[1..]);
      var head := if first(s[0]) then [s[0]] else [];
      FilterAppend(second, head, Filter(first, s[1..]));
    }
  }

  /** The order of two filters does not matter. */
  lemma {:induction false} FilterCommutes<T(!new)>(p: T -> bool, q: T -> bool, s: seq<T>)
    ensures Filter(q, Filter(p, s)) == Filter(p, Filter(q, s))
  {
    if s != [] {
      FilterCommutes(p, q, s[1..]);
      var hp := if p(s[0]) then [s[0]] else [];
      var hq := if q(s[0]) then [s[0]] else [];
      FilterAppend(q, hp, Filter(p, s[1..]));
      FilterAppend(p, hq, Filter(q, s[1..]));
    }
  }

  /** `p => p.mostrarNoWidget` */
  predicate IsMarked(p: Post) {
    p.mostrarNoWidget
  }

  /** `p => p.mediaUrl`: the URL is neither null, undefined nor empty. */
  predicate HasMedia(p: Post) {
    Truthy(p.mediaUrl)
  }

  /** A post the widget shows. */
  predicate Eligible(p: Post) {
    IsMarked(p) && HasMedia(p)
  }

  /** `results.map(mapPageToPost)`: one post per page, in page order. */
  function MapPages(pages: seq<Page>): (posts: seq<Post>)
    ensures |posts| == |pages|
    ensures forall i :: 0 <= i < |pages| ==> posts[i] == MapPageToPost(pages[i])
  {
    if pages == [] then [] else [MapPageToPost(pages[0])] + MapPages(pages[1..])
  }

  /** The posts sent to the widget. Every one is marked for the widget and
      has a non-empty media URL, and each comes from one of the pages. */
  function PostsForWidget(pages: seq<Page>): (posts: seq<Post>)
    ensures |posts| <= |pages|
    ensures forall p :: p in posts ==> p.mostrarNoWidget && p.mediaUrl.Some? && p.mediaUrl.value != ""
    ensures forall p :: p in posts <==> p in MapPages(pages) && Eligible(p)
  {
    var marcados := Filter(IsMarked, MapPages(pages));
    Filter(HasMedia, marcados)
  }

  /** The posts as an independent recursion over the pages: map each page
      and keep it exactly when it is eligible. */
  function WidgetPosts(pages: seq<Page>): seq<Post> {
    if pages == [] then []
    else
      var p := MapPageToPost(pages[0]);
      (if Eligible(p) then [p] else []) + WidgetPosts(pages[1..])
  }

  /** Filtering a one-element list keeps the element exactly when it is accepted. */
  lemma FilterSingleton<T(!new)>(keep: T -> bool, x: T)
    ensures Filter(keep, [x]) == if keep(x) then [x] else []
  {
    assert [x][1..] == [];
  }

  /** The pipeline is exactly the order-preserving selection of the mapped
      pages that are eligible. */
  lemma {:induction false} PostsForWidgetIsSelection(pages: seq<Page>)
    ensures PostsForWidget(pages) == WidgetPosts(pages)
  {
    if pages != [] {
      var p := MapPageToPost(pages[0]);
      var rest := MapPages(pages[1..]);
      PostsForWidgetIsSelection(pages[1..]);
      FilterAppend(IsMarked, [p], rest);
      FilterSingleton(IsMarked, p);
      FilterAppend(HasMedia, Filter(IsMarked, [p]), Filter(IsMarked, rest));
      if IsMarked(p) {
        FilterSingleton(HasMedia, p);
      }
    }
  }

  /** The output is an order-preserving subsequence of the mapped pages. */
  lemma PostsForWidgetKeepsOrder(pages: seq<Page>)
    ensures IsSubsequence(PostsForWidget(pages), MapPages(pages))
  {
    var mapped := MapPages(pages);
    FilterFusion(IsMarked, HasMedia, Eligible, mapped);
    FilterIsSubsequence(Eligible, mapped);
  }

  /** Applying the media filter before the flag filter gives the same list. */
  lemma FilterOrderIrrelevant(pages: seq<Page>)
    ensures PostsForWidget(pages) == Filter(IsMarked, Filter(HasMedia, MapPages(pages)))
  {
    FilterCommutes(IsMarked, HasMedia, MapPages(pages));
  }
}
