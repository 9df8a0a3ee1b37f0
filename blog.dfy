/** The read path of the blog server: the snapshot of posts loaded at start-up,
    the slug pass over their titles, the `rmdashes` display filter and the two
    request handlers (the index page and the post page). Rendering and the
    date formatter are foreign code and are given to the handlers as
    functions. */
module Blog {
  import opened Text

  newtype Int32 = x: int | -0x8000_0000 <= x < 0x8000_0000

  /** chrono's `NaiveDateTime`: a calendar date and a wall-clock time, with no
      time zone attached. The model never looks inside it. */
  datatype NaiveDateTime = NaiveDateTime(year: int, month: int, day: int,
                                         hour: int, minute: int, second: int, nanosecond: int)

  /** One row of `myposts`, as fetched. */
  datatype Post = Post(postId: Int32, postTitle: string, postDate: NaiveDateTime, postBody: string)

  /** What askama's `render()` returns: the HTML, or the error's display text. */
  datatype RenderResult = Rendered(html: string) | RenderError(message: string)

  /** The data handed to the `posts.html` template. */
  datatype PostTemplate = PostTemplate(postTitle: string, postDate: string, postBody: string)

  /** The data handed to the `index.html` template. */
  datatype IndexTemplate = IndexTemplate(id: seq<string>, indexTitle: string, indexLinks: seq<string>)

  datatype Body = Html(html: string) | PlainText(text: string)

  /** An HTTP response: status code and body. */
  datatype Response = Response(status: nat, body: Body)

  const Ok: nat := 200
  const NotFound: nat := 404
  const InternalServerError: nat := 500

  /** The page title of the index: "My blog " followed by the black-cat emoji
      (U+1F408, zero-width joiner, U+2B1B). */
  const IndexTitle: string := "My blog \U{1F408}\U{200D}\U{2B1B}"

  /** The value every field of the post template starts from. */
  const Sentinel: string := "none"

  // ---------------------------------------------------------------------------
  // Titles: the slug pass and the `rmdashes` filter

  /** The title as the start-up pass leaves it: every ' ' becomes '-'. */
  function SlugTitle(title: string): (r: string)
    ensures |r| == |title|
    ensures ' ' !in r
    ensures forall i :: 0 <= i < |title| ==> r[i] == (if title[i] == ' ' then '-' else title[i])
  {
    ReplaceChar(title, ' ', '-')
  }

  /** The `rmdashes` template filter: every '-' becomes ' '. */
  function RmDashes(title: string): (r: string)
    ensures |r| == |title|
    ensures '-' !in r
    ensures forall i :: 0 <= i < |title| ==> r[i] == (if title[i] == '-' then ' ' else title[i])
  {
    ReplaceChar(title, '-', ' ')
  }

  /** Displaying a slugged title gives back the original exactly when the
      original had no '-' of its own. */
  lemma {:induction false} RmDashesUndoesSlug(title: string)
    ensures RmDashes(SlugTitle(title)) == title <==> '-' !in title
  {
    var r := RmDashes(SlugTitle(title));
    if '-' in title {
      var k :| 0 <= k < |title| && title[k] == '-';
      assert r[k] == ' ';
    } else {
      assert forall i :: 0 <= i < |title| ==> r[i] == title[i];
    }
  }

  /** A title such as "my-blog", a hyphen between two parts with neither
      spaces nor hyphens, is left as it is by the slug pass and shown with a
      space in place of the hyphen. */
  lemma {:induction false} HyphenatedTitleDoesNotRoundTrip(a: string, b: string)
    requires ' ' !in a && '-' !in a && ' ' !in b && '-' !in b
    ensures SlugTitle(a + "-" + b) == a + "-" + b
    ensures RmDashes(SlugTitle(a + "-" + b)) == a + " " + b
  {
    var t := a + "-" + b;
    assert forall i :: 0 <= i < |t| ==> t[i] == (if i < |a| then a[i] else if i == |a| then '-' else b[i - |a| - 1]);
    SlugWithoutSpaces(t);
    var r := RmDashes(t);
    var shown := a + " " + b;
    assert forall i :: 0 <= i < |t| ==> r[i] == shown[i];
  }

  /** A title without spaces is its own slug. */
  lemma SlugWithoutSpaces(title: string)
    requires ' ' !in title
    ensures SlugTitle(title) == title
  {
    var r := SlugTitle(title);
    assert forall i :: 0 <= i < |title| ==> r[i] == title[i];
  }

  /** Only the title "none" is slugged into the post handler's sentinel. */
  lemma {:induction false} SlugIsSentinelIff(title: string)
    ensures SlugTitle(title) == Sentinel <==> title == Sentinel
  {
    var r := SlugTitle(title);
    if r == Sentinel {
      assert |title| == 4;
      assert forall i :: 0 <= i < 4 ==> title[i] == Sentinel[i];
    }
  }

  // ---------------------------------------------------------------------------
  // The load-time slug pass

  function SlugPost(p: Post): (r: Post)
  {
    p.(postTitle := SlugTitle(p.postTitle))
  }

  /** The snapshot after the start-up pass, post by post. */
  function SlugAll(rows: seq<Post>): (r: seq<Post>)
    ensures |r| == |rows|
    ensures forall i :: 0 <= i < |rows| ==> r[i] == SlugPost(rows[i])
  {
    if rows == [] then [] else [SlugPost(rows[0])] + SlugAll(rows[1..])
  }

  /** The pass keeps the order of the posts and every field but the title;
      each title keeps its length and loses its spaces. */
  lemma SlugAllKeepsPosts(rows: seq<Post>)
    ensures |SlugAll(rows)| == |rows|
    ensures forall i :: 0 <= i < |rows| ==>
      && SlugAll(rows)[i].postId == rows[i].postId
      && SlugAll(rows)[i].postDate == rows[i].postDate
      && SlugAll(rows)[i].postBody == rows[i].postBody
      && |SlugAll(rows)[i].postTitle| == |rows[i].postTitle|
      && ' ' !in SlugAll(rows)[i].postTitle
  {
  }

  /** The start-up pass over the fetched vector: each post's title is
      replaced by its slug in place, one post at a time, in order. */
  method SlugTitles(posts: array<Post>)
    modifies posts
    ensures posts[..] == SlugAll(old(posts[..]))
  {
    for i := 0 to posts.Length
      invariant forall k :: 0 <= k < i ==> posts[k] == SlugPost(old(posts[k]))
      invariant forall k :: i <= k < posts.Length ==> posts[k] == old(posts[k])
    {
      posts[i] := posts[i].(postTitle := SlugTitle(posts[i].postTitle));
    }
  }

  /** Start-up: the fetched rows, put in a fresh vector and slugged in place,
      become the snapshot every request reads. */
  method LoadSnapshot(rows: seq<Post>) returns (state: seq<Post>)
    ensures state == SlugAll(rows)
  {
    var posts := new Post[|rows|](i requires 0 <= i < |rows| => rows[i]);
    SlugTitles(posts);
    state := posts[..];
  }

  // ---------------------------------------------------------------------------
  // The index handler

  /** The template data the index handler builds: ids and titles in snapshot order. */
  function IndexPage(state: seq<Post>): (page: IndexTemplate)
  {
    IndexTemplate(seq(|state|, i requires 0 <= i < |state| => DecimalString(state[i].postId as int)),
                  IndexTitle,
                  seq(|state|, i requires 0 <= i < |state| => state[i].postTitle))
  }

  /** The index handler's answer: 200 with HTML, or 500 with plain text. */
  function IndexResponse(state: seq<Post>, render: IndexTemplate -> RenderResult): (resp: Response)
    ensures resp.status in {Ok, InternalServerError}
    ensures resp.body.Html? <==> resp.status == Ok
  {
    match render(IndexPage(state))
    case Rendered(html) => Response(Ok, Html(html))
    case RenderError(err) =>
      Response(InternalServerError, PlainText("Failed to render template. Error " + err))
  }

  /** `index`: pushes each post's title and id onto two lists, renders, and
      answers 200 with the page or 500 with the error. */
  method ServeIndex(state: seq<Post>, render: IndexTemplate -> RenderResult) returns (resp: Response)
    ensures resp == IndexResponse(state, render)
  {
    var plinks: seq<string> := [];
    var ids: seq<string> := [];
    for i := 0 to |state|
      invariant |plinks| == i && |ids| == i
      invariant forall k :: 0 <= k < i ==> plinks[k] == state[k].postTitle
      invariant forall k :: 0 <= k < i ==> ids[k] == DecimalString(state[k].postId as int)
    {
      plinks := plinks + [state[i].postTitle];
      ids := ids + [DecimalString(state[i].postId as int)];
    }
    var template := IndexTemplate(ids, IndexTitle, plinks);
    assert template == IndexPage(state);
    var outcome := render(template);
    match outcome {
      case Rendered(html) =>
        resp := Response(Ok, Html(html));
      case RenderError(err) =>
        resp := Response(InternalServerError, PlainText("Failed to render template. Error " + err));
    }
  }

  /** One link per post, in snapshot order; each id reads back as the post's id. */
  lemma IndexPageLists(state: seq<Post>)
    ensures |IndexPage(state).id| == |state| && |IndexPage(state).indexLinks| == |state|
    ensures IndexPage(state).indexTitle == IndexTitle
    ensures forall i :: 0 <= i < |state| ==>
      && IndexPage(state).indexLinks[i] == state[i].postTitle
      && ParseDecimal(IndexPage(state).id[i]) == state[i].postId as int
  {
    forall i | 0 <= i < |state|
      ensures ParseDecimal(IndexPage(state).id[i]) == state[i].postId as int
    {
      DecimalRoundTrip(state[i].postId as int);
    }
  }

  /** On a loaded snapshot the index links are the slugged titles of the
      fetched rows, not the titles as written. */
  lemma IndexLinksAreSlugs(rows: seq<Post>)
    ensures forall i :: 0 <= i < |rows| ==>
      IndexPage(SlugAll(rows)).indexLinks[i] == SlugTitle(rows[i].postTitle)
  {
  }

  /** The index answers 200 with the rendered page exactly when the template
      renders, and otherwise 500 carrying the renderer's error text. */
  lemma IndexResponseCases(state: seq<Post>, render: IndexTemplate -> RenderResult)
    ensures IndexResponse(state, render).status == Ok <==> render(IndexPage(state)).Rendered?
    ensures IndexResponse(state, render).status in {Ok, InternalServerError}
    ensures render(IndexPage(state)).Rendered? ==>
      IndexResponse(state, render).body == Html(render(IndexPage(state)).html)
    ensures render(IndexPage(state)).RenderError? ==>
      IndexResponse(state, render).body ==
        PlainText("Failed to render template. Error " + render(IndexPage(state)).message)
  {
  }

  // ---------------------------------------------------------------------------
  // The post handler

  const SentinelTemplate := PostTemplate(Sentinel, Sentinel, Sentinel)

  function TemplateOf(p: Post, showDate: NaiveDateTime -> string): (t: PostTemplate)
  {
    PostTemplate(p.postTitle, showDate(p.postDate), p.postBody)
  }

  /** The template the post handler's loop ends with: the sentinel for an
      empty snapshot, otherwise the last post's title, date and body. */
  function SelectedTemplate(state: seq<Post>, showDate: NaiveDateTime -> string): (t: PostTemplate)
  {
    if state == [] then SentinelTemplate else TemplateOf(state[|state| - 1], showDate)
  }

  /** The post handler's answer: 200 with HTML, 404 "404 not found" or
      500 "try again later". */
  function PostResponse(state: seq<Post>, showDate: NaiveDateTime -> string,
                        render: PostTemplate -> RenderResult): (resp: Response)
    ensures resp.status in {Ok, NotFound, InternalServerError}
    ensures resp.body.Html? <==> resp.status == Ok
    ensures resp.status == NotFound ==> resp.body == PlainText("404 not found")
    ensures resp.status == InternalServerError ==> resp.body == PlainText("try again later")
  {
    var template := SelectedTemplate(state, showDate);
    if template.postTitle == Sentinel then Response(NotFound, PlainText("404 not found"))
    else match render(template)
      case Rendered(html) => Response(Ok, Html(html))
      case RenderError(_) => Response(InternalServerError, PlainText("try again later"))
  }

  /** `post`: overwrites the template with every post in turn, answers 404 if
      the title is still "none", and otherwise renders. `id` is the path
      segment the route `/post/:id` matches; the handler never reads it, and
      the response does not depend on it. `showDate` is chrono's
      `NaiveDateTime::to_string`. */
  method ServePost(id: string, state: seq<Post>, showDate: NaiveDateTime -> string,
                   render: PostTemplate -> RenderResult) returns (resp: Response)
    ensures resp == PostResponse(state, showDate, render)
  {
    var template := SentinelTemplate;
    for i := 0 to |state|
      invariant i == 0 ==> template == SentinelTemplate
      invariant i > 0 ==> template == TemplateOf(state[i - 1], showDate)
    {
      template := PostTemplate(state[i].postTitle, showDate(state[i].postDate), state[i].postBody);
    }
    if template.postTitle == Sentinel {
      resp := Response(NotFound, PlainText("404 not found"));
      return;
    }
    var outcome := render(template);
    match outcome {
      case Rendered(html) =>
        resp := Response(Ok, Html(html));
      case RenderError(_) =>
        resp := Response(InternalServerError, PlainText("try again later"));
    }
  }

  /** An empty snapshot gives 404 "404 not found" whatever the renderer would do. */
  lemma EmptySnapshotIsNotFound(showDate: NaiveDateTime -> string,
                                render1: PostTemplate -> RenderResult,
                                render2: PostTemplate -> RenderResult)
    ensures PostResponse([], showDate, render1) == Response(NotFound, PlainText("404 not found"))
    ensures PostResponse([], showDate, render1) == PostResponse([], showDate, render2)
  {
  }

  /** The post page is built from the last post alone: its title and body as
      stored and its date as formatted, with no time-zone shift. */
  lemma PostUsesLastPost(state: seq<Post>, showDate: NaiveDateTime -> string)
    requires state != []
    ensures SelectedTemplate(state, showDate).postTitle == state[|state| - 1].postTitle
    ensures SelectedTemplate(state, showDate).postDate == showDate(state[|state| - 1].postDate)
    ensures SelectedTemplate(state, showDate).postBody == state[|state| - 1].postBody
  {
  }

  /** Two snapshots that end with the same post get the same answer, whatever
      comes before it. */
  lemma {:induction false} OnlyLastPostMatters(s1: seq<Post>, s2: seq<Post>,
                                               showDate: NaiveDateTime -> string,
                                               render: PostTemplate -> RenderResult)
    requires s1 != [] && s2 != [] && s1[|s1| - 1] == s2[|s2| - 1]
    ensures PostResponse(s1, showDate, render) == PostResponse(s2, showDate, render)
  {
  }

  /** The three outcomes of the post handler and exactly when each occurs. */
  lemma PostResponseCases(state: seq<Post>, showDate: NaiveDateTime -> string,
                          render: PostTemplate -> RenderResult)
    ensures PostResponse(state, showDate, render).status == NotFound <==>
      (state == [] || state[|state| - 1].postTitle == Sentinel)
    ensures PostResponse(state, showDate, render).status == Ok <==>
      (state != [] && state[|state| - 1].postTitle != Sentinel
       && render(SelectedTemplate(state, showDate)).Rendered?)
    ensures PostResponse(state, showDate, render).status == InternalServerError <==>
      (state != [] && state[|state| - 1].postTitle != Sentinel
       && render(SelectedTemplate(state, showDate)).RenderError?)
    ensures PostResponse(state, showDate, render).status == NotFound ==>
      PostResponse(state, showDate, render).body == PlainText("404 not found")
    ensures PostResponse(state, showDate, render).status == Ok ==>
      PostResponse(state, showDate, render).body == Html(render(SelectedTemplate(state, showDate)).html)
    ensures PostResponse(state, showDate, render).status == InternalServerError ==>
      PostResponse(state, showDate, render).body == PlainText("try again later")
  {
  }

  /** On a loaded snapshot the post page answers 404 although posts exist
      exactly when the last fetched row is titled "none". */
  lemma LoadedSnapshotNotFound(rows: seq<Post>, showDate: NaiveDateTime -> string,
                               render: PostTemplate -> RenderResult)
    requires rows != []
    ensures PostResponse(SlugAll(rows), showDate, render).status == NotFound <==>
      rows[|rows| - 1].postTitle == Sentinel
  {
    var last := rows[|rows| - 1];
    var state := SlugAll(rows);
    assert state[|state| - 1].postTitle == SlugTitle(last.postTitle);
    PostResponseCases(state, showDate, render);
    SlugIsSentinelIff(last.postTitle);
  }
}
