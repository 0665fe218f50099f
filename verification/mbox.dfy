/**
 * `dumpItemAsEmail`: the time-window filter, the choice of output, and the
 * message written for one item, as a list of header values and a body
 * rather than bytes.
 */
module Mbox {
  import opened Wrappers
  import opened Html
  import Items
  import opened Threading
  import opened Router

  /** `--since` (inclusive) and `--until` (exclusive), in seconds since the epoch. */
  datatype Window = Window(since: int, until: int)

  /** The filter of `dumpItemAsEmail`: an item is written unless `t < since` or `t >= until`. */
  function InWindow(t: int, w: Window): (r: bool)
    ensures w.until <= w.since ==> !r
  {
    !(t < w.since || t >= w.until)
  }

  /**
   * Runs over consecutive windows `[since, mid)` and `[mid, until)` write
   * each item of `[since, until)` exactly once between them.
   */
  lemma WindowSplit(t: int, since: int, mid: int, until: int)
    requires since <= mid <= until
    ensures InWindow(t, Window(since, until)) <==>
      InWindow(t, Window(since, mid)) || InWindow(t, Window(mid, until))
    ensures !(InWindow(t, Window(since, mid)) && InWindow(t, Window(mid, until)))
  {
  }

  /** The headers hn2mbox writes, in the order it writes them. */
  datatype HeaderName =
    | MessageId | From | Subject | Date | MimeVersion | ContentType
    | InReplyTo | References
    | HnLink | HnPoints | HnUrl | HnStoryLink | HnNumComments

  /** What a header carries: text, one id or number, or a list of ids (`References`). */
  datatype Value = Text(s: string) | Number(n: int) | Ids(ids: seq<int>)

  datatype Header = Header(name: HeaderName, value: Value)

  /**
   * The HTML body: a comment's text, or a story's link (the raw URL as
   * `href`, the escaped URL as link text) followed by its text.
   */
  datatype Body = CommentBody(html: string) | StoryBody(href: string, linkText: string, text: string)

  /** One message, after the constant `From ` envelope line. */
  datatype Mail = Mail(headers: seq<Header>, body: Body)

  /** `Subject` is the title, or the story title when the title is empty. */
  function SubjectText(item: Items.Item): string
  {
    if item.title == "" then item.storyTitle else item.title
  }

  function EnvelopeHeaders(item: Items.Item, dateText: string): seq<Header>
  {
    [Header(MessageId, Number(item.objectId)),
     Header(From, Text(item.author)),
     Header(Subject, Text(SubjectText(item))),
     Header(Date, Text(dateText)),
     Header(MimeVersion, Text("1.0")),
     Header(ContentType, Text("text/html; charset=utf-8"))]
  }

  function ThreadHeaders(item: Items.Item, refs: seq<int>): seq<Header>
  {
    if item.parentId != 0 then [Header(InReplyTo, Number(item.parentId)), Header(References, Ids(refs))]
    else []
  }

  function MetadataHeaders(item: Items.Item): seq<Header>
  {
    [Header(HnLink, Number(item.objectId)), Header(HnPoints, Number(item.points))]
    + (UrlHeader(item) + (StoryLinkHeader(item) + NumCommentsHeader(item)))
  }

  function UrlHeader(item: Items.Item): seq<Header>
  {
    if item.url != "" then [Header(HnUrl, Text(item.url))] else []
  }

  function StoryLinkHeader(item: Items.Item): seq<Header>
  {
    if item.storyId != 0 then [Header(HnStoryLink, Number(item.storyId))] else []
  }

  function NumCommentsHeader(item: Items.Item): seq<Header>
  {
    if item.parentId == 0 then [Header(HnNumComments, Number(item.numComments))] else []
  }

  /** The message for `item`; `refs` is the `References` list, used for comments only. */
  function Compose(item: Items.Item, dateText: string, refs: seq<int>): (m: Mail)
    ensures |m.headers| == 8 + (if item.parentId != 0 then 2 else 1) +
      (if item.url != "" then 1 else 0) + (if item.storyId != 0 then 1 else 0)
    ensures m.body.CommentBody? <==> item.parentId != 0
  {
    Mail(EnvelopeHeaders(item, dateText) + ThreadHeaders(item, refs) + MetadataHeaders(item),
         if item.parentId != 0 then CommentBody(item.commentText)
         else StoryBody(item.url, Escaped(item.url), item.storyText))
  }

  /** The value of the first header called `n`, if there is one. */
  function Lookup(hs: seq<Header>, n: HeaderName): Option<Value>
  {
    if hs == [] then None
    else if hs[0].name == n then Some(hs[0].value)
    else Lookup(hs[1..], n)
  }

  lemma {:induction false} LookupAppend(a: seq<Header>, b: seq<Header>, n: HeaderName)
    ensures Lookup(a + b, n) == if Lookup(a, n).Some? then Lookup(a, n) else Lookup(b, n)
  {
    if a == [] {
      assert a + b == b;
    } else {
      assert (a + b)[1..] == a[1..] + b;
      LookupAppend(a[1..], b, n);
    }
  }

  /** The first header called `n` is the one at `k` when none before it has that name. */
  lemma {:induction false} LookupAt(hs: seq<Header>, k: nat, n: HeaderName)
    requires k < |hs| && hs[k].name == n
    requires forall j :: 0 <= j < k ==> hs[j].name != n
    ensures Lookup(hs, n) == Some(hs[k].value)
  {
    if k > 0 {
      LookupAt(hs[1..], k - 1, n);
    }
  }

  /** No header called `n`, no value. */
  lemma {:induction false} LookupNone(hs: seq<Header>, n: HeaderName)
    requires forall h :: h in hs ==> h.name != n
    ensures Lookup(hs, n) == None
  {
    if hs != [] {
      assert hs[0] in hs;
      LookupNone(hs[1..], n);
    }
  }

  /**
   * Every message carries its id, its author, the subject (the title when
   * not empty, the story title otherwise), the date text and the HTML
   * content type.
   */
  lemma ComposeEnvelope(item: Items.Item, dateText: string, refs: seq<int>)
    ensures var hs := Compose(item, dateText, refs).headers;
      Lookup(hs, MessageId) == Some(Number(item.objectId)) &&
      Lookup(hs, From) == Some(Text(item.author)) &&
      Lookup(hs, Subject) == Some(Text(if item.title != "" then item.title else item.storyTitle)) &&
      Lookup(hs, Date) == Some(Text(dateText)) &&
      Lookup(hs, ContentType) == Some(Text("text/html; charset=utf-8"))
  {
    EnvelopeValues(item, dateText);
    LookupCompose(item, dateText, refs, MessageId);
    LookupCompose(item, dateText, refs, From);
    LookupCompose(item, dateText, refs, Subject);
    LookupCompose(item, dateText, refs, Date);
    LookupCompose(item, dateText, refs, ContentType);
  }

  lemma EnvelopeValues(item: Items.Item, dateText: string)
    ensures var e := EnvelopeHeaders(item, dateText);
      Lookup(e, MessageId) == Some(Number(item.objectId)) &&
      Lookup(e, From) == Some(Text(item.author)) &&
      Lookup(e, Subject) == Some(Text(SubjectText(item))) &&
      Lookup(e, Date) == Some(Text(dateText)) &&
      Lookup(e, ContentType) == Some(Text("text/html; charset=utf-8"))
  {
    var e := EnvelopeHeaders(item, dateText);
    LookupAt(e, 0, MessageId);
    LookupAt(e, 1, From);
    LookupAt(e, 2, Subject);
    LookupAt(e, 3, Date);
    LookupAt(e, 5, ContentType);
  }

  /** The value of header `n` in a composed message, read group by group. */
  lemma LookupCompose(item: Items.Item, dateText: string, refs: seq<int>, n: HeaderName)
    ensures Lookup(Compose(item, dateText, refs).headers, n) ==
      if Lookup(EnvelopeHeaders(item, dateText), n).Some? then Lookup(EnvelopeHeaders(item, dateText), n)
      else if Lookup(ThreadHeaders(item, refs), n).Some? then Lookup(ThreadHeaders(item, refs), n)
      else Lookup(MetadataHeaders(item), n)
  {
    var e, t, m := EnvelopeHeaders(item, dateText), ThreadHeaders(item, refs), MetadataHeaders(item);
    LookupAppend(e + t, m, n);
    LookupAppend(e, t, n);
  }

  /** The envelope group names none of the threading or metadata headers. */
  lemma EnvelopeLacks(item: Items.Item, dateText: string, n: HeaderName)
    requires n in {InReplyTo, References, HnLink, HnPoints, HnUrl, HnStoryLink, HnNumComments}
    ensures Lookup(EnvelopeHeaders(item, dateText), n) == None
  {
    LookupNone(EnvelopeHeaders(item, dateText), n);
  }

  /** The metadata group holds only the `X-HackerNews-*` headers. */
  lemma MetadataNames(item: Items.Item)
    ensures forall h :: h in MetadataHeaders(item) ==>
      h.name in {HnLink, HnPoints, HnUrl, HnStoryLink, HnNumComments}
  {
    var m1 := [Header(HnLink, Number(item.objectId)), Header(HnPoints, Number(item.points))];
    var u, s, c := UrlHeader(item), StoryLinkHeader(item), NumCommentsHeader(item);
    assert forall h :: h in u ==> h.name == HnUrl;
    assert forall h :: h in s ==> h.name == HnStoryLink;
    assert forall h :: h in c ==> h.name == HnNumComments;
    assert forall h :: h in s + c ==> h in s || h in c;
    assert forall h :: h in u + (s + c) ==> h in u || h in s + c;
    assert forall h :: h in MetadataHeaders(item) ==> h in m1 || h in u + (s + c);
  }

  /** `In-Reply-To` (the parent's id) and `References` (the list) appear exactly for comments. */
  lemma ComposeThreading(item: Items.Item, dateText: string, refs: seq<int>)
    ensures var hs := Compose(item, dateText, refs).headers;
      Lookup(hs, InReplyTo) == (if item.parentId != 0 then Some(Number(item.parentId)) else None) &&
      Lookup(hs, References) == (if item.parentId != 0 then Some(Ids(refs)) else None)
  {
    ThreadingLookup(item, dateText, refs, InReplyTo);
    ThreadingLookup(item, dateText, refs, References);
    var t := ThreadHeaders(item, refs);
    if item.parentId != 0 {
      LookupAt(t, 0, InReplyTo);
      LookupAt(t, 1, References);
    } else {
      assert t == [];
    }
  }

  /** A threading header's value in a composed message is its value in the threading group. */
  lemma ThreadingLookup(item: Items.Item, dateText: string, refs: seq<int>, n: HeaderName)
    requires n == InReplyTo || n == References
    ensures Lookup(Compose(item, dateText, refs).headers, n) == Lookup(ThreadHeaders(item, refs), n)
  {
    LookupCompose(item, dateText, refs, n);
    EnvelopeLacks(item, dateText, n);
    MetadataLacks(item, n);
  }

  /** The metadata group names no threading header. */
  lemma MetadataLacks(item: Items.Item, n: HeaderName)
    requires n == InReplyTo || n == References
    ensures Lookup(MetadataHeaders(item), n) == None
  {
    MetadataNames(item);
    LookupNone(MetadataHeaders(item), n);
  }

  /** The value of a metadata header in a composed message is its value in the metadata group. */
  lemma LookupMetadata(item: Items.Item, dateText: string, refs: seq<int>, n: HeaderName)
    requires n in {HnLink, HnPoints, HnUrl, HnStoryLink, HnNumComments}
    ensures Lookup(Compose(item, dateText, refs).headers, n) == Lookup(MetadataHeaders(item), n)
  {
    LookupCompose(item, dateText, refs, n);
    EnvelopeLacks(item, dateText, n);
    LookupNone(ThreadHeaders(item, refs), n);
  }

  /** Headers before `pre`'s end that do not carry name `n` are passed over. */
  lemma {:induction false} LookupSkip(pre: seq<Header>, rest: seq<Header>, n: HeaderName)
    requires forall h :: h in pre ==> h.name != n
    ensures Lookup(pre + rest, n) == Lookup(rest, n)
  {
    if pre != [] {
      var all := pre + rest;
      assert pre[0] in pre && all[0] == pre[0] && all != [];
      assert all[1..] == pre[1..] + rest;
      assert forall h :: h in pre[1..] ==> h in pre;
      LookupSkip(pre[1..], rest, n);
      assert Lookup(all, n) == Lookup(all[1..], n);
    } else {
      assert pre + rest == rest;
    }
  }

  /** An optional header group: present as its only element, or absent. */
  lemma LookupOptional(opt: seq<Header>, rest: seq<Header>, n: HeaderName, v: Value, present: bool)
    requires opt == (if present then [Header(n, v)] else [])
    requires forall h :: h in rest ==> h.name != n
    ensures Lookup(opt + rest, n) == if present then Some(v) else None
  {
    if !present {
      assert opt + rest == rest;
      LookupNone(rest, n);
    }
  }

  /**
   * The permalink and points always appear; `X-HackerNews-Url` exactly when
   * the URL is not empty, `X-HackerNews-Story-Link` exactly when `story_id`
   * is not 0, and `X-HackerNews-Num-Comments` exactly for stories.
   */
  lemma ComposeMetadata(item: Items.Item, dateText: string, refs: seq<int>)
    ensures var hs := Compose(item, dateText, refs).headers;
      Lookup(hs, HnLink) == Some(Number(item.objectId)) &&
      Lookup(hs, HnPoints) == Some(Number(item.points)) &&
      Lookup(hs, HnUrl) == (if item.url != "" then Some(Text(item.url)) else None) &&
      Lookup(hs, HnStoryLink) == (if item.storyId != 0 then Some(Number(item.storyId)) else None) &&
      Lookup(hs, HnNumComments) == (if item.parentId == 0 then Some(Number(item.numComments)) else None)
  {
    LookupMetadata(item, dateText, refs, HnLink);
    LookupMetadata(item, dateText, refs, HnPoints);
    LookupMetadata(item, dateText, refs, HnUrl);
    LookupMetadata(item, dateText, refs, HnStoryLink);
    LookupMetadata(item, dateText, refs, HnNumComments);
    MetadataFixed(item);
    MetadataUrl(item);
    MetadataStoryLink(item);
    MetadataNumComments(item);
  }

  lemma MetadataFixed(item: Items.Item)
    ensures Lookup(MetadataHeaders(item), HnLink) == Some(Number(item.objectId))
    ensures Lookup(MetadataHeaders(item), HnPoints) == Some(Number(item.points))
  {
    LookupAt(MetadataHeaders(item), 0, HnLink);
    LookupAt(MetadataHeaders(item), 1, HnPoints);
  }

  lemma MetadataUrl(item: Items.Item)
    ensures Lookup(MetadataHeaders(item), HnUrl) == if item.url != "" then Some(Text(item.url)) else None
  {
    var m1 := [Header(HnLink, Number(item.objectId)), Header(HnPoints, Number(item.points))];
    var u, s, c := UrlHeader(item), StoryLinkHeader(item), NumCommentsHeader(item);
    LookupSkip(m1, u + (s + c), HnUrl);
    assert forall h :: h in s + c ==> h in s || h in c;
    LookupOptional(u, s + c, HnUrl, Text(item.url), item.url != "");
  }

  lemma MetadataStoryLink(item: Items.Item)
    ensures Lookup(MetadataHeaders(item), HnStoryLink) ==
      if item.storyId != 0 then Some(Number(item.storyId)) else None
  {
    var m1 := [Header(HnLink, Number(item.objectId)), Header(HnPoints, Number(item.points))];
    var u, s, c := UrlHeader(item), StoryLinkHeader(item), NumCommentsHeader(item);
    assert MetadataHeaders(item) == (m1 + u) + (s + c);
    assert forall h :: h in m1 + u ==> h in m1 || h in u;
    LookupSkip(m1 + u, s + c, HnStoryLink);
    LookupOptional(s, c, HnStoryLink, Number(item.storyId), item.storyId != 0);
  }

  lemma MetadataNumComments(item: Items.Item)
    ensures Lookup(MetadataHeaders(item), HnNumComments) ==
      if item.parentId == 0 then Some(Number(item.numComments)) else None
  {
    var m1 := [Header(HnLink, Number(item.objectId)), Header(HnPoints, Number(item.points))];
    var u, s, c := UrlHeader(item), StoryLinkHeader(item), NumCommentsHeader(item);
    var pre := m1 + u + s;
    assert MetadataHeaders(item) == pre + c;
    assert forall h :: h in pre ==> h in m1 || h in u || h in s;
    LookupSkip(pre, c, HnNumComments);
    LookupOptional(c, [], HnNumComments, Number(item.numComments), item.parentId == 0);
    assert c + [] == c;
  }

  /**
   * A comment's body is its `comment_text`; a story's is a link whose
   * `href` is the raw URL and whose text is the escaped URL, which holds no
   * quote, apostrophe or angle bracket and decodes back to the URL, then
   * the `story_text`.  The choice is made by `parent_id`, not by which text
   * is present.
   */
  lemma ComposeBody(item: Items.Item, dateText: string, refs: seq<int>)
    ensures var b := Compose(item, dateText, refs).body;
      (b.CommentBody? <==> item.parentId != 0) &&
      (b.CommentBody? ==> b.html == item.commentText) &&
      (b.StoryBody? ==>
        b.href == item.url && b.text == item.storyText &&
        '"' !in b.linkText && '\'' !in b.linkText && '<' !in b.linkText && '>' !in b.linkText &&
        Unescape(b.linkText) == item.url)
  {
    EscapedIsMarkupFree(item.url);
    UnescapeEscaped(item.url);
  }

  /** What `dumpItemAsEmail` did: nothing, exit for an output that could not be opened, or write. */
  datatype Emission = Dropped | Unavailable | Written(out: Handle, mail: Mail)

  /** `refs` is what the message's `References` list is built from: the walk for a comment. */
  predicate ThreadRefs(ids: map<int, int>, parentId: int, refs: seq<int>)
  {
    if parentId == 0 then refs == [] else IsChain(ids, parentId, refs)
  }

  /**
   * One call of `dumpItemAsEmail`.  `tmYear`, `tmMon` and `dateText` are
   * what `gmtime` and `strftime` give for `created_at_i`; `openResult` is
   * what `fopen` would return for that month's file.
   */
  method DumpItemAsEmail(item: Items.Item, ids: map<int, int>, window: Window, router: OutputRouter,
                         tmYear: int, tmMon: int, dateText: string, openResult: Option<nat>)
    returns (r: Emission)
    requires (InWindow(item.createdAtI, window) && item.parentId != 0 &&
              Route(router.split, router.files, tmYear, tmMon, openResult).result.Ok?) ==>
             exists d: nat :: ReachesRoot(ids, item.parentId, d)
    modifies router
    ensures r.Dropped? <==> !InWindow(item.createdAtI, window)
    ensures r.Dropped? ==> router.files == old(router.files)
    ensures !r.Dropped? ==>
      var routed := Route(router.split, old(router.files), tmYear, tmMon, openResult);
      router.files == routed.files &&
      (r.Unavailable? <==> routed.result.Err?) &&
      (r.Written? ==> r.out == routed.result.value)
    ensures r.Written? ==>
      exists refs :: ThreadRefs(ids, item.parentId, refs) && r.mail == Compose(item, dateText, refs)
  {
    var dt := item.createdAtI;
    if dt < window.since || dt >= window.until {
      return Dropped;
    }
    var out := router.GetFile(tmYear, tmMon, openResult);
    if out.Err? {
      return Unavailable;
    }
    var refs: seq<int> := [];
    if item.parentId != 0 {
      refs := ParentChain(ids, item.parentId);
    }
    r := Written(out.value, Compose(item, dateText, refs));
    assert ThreadRefs(ids, item.parentId, refs);
  }
}
