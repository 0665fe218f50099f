/**
 * A story and one of its comments, as the JSON reader delivers them,
 * followed from the decoder's events to the messages written for them.
 */
module Scenario {
  import opened Wrappers
  import opened Strings
  import opened Items
  import opened ItemsHandlers
  import opened Threading
  import opened Mbox

  const Story := Default.(title := "S", objectId := 1)
  const Comment := Default.(parentId := 1, storyId := 1, objectId := 2)

  /** The keys of the example, read through the key table. */
  lemma TitleKey()
    ensures ElementNamed("title") == Title && "title" != "hits" && "title" != "_highlightResult"
  {
  }

  lemma ObjectIdKey()
    ensures ElementNamed("objectID") == ObjectId
    ensures "objectID" != "hits" && "objectID" != "_highlightResult"
  {
  }

  lemma ParentIdKey()
    ensures ElementNamed("parent_id") == ParentId
    ensures "parent_id" != "hits" && "parent_id" != "_highlightResult"
  {
  }

  lemma StoryIdKey()
    ensures ElementNamed("story_id") == StoryId
    ensures "story_id" != "hits" && "story_id" != "_highlightResult"
  {
  }

  /** The example's values, stored: none of them needs normalising. */
  lemma StoryTitleStored()
    ensures StoreText(Default, Title, Normalize("S")) == Default.(title := "S")
  {
    NormalizeWithoutCR("S");
  }

  /** An `objectID` written in decimal is stored as its value. */
  lemma DecimalIdStored(item: Item, n: nat)
    ensures StoreText(item, ObjectId, Normalize(DecimalString(n))) == item.(objectId := n)
  {
    DecimalIsPlain(n);
    AtoiOfDecimal(n);
  }

  lemma DecimalIsPlain(n: nat)
    ensures Normalize(DecimalString(n)) == DecimalString(n)
  {
    var s := DecimalString(n);
    assert '\r' !in s && '\n' !in s by {
      assert forall i :: 0 <= i < |s| ==> IsDigit(s[i]);
    }
    NormalizeWithoutCR(s);
  }

  lemma StoryIdStored()
    ensures StoreText(Default.(title := "S"), ObjectId, Normalize("1")) == Story
  {
    assert DecimalString(1) == "1";
    DecimalIdStored(Default.(title := "S"), 1);
  }

  lemma CommentIdStored()
    ensures StoreText(Default.(parentId := 1, storyId := 1), ObjectId, Normalize("2")) == Comment
  {
    assert DecimalString(2) == "2";
    DecimalIdStored(Default.(parentId := 1, storyId := 1), 2);
  }

  /** One `"key":"value"` member of a record, for a recognised string-fed field. */
  method StringMember(h: ItemsHandler, key: string, e: Element, value: string)
    requires h.parent == Hits && h.element == NoField && IsTextual(e)
    requires key != "hits" && key != "_highlightResult" && ElementNamed(key) == e
    modifies h
    ensures h.State() == old(h.State()).(item := StoreText(old(h.item), e, Normalize(value)))
    ensures h.emitted == old(h.emitted)
  {
    h.String(key);
    h.String(value);
  }

  /** One `"key":number` member of a record, for a recognised numeric field. */
  method NumberMember(h: ItemsHandler, key: string, e: Element, value: nat)
    requires h.parent == Hits && h.element == NoField && IsNumeric(e)
    requires key != "hits" && key != "_highlightResult" && ElementNamed(key) == e
    modifies h
    ensures h.State() == old(h.State()).(item := StoreNumber(old(h.item), e, value))
    ensures h.emitted == old(h.emitted)
  {
    h.String(key);
    h.Uint(value);
  }

  /** `{"hits":[`: the outer object and the `hits` array are opened. */
  method OpenHits(h: ItemsHandler)
    requires h.State() == Initial
    modifies h
    ensures h.State() == Handler(NoField, Hits, 1, Default) && h.emitted == old(h.emitted)
  {
    h.StartObject();
    h.String("hits");
    h.StartArray();
  }

  /** `{`: a record of the `hits` array is opened. */
  method OpenRecord(h: ItemsHandler)
    requires h.State() == Handler(NoField, Hits, 1, Default)
    modifies h
    ensures h.State() == Handler(NoField, Hits, 2, Default) && h.emitted == old(h.emitted)
  {
    h.StartObject();
  }

  /** `}` at depth 2: the record is handed on and the item reset. */
  method CloseRecord(h: ItemsHandler)
    requires h.level == 2
    modifies h
    ensures h.State() == old(h.State()).(level := 1, parent := Hits, item := Default)
    ensures h.emitted == old(h.emitted) + [old(h.item)]
  {
    h.EndObject();
  }

  /** `"title":"S","objectID":"1"}`: the story's fields and its close. */
  method FeedStory(h: ItemsHandler)
    requires h.State() == Handler(NoField, Hits, 2, Default)
    modifies h
    ensures h.State() == Handler(NoField, Hits, 1, Default)
    ensures h.emitted == old(h.emitted) + [Story]
  {
    TitleKey();
    StringMember(h, "title", Title, "S");
    StoryTitleStored();
    assert h.State() == Handler(NoField, Hits, 2, Default.(title := "S"));
    ObjectIdKey();
    StringMember(h, "objectID", ObjectId, "1");
    StoryIdStored();
    assert h.State() == Handler(NoField, Hits, 2, Story);
    CloseRecord(h);
  }

  /** `"parent_id":1,"story_id":1,"objectID":"2"`: the comment's own fields. */
  method FeedCommentFields(h: ItemsHandler)
    requires h.State() == Handler(NoField, Hits, 2, Default)
    modifies h
    ensures h.State() == Handler(NoField, Hits, 2, Comment) && h.emitted == old(h.emitted)
  {
    ParentIdKey();
    NumberMember(h, "parent_id", ParentId, 1);
    assert h.State() == Handler(NoField, Hits, 2, Default.(parentId := 1));
    StoryIdKey();
    NumberMember(h, "story_id", StoryId, 1);
    assert h.State() == Handler(NoField, Hits, 2, Default.(parentId := 1, storyId := 1));
    ObjectIdKey();
    StringMember(h, "objectID", ObjectId, "2");
    CommentIdStored();
  }

  /**
   * `,"_highlightResult":`: the highlight section is entered; everything
   * up to the record's close is ignored from here on.
   */
  method EnterHighlight(h: ItemsHandler)
    requires h.State() == Handler(NoField, Hits, 2, Comment)
    modifies h
    ensures h.State() == Handler(NoField, HighlightResult, 2, Comment)
    ensures h.emitted == old(h.emitted)
  {
    h.String("_highlightResult");
  }

  /** `{"comment_text":{"value":"x"}}` inside the highlight section leaves the handler as it was. */
  method SkipHighlightObject(h: ItemsHandler)
    requires h.parent == HighlightResult && h.level >= 2
    modifies h
    ensures h.State() == old(h.State()) && h.emitted == old(h.emitted)
  {
    h.StartObject();
    h.String("comment_text");
    h.StartObject();
    h.String("value");
    h.String("x");
    h.EndObject();
    h.EndObject();
  }

  /** `]}`: the array and the outer object are closed without handing anything on. */
  method CloseHits(h: ItemsHandler)
    requires h.State() == Handler(NoField, Hits, 1, Default)
    modifies h
    ensures h.State() == Handler(NoField, Hits, 0, Default) && h.emitted == old(h.emitted)
  {
    h.EndArray();
    h.EndObject();
  }

  /**
   * `{"hits":[{"title":"S","objectID":"1"},{"parent_id":1,"story_id":1,
   * "objectID":"2","_highlightResult":{"comment_text":{"value":"x"}}}]}`
   * fed to a fresh handler: the story and then the comment are handed on,
   * and the highlight object's `comment_text` does not reach the comment.
   */
  method StoryAndCommentDecoded() returns (items: seq<Item>)
    ensures items == [Story, Comment]
  {
    var h := new ItemsHandler();
    OpenHits(h);
    OpenRecord(h);
    FeedStory(h);
    OpenRecord(h);
    FeedCommentFields(h);
    EnterHighlight(h);
    SkipHighlightObject(h);
    CloseRecord(h);
    CloseHits(h);
    items := h.emitted;
  }

  /**
   * The comment's message
   * replies to id 1, its `References` is `[1]` under the index {2 -> 1},
   * and the story's message carries no threading headers but a comment
   * count.
   */
  lemma StoryThenComment(dateText: string)
    ensures ThreadRefs(map[2 := 1], Comment.parentId, [1])
    ensures Lookup(Compose(Comment, dateText, [1]).headers, InReplyTo) == Some(Number(1))
    ensures Lookup(Compose(Comment, dateText, [1]).headers, References) == Some(Ids([1]))
    ensures Lookup(Compose(Story, dateText, []).headers, InReplyTo) == None
    ensures Lookup(Compose(Story, dateText, []).headers, HnNumComments) == Some(Number(0))
  {
    ComposeThreading(Comment, dateText, [1]);
    ComposeThreading(Story, dateText, []);
    ComposeMetadata(Story, dateText, []);
  }
}
