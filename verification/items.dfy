/**
 * The record hn2mbox builds for each story or comment (`struct Item`), the
 * field selector of the decoder (`enum class Element`), the normalisation
 * applied to string values and the stores into an item.
 */
module Items {
  import opened Strings

  /**
   * One story or comment.  The C++ record holds `int` and `unsigned`
   * members; here every number is an unbounded `int`.
   */
  datatype Item = Item(
    createdAt: string,
    title: string,
    url: string,
    author: string,
    points: int,
    storyText: string,
    commentText: string,
    numComments: int,
    storyId: int,
    storyTitle: string,
    storyUrl: string,
    parentId: int,
    createdAtI: int,
    objectId: int)

  /** The value-initialised item `Item {}`: empty strings and zeros. */
  const Default := Item("", "", "", "", 0, "", "", 0, 0, "", "", 0, 0, 0)

  /** The item field whose value is expected next; `NoField` is `Element::none`. */
  datatype Element =
    | NoField
    | CreatedAt | Title | Url | Author | Points | StoryText | CommentText
    | NumComments | StoryId | StoryTitle | StoryUrl | ParentId | CreatedAtI | ObjectId

  /** The fields that take their value from a number event. */
  predicate IsNumeric(e: Element)
  {
    e.Points? || e.NumComments? || e.StoryId? || e.ParentId? || e.CreatedAtI?
  }

  /** The fields that take their value from a string event (`objectID` through `atoi`). */
  predicate IsTextual(e: Element)
  {
    e.CreatedAt? || e.Title? || e.Url? || e.Author? || e.StoryText? || e.CommentText?
    || e.StoryTitle? || e.StoryUrl? || e.ObjectId?
  }

  /** The JSON key of each recognised field. */
  function FieldName(e: Element): string
    requires e != NoField
  {
    match e
    case CreatedAt => "created_at"
    case Title => "title"
    case Url => "url"
    case Author => "author"
    case Points => "points"
    case StoryText => "story_text"
    case CommentText => "comment_text"
    case NumComments => "num_comments"
    case StoryId => "story_id"
    case StoryTitle => "story_title"
    case StoryUrl => "story_url"
    case ParentId => "parent_id"
    case CreatedAtI => "created_at_i"
    case ObjectId => "objectID"
  }

  /** The field a key selects; `NoField` for a key that is not recognised. */
  function ElementNamed(key: string): Element
  {
    if key == "created_at" then CreatedAt
    else if key == "title" then Title
    else if key == "url" then Url
    else if key == "author" then Author
    else if key == "points" then Points
    else if key == "story_text" then StoryText
    else if key == "comment_text" then CommentText
    else if key == "num_comments" then NumComments
    else if key == "story_id" then StoryId
    else if key == "story_title" then StoryTitle
    else if key == "story_url" then StoryUrl
    else if key == "parent_id" then ParentId
    else if key == "created_at_i" then CreatedAtI
    else if key == "objectID" then ObjectId
    else NoField
  }

  /** The key table is a bijection between the recognised fields and their names. */
  lemma ElementNamedRoundTrip(e: Element, key: string)
    ensures e != NoField ==> ElementNamed(FieldName(e)) == e
    ensures ElementNamed(key) != NoField ==> FieldName(ElementNamed(key)) == key
  {
    FieldNameSelects(e);
    KeySelects(key);
  }

  lemma FieldNameSelects(e: Element)
    ensures e != NoField ==> ElementNamed(FieldName(e)) == e
  {
  }

  lemma KeySelects(key: string)
    ensures ElementNamed(key) != NoField ==> FieldName(ElementNamed(key)) == key
  {
  }

  /** Every recognised field is numeric or textual, never both. */
  lemma ElementKinds(e: Element)
    ensures e == NoField <==> !IsNumeric(e) && !IsTextual(e)
    ensures !(IsNumeric(e) && IsTextual(e))
  {
  }

  /** `std::replace(s.begin(), s.end(), '\n', ' ')`. */
  function ReplaceNewlines(s: string): (r: string)
    ensures |r| == |s|
    ensures forall i :: 0 <= i < |s| ==> r[i] == (if s[i] == '\n' then ' ' else s[i])
  {
    if s == [] then [] else [if s[0] == '\n' then ' ' else s[0]] + ReplaceNewlines(s[1..])
  }

  /** The characters of `s` other than carriage returns, in order. */
  function WithoutCR(s: string): string
  {
    if s == [] then [] else (if s[0] == '\r' then [] else [s[0]]) + WithoutCR(s[1..])
  }

  lemma {:induction false} WithoutCRLength(s: string)
    ensures |WithoutCR(s)| == |s| - Count(s, '\r')
  {
    if s != [] {
      WithoutCRLength(s[1..]);
    }
  }

  /**
   * The string left by `std::remove(s.begin(), s.end(), '\r')` when the
   * returned end is not used to `erase`: the kept characters are moved to
   * the front and the positions past them keep what they held before
   * (what libstdc++ leaves there; the C++ standard leaves it unspecified).
   * Strings are sequences of characters here, while the C++ moves bytes:
   * the two agree on text whose characters are single bytes.
   */
  function RemoveWithoutErase(s: string): (r: string)
    ensures |r| == |s|
  {
    WithoutCRLength(s);
    var kept := WithoutCR(s);
    kept + s[|kept|..]
  }

  /** The normalisation `ItemsHandler::String` applies to every value. */
  function Normalize(s: string): (r: string)
    ensures |r| == |s| && '\n' !in r
  {
    var t := ReplaceNewlines(s);
    ReplaceNewlinesFacts(s);
    WithoutCRLength(t);
    WithoutCRFacts(t);
    var r := RemoveWithoutErase(t);
    assert r == WithoutCR(t) + t[|WithoutCR(t)|..];
    assert forall i :: |WithoutCR(t)| <= i < |r| ==> r[i] in t;
    r
  }

  lemma {:induction false} ReplaceNewlinesFacts(s: string)
    ensures '\n' !in ReplaceNewlines(s)
    ensures Count(ReplaceNewlines(s), '\r') == Count(s, '\r')
    ensures '\n' !in s ==> ReplaceNewlines(s) == s
  {
    if s != [] {
      ReplaceNewlinesFacts(s[1..]);
    }
  }

  lemma {:induction false} WithoutCRFacts(s: string)
    ensures '\r' !in WithoutCR(s)
    ensures '\n' !in s ==> '\n' !in WithoutCR(s)
    ensures '\r' !in s ==> WithoutCR(s) == s
  {
    if s != [] {
      WithoutCRFacts(s[1..]);
      if s[0] != '\r' {
        assert [s[0]] + s[1..] == s;
      }
    }
  }

  /**
   * A normalised value keeps the input's length and has no line feed; its
   * first `|s| - #CR` characters are the input with line feeds turned into
   * spaces and carriage returns deleted, and the remaining positions hold
   * what was there before the removal.
   */
  lemma NormalizeShape(s: string)
    ensures |Normalize(s)| == |s|
    ensures '\n' !in Normalize(s)
    ensures var n := |s| - Count(s, '\r');
      0 <= n <= |s| &&
      Normalize(s)[..n] == WithoutCR(ReplaceNewlines(s)) &&
      '\r' !in Normalize(s)[..n] &&
      Normalize(s)[n..] == ReplaceNewlines(s)[n..]
  {
    var t := ReplaceNewlines(s);
    ReplaceNewlinesFacts(s);
    WithoutCRLength(t);
    WithoutCRFacts(t);
    var kept := WithoutCR(t);
    assert Normalize(s) == kept + t[|kept|..];
    assert '\n' !in t[|kept|..] by {
      forall i | |kept| <= i < |t| ensures t[i] != '\n' {
        assert t[i] in t;
      }
    }
  }

  /** Without carriage returns, normalisation only turns line feeds into spaces. */
  lemma NormalizeWithoutCR(s: string)
    requires '\r' !in s
    ensures Normalize(s) == ReplaceNewlines(s)
    ensures '\n' !in s ==> Normalize(s) == s
  {
    ReplaceNewlinesFacts(s);
    var t := ReplaceNewlines(s);
    assert '\r' !in t;
    WithoutCRFacts(t);
    assert t[|t|..] == [];
    assert WithoutCR(t) + [] == t;
  }

  /** A carriage return shifts the text left and repeats its last character. */
  lemma NormalizeKeepsStaleTail()
    ensures Normalize("a\rb") == "abb"
    ensures Atoi(Normalize("1\r2")) == 122
  {
    NormalizeOneCR('a', 'b');
    NormalizeOneCR('1', '2');
    assert DecimalString(122) == DecimalString(12) + "2" == "122";
    AtoiOfDecimal(122);
  }

  /** `x`, a carriage return, `y` normalises to `x`, `y`, `y`. */
  lemma NormalizeOneCR(x: char, y: char)
    requires x != '\n' && x != '\r' && y != '\n' && y != '\r'
    ensures Normalize([x, '\r', y]) == [x, y, y]
  {
    var s := [x, '\r', y];
    var t := ReplaceNewlines(s);
    assert t == s;
    assert [y][1..] == [] && WithoutCR([y]) == [y];
    assert ['\r', y][1..] == [y] && WithoutCR(['\r', y]) == [y];
    assert s[1..] == ['\r', y] && WithoutCR(s) == [x] + [y];
    assert RemoveWithoutErase(t) == [x, y] + s[2..];
  }

  /** `item.<field> = s` for a text field, `item.objectID = atoi(s)`; other fields are left alone. */
  function StoreText(item: Item, e: Element, s: string): (r: Item)
    ensures Numbers(r) == Numbers(item)
    ensures !IsTextual(e) ==> r == item
    ensures e.ObjectId? ==> r == item.(objectId := Atoi(s))
  {
    match e
    case CreatedAt => item.(createdAt := s)
    case Title => item.(title := s)
    case Url => item.(url := s)
    case Author => item.(author := s)
    case StoryText => item.(storyText := s)
    case CommentText => item.(commentText := s)
    case StoryTitle => item.(storyTitle := s)
    case StoryUrl => item.(storyUrl := s)
    case ObjectId => item.(objectId := Atoi(s))
    case _ => item
  }

  /** `item.<field> = i` for a numeric field; other fields are left alone. */
  function StoreNumber(item: Item, e: Element, i: int): (r: Item)
    ensures Texts(r) == Texts(item)
    ensures !IsNumeric(e) ==> r == item
    ensures e.Points? ==> Numbers(r) == (i, item.numComments, item.storyId, item.parentId, item.createdAtI)
    ensures e.NumComments? ==> Numbers(r) == (item.points, i, item.storyId, item.parentId, item.createdAtI)
    ensures e.StoryId? ==> Numbers(r) == (item.points, item.numComments, i, item.parentId, item.createdAtI)
    ensures e.ParentId? ==> Numbers(r) == (item.points, item.numComments, item.storyId, i, item.createdAtI)
    ensures e.CreatedAtI? ==> Numbers(r) == (item.points, item.numComments, item.storyId, item.parentId, i)
  {
    match e
    case Points => item.(points := i)
    case NumComments => item.(numComments := i)
    case StoryId => item.(storyId := i)
    case ParentId => item.(parentId := i)
    case CreatedAtI => item.(createdAtI := i)
    case _ => item
  }

  /** The numeric part of an item. */
  function Numbers(item: Item): (int, int, int, int, int)
  {
    (item.points, item.numComments, item.storyId, item.parentId, item.createdAtI)
  }

  /** The string-fed part of an item. */
  function Texts(item: Item): (seq<string>, int)
  {
    ([item.createdAt, item.title, item.url, item.author, item.storyText, item.commentText,
      item.storyTitle, item.storyUrl], item.objectId)
  }
}
