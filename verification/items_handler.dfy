/**
 * `ItemsHandler`: the event consumer that turns the JSON reader's events
 * into items.  `Next` is the transition of one event; the class below is
 * the handler object itself, whose event methods are proved to follow it.
 */
module ItemsHandlers {
  import opened Wrappers
  import opened Strings
  import opened Items

  /** The section the decoder is in: the handler's `parent` enumeration. */
  datatype Section = NoParent | Hits | HighlightResult

  /** The events the JSON reader delivers; keys arrive as `Str` events too. */
  datatype Event =
    | Null
    | Bool(b: bool)
    | Int(i: int)
    | Uint(u: nat)
    | Int64(i: int)
    | Uint64(u: nat)
    | Double
    | Str(s: string)
    | StartObject
    | EndObject
    | StartArray
    | EndArray

  /** The handler's fields: the pending field, the section, the object depth and the item. */
  datatype Handler = Handler(element: Element, parent: Section, level: int, item: Item)

  /** A freshly constructed handler. */
  const Initial := Handler(NoField, NoParent, 0, Default)

  /** The handler after one event, and the item it hands on, if any. */
  datatype Transition = Transition(next: Handler, emitted: Option<Item>)

  /** `Int64(i)`, to which `Int` and `Uint` forward. */
  function OnNumber(h: Handler, i: int): (r: Handler)
    ensures r.level == h.level && r.parent == h.parent
    ensures Texts(r.item) == Texts(h.item)
  {
    if h.parent == HighlightResult then h
    else h.(item := StoreNumber(h.item, h.element, i), element := NoField)
  }

  /** `String(str)`: a key while no field is pending, otherwise the pending field's value. */
  function OnString(h: Handler, s: string): (r: Handler)
    ensures r.level == h.level && Numbers(r.item) == Numbers(h.item)
    ensures r.item != h.item ==> h.parent != HighlightResult && h.element != NoField
  {
    if h.parent == HighlightResult then h
    else if h.element == NoField then
      if s == "hits" then h.(parent := Hits)
      else if s == "_highlightResult" then h.(parent := HighlightResult)
      else h.(element := ElementNamed(s))
    else h.(item := StoreText(h.item, h.element, Normalize(s)), element := NoField)
  }

  /** `EndObject`: closing a record (depth back to 1) hands the item on and resets it. */
  function OnEndObject(h: Handler): (t: Transition)
    ensures t.next.level == h.level - 1 && t.next.element == h.element
    ensures t.emitted.Some? <==> h.level == 2
  {
    if h.level - 1 == 1 then Transition(h.(level := 1, parent := Hits, item := Default), Some(h.item))
    else Transition(h.(level := h.level - 1), None)
  }

  /**
   * One event.  `StartObject` adds one to the depth, `EndObject` takes one
   * away and nothing else moves it; only `EndObject` hands an item on.
   */
  function Next(h: Handler, ev: Event): (t: Transition)
    ensures t.next.level ==
      if ev.StartObject? then h.level + 1 else if ev.EndObject? then h.level - 1 else h.level
    ensures t.emitted.Some? ==> ev.EndObject?
  {
    match ev
    case Null => Transition(h.(element := NoField), None)
    case Int(i) => Transition(OnNumber(h, i), None)
    case Uint(u) => Transition(OnNumber(h, u), None)
    case Int64(i) => Transition(OnNumber(h, i), None)
    case Str(s) => Transition(OnString(h, s), None)
    case StartObject => Transition(h.(level := h.level + 1), None)
    case EndObject => OnEndObject(h)
    case _ => Transition(h, None)
  }

  function AsSeq(o: Option<Item>): seq<Item>
  {
    if o.Some? then [o.value] else []
  }

  /** The handler after a whole event sequence, and the items it handed on, in order. */
  datatype Outcome = Outcome(final: Handler, emitted: seq<Item>)

  function Run(h: Handler, evs: seq<Event>): Outcome
  {
    RunWith(Next, h, evs)
  }

  /** An event sequence fed through any one-event transition `step`. */
  function RunWith(step: (Handler, Event) -> Transition, h: Handler, evs: seq<Event>): Outcome
    decreases |evs|
  {
    if evs == [] then Outcome(h, [])
    else
      var t := step(h, evs[0]);
      var rest := RunWith(step, t.next, evs[1..]);
      Outcome(rest.final, AsSeq(t.emitted) + rest.emitted)
  }

  /** The handler object; `emitted` records the items passed to `dumpItemAsEmail`. */
  class ItemsHandler {
    var element: Element
    var parent: Section
    var level: int
    var item: Item
    var emitted: seq<Item>

    function State(): Handler
      reads this
    {
      Handler(element, parent, level, item)
    }

    constructor()
      ensures State() == Initial && emitted == []
    {
      element, parent, level, item := NoField, NoParent, 0, Default;
      emitted := [];
    }

    method Null()
      modifies this
      ensures State() == Next(old(State()), Event.Null).next && emitted == old(emitted)
    {
      element := NoField;
    }

    method Bool(b: bool)
      modifies this
      ensures State() == Next(old(State()), Event.Bool(b)).next && emitted == old(emitted)
    {
    }

    method Int(i: int)
      modifies this
      ensures State() == Next(old(State()), Event.Int(i)).next && emitted == old(emitted)
    {
      Int64(i);
    }

    method Uint(u: nat)
      modifies this
      ensures State() == Next(old(State()), Event.Uint(u)).next && emitted == old(emitted)
    {
      Int64(u);
    }

    method Int64(i: int)
      modifies this
      ensures State() == Next(old(State()), Event.Int64(i)).next && emitted == old(emitted)
    {
      if parent == HighlightResult {
        return;
      }
      item := StoreNumber(item, element, i);
      element := NoField;
    }

    method Uint64(u: nat)
      modifies this
      ensures State() == Next(old(State()), Event.Uint64(u)).next && emitted == old(emitted)
    {
    }

    method Double()
      modifies this
      ensures State() == Next(old(State()), Event.Double).next && emitted == old(emitted)
    {
    }

    method String(str: string)
      modifies this
      ensures State() == Next(old(State()), Str(str)).next && emitted == old(emitted)
    {
      ghost var before := State();
      assert Next(before, Str(str)).next == OnString(before, str);
      if parent == HighlightResult {
        return;
      }
      if element == NoField {
        if str == "hits" {
          parent := Hits;
        } else if str == "_highlightResult" {
          parent := HighlightResult;
        } else {
          element := ElementNamed(str);
        }
        return;
      }
      var s := Normalize(str);
      item := StoreText(item, element, s);
      element := NoField;
    }

    method StartObject()
      modifies this
      ensures State() == Next(old(State()), Event.StartObject).next && emitted == old(emitted)
    {
      level := level + 1;
    }

    method EndObject()
      modifies this
      ensures var t := Next(old(State()), Event.EndObject);
        State() == t.next && emitted == old(emitted) + AsSeq(t.emitted)
    {
      level := level - 1;
      if level == 1 {
        parent := Hits;
        emitted := emitted + [item];
        item := Default;
      }
    }

    method StartArray()
      modifies this
      ensures State() == Next(old(State()), Event.StartArray).next && emitted == old(emitted)
    {
    }

    method EndArray()
      modifies this
      ensures State() == Next(old(State()), Event.EndArray).next && emitted == old(emitted)
    {
    }
  }

  // Properties of the transition

  /**
   * An item is handed on exactly when `EndObject` brings the depth to 1; it
   * is the item built so far, and the handler is left with a default item
   * in the `hits` section.
   */
  lemma EmitsExactlyOnRecordClose(h: Handler, ev: Event)
    ensures Next(h, ev).emitted.Some? <==> ev.EndObject? && h.level == 2
    ensures Next(h, ev).emitted.Some? ==>
      Next(h, ev).emitted.value == h.item &&
      Next(h, ev).next.item == Default && Next(h, ev).next.parent == Hits
  {
  }

  /** `Bool`, `Double`, `Uint64` and the array events change nothing, not even a pending field. */
  lemma IgnoredEvents(h: Handler, ev: Event)
    requires ev.Bool? || ev.Double? || ev.Uint64? || ev.StartArray? || ev.EndArray?
    ensures Next(h, ev) == Transition(h, None)
  {
  }

  /**
   * A string while no field is pending is a key: it never touches the item;
   * it switches the section for `hits` and `_highlightResult`, selects a
   * recognised field, and otherwise changes nothing.
   */
  lemma KeyString(h: Handler, s: string)
    requires h.element == NoField && h.parent != HighlightResult
    ensures var n := Next(h, Str(s)).next;
      n.item == h.item && n.level == h.level &&
      (if s == "hits" then n.parent == Hits && n.element == NoField
       else if s == "_highlightResult" then n.parent == HighlightResult && n.element == NoField
       else n.parent == h.parent && n.element == ElementNamed(s) &&
            (ElementNamed(s) == NoField ==> n == h))
  {
  }

  /** A consumed string or number value, and `Null`, clear the pending field. */
  lemma ValueClearsPending(h: Handler, ev: Event)
    requires h.parent != HighlightResult
    requires ev.Null? || ev.Int? || ev.Uint? || ev.Int64? || (ev.Str? && h.element != NoField)
    ensures Next(h, ev).next.element == NoField
    ensures Next(h, ev).next.parent == h.parent && Next(h, ev).next.level == h.level
  {
  }

  /**
   * Inside `_highlightResult`, strings and numbers change nothing at all:
   * neither the item nor the pending field.
   */
  lemma HighlightBlocksScalars(h: Handler, ev: Event)
    requires h.parent == HighlightResult
    requires ev.Str? || ev.Int? || ev.Uint? || ev.Int64?
    ensures Next(h, ev) == Transition(h, None)
  {
  }

  /**
   * The numeric fields change only through number events (or the reset on
   * emission); the string-fed fields, `objectID` included, only through
   * string events (or the reset).
   */
  lemma ValueDispatch(h: Handler, ev: Event)
    ensures Next(h, ev).emitted.None? && !(ev.Int? || ev.Uint? || ev.Int64?) ==>
      Numbers(Next(h, ev).next.item) == Numbers(h.item)
    ensures Next(h, ev).emitted.None? && !ev.Str? ==>
      Texts(Next(h, ev).next.item) == Texts(h.item)
  {
  }

  /** A value of the wrong type for the pending field clears it and leaves the item as it was. */
  lemma MismatchedValue(h: Handler, ev: Event)
    requires h.parent != HighlightResult
    requires (ev.Str? && IsNumeric(h.element)) || ((ev.Int? || ev.Uint? || ev.Int64?) && !IsNumeric(h.element))
    ensures Next(h, ev).next == h.(element := NoField)
  {
    ElementKinds(h.element);
  }

  /** A string value for a text field is stored normalised; for `objectID`, through `atoi`. */
  lemma StringValueStored(h: Handler, s: string)
    requires h.parent != HighlightResult && IsTextual(h.element)
    ensures var n := Next(h, Str(s)).next;
      n.element == NoField &&
      (h.element.ObjectId? ==> n.item == h.item.(objectId := Atoi(Normalize(s)))) &&
      (h.element.CreatedAt? ==> n.item == h.item.(createdAt := Normalize(s))) &&
      (h.element.Title? ==> n.item == h.item.(title := Normalize(s))) &&
      (h.element.Url? ==> n.item == h.item.(url := Normalize(s))) &&
      (h.element.Author? ==> n.item == h.item.(author := Normalize(s))) &&
      (h.element.StoryText? ==> n.item == h.item.(storyText := Normalize(s))) &&
      (h.element.CommentText? ==> n.item == h.item.(commentText := Normalize(s))) &&
      (h.element.StoryTitle? ==> n.item == h.item.(storyTitle := Normalize(s))) &&
      (h.element.StoryUrl? ==> n.item == h.item.(storyUrl := Normalize(s)))
  {
    var v := Normalize(s);
    assert Next(h, Str(s)).next == h.(item := StoreText(h.item, h.element, v), element := NoField);
  }

  /**
   * A number for a pending numeric field is stored in that field, exactly,
   * and the field is no longer pending.
   */
  lemma NumberValueStored(h: Handler, ev: Event)
    requires h.parent != HighlightResult && IsNumeric(h.element)
    requires ev.Int? || ev.Uint? || ev.Int64?
    ensures var v := if ev.Uint? then ev.u else ev.i;
      var n := Next(h, ev).next;
      n.element == NoField &&
      (h.element.Points? ==> n.item == h.item.(points := v)) &&
      (h.element.NumComments? ==> n.item == h.item.(numComments := v)) &&
      (h.element.StoryId? ==> n.item == h.item.(storyId := v)) &&
      (h.element.ParentId? ==> n.item == h.item.(parentId := v)) &&
      (h.element.CreatedAtI? ==> n.item == h.item.(createdAtI := v))
  {
  }

  /**
   * Once `_highlightResult` is seen, the section stays and the item is
   * frozen until an item is handed on: closing the highlight object alone
   * does not lift the block, only the record's own `EndObject` does.
   */
  lemma {:induction false} HighlightHoldsUntilEmission(h: Handler, evs: seq<Event>)
    requires h.parent == HighlightResult
    requires Run(h, evs).emitted == []
    ensures Run(h, evs).final.parent == HighlightResult
    ensures Run(h, evs).final.item == h.item
    ensures Run(h, evs).final.element == h.element || Run(h, evs).final.element == NoField
    decreases |evs|
  {
    if evs != [] {
      var t := Next(h, evs[0]);
      assert t.emitted == None;
      HighlightHoldsUntilEmission(t.next, evs[1..]);
      if t.next.element != h.element {
        assert t.next.element == NoField;
        NoFieldStaysUntilKey(t.next, evs[1..]);
      }
    }
  }

  /** Inside `_highlightResult` no key is read, so a cleared pending field stays clear. */
  lemma {:induction false} NoFieldStaysUntilKey(h: Handler, evs: seq<Event>)
    requires h.parent == HighlightResult && h.element == NoField
    requires Run(h, evs).emitted == []
    ensures Run(h, evs).final.element == NoField
    decreases |evs|
  {
    if evs != [] {
      NoFieldStaysUntilKey(Next(h, evs[0]).next, evs[1..]);
    }
  }

  /** Running two event sequences one after the other is running their concatenation. */
  lemma RunAppend(h: Handler, a: seq<Event>, b: seq<Event>)
    ensures Run(h, a + b) ==
      Outcome(Run(Run(h, a).final, b).final, Run(h, a).emitted + Run(Run(h, a).final, b).emitted)
  {
    RunWithAppend(Next, h, a, b);
  }

  lemma {:induction false} RunWithAppend(step: (Handler, Event) -> Transition, h: Handler, a: seq<Event>, b: seq<Event>)
    ensures var ra := RunWith(step, h, a);
      RunWith(step, h, a + b) ==
      Outcome(RunWith(step, ra.final, b).final, ra.emitted + RunWith(step, ra.final, b).emitted)
    decreases |a|
  {
    if a == [] {
      assert a + b == b;
    } else {
      var t := step(h, a[0]);
      var ab := a + b;
      assert ab[0] == a[0] && ab[1..] == a[1..] + b;
      RunWithAppend(step, t.next, a[1..], b);
      var ra := RunWith(step, t.next, a[1..]);
      var rb := RunWith(step, ra.final, b);
      var e := AsSeq(t.emitted);
      assert e + (ra.emitted + rb.emitted) == (e + ra.emitted) + rb.emitted;
    }
  }
}
