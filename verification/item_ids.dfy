/**
 * `ItemIdsHandler`: the smaller twin of the items decoder used by the
 * dump-ids mode.  It reads only `objectID` and `parent_id`, ignores every
 * scalar nested deeper than a record, and hands on an `(objectID, parent_id)`
 * pair for each record.
 */
module ItemIds {
  import opened Wrappers
  import opened Strings
  import opened Items
  import opened ItemsHandlers

  /** The dump-ids handler's fields: the pending field, the depth and the item. */
  datatype IdsHandler = IdsHandler(element: Element, level: int, item: Item)

  const InitialIds := IdsHandler(NoField, 0, Default)

  /** The handler after one event, and the `(objectID, parent_id)` line it prints, if any. */
  datatype IdsTransition = IdsTransition(next: IdsHandler, printed: Option<(int, int)>)

  /** `Int64(i)`: stores `parent_id` when it is pending in a record, and clears the pending field. */
  function IdsOnNumber(h: IdsHandler, i: int): (r: IdsHandler)
    ensures r.level == h.level && r.item.objectId == h.item.objectId
    ensures r.item != h.item ==> h.level <= 2 && h.element == ParentId
    ensures h.level <= 2 && h.element == ParentId ==>
      r == h.(item := h.item.(parentId := i), element := NoField)
  {
    if h.level > 2 then h
    else if h.element == ParentId then h.(item := h.item.(parentId := i), element := NoField)
    else h.(element := NoField)
  }

  /** `String(str)`: one of the two keys while no field is pending, otherwise `objectID`'s value. */
  function IdsOnString(h: IdsHandler, s: string): (r: IdsHandler)
    ensures r.level == h.level && r.item.parentId == h.item.parentId
    ensures r.item != h.item ==> h.level <= 2 && h.element == ObjectId
    ensures h.level <= 2 && h.element == ObjectId ==>
      r == h.(item := h.item.(objectId := Atoi(s)), element := NoField)
  {
    if h.level > 2 then h
    else if h.element == NoField then
      if s == "parent_id" then h.(element := ParentId)
      else if s == "objectID" then h.(element := ObjectId)
      else h
    else if h.element == ObjectId then h.(item := h.item.(objectId := Atoi(s)), element := NoField)
    else h.(element := NoField)
  }

  function IdsNext(h: IdsHandler, ev: Event): (t: IdsTransition)
    ensures t.next.level ==
      if ev.StartObject? then h.level + 1 else if ev.EndObject? then h.level - 1 else h.level
    ensures t.printed.Some? ==> ev.EndObject?
  {
    match ev
    case Null => IdsTransition(h.(element := NoField), None)
    case Int(i) => IdsTransition(IdsOnNumber(h, i), None)
    case Uint(u) => IdsTransition(IdsOnNumber(h, u), None)
    case Int64(i) => IdsTransition(IdsOnNumber(h, i), None)
    case Str(s) => IdsTransition(IdsOnString(h, s), None)
    case StartObject => IdsTransition(h.(level := h.level + 1), None)
    case EndObject =>
      if h.level - 1 == 1 then
        IdsTransition(h.(level := 1, item := Default), Some((h.item.objectId, h.item.parentId)))
      else IdsTransition(h.(level := h.level - 1), None)
    case _ => IdsTransition(h, None)
  }

  class ItemIdsHandler {
    var element: Element
    var level: int
    var item: Item
    var printed: seq<(int, int)>

    function State(): IdsHandler
      reads this
    {
      IdsHandler(element, level, item)
    }

    constructor()
      ensures State() == InitialIds && printed == []
    {
      element, level, item := NoField, 0, Default;
      printed := [];
    }

    method Null()
      modifies this
      ensures State() == IdsNext(old(State()), Event.Null).next && printed == old(printed)
    {
      element := NoField;
    }

    method Bool(b: bool)
      modifies this
      ensures State() == IdsNext(old(State()), Event.Bool(b)).next && printed == old(printed)
    {
    }

    method Int(i: int)
      modifies this
      ensures State() == IdsNext(old(State()), Event.Int(i)).next && printed == old(printed)
    {
      Int64(i);
    }

    method Uint(u: nat)
      modifies this
      ensures State() == IdsNext(old(State()), Event.Uint(u)).next && printed == old(printed)
    {
      Int64(u);
    }

    method Int64(i: int)
      modifies this
      ensures State() == IdsNext(old(State()), Event.Int64(i)).next && printed == old(printed)
    {
      if level > 2 {
        return;
      }
      if element == ParentId {
        item := item.(parentId := i);
      }
      element := NoField;
    }

    method Uint64(u: nat)
      modifies this
      ensures State() == IdsNext(old(State()), Event.Uint64(u)).next && printed == old(printed)
    {
    }

    method Double()
      modifies this
      ensures State() == IdsNext(old(State()), Event.Double).next && printed == old(printed)
    {
    }

    method String(str: string)
      modifies this
      ensures State() == IdsNext(old(State()), Str(str)).next && printed == old(printed)
    {
      ghost var before := State();
      assert IdsNext(before, Str(str)).next == IdsOnString(before, str);
      if level > 2 {
        return;
      }
      if element == NoField {
        if str == "parent_id" {
          element := ParentId;
        } else if str == "objectID" {
          element := ObjectId;
        }
        return;
      }
      if element == ObjectId {
        item := item.(objectId := Atoi(str));
      }
      element := NoField;
    }

    method StartObject()
      modifies this
      ensures State() == IdsNext(old(State()), Event.StartObject).next && printed == old(printed)
    {
      level := level + 1;
    }

    method EndObject()
      modifies this
      ensures var t := IdsNext(old(State()), Event.EndObject);
        State() == t.next && printed == old(printed) + (if t.printed.Some? then [t.printed.value] else [])
    {
      level := level - 1;
      if level == 1 {
        printed := printed + [(item.objectId, item.parentId)];
        item := Default;
      }
    }

    method StartArray()
      modifies this
      ensures State() == IdsNext(old(State()), Event.StartArray).next && printed == old(printed)
    {
    }

    method EndArray()
      modifies this
      ensures State() == IdsNext(old(State()), Event.EndArray).next && printed == old(printed)
    {
    }
  }

  /** The only fields the dump-ids handler ever sets are `objectID` and `parent_id`. */
  predicate OnlyIds(h: IdsHandler)
  {
    h.item == Default.(objectId := h.item.objectId, parentId := h.item.parentId) &&
    (h.element == NoField || h.element == ParentId || h.element == ObjectId)
  }

  /** Every event keeps the item down to its two identifiers and the pending field to those two. */
  lemma IdsOnlyIdsPreserved(h: IdsHandler, ev: Event)
    requires OnlyIds(h)
    ensures OnlyIds(IdsNext(h, ev).next)
  {
  }

  /** Scalars inside nested objects (deeper than a record) change nothing. */
  lemma IdsDeepScalarsIgnored(h: IdsHandler, ev: Event)
    requires h.level > 2
    requires ev.Str? || ev.Int? || ev.Uint? || ev.Int64?
    ensures IdsNext(h, ev) == IdsTransition(h, None)
  {
  }

  /**
   * A line is printed exactly when `EndObject` brings the depth to 1, and
   * it carries the record's `objectID` and `parent_id`.
   */
  lemma IdsPrintsOnRecordClose(h: IdsHandler, ev: Event)
    ensures IdsNext(h, ev).printed.Some? <==> ev.EndObject? && h.level == 2
    ensures IdsNext(h, ev).printed.Some? ==>
      IdsNext(h, ev).printed.value == (h.item.objectId, h.item.parentId) &&
      IdsNext(h, ev).next.item == Default
  {
  }

  /**
   * Where the items decoder would store `objectID` or `parent_id`, the
   * dump-ids decoder stores the same value, except that it applies `atoi`
   * to the raw string, without normalisation.
   */
  lemma IdsAgreeOnIdentifiers(h: Handler, g: IdsHandler, ev: Event)
    requires h.parent != HighlightResult && g.level <= 2
    requires h.element == g.element && (g.element == ParentId || g.element == ObjectId)
    requires h.item.objectId == g.item.objectId && h.item.parentId == g.item.parentId
    requires ev.Int? || ev.Uint? || ev.Int64? || (ev.Str? && '\r' !in ev.s && '\n' !in ev.s)
    ensures Next(h, ev).next.item.objectId == IdsNext(g, ev).next.item.objectId
    ensures Next(h, ev).next.item.parentId == IdsNext(g, ev).next.item.parentId
  {
    if ev.Str? {
      AgreeOnString(h, g, ev.s);
    } else {
      AgreeOnNumber(h, g, ev);
    }
  }

  lemma AgreeOnString(h: Handler, g: IdsHandler, s: string)
    requires h.parent != HighlightResult && g.level <= 2
    requires h.element == g.element && (g.element == ParentId || g.element == ObjectId)
    requires h.item.objectId == g.item.objectId && h.item.parentId == g.item.parentId
    requires '\r' !in s && '\n' !in s
    ensures Next(h, Str(s)).next.item.objectId == IdsNext(g, Str(s)).next.item.objectId
    ensures Next(h, Str(s)).next.item.parentId == IdsNext(g, Str(s)).next.item.parentId
  {
    if g.element == ObjectId {
      NormalizeWithoutCR(s);
    }
  }

  lemma AgreeOnNumber(h: Handler, g: IdsHandler, ev: Event)
    requires h.parent != HighlightResult && g.level <= 2
    requires h.element == g.element && (g.element == ParentId || g.element == ObjectId)
    requires h.item.objectId == g.item.objectId && h.item.parentId == g.item.parentId
    requires ev.Int? || ev.Uint? || ev.Int64?
    ensures Next(h, ev).next.item.objectId == IdsNext(g, ev).next.item.objectId
    ensures Next(h, ev).next.item.parentId == IdsNext(g, ev).next.item.parentId
  {
  }

  /**
   * On an `objectID` value with a carriage return the two modes disagree:
   * the items decoder reads the normalised text `"122"`, while the
   * dump-ids decoder's `atoi` stops at the carriage return.
   */
  lemma IdsDisagreeOnCarriageReturn(h: Handler, g: IdsHandler)
    requires h.parent != HighlightResult && h.element == ObjectId
    requires g.level <= 2 && g.element == ObjectId
    ensures Next(h, Str("1\r2")).next.item.objectId == 122
    ensures IdsNext(g, Str("1\r2")).next.item.objectId == 1
  {
    ObjectIdRead(h, g, "1\r2");
    NormalizeKeepsStaleTail();
    AtoiStopsAtCR();
  }

  /** What each decoder stores for an `objectID` value `s`. */
  lemma ObjectIdRead(h: Handler, g: IdsHandler, s: string)
    requires h.parent != HighlightResult && h.element == ObjectId
    requires g.level <= 2 && g.element == ObjectId
    ensures Next(h, Str(s)).next.item.objectId == Atoi(Normalize(s))
    ensures IdsNext(g, Str(s)).next.item.objectId == Atoi(s)
  {
    ItemsObjectIdRead(h, s);
    IdsObjectIdRead(g, s);
  }

  lemma ItemsObjectIdRead(h: Handler, s: string)
    requires h.parent != HighlightResult && h.element == ObjectId
    ensures Next(h, Str(s)).next.item.objectId == Atoi(Normalize(s))
  {
    assert Next(h, Str(s)).next == OnString(h, s);
  }

  lemma IdsObjectIdRead(g: IdsHandler, s: string)
    requires g.level <= 2 && g.element == ObjectId
    ensures IdsNext(g, Str(s)).next.item.objectId == Atoi(s)
  {
    assert IdsNext(g, Str(s)).next == IdsOnString(g, s);
  }

  lemma AtoiStopsAtCR()
    ensures Atoi("1\r2") == 1
  {
    assert DecimalString(1) == "1";
    AtoiStopsAtNonDigit(1, "\r2");
    assert DecimalString(1) + "\r2" == "1\r2";
  }
}
