# hn2mbox in Dafny

hn2mbox reads a Hacker News dump (the JSON of the Algolia search API, a
`hits` array of story and comment records) with a streaming JSON reader and
writes every record as one message of an mbox mailbox.  Messages keep the
discussion's threading through `In-Reply-To` and `References`.  With
`--split`, the output goes to one mailbox per calendar month.  This project
models the core of that program and proves what it does:

- `ItemsHandler` (module `ItemsHandlers`): the event consumer the JSON reader
  drives.  It keeps a pending field, a section (`hits` or
  `_highlightResult`), an object depth and the item under construction.  It
  hands an item on when a record's `EndObject` brings the depth back to 1.
  The pure transition `Next` describes one event.  The class
  `ItemsHandler` has the handler's fields and one method per event, and each
  method is proved to follow `Next`.  Items handed on are appended to the
  object's `emitted` list.
- `ItemIdsHandler` (module `ItemIds`): the twin used for `--dump-ids`.  It
  keeps only `objectID` and `parent_id` and prints them once per record.
- The string normalisation of `ItemsHandler::String` (module `Items`):
  `std::replace` of line feeds by spaces, then `std::remove` of carriage
  returns *without* `erase`.  The string therefore keeps its length, and its
  tail repeats characters.  Values for `objectID` go through `atoi`
  (module `Strings`).
- `htmlEncode` (module `Html`): the loop as a method, proved to compute the
  escaping function.  The escaped text contains no `"`, `'`, `<` or `>` (every `&`
  left in it starts an entity) and decodes back to the input.
- The `References` walk of `dumpItemAsEmail` (module `Threading`): the
  `while (true)` loop that follows the id index upwards, proved to build the
  unique root-first ancestor chain.
- `getFile` (module `Router`): standard output, or a cache of month files
  keyed by `(tm_mon & 0xffff) | ((tm_year & 0xffff) << 16)`.
- `dumpItemAsEmail` (module `Mbox`): the time-window filter, the choice of
  output, and which headers and which body the message carries.
- Module `Scenario` feeds a two-record document event by event to the
  handler object.  It also follows the two resulting messages.

## Model

| member | source | states |
|---|---|---|
| Strings.Atoi | hn2mbox.cpp:293 | libc `atoi`: after leading white space, no sign and no digit gives 0, and a negative result only comes from a `-` sign |
| Strings.AtoiOfDecimal | hn2mbox.cpp:293 | `atoi` of the decimal rendering of any natural number gives that number back |
| Strings.AtoiStopsAtNonDigit | hn2mbox.cpp:293 | `atoi` stops at the first non-digit: a decimal number followed by anything not starting with a digit reads as that number |
| Html.Escaped | hn2mbox.cpp:116-131 | the escaping never shortens the text, and keeps its length exactly when no character is one of the five special ones |
| Html.HtmlEncode | hn2mbox.cpp:116-131 | the loop appends each character's escape in order; its result is exactly `Escaped(data)` |
| Html.EscapedIsMarkupFree | hn2mbox.cpp:116-131 | the escaped text contains no `"`, `'`, `<` or `>`, for every input |
| Html.EscapedLength | hn2mbox.cpp:116-131 | the output is the input's length plus 4 per `&`, 5 per quote or apostrophe and 3 per angle bracket |
| Html.EscapedPlain | hn2mbox.cpp:120-128 | text without the five special characters is copied unchanged |
| Html.UnescapeEscaped | hn2mbox.cpp:116-131 | decoding the five entities recovers the input exactly, so escaping loses nothing |
| Items.ElementNamedRoundTrip | hn2mbox.cpp:245-272 | the key table is a bijection: every field's key selects that field, and every recognised key is that field's key |
| Items.ElementKinds | hn2mbox.cpp:222-229 | every recognised field is fed by numbers or by strings, never both; `none` by neither |
| Items.ReplaceNewlines | hn2mbox.cpp:281 | keeps the length; each line feed becomes a space and every other character stays in its place |
| Items.RemoveWithoutErase | hn2mbox.cpp:282 | `std::remove` without `erase` keeps the length |
| Items.NormalizeShape | hn2mbox.cpp:279-282 | the normalised value has the input's length and no line feed; its first `len - #CR` characters are the value without carriage returns, and the rest is the old tail |
| Items.Normalize | hn2mbox.cpp:279-282 | the normalised value keeps the input's length and contains no line feed |
| Items.NormalizeWithoutCR | hn2mbox.cpp:279-282 | without a carriage return, normalising only replaces line feeds; without line feeds either, it is the identity |
| Items.NormalizeKeepsStaleTail | hn2mbox.cpp:280-293 | `"a\rb"` becomes `"abb"`, and `objectID` `"1\r2"` is read as 122, not 12 |
| Items.NormalizeOneCR | hn2mbox.cpp:280-282 | a carriage return between two ordinary characters is dropped and the last character is repeated in the freed position |
| Items.StoreText | hn2mbox.cpp:284-295 | storing a string never touches the numeric fields; a non-string field leaves the item as it was; `objectID` gets `atoi` of the value |
| Items.StoreNumber | hn2mbox.cpp:222-229 | storing a number puts it in the selected numeric field (`points`, `num_comments`, `story_id`, `parent_id` or `created_at_i`) and keeps the other four; it never touches the string-fed fields; a non-numeric field leaves the item as it was |
| ItemsHandlers.ItemsHandler.constructor | hn2mbox.cpp:211 | a new handler has no pending field, no section, depth 0, a default item, and has handed nothing on |
| ItemsHandlers.ItemsHandler.Null | hn2mbox.cpp:214 | clears the pending field, even inside `_highlightResult`; nothing else changes |
| ItemsHandlers.ItemsHandler.Bool | hn2mbox.cpp:215 | changes nothing |
| ItemsHandlers.ItemsHandler.Int | hn2mbox.cpp:216 | acts as `Int64` of the same value |
| ItemsHandlers.ItemsHandler.Uint | hn2mbox.cpp:217 | acts as `Int64` of the same value |
| ItemsHandlers.ItemsHandler.Int64 | hn2mbox.cpp:218-232 | ignored inside `_highlightResult`; otherwise stores the number in the pending numeric field, if any, and clears the pending field |
| ItemsHandlers.ItemsHandler.Uint64 | hn2mbox.cpp:233 | changes nothing |
| ItemsHandlers.ItemsHandler.Double | hn2mbox.cpp:234 | changes nothing |
| ItemsHandlers.ItemsHandler.String | hn2mbox.cpp:236-298 | ignored inside `_highlightResult`; with no pending field it is a key (section switch or field selection); otherwise the normalised value is stored in the pending field and the field is cleared |
| ItemsHandlers.ItemsHandler.StartObject | hn2mbox.cpp:299 | increases the depth by one |
| ItemsHandlers.ItemsHandler.EndObject | hn2mbox.cpp:300-307 | decreases the depth; when it reaches 1, the item is handed on (appended to `emitted`), the section becomes `hits` and the item is reset |
| ItemsHandlers.ItemsHandler.StartArray | hn2mbox.cpp:308 | changes nothing |
| ItemsHandlers.ItemsHandler.EndArray | hn2mbox.cpp:309 | changes nothing |
| ItemsHandlers.Next | hn2mbox.cpp:214-309 | one event: only `StartObject` and `EndObject` change the depth, by +1 and -1, and only `EndObject` hands an item on |
| ItemsHandlers.OnNumber | hn2mbox.cpp:218-232 | a number event keeps depth and section and never touches the string-fed fields |
| ItemsHandlers.OnString | hn2mbox.cpp:236-298 | a string event keeps the depth and never touches the numeric fields; it changes the item only as a value for a pending field outside `_highlightResult` |
| ItemsHandlers.OnEndObject | hn2mbox.cpp:300-307 | takes one from the depth and keeps the pending field; hands the item on exactly when the depth was 2 |
| ItemsHandlers.EmitsExactlyOnRecordClose | hn2mbox.cpp:300-307 | an item is handed on if and only if the event is `EndObject` at depth 2; it is the item built so far, and the handler is left with a default item in `hits` |
| ItemsHandlers.IgnoredEvents | hn2mbox.cpp:213-234 | `Bool`, `Uint64`, `Double`, `StartArray` and `EndArray` leave the whole state as it was, pending field included |
| ItemsHandlers.KeyString | hn2mbox.cpp:240-273 | a string with no pending field never touches the item or the depth; `hits` and `_highlightResult` switch the section; other keys select their field; an unknown key changes nothing |
| ItemsHandlers.ValueClearsPending | hn2mbox.cpp:214-297 | outside `_highlightResult`, `Null`, a number or a string value clears the pending field and keeps section and depth |
| ItemsHandlers.HighlightBlocksScalars | hn2mbox.cpp:220-239 | inside `_highlightResult`, strings and numbers change nothing, not even the pending field |
| ItemsHandlers.ValueDispatch | hn2mbox.cpp:218-297 | numeric fields change only through number events and string-fed fields only through string events (apart from the reset on hand-on) |
| ItemsHandlers.MismatchedValue | hn2mbox.cpp:222-294 | a value of the wrong kind for the pending field only clears it; the item is unchanged |
| ItemsHandlers.NumberValueStored | hn2mbox.cpp:218-231 | outside highlight, an `Int`, `Uint` or `Int64` value for a pending numeric field is stored in exactly that field, and the pending field is cleared |
| ItemsHandlers.StringValueStored | hn2mbox.cpp:279-297 | a string value for any of the eight text fields is stored normalised in that field; for `objectID` it is stored as `atoi` of the normalised value; the pending field is cleared |
| ItemsHandlers.HighlightHoldsUntilEmission | hn2mbox.cpp:236-306 | once in `_highlightResult`, any event run that hands nothing on keeps that section and the item; closing the highlight object does not lift the block |
| ItemsHandlers.NoFieldStaysUntilKey | hn2mbox.cpp:238-244 | inside `_highlightResult`, a cleared pending field stays cleared over any event run that hands nothing on |
| ItemsHandlers.RunAppend | hn2mbox.cpp:207-310 | feeding two event runs one after the other is feeding their concatenation; the items handed on concatenate |
| ItemIds.ItemIdsHandler.constructor | hn2mbox.cpp:352 | a new handler has no pending field, depth 0 and a default item, and has printed nothing |
| ItemIds.ItemIdsHandler.Null | hn2mbox.cpp:355 | clears the pending field |
| ItemIds.ItemIdsHandler.Bool | hn2mbox.cpp:356 | changes nothing |
| ItemIds.ItemIdsHandler.Int | hn2mbox.cpp:357 | acts as `Int64` |
| ItemIds.ItemIdsHandler.Uint | hn2mbox.cpp:358 | acts as `Int64` |
| ItemIds.ItemIdsHandler.Int64 | hn2mbox.cpp:359-368 | ignored deeper than a record; otherwise stores `parent_id` if it is pending and clears the pending field |
| ItemIds.ItemIdsHandler.Uint64 | hn2mbox.cpp:369 | changes nothing |
| ItemIds.ItemIdsHandler.Double | hn2mbox.cpp:370 | changes nothing |
| ItemIds.ItemIdsHandler.String | hn2mbox.cpp:372-388 | ignored deeper than a record; recognises only the `parent_id` and `objectID` keys; stores `atoi` of the raw value for `objectID` |
| ItemIds.ItemIdsHandler.StartObject | hn2mbox.cpp:389 | increases the depth by one |
| ItemIds.ItemIdsHandler.EndObject | hn2mbox.cpp:390-396 | decreases the depth; when it reaches 1, prints the pair `(objectID, parent_id)` and resets the item |
| ItemIds.ItemIdsHandler.StartArray | hn2mbox.cpp:397 | changes nothing |
| ItemIds.ItemIdsHandler.EndArray | hn2mbox.cpp:398 | changes nothing |
| ItemIds.IdsOnNumber | hn2mbox.cpp:359-368 | a number keeps the depth and `objectID`; the item changes only when `parent_id` is pending in a record, and then `parent_id` receives the number and the pending field is cleared |
| ItemIds.IdsOnString | hn2mbox.cpp:372-388 | a string keeps the depth and `parent_id`; the item changes only when `objectID` is pending in a record, and then `objectID` receives `atoi` of the raw string and the pending field is cleared |
| ItemIds.IdsNext | hn2mbox.cpp:355-398 | one event: only `StartObject` and `EndObject` change the depth, by +1 and -1, and only `EndObject` prints |
| ItemIds.IdsOnlyIdsPreserved | hn2mbox.cpp:359-396 | every event keeps the item down to its two identifiers and the pending field to those two fields |
| ItemIds.IdsDeepScalarsIgnored | hn2mbox.cpp:361-375 | scalars deeper than a record change nothing |
| ItemIds.IdsPrintsOnRecordClose | hn2mbox.cpp:390-396 | a line is printed if and only if `EndObject` arrives at depth 2; it holds the record's `objectID` and `parent_id` |
| ItemIds.IdsAgreeOnIdentifiers | hn2mbox.cpp:359-388 | on values without line breaks, both handlers store the same `objectID` and `parent_id` |
| ItemIds.ObjectIdRead | hn2mbox.cpp:383-385 | for an `objectID` value, the items decoder stores `atoi` of the normalised text and the dump-ids decoder `atoi` of the raw text |
| ItemIds.IdsDisagreeOnCarriageReturn | hn2mbox.cpp:280-293 | on the `objectID` value `"1\r2"` the items decoder stores 122 and the dump-ids decoder stores 1 |
| Threading.ParentChain | hn2mbox.cpp:165-172 | the loop ends with the root-first chain: it ends with the parent, each id's index entry is the id before it, and the first id has no entry or a 0 entry; with an empty index it is just the parent |
| Threading.ChainLength | hn2mbox.cpp:167-171 | the chain is the parent alone if and only if the parent is a stopping id |
| Threading.ChainUnique | hn2mbox.cpp:165-172 | the chain is determined by the index and the parent |
| Threading.ChainOfRoot | hn2mbox.cpp:168-170 | a stopping id's chain is that id alone |
| Threading.ChainStep | hn2mbox.cpp:171 | pushing an ancestor at the front: the parent's chain followed by the id is the id's chain |
| Threading.CycleNeverReachesRoot | hn2mbox.cpp:167-172 | the index {3 -> 4, 4 -> 3} never reaches a stopping id from 3 or 4, so the walk has no bound there |
| Threading.ChainReachesRoot | hn2mbox.cpp:165-172 | every chain the walk can build shows a stopping id reachable from the parent, so the precondition of `ParentChain` is exactly the existence of a result |
| Threading.CycleHasNoChain | hn2mbox.cpp:167-172 | on the index {3 -> 4, 4 -> 3} no sequence is a chain from 3: the walk has no result there |
| Router.MonthKey | hn2mbox.cpp:89 | the key fits in 32 bits |
| Router.MonthKeyInjective | hn2mbox.cpp:89 | for year and month values below 0x10000, two months have the same key if and only if they are the same month |
| Router.OutputRouter.constructor | hn2mbox.cpp:81-82 | the file cache starts empty |
| Router.Route | hn2mbox.cpp:84-113 | one `getFile` call: the cache only grows and no cached stream is replaced; without `--split` the result is standard output; with it, a returned stream is the one cached under the month's key |
| Router.OutputRouter.GetFile | hn2mbox.cpp:84-113 | returns standard output without `--split`; otherwise the cached file of the month, or on a miss the newly opened file, which is added to the cache; a failed open is an error and adds nothing |
| Router.RouteDefault | hn2mbox.cpp:86-87 | without `--split`, standard output is returned and the cache is untouched |
| Router.RouteMiss | hn2mbox.cpp:92-110 | a miss whose open succeeds adds exactly one entry, under the month's key, and keeps all others; a failed open adds nothing |
| Router.RouteTwice | hn2mbox.cpp:92-112 | a second call for the same month returns the same stream and leaves the cache as it was |
| Router.RouteTwoMonths | hn2mbox.cpp:89-112 | two different months opened on an empty cache give two entries, each month's key holding the stream opened for it; distinct streams stay distinct |
| Mbox.InWindow | hn2mbox.cpp:139 | an empty or reversed window (`until <= since`) lets no item through |
| Mbox.WindowSplit | hn2mbox.cpp:139 | for `since <= mid <= until`, an item is in `[since, until)` exactly when it is in one of `[since, mid)` and `[mid, until)`, and never in both |
| Mbox.Compose | hn2mbox.cpp:149-204 | a message has 8 headers, plus 2 for a comment or 1 for a story, plus one each for a non-empty URL and a non-zero `story_id`; its body is a comment body exactly for a comment |
| Mbox.ComposeEnvelope | hn2mbox.cpp:149-160 | every message has its id, author and date, the `text/html` content type, and the title as subject, or the story title when the title is empty |
| Mbox.ComposeThreading | hn2mbox.cpp:162-177 | `In-Reply-To` (the parent id) and `References` (the chain) are present if and only if the item is a comment |
| Mbox.ComposeMetadata | hn2mbox.cpp:179-188 | link and points are always present; the URL exactly when non-empty; the story link exactly when `story_id` is not 0; the comment count exactly for stories |
| Mbox.ComposeBody | hn2mbox.cpp:194-204 | a comment's body is its `comment_text`; a story's is a link (raw URL as `href`, escaped URL as text, which has no quote or angle bracket and decodes back) followed by `story_text`; `parent_id` decides |
| Mbox.DumpItemAsEmail | hn2mbox.cpp:134-205 | the ancestor walk is required to end only where the source reaches it (in the window, a reply, and the month's file available); an item is dropped if and only if it is outside `[since, until)`, and then the file cache is untouched; otherwise the output and cache are what `getFile` gives, and the message is the composition with the walked chain |
| Scenario.StoryAndCommentDecoded | hn2mbox.cpp:236-306 | a document with a story and a comment (the comment with a `_highlightResult`), fed to a new handler, hands on exactly the story and then the comment, with the highlight text discarded |
| Scenario.StoryThenComment | hn2mbox.cpp:162-188 | the comment's message replies to the story with `References` [story]; the story's message has no `In-Reply-To` and has a comment count |

## Left out

- The JSON reader (rapidjson) is not part of this model: its events are the input of the handlers.  Parse errors and the reader's own buffering are out of scope.
- `main` is not part of this model: option parsing, `parsedate`, the `since`/`until` defaults and reading standard input.  The window is a parameter of `Mbox.DumpItemAsEmail`.
- `readIdFile` (the `fscanf` loop over the id file) is not part of this model: the id index is given as a `map<int, int>`.
- `gmtime` and `strftime` are taken as parameters: the `struct tm` year and month, and the date text.  The exit when `strftime` cannot format the month file's name is not modelled, because the format always fits its buffer.
- `fopen` is taken as a parameter: what it would return on a cache miss.  Its failure, on which the program prints a message and exits with status 1, becomes the result `Unavailable`.  Closing the files at exit is not modelled.
- Mbox.DumpItemAsEmail: headers are modelled as name/value pairs, not as the bytes `fprintf` writes.  The `From ` separator line, the `<id@hndump>` brackets, the author repeated inside `From:` and the permalink URL prefix are not modelled, and the body is the chosen parts rather than its HTML text.
- Items.StoreNumber: integer widths are not modelled.  `int64_t` values stored into `unsigned` and `int` fields keep their full value, and `atoi` does not overflow.  All numbers are unbounded integers.
- Router.MonthKey: in C, `(tm_year & 0xffff) << 16` can overflow `int`.  The model keeps the key non-negative.  This does not change which months share a key.
- Items.RemoveWithoutErase, Items.NormalizeShape: strings are modelled as sequences of characters, while the C++ moves UTF-8 bytes, so the stale tail is repeated per character, not per byte.  On `"\ré"` (bytes `0D C3 A9`) the C++ leaves `C3 A9 A9`, "é" and a stray continuation byte, while the model gives `"éé"`.  The two agree on text whose characters are single bytes.
- Strings and keys are compared as whole sequences.  The C code compares up to the first NUL character (`strcmp`, `c_str`).
- The `Double` payload is not modelled; the handlers ignore it.
- ItemsHandlers.ItemsHandler.EndObject: the record's hand-on to `dumpItemAsEmail` is modelled as appending the item to `emitted`.  `Mbox.DumpItemAsEmail` models what that call then does.  The handler's `item_ids` member is therefore not held by the class.
- ItemIds.ItemIdsHandler.EndObject: the `printf` of the pair is modelled as appending the pair to `printed`.
- Quirks of the code that the model keeps:
  - the `References` walk has no cycle guard.  A corrupt index with a cycle means the loop never ends normally: every pass pushes onto the list, which grows until memory runs out (`Threading.CycleNeverReachesRoot`).  `Threading.ParentChain` therefore requires that a stopping id is reachable.
  - `References` always starts from the parent id and follows the index; without an index it is the parent id alone, never the story id.
  - once `_highlightResult` is seen, scalars are ignored until the record itself closes, not until the highlight object closes.
  - an `objectID` value with a carriage return is read differently by the two modes: `"1\r2"` gives 122 in the mbox output and 1 in the `--dump-ids` output (`ItemIds.IdsDisagreeOnCarriageReturn`).
  - `objectID` is read only from string values; a numeric `objectID` leaves the field unchanged (0 in a fresh record).
  - normalisation does not delete carriage returns: `std::remove` without `erase` keeps the length and leaves stale characters at the end.  The model follows what libstdc++ leaves there; the C++ standard leaves those positions unspecified.
