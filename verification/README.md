# Freeplane map load/save core, modelled in Dafny

This project models three sequential pieces of Freeplane's map load/save
path:

- the **cloud extension codec** (`CloudBuilder`). It creates a cloud model
  for a `cloud` element and sets STYLE, COLOR and WIDTH from attributes. At the
  end of the element it attaches the cloud to its node. It writes a cloud back
  as an element and leaves out defaulted fields.
- the **load life cycle** of `MapReader` and its inner `NodeTreeCreator`.
  This covers the `mapLoadingInProcess` flag, the map being created, the node
  builder's new-id table handed to the completion listeners, and the builder
  reset after each parse.
- the **uniform fold application** of `CommonToggleFoldedAction`. It decides
  one fold value for the whole selection and writes it to every selected node.

Files:

- `wrappers.dfy`: `Option` stands for a nullable reference. `Result` stands
  for a call that returns or throws.
- `java_int.dfy`: Java's `int` and `Integer.toString` / `Integer.parseInt`
  in radix 10, with both round trips.
- `cloud_builder.dfy`: clouds, elements, the handler and registration.
  - Reading applies the setters one attribute at a time, in document order.
  - `FieldwiseRead` is an independent field-by-field reading.
  - `ApplyAttributesIsFieldwise` proves the two agree.
  - `ReadWrite` proves the round trip.
- `map_reader.dfy`: the reader's state, its collaborators and a log of the
  calls made to them.
- `toggle_folded.dfy`: list iterators, `resetIterator` and the fold loop.

Collaborators whose code is not part of this model become parameters:

- The colour conversions `TreeXmlWriter.colorToXml` / `TreeXmlReader.xmlToColor`
  become `ColorCodec`. Its `fromXml` may return no colour. The round trip
  assumes that the two conversions are inverse.
- `CloudController.DEFAULT_WIDTH` becomes `Settings.defaultWidth`. A new
  `CloudModel` is taken to start with no style, no colour and the default
  width.
- In `MapReader`:
  - `TreeXmlReader.load` driving the node builder becomes `Collaborators.load`.
    It sees the input, the created map, the loading flag and the builder. It
    returns the builder as it left it, together with the exception if one was
    thrown.
  - `NodeBuilder.reset` becomes `Collaborators.reset`. It sees the loading
    flag, since the node builder holds the reader.
  - `ReadManager.readingCompleted` becomes `Collaborators.readingCompleted`,
    which may throw.
  - `getCreatedMap()` and `isMapLoadingInProcess()` are the fields
    `createdMap` and `mapLoadingInProcess` of `Reader`.
- `MapController.getFoldingState` is a function of the node list and the
  current folded flags. It also returns where it left the iterator. The
  position is clamped to the list, as a list iterator cannot move past it.
  `MapController.setFolded(node, fold)` sets the node's flag.

## Model

| member | source | states |
|---|---|---|
| `JavaInt.ToString` | freeplane/src/org/freeplane/map/cloud/CloudBuilder.java:105-108 | the written width is an optional minus sign, present exactly for negative values, followed by decimal digits without a leading zero |
| `JavaInt.ParseInt` | freeplane/src/org/freeplane/map/cloud/CloudBuilder.java:73-78 | a width value is accepted only as an optional `-` or `+` followed by at least one decimal digit, and its value is then the signed value of those digits; everything else, including empty input, throws a NumberFormatException naming the input |
| `JavaInt.ParseIntOfToString` | freeplane/src/org/freeplane/map/cloud/CloudBuilder.java:76 | parsing the decimal string of any `int` gives that `int` back, the smallest and largest included |
| `JavaInt.ToStringOfParseInt` | freeplane/src/org/freeplane/map/cloud/CloudBuilder.java:107 | a canonically written number (no plus sign, no leading zero) that parses is exactly the string `toString` writes for it |
| `JavaInt.ParseIntIgnoresPlusAndLeadingZeros` | freeplane/src/org/freeplane/map/cloud/CloudBuilder.java:76 | a plus sign or leading zeros do not change whether a width parses or what it parses to |
| `CloudBuilder.CreateElement` | freeplane/src/org/freeplane/map/cloud/CloudBuilder.java:42-47 | a cloud is created exactly for the tag `cloud`, and it starts with no style, no colour and the default width; any other tag gives null |
| `CloudBuilder.EndElement` | freeplane/src/org/freeplane/map/cloud/CloudBuilder.java:49-58 | the cloud is stored on the parent exactly when the parent is a node and the user object is a cloud; the node keeps its identity; otherwise the parent is unchanged |
| `CloudBuilder.SetAttribute` | freeplane/src/org/freeplane/map/cloud/CloudBuilder.java:60-79 | STYLE stores the raw string; COLOR stores the converted colour, which may be null; WIDTH stores the parsed `int`, and an unparsable value throws instead of keeping the old width |
| `CloudBuilder.ApplyAttributesIsFieldwise` | freeplane/src/org/freeplane/map/cloud/CloudBuilder.java:60-79 | applying the setters in document order equals the field-by-field reading, so attribute order does not matter; with the colour conversion taken not to throw, only a bad WIDTH fails |
| `CloudBuilder.MalformedWidthFails` | freeplane/src/org/freeplane/map/cloud/CloudBuilder.java:73-78 | a cloud element whose WIDTH does not parse fails to load with that value's NumberFormatException |
| `CloudBuilder.Write` | freeplane/src/org/freeplane/map/cloud/CloudBuilder.java:92-110 | the element is named `cloud` and its attribute names are distinct, drawn from STYLE, COLOR and WIDTH. STYLE is present iff the style is set and holds it. COLOR is present iff the colour is set and holds its XML form. WIDTH is present iff the width differs from the default and holds its decimal string |
| `CloudBuilder.WriteRoundCloud` | freeplane/src/org/freeplane/map/cloud/CloudBuilder.java:95-108 | a ROUND cloud of width 6 with a colour is written as STYLE, COLOR, WIDTH = "ROUND", the colour's XML, "6" |
| `CloudBuilder.ReadWrite` | freeplane/src/org/freeplane/map/cloud/CloudBuilder.java:42-110 | reading back a written cloud gives an equal cloud, provided the colour conversions are inverse |
| `CloudBuilder.DefaultWidthOmitted` | freeplane/src/org/freeplane/map/cloud/CloudBuilder.java:105-108 | a default-width cloud is written without WIDTH and reads back with the default width |
| `CloudBuilder.ReadWriteRead` | freeplane/src/org/freeplane/map/cloud/CloudBuilder.java:60-110 | corollary of `ReadWrite`: writing after any successful read normalises, so the written element reads back to the same cloud |
| `CloudBuilder.LoadWrittenCloud` | freeplane/src/org/freeplane/map/cloud/CloudBuilder.java:42-58 | a written cloud, read back and closed under a node, leaves that node carrying the same cloud |
| `CloudBuilder.RegisterBy` | freeplane/src/org/freeplane/map/cloud/CloudBuilder.java:83-87 | registration binds `cloud` to the builder. Under `cloud` it adds exactly the STYLE, COLOR and WIDTH setters, each under its own name, and nothing under other tags. It registers the builder as the cloud model writer. It adds no other binding and removes none |
| `CloudBuilder.RegisteredSettersAreDispatched` | freeplane/src/org/freeplane/map/cloud/CloudBuilder.java:60-87 | into any managers (the node builder registers first), the handlers bound to a `cloud` attribute afterwards are the ones already there plus exactly the setter the reader dispatches it to; with no earlier `cloud` attribute handlers the two coincide |
| `MapReader.NodeTreeCreator` | freeplane/src/org/freeplane/core/map/MapReader.java:96-100 | after `nodeTreeCreator(map)`, `getCreatedMap()` is `map`; the flag, the builder and the call log are unchanged |
| `MapReader.Create` | freeplane/src/org/freeplane/core/map/MapReader.java:36-42 | returns the builder's map child captured before `reset`, and the builder is the reset one. If the parse throws, its exception propagates and the builder is not reset |
| `MapReader.Finish` | freeplane/src/org/freeplane/core/map/MapReader.java:52-57 | the listeners get the root and the current new-id table; afterwards the table is empty and no map is being created; if a listener throws, neither happens |
| `MapReader.CreatorCreateNodeTree` | freeplane/src/org/freeplane/core/map/MapReader.java:44-50 | start, create and finish run in sequence, with any loading flag. It succeeds iff the parse and the listeners both succeed, and then returns the map child captured before the reset. The listeners received that root and the post-reset id table, which is then cleared. The exact collaborator calls are listed. A failed parse skips `finish`: no listener is called and the created map is kept |
| `MapReader.ReaderCreateNodeTree` | freeplane/src/org/freeplane/core/map/MapReader.java:75-86 | afterwards `isMapLoadingInProcess()` is false on every path, while every collaborator called during the load saw it true. Success holds iff the parse and the listeners both succeed. On success the exact collaborator calls are listed. On a failed parse the exception propagates and the created map is kept. When a listener throws, the created map stays set and the id table is not cleared |
| `MapReader.CallerDrivenLoadAgrees` | freeplane/src/org/freeplane/core/map/MapReader.java:44-61 | driving a creator from `nodeTreeCreator(map)` through `create` and `finish` by hand ends in the same state and outcome as the creator's own `createNodeTreeFromXml` |
| `MapReader.LoadReturnsToIdle` | freeplane/src/org/freeplane/core/map/MapReader.java:52-86 | from any state, a load that returns leaves the reader idle: no load in progress, no created map, an empty id table. A load that throws leaves the created map set |
| `ToggleFolded.FoldedAfter` | freeplane/src/org/freeplane/core/map/CommonToggleFoldedAction.java:54-57 | reference outcome: listed nodes get the fold value, and every other node keeps its flag, or stays without one |
| `ToggleFolded.ResetIterator` | freeplane/src/org/freeplane/core/map/CommonToggleFoldedAction.java:40-45 | leaves the iterator at position 0 over the unmodified list; terminates since the position strictly decreases |
| `ToggleFolded.ToggleFoldedIterator` | freeplane/src/org/freeplane/core/map/CommonToggleFoldedAction.java:51-58 | the value is decided once, from the whole list and the flags before any change. Each node is set to it in list order, once per position. The result is `FoldedAfter` |
| `ToggleFolded.ToggleFoldedSelection` | freeplane/src/org/freeplane/core/map/CommonToggleFoldedAction.java:47-49 | on the current selection, every selected node ends with the one decided value. Unselected nodes are untouched, and an empty selection changes nothing |

## Left out

- `JavaInt.ParseInt`: accepts ASCII digits only. `Integer.parseInt` also accepts other Unicode decimal digits through `Character.digit`. The writer never emits such digits, so the round trip is unaffected.
- `setAttributes` (CloudBuilder.java:89-90) has an empty body. The cloud handler keeps no state it could change, so it has no counterpart.
- `actionPerformed` of the fold action only calls `toggleFolded()`, which is modelled.
- `ReadManager`, `WriteManager`, `TreeXmlReader`, `TreeXmlWriter` and `NodeBuilder` are not part of this model. The registries are sets of bindings: the replacement policy for a second handler under the same key is not shown. XML text, escaping and streaming are not modelled.
- `CloudBuilder.ApplyAttribute`: the read manager's dispatch is not part of this model. The model takes it to ignore an attribute that has no registered handler.
- `CloudBuilder.SetAttribute`: takes `xmlToColor` not to throw. Whether it throws on malformed text is not in the modelled code, so the model does not promise that a bad COLOR fails the read; it lets the conversion return no colour instead.
- `JavaInt.ParseInt`: models `Integer.parseInt` of JDK 7 and later, which accepts a leading `+`. Earlier JDKs reject it; the writer never emits `+`, so the round trip is unaffected.
- `writer.addElement(model, cloud)` is modelled by returning the element. The writer's output stream is not modelled.
- The colour conversions are abstract. RGB arithmetic and the hex format are not modelled, and neither is what `xmlToColor` does with malformed text.
- Duplicate-id remapping and reference resolution are not modelled. They appear only as the new-id table handed to the completion listeners. Their policy is not in the modelled code.
- `NodeBuilder.reset` is an arbitrary function of the builder and the loading flag: what it clears is not shown. Likewise, whether a listener changes the id table it receives is not modelled.
- The controller singletons (`getModeController()`, `getMapController()`) are dropped. Their only roles here are `getSelectedNodes`, `getFoldingState` and `setFolded`, which are parameters or modelled directly.
- Constructors (`CloudBuilder()`, `MapReader(readManager)`, which registers the node builder) only wire objects together and have no counterpart.
