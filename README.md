# Scene-description interpreter of the Skia CMake demos

Three demo programs each carry their own copy of a small interpreter. It
reads a YAML scene tree and turns every item into calls on an `SkCanvas`. The
copies are `cmake/yaml.cpp`, `cmake/viewer.cpp` and `cmake/example.cpp`. Each
has:

- value decoders (`YAML::convert<SkColorW>`, `convert<vector<double>>`,
  `convert<SkRect>`);
- handlers for text, rectangles, glyph runs and images;
- a dispatcher `drawItem` that picks a handler by the first key the item has.

In yaml.cpp and viewer.cpp, `drawStackingContext` brackets the children of an
item with save, translate and restore. yaml.cpp also has the item loop of
`drawYAMLFile`.

The copies differ in ways a reader can observe, and each is modelled in its own
module:

- `YamlScene` follows yaml.cpp:
  - five colour names;
  - colours of three components (opaque) or four (alpha taken raw);
  - text sizes scaled by 16/12.
- `ViewerScene` follows viewer.cpp:
  - three colour names;
  - both numeric colour branches test for four components, so three
    components never decode;
  - text sizes are used as given;
  - `drawGlyphs` sets the colour twice.
- `ExampleScene` follows example.cpp:
  - three colour names;
  - the four-component branch subscripts the scalar node itself
    (`node[0]`), which throws, so only the names decode;
  - `drawRect` reads only "rect";
  - glyph positions are points `(x, 0)`;
  - `drawImage` is empty;
  - `drawItem` never descends into a stacking context;
  - the text size is read with `as<int>`;
  - text and glyphs are drawn without antialiasing and keep the UTF-8 text
    encoding.

The shared pieces are in these modules:

- `NumberText`: reading numbers from text the way `operator>>` on a stream
  does. It also has a decimal writer, used to state round trips.
- `YamlNode`: the node tree and the yaml-cpp operations the programs use.
  These are key lookup (a scalar throws, a missing key is undefined),
  iteration (a map's elements are zombie nodes whose first use throws), and the
  conversions `as<string>`, `as<double>`, `as<int>` and `as<uint16_t>`.
- `Canvas`: the canvas as a log of commands, with a save-depth counter.
- `Convert`: the number-list and rectangle decoders.
- `SceneCommon`: the pieces the copies share word for word.

Each handler is a function from the item to `Result<Command>`. It is `Ok` with
the one command it issues, or `Err` with what ends the program: an exception
from a throwing conversion, or a failed `assert`. A `std::vector` subscript
past the end (`origin[1]`, `bounds[1]`, `vec[3]`) is unchecked undefined
behaviour in C++. The model treats it as ending the program too, with the
error `OutOfRange` (see "## Left out").

A piece of the interpreter is described by a `Trace`: the commands it issues,
and whether it comes to its end. The imperative side mirrors the C++. These
methods drive a `Recorder` class (the canvas):

- `DrawText`, `DrawRect`, `DrawGlyphs`, `DrawItem`, `DrawStackingContext`;
- the item loops;
- the stream loop `ReadStream`;
- the push loops `CollectGlyphIds`, `CollectOffsets` and `CollectPositions`.

Each method is proved to record exactly the trace of the node it is given.

Where the code and the behaviour the programs were evidently meant to have
part ways, the model follows the code:

- viewer.cpp and example.cpp test four components twice;
- example.cpp subscripts the scalar;
- an odd number of "offsets" reads one past the end of the sequence. That
  yields an undefined node, whose conversion throws, so no run is drawn
  (`ceil(n/2)` points are never produced).

## Model

| member | source | states |
|---|---|---|
| NumberText.ScanReal | cmake/yaml.cpp:98 | one extraction `ss >> token` at a position that succeeds starts at a non-blank character and ends after it, within the text |
| NumberText.ScanRealOfIntText | cmake/yaml.cpp:98 | the decimal text of any integer, followed by the end or a blank, is extracted as exactly that integer and ends where its text ends |
| NumberText.ScanIntOfIntText | cmake/yaml.cpp:184 | round trip: an integer extraction reads the decimal text of any integer back as its sign and magnitude, taking the whole text |
| NumberText.ScanInt | cmake/yaml.cpp:184 | one integer extraction with no base given: sign, then a `0x` prefix, a leading `0` (octal) or decimal digits; a success takes at least one character of the text; its decimal case is pinned by `ScanIntOfIntText` |
| YamlNode.Child | cmake/yaml.cpp:226 | `node[key]` on a non-const node throws exactly for a scalar, and yields a defined node exactly for a map holding the key |
| YamlNode.Lookup | cmake/yaml.cpp:129 | on a node that is not a scalar, `node[key]` is defined exactly when the key is present, and agrees with `Child` |
| YamlNode.Elements | cmake/yaml.cpp:217 | iterating a node fails (zombie elements) exactly when it is a non-empty map; undefined nodes and scalars have no elements |
| YamlNode.AsString | cmake/yaml.cpp:138 | `as<string>` succeeds exactly on scalars |
| YamlNode.AsReal | cmake/yaml.cpp:134 | `as<double>` succeeds only on scalars and throws a conversion error otherwise; its value on integer text is pinned by `AsRealOfIntText` |
| YamlNode.AsInt | cmake/yaml.cpp:184 | `as<int>` yields only values inside the 32-bit signed range |
| YamlNode.AsUint16 | cmake/yaml.cpp:167 | `as<uint16_t>` yields only values below 65536 |
| YamlNode.AsIntOfIntText | cmake/yaml.cpp:184 | round trip: the decimal text of an integer converts with `as<int>` to that integer exactly when it fits in 32 bits, and fails otherwise |
| YamlNode.AsUint16OfNatText | cmake/yaml.cpp:167 | round trip: the decimal text of a number converts with `as<uint16_t>` to that number exactly when it is below 65536, and fails otherwise |
| YamlNode.AsRealOfIntText | cmake/yaml.cpp:134 | round trip: a scalar holding the decimal text of an integer converts with `as<double>()` to that integer |
| Canvas.MakeXYWH | cmake/yaml.cpp:114-117 | the rectangle has left x and top y, width w and height h |
| Canvas.SetTextSize | cmake/yaml.cpp:134 | the paint's text size becomes the size when it is not negative, and nothing else changes |
| Canvas.Then | cmake/yaml.cpp:251-253 | sequencing in which an exception ends the program; `LogThen` ties it to the log the canvas records, `DepthConcat` and `NestedConcat` to the saves left open, `ThenWellBracketed` to well-bracketing |
| Canvas.Single | cmake/yaml.cpp:146-160 | a handler that decodes its arguments and issues one command, or stops; `SingleWellBracketed` states that a drawing command leaves the saves as they were, and the `ItemDispatch` lemmas state which handler an item reaches |
| Canvas.DepthConcat | cmake/yaml.cpp:213-221 | the saves left open by two logs one after the other add up |
| Canvas.NestedConcat | cmake/yaml.cpp:213-221 | two logs that never restore more than they saved give one with the same property |
| Canvas.BracketNested | cmake/yaml.cpp:215-216 | a save and a translation before a well-nested body leave one more save open than the body does |
| Canvas.ThenWellBracketed | cmake/yaml.cpp:217-219 | running two well-bracketed pieces one after the other is well-bracketed |
| Canvas.SingleWellBracketed | cmake/yaml.cpp:146-160 | a handler whose command is not a save or a restore is well-bracketed |
| Canvas.Bracket | cmake/yaml.cpp:215-220 | save and translate, then the body, then a restore exactly when the body came to its end |
| Canvas.BracketWellBracketed | cmake/yaml.cpp:215-220 | bracketing a well-bracketed body closes its save exactly when the body comes to its end |
| Canvas.Recorder.Save | cmake/yaml.cpp:215 | records a save and opens one more save |
| Canvas.Recorder.Restore | cmake/yaml.cpp:220 | records a restore and closes a save when one is open; with none open, changes nothing |
| Canvas.Recorder.Translate | cmake/yaml.cpp:216 | records the translation; open saves unchanged |
| Canvas.Recorder.DrawRect | cmake/yaml.cpp:158 | records the rectangle with its paint; open saves unchanged |
| Canvas.Recorder.DrawText | cmake/yaml.cpp:140-143 | records the text at its origin with its paint; open saves unchanged |
| Canvas.Recorder.DrawPosText | cmake/yaml.cpp:202 | records the glyph run, its byte length, points and paint; open saves unchanged |
| Canvas.Recorder.DrawImage | cmake/yaml.cpp:210 | records the image path at its position; open saves unchanged |
| Convert.AsNumbers | cmake/yaml.cpp:93-105 | `as<vector<double>>` succeeds exactly on scalars, with the numbers the stream reads from the text |
| Convert.DecodeNumbers | cmake/yaml.cpp:93-105 | the decoder run as the C++ runs it, agreeing with `AsNumbers` on every node |
| Convert.NumbersFrom | cmake/yaml.cpp:95-101 | the numbers a stream yields from a position: one extraction at a time after blanks, until the end or the first failure; `ReadStream` is proved equal to it, `NumbersAfterJoin` and `NumberListStopsAtBadToken` state its properties |
| Convert.NumberList | cmake/yaml.cpp:95-101 | the numbers a fresh stream over the text yields; `NumberListOfJoin` is its round trip |
| Convert.ReadStream | cmake/yaml.cpp:95-101 | the `while (ss >> token) vec.push_back(token)` loop collects exactly the numbers of the text, in order |
| Convert.AsRect | cmake/yaml.cpp:110-122 | `as<SkRect>` throws on anything but a scalar; a scalar with at least four numbers gives x, y, width and height in that order; fewer than four is the unchecked read past the end of `vec`, modelled as a stop |
| Convert.NumbersAfterJoin | cmake/yaml.cpp:98-100 | integers written with single blanks between them, followed by the end or a blank, are read as exactly those integers |
| Convert.NumberListOfJoin | cmake/yaml.cpp:98-100 | round trip: the number list of integers written out with blanks between them is those integers |
| Convert.NumberListStopsAtBadToken | cmake/yaml.cpp:98-100 | reading stops at the first text that is not a number: only the numbers before it are collected, whatever follows |
| Convert.NoNumbersAtLetter | cmake/yaml.cpp:98 | a text starting with a character no number can begin with has no numbers |
| Convert.AsRectOfJoin | cmake/yaml.cpp:110-118 | four integers (and possibly more) decode to the rectangle with those four as x, y, width and height |
| Convert.AsRectOfNumbers | cmake/yaml.cpp:110-118 | a scalar whose text reads as at least four numbers decodes to the rectangle of the first four |
| SceneCommon.CStr | cmake/yaml.cpp:140 | `strlen(text.c_str())` characters: the longest prefix without a NUL, followed by a NUL when shorter than the text |
| SceneCommon.ChildOf | cmake/yaml.cpp:251 | `node[key]` on a node that may be undefined, as in `doc["root"]["items"]`; `YamlScene.FileWithoutItems` states what a missing or scalar root or items gives |
| SceneCommon.GlyphIds | cmake/yaml.cpp:166-168 | the glyph ids succeed exactly when every node converts to `uint16_t`, one id per node, in order |
| SceneCommon.GlyphList | cmake/yaml.cpp:166-168 | the glyph loop over a node fails when iterating it fails, and otherwise converts its elements |
| SceneCommon.CollectGlyphIds | cmake/yaml.cpp:164-168 | the push loop collects exactly `GlyphList` |
| SceneCommon.GlyphIdsStop | cmake/yaml.cpp:166-168 | the first glyph that does not convert decides the failure, whatever follows it |
| SceneCommon.Offsets | cmake/yaml.cpp:171-172 | one `as<double>` per offset, in order, one result per element |
| SceneCommon.PairPoints | cmake/yaml.cpp:169-174 | on success the offsets count is even and there is one point per pair |
| SceneCommon.PairPointsOk | cmake/yaml.cpp:169-174 | the offsets give points exactly when their count is even and every one is a number |
| SceneCommon.PairPointsAt | cmake/yaml.cpp:169-174 | point j has x from offset 2j and y from offset 2j+1 |
| SceneCommon.OffsetList | cmake/yaml.cpp:169-174 | undefined and scalar "offsets" give no points; a sequence gives its pairs |
| SceneCommon.CollectOffsets | cmake/yaml.cpp:165-174 | the step-2 loop collects exactly `OffsetList`, failing at the first offset that is not a number or has no partner |
| SceneCommon.PairPointsFails | cmake/yaml.cpp:169-174 | the loop fails with the exception of the first offset of a pair that does not convert, or because a last offset has no partner |
| SceneCommon.WeightOf | cmake/yaml.cpp:182-185 | the font weight of `drawGlyphs`; `YamlScene.GlyphTypeface` and `ViewerScene.GlyphTypeface` state the resulting typeface |
| SceneCommon.FamilyStep | cmake/yaml.cpp:187-192 | only the typeface changes, only when "family" is given, to that family at the weight |
| SceneCommon.ImageCommand | cmake/yaml.cpp:206-211 | the image is drawn exactly when "image" is a string and "bounds" has at least two numbers, at those two |
| SceneCommon.DrawImage | cmake/yaml.cpp:206-211 | records exactly the image handler's command; open saves unchanged |
| YamlScene.NamedColor | cmake/yaml.cpp:46-66 | exactly the five names are colours |
| YamlScene.ColorOf | cmake/yaml.cpp:44-88 | decodes exactly scalar names and scalars of three or four numbers; a name gives its constant; numbers give R, G, B divided by 255 and alpha 1 or the fourth number as it is |
| YamlScene.ColorStep | cmake/yaml.cpp:129-132 | only the colour changes, and only when "color" is given, to its decoded value |
| YamlScene.SizeStep | cmake/yaml.cpp:133-136 | only when "size" is given, the text size becomes its number times 16/12 |
| YamlScene.RectKey | cmake/yaml.cpp:149-152 | the key `drawRect` reads: "rect" when defined, else "bounds"; `RectCommand`'s contract states the choice |
| YamlScene.GlyphPaint | cmake/yaml.cpp:176-197 | the glyph paint: scaled size, typeface of the family at the weight, then the colour; `GlyphsCommand`'s contract states what it yields |
| YamlScene.GlyphTypeface | cmake/yaml.cpp:182-192 | a glyph run has no typeface without "family"; with it, the family as a C string at the `as<int>` of "weight", or at the normal weight 400 without "weight" |
| YamlScene.TextCommand | cmake/yaml.cpp:126-145 | the text is drawn exactly when origin, colour, size and text decode and the origin has two numbers; at the origin, antialiased, as the C string |
| YamlScene.RectCommand | cmake/yaml.cpp:146-160 | the rectangle of "rect", or of "bounds" without "rect", with the colour when given |
| YamlScene.GlyphsCommand | cmake/yaml.cpp:162-204 | the run is drawn exactly when ids, offsets and paint decode and their counts agree; a mismatch fails the assertion; two bytes per id, glyph-id encoding, antialiased |
| YamlScene.HandlerOf | cmake/yaml.cpp:224-244 | choosing a handler fails exactly on a scalar, or on a "type" that is not a string when no earlier key is present |
| YamlScene.ItemTrace | cmake/yaml.cpp:224-244 | `drawItem`: the chosen handler's trace; `ItemDispatch` and `TypeDispatch` state the choice, `ItemWellBracketed` the nesting |
| YamlScene.Handle | cmake/yaml.cpp:226-241 | what each handler draws; `HandleWellBracketed` states its nesting |
| YamlScene.StackingTrace | cmake/yaml.cpp:213-221 | `drawStackingContext`; `StackingShape`, `StackingIsBracket` and `StackingWellBracketed` state its shape and nesting |
| YamlScene.ChildrenTrace | cmake/yaml.cpp:217-219 | the loop over "items"; `ChildrenWellBracketed` states its nesting |
| YamlScene.ItemsTrace | cmake/yaml.cpp:217-219 | the first k items, in order, until one stops; `ItemsInOrder`, `ItemsStop` and `ItemsWellBracketed` state its properties |
| YamlScene.FileTrace | cmake/yaml.cpp:251-253 | the loop over `doc["root"]["items"]`; `FileWellBracketed` and `DrawYamlFile` state its properties |
| YamlScene.FileWithoutItems | cmake/yaml.cpp:250-253 | a scalar document or a scalar root throws; a document without "root", or a root without "items", draws nothing, since subscripting an undefined node yields an undefined node with no elements |
| YamlScene.ItemWellBracketed | cmake/yaml.cpp:224-244 | every item never restores more than it saved and, when it comes to its end, leaves the saves it found |
| YamlScene.HandleWellBracketed | cmake/yaml.cpp:226-241 | every handler is well-bracketed |
| YamlScene.StackingWellBracketed | cmake/yaml.cpp:213-221 | a stacking context is well-bracketed |
| YamlScene.ChildrenWellBracketed | cmake/yaml.cpp:217-219 | the children of a stacking context are well-bracketed |
| YamlScene.ItemsWellBracketed | cmake/yaml.cpp:217-219 | any prefix of an item loop is well-bracketed |
| YamlScene.FileWellBracketed | cmake/yaml.cpp:251-253 | the whole file is well-bracketed |
| YamlScene.NamedColorsDecode | cmake/yaml.cpp:46-66 | the five names decode to their constants |
| YamlScene.JoinIsNotNamed | cmake/yaml.cpp:46-68 | no list of numbers is taken for a name, so numbers reach the numeric branches |
| YamlScene.ThreeComponentsOpaque | cmake/yaml.cpp:77-84 | three integers give R, G, B divided by 255 and alpha 1 |
| YamlScene.FourComponentsRawAlpha | cmake/yaml.cpp:69-76 | four integers give R, G, B divided by 255 and the fourth as alpha, unscaled |
| YamlScene.OtherComponentCountsFail | cmake/yaml.cpp:68-87 | any other count of integers does not decode |
| YamlScene.ItemDispatch | cmake/yaml.cpp:224-234 | a scalar stops; otherwise the first of text, rect, image, glyphs, stacking_context present picks the handler, stacking_context drawing nothing; no key draws nothing |
| YamlScene.TypeDispatch | cmake/yaml.cpp:235-242 | without those keys, "type" picks stacking context or rectangle; any other type draws nothing, and a non-string type stops |
| YamlScene.StackingShape | cmake/yaml.cpp:213-221 | a stacking context issues save, translate by the first two bounds, its children's commands, then restore when they all come to their end |
| YamlScene.ItemsInOrder | cmake/yaml.cpp:217-219 | one more item appends exactly that item's commands |
| YamlScene.ItemsStop | cmake/yaml.cpp:217-219 | once an item stops the program, later items add nothing |
| YamlScene.StackingIsBracket | cmake/yaml.cpp:213-221 | a stacking context with two bounds is the bracket of its children |
| YamlScene.RectOfJoin | cmake/yaml.cpp:146-158 | four integers under "rect" and no colour give that rectangle with the default paint |
| YamlScene.DrawText | cmake/yaml.cpp:126-145 | records exactly `TextCommand`; open saves unchanged |
| YamlScene.DrawRect | cmake/yaml.cpp:146-160 | records exactly `RectCommand`; open saves unchanged |
| YamlScene.DrawGlyphs | cmake/yaml.cpp:162-204 | records exactly `GlyphsCommand`; open saves unchanged |
| YamlScene.DrawItem | cmake/yaml.cpp:224-244 | records exactly the item's trace; open saves unchanged when it comes to its end |
| YamlScene.DrawStackingContext | cmake/yaml.cpp:213-221 | records exactly the stacking trace; open saves unchanged when it comes to its end |
| YamlScene.DrawTranslated | cmake/yaml.cpp:216-220 | records translate, the children, and restore when they come to their end |
| YamlScene.DrawChildren | cmake/yaml.cpp:217-219 | records exactly the children's commands |
| YamlScene.DrawItems | cmake/yaml.cpp:217-219 | the item loop records every item's commands in order, stopping with the first item that stops |
| YamlScene.DrawNext | cmake/yaml.cpp:217-219 | one round of the item loop: after the items before it, the next item's commands are recorded and the loop's trace is extended by exactly that item |
| YamlScene.DrawYamlFile | cmake/yaml.cpp:251-253 | records exactly the file's trace; once it comes to its end the log has as many open saves as before, and a well-nested log stays well-nested |
| ViewerScene.NamedColor | cmake/viewer.cpp:97-108 | exactly the three names red, green and blue are colours |
| ViewerScene.ColorOf | cmake/viewer.cpp:94-131 | decodes exactly scalar names and scalars of four numbers (R, G, B divided by 255, alpha as it is) |
| ViewerScene.ColorStep | cmake/viewer.cpp:172-175 | only the colour changes, and only when "color" is given, to its decoded value |
| ViewerScene.SizeStep | cmake/viewer.cpp:176-179 | only when "size" is given, the text size becomes its number as it is |
| ViewerScene.RectKey | cmake/viewer.cpp:192-195 | the key `drawRect` reads: "rect" when defined, else "bounds"; `RectCommand`'s contract states the choice |
| ViewerScene.GlyphPaint | cmake/viewer.cpp:219-245 | the glyph paint: size as given, typeface of the family at the weight, then the colour twice; `ColorStepTwice` and `GlyphsCommand` state what it yields |
| ViewerScene.GlyphTypeface | cmake/viewer.cpp:225-235 | a glyph run has no typeface without "family"; with it, the family as a C string at the `as<int>` of "weight", or at the normal weight 400 without "weight" |
| ViewerScene.TextCommand | cmake/viewer.cpp:169-188 | the text is drawn exactly when origin, colour, size and text decode and the origin has two numbers; at the origin, antialiased |
| ViewerScene.RectCommand | cmake/viewer.cpp:189-203 | the rectangle of "rect", or of "bounds" without "rect", with the colour when given |
| ViewerScene.GlyphsCommand | cmake/viewer.cpp:205-252 | the run is drawn exactly when ids, offsets and paint decode and their counts agree; a mismatch fails the assertion; two bytes per id, glyph-id encoding, antialiased |
| ViewerScene.ItemTrace | cmake/viewer.cpp:272-292 | `drawItem`: the first key present picks the handler; `ItemDispatch` and `TypeDispatch` state the choice, `ItemWellBracketed` the nesting |
| ViewerScene.StackingTrace | cmake/viewer.cpp:261-269 | `drawStackingContext`; `StackingShape`, `StackingIsBracket` and `StackingWellBracketed` state its shape and nesting |
| ViewerScene.ChildrenTrace | cmake/viewer.cpp:265-267 | the loop over "items"; `ChildrenWellBracketed` states its nesting |
| ViewerScene.ItemsTrace | cmake/viewer.cpp:265-267 | the first k items, in order, until one stops; `ItemsInOrder`, `ItemsStop` and `ItemsWellBracketed` state its properties |
| ViewerScene.ItemWellBracketed | cmake/viewer.cpp:272-292 | every item never restores more than it saved and, when it comes to its end, leaves the saves it found |
| ViewerScene.StackingWellBracketed | cmake/viewer.cpp:261-269 | a stacking context is well-bracketed |
| ViewerScene.ChildrenWellBracketed | cmake/viewer.cpp:265-267 | the children of a stacking context are well-bracketed |
| ViewerScene.ItemsWellBracketed | cmake/viewer.cpp:265-267 | any prefix of an item loop is well-bracketed |
| ViewerScene.NamedColorsDecode | cmake/viewer.cpp:97-108 | the three names decode to their constants |
| ViewerScene.WhiteIsNotAColor | cmake/viewer.cpp:97-111 | "white" is not a name: it is read as numbers, has none, and does not decode |
| ViewerScene.JoinIsNotNamed | cmake/viewer.cpp:97-111 | no list of numbers is taken for a name |
| ViewerScene.ThreeComponentsFail | cmake/viewer.cpp:112-130 | three components do not decode, because the second branch tests for four again |
| ViewerScene.FourComponentsRawAlpha | cmake/viewer.cpp:112-119 | four integers give R, G, B divided by 255 and the fourth as alpha, unscaled |
| ViewerScene.OtherComponentCountsFail | cmake/viewer.cpp:111-130 | any count of integers other than four does not decode |
| ViewerScene.ColorStepTwice | cmake/viewer.cpp:237-245 | setting the colour a second time leaves the paint as setting it once |
| ViewerScene.ItemDispatch | cmake/viewer.cpp:272-282 | a scalar stops; otherwise the first of text, rect, image, glyphs, stacking_context present picks the handler, stacking_context drawing nothing; no key draws nothing |
| ViewerScene.TypeDispatch | cmake/viewer.cpp:283-290 | without those keys, "type" picks stacking context or rectangle; any other type draws nothing, and a non-string type stops |
| ViewerScene.StackingShape | cmake/viewer.cpp:261-269 | a stacking context issues save, translate by the first two bounds, its children's commands, then restore when they all come to their end |
| ViewerScene.ItemsInOrder | cmake/viewer.cpp:265-267 | one more item appends exactly that item's commands |
| ViewerScene.ItemsStop | cmake/viewer.cpp:265-267 | once an item stops the program, later items add nothing |
| ViewerScene.StackingIsBracket | cmake/viewer.cpp:261-269 | a stacking context with two bounds is the bracket of its children |
| ViewerScene.RectOfJoin | cmake/viewer.cpp:189-201 | four integers under "rect" and no colour give that rectangle with the default paint |
| ViewerScene.DrawText | cmake/viewer.cpp:169-188 | records exactly `TextCommand`; open saves unchanged |
| ViewerScene.DrawRect | cmake/viewer.cpp:189-203 | records exactly `RectCommand`; open saves unchanged |
| ViewerScene.DrawGlyphs | cmake/viewer.cpp:205-252 | records exactly `GlyphsCommand`; open saves unchanged |
| ViewerScene.DrawItem | cmake/viewer.cpp:272-292 | records exactly the item's trace; open saves unchanged when it comes to its end |
| ViewerScene.DrawStackingContext | cmake/viewer.cpp:261-269 | records exactly the stacking trace; open saves unchanged when it comes to its end |
| ViewerScene.DrawTranslated | cmake/viewer.cpp:264-268 | records translate, the children, and restore when they come to their end |
| ViewerScene.DrawChildren | cmake/viewer.cpp:265-267 | records exactly the children's commands |
| ViewerScene.DrawItems | cmake/viewer.cpp:265-267 | the item loop records every item's commands in order, stopping with the first item that stops |
| ViewerScene.DrawNext | cmake/viewer.cpp:265-267 | one round of the item loop: after the items before it, the next item's commands are recorded and the loop's trace is extended by exactly that item |
| ExampleScene.NamedColor | cmake/example.cpp:84-96 | exactly the three names red, green and blue are colours |
| ExampleScene.ColorOf | cmake/example.cpp:81-120 | decodes exactly the three names; four numbers throw at `node[0]`; anything else makes the decoder refuse |
| ExampleScene.ColorStep | cmake/example.cpp:160-163 | only the colour changes, and only when "color" is given, to its decoded value |
| ExampleScene.SizeStep | cmake/example.cpp:164-167 | only when "size" is given, the text size becomes its `as<int>` value |
| ExampleScene.Positions | cmake/example.cpp:195-200 | positions succeed exactly when every node is a number, one point (x, 0) per node, in order |
| ExampleScene.PositionList | cmake/example.cpp:195-200 | the positions loop fails when iterating the node fails, and otherwise converts its elements |
| ExampleScene.CollectPositions | cmake/example.cpp:191-200 | the push loop collects exactly `PositionList` |
| ExampleScene.PositionsStop | cmake/example.cpp:195-200 | the first position that does not convert decides the failure, whatever follows it |
| ExampleScene.TextCommand | cmake/example.cpp:157-175 | the text is drawn exactly when origin, colour, size and text decode and the origin has two numbers; not antialiased, UTF-8 |
| ExampleScene.RectCommand | cmake/example.cpp:176-186 | the rectangle of "rect" only, with the colour when given |
| ExampleScene.GlyphsCommand | cmake/example.cpp:188-209 | the run is drawn exactly when ids, positions and colour decode, with no check that their counts agree; two bytes per id, UTF-8 encoding, not antialiased |
| ExampleScene.HandlerOf | cmake/example.cpp:213-225 | choosing fails exactly on a scalar and never picks a stacking context; `ExampleScene.ItemDispatch` states the first-match order |
| ExampleScene.Handle | cmake/example.cpp:211-224 | what each handler draws, the image handler nothing; `HandleFlat` states that it is at most one drawing command |
| ExampleScene.ItemTrace | cmake/example.cpp:213-225 | `drawItem`: the chosen handler's trace; `ItemDispatch`, `ItemFlat`, `ImageDrawsNothing` and `StackingDrawsNothing` state its properties |
| ExampleScene.ItemDispatch | cmake/example.cpp:213-225 | a scalar throws; "text" draws the text; "rect" without "text" the rectangle; "image" without either nothing; "glyphs" without the three the glyph run; a node with none of the four keys, stacking contexts included, draws nothing |
| ExampleScene.NamedColorsDecode | cmake/example.cpp:84-96 | the three names decode to their constants |
| ExampleScene.JoinIsNotNamed | cmake/example.cpp:84-99 | no list of numbers is taken for a name |
| ExampleScene.FourComponentsThrow | cmake/example.cpp:99-107 | four integers throw: the scalar itself is subscripted |
| ExampleScene.OtherComponentCountsFail | cmake/example.cpp:99-118 | any other count, three included, makes the decoder refuse |
| ExampleScene.GlyphPointsOnAxis | cmake/example.cpp:195-207 | the run has one point per position entry, in order, at that entry's number on the x axis |
| ExampleScene.ImageDrawsNothing | cmake/example.cpp:211 | an image item draws nothing |
| ExampleScene.StackingDrawsNothing | cmake/example.cpp:223-224 | a stacking context is not descended into |
| ExampleScene.ItemFlat | cmake/example.cpp:213-225 | every item records at most one drawing command and no save, restore or translation, so it leaves the open saves as they were |
| ExampleScene.DrawText | cmake/example.cpp:157-175 | records exactly `TextCommand`; open saves unchanged |
| ExampleScene.DrawRect | cmake/example.cpp:176-186 | records exactly `RectCommand`; open saves unchanged |
| ExampleScene.DrawGlyphs | cmake/example.cpp:188-209 | records exactly `GlyphsCommand`; open saves unchanged |
| ExampleScene.DrawItem | cmake/example.cpp:213-225 | records exactly the item's trace; open saves unchanged |

## Left out

- Convert.AsRect: a scalar with fewer than four numbers makes `vec[0..3]`
  read past the end of the vector. That is unchecked undefined behaviour
  in C++, not an exception. The model ends the program there with
  `OutOfRange`.
- YamlScene.TextCommand, ViewerScene.TextCommand, ExampleScene.TextCommand:
  an "origin" with fewer than two numbers makes `origin[0]`/`origin[1]` the
  same unchecked read past the end, modelled as ending the program with
  `OutOfRange`.
- SceneCommon.ImageCommand: "bounds" with fewer than two numbers, read as
  `bounds[0]`/`bounds[1]`, is modelled the same way.
- YamlScene.StackingTrace, ViewerScene.StackingTrace: the same for
  `bounds[0]`/`bounds[1]` of a stacking context.
- Each colour decoder calls `node.as<vector<double>>()` before the program
  declares its own `convert<vector<double>>`. The model assumes the
  program's own stream decoder is used, as it is when the compiler
  instantiates the template at the end of the file.
- YamlNode.AsUint16: assumes the stream-based conversion of yaml-cpp 0.6,
  where a leading `-` wraps modulo 2^16 as libstdc++'s extraction does.
  Later yaml-cpp releases refuse a `-` for unsigned targets.

- The `main` functions and `draw()`: surface and GL context setup, the GLUT
  window and its render loop, frame timing, picture playback and
  serialisation, PNG output. These are I/O, GPU and timing. The hard-coded
  "Hello world!" text of example.cpp's `main` and its loop over
  `doc["root"]["items"]` are part of `main`, so they are left out too.
- Reading files: `std::ifstream`, `YAML::Load` (the document tree is an input),
  and `GetResourceAsImage` (an image is recorded by its path).
- yaml-cpp beyond key lookup, iteration and the four conversions:
  - null nodes, tags and anchors;
  - `.inf` and `.nan` scalars;
  - hexadecimal floating text.
  - Subscripting a map "offsets" node by integer keys is not followed; the
    model makes it fail.
- Floating point: numbers are reals, so there is no rounding, overflow or IEEE
  behaviour, and the exponent of a number is applied exactly.
- `SkColor4f::toSkColor` packing: a colour made from components keeps the four
  reals.
- Typeface lookup: a typeface is its family and weight. The clamping done by
  `SkFontStyle` is not modelled.
- Console output (`cout`, "is rect", "item").
- Canvas.Recorder: the log holds the calls the interpreter issues, not what
  `SkCanvas` keeps of them. Some calls the canvas drops are recorded anyway:
  a `drawText` of an empty C string, a `drawPosText` with no glyphs, a
  `drawImage` of an image that failed to load.
- Canvas.Recorder: keeps no invariant tying its depth counter to its log. The
  methods state both. That a log never restores more than it saved is proved
  on traces (the `WellBracketed` lemmas) and carried to the log by
  `DrawYamlFile`.
- ExampleScene.GlyphsCommand: glyph ids are drawn with the UTF-8 encoding the
  paint keeps. How Skia then interprets those bytes is not modelled.
- The `assert` of `drawGlyphs` is modelled as always checked. A build with
  `NDEBUG` would draw the mismatched run instead.
