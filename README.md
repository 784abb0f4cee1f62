# JUCE demo main window, modelled in Dafny

This project models the core of the JUCE demo application's main window
(`lib_juce/extras/Demo/Source/MainWindow.cpp`). It covers five parts:

- **The demo registry.** This is the process-wide list of demo types. A demo
  type enters it in name order when it is constructed and leaves it when it
  is destroyed.
- **The row label.** The demo list draws each row from the demo's name. It
  strips leading digits and whitespace. It splits off a category at the first
  colon. It ends the category with a space on rows up to 20 pixels tall and
  with a line break on taller ones, so a 25-pixel row breaks the line.
- **Page navigation.** This is the reverse lookup of the mounted demo by name,
  the selection of a row, and the wrap-around "previous"/"next" move built on
  `negativeAwareModulo`.
- **The command target.** This is the list of published commands, the name,
  description, category, default key and tick of each, and what `perform`
  does with each.
- **The renderer switch.** The window offers its peer's rendering engines
  plus an "OpenGL Renderer" slot. Choosing that slot attaches an OpenGL
  context when a content component exists and its mounted demo's name does
  not contain "OpenGL". Otherwise, and for any other slot, the context is
  detached and the peer is switched to the chosen index.

The layout split done by `resized` is modelled as well.

Files and modules:

| file | module | content |
|---|---|---|
| `wrappers.dfy` | `Wrappers` | `Option` |
| `text.dfy` | `Text` | the JUCE `String` operations the core uses: `compare`, trimming, `indexOf`, `contains` |
| `registry.dfy` | `DemoRegistry` | `Descriptor`, the `Registry` class with sorted insertion and first-match removal |
| `row_label.dfy` | `RowLabels` | the label of a list row |
| `navigation.dfy` | `Navigation` | `negativeAwareModulo`, page index, row selection, moves |
| `renderer.dfy` | `Renderer` | rendering engines, the active engine, the renderer switch |
| `layout.dfy` | `Layout` | `resized` |
| `commands.dfy` | `Commands` | command identifiers, `getAllCommands`, `getCommandInfo`, `perform` as functions |
| `main_window.dfy` | `MainWindow` | the classes `ContentComponent` and `MainAppWindow`, whose methods are specified by the functions above |

Command identifiers are a datatype:

- The nine demo jumps are `ShowDemo(k)` for `k` in 0..8.
- The three renderer slots are `UseRenderingEngine(k)` for `k` in 0..2.
- `OtherCommand` stands for any identifier the target does not know.

This encodes the program's assumption that the `welcome` … `componentsWidgets`
and `renderingEngineOne` … `renderingEngineThree` identifiers are
consecutive.

Whether kiosk mode exists (every platform but Linux) and whether OpenGL is
compiled in are the two fields of a `Build` value.

The program finds its main window by searching the top-level windows. Here
that window is a parameter of `perform`, and null means there is none.

## Model

| member | source | states |
|---|---|---|
| `Text.Compare` | lib_juce/extras/Demo/Source/MainWindow.cpp:29-35 | the sorter's comparison is three-valued and yields 0 exactly for equal names |
| `Text.CompareAntisymmetric` | lib_juce/extras/Demo/Source/MainWindow.cpp:29-35 | swapping the arguments negates the comparison |
| `Text.CompareTransitive` | lib_juce/extras/Demo/Source/MainWindow.cpp:29-35 | "not after" is transitive, so sorted order is well defined |
| `Text.CompareStrictTransitive` | lib_juce/extras/Demo/Source/MainWindow.cpp:29-35 | strictly before followed by not after is strictly before |
| `Text.DropWhile` | lib_juce/extras/Demo/Source/MainWindow.cpp:151 | the result is a suffix of the input and does not start with a character that satisfies the predicate |
| `Text.DropWhileDropsOnly` | lib_juce/extras/Demo/Source/MainWindow.cpp:151 | every character removed satisfies the predicate |
| `Text.DropWhileStopsAt` | lib_juce/extras/Demo/Source/MainWindow.cpp:151 | stripping stops exactly at the first character outside the set |
| `Text.StripLeadingDigits` | lib_juce/extras/Demo/Source/MainWindow.cpp:151 | the name without its ordering digits is a suffix that does not start with a digit |
| `Text.TrimStart` | lib_juce/extras/Demo/Source/MainWindow.cpp:151 | the text without leading whitespace is a suffix that does not start with whitespace |
| `Text.TrimEnd` | lib_juce/extras/Demo/Source/MainWindow.cpp:161 | the result is a prefix of the input and does not end in whitespace |
| `Text.TrimEndDropsOnly` | lib_juce/extras/Demo/Source/MainWindow.cpp:161 | every character removed from the end is whitespace |
| `Text.Trim` | lib_juce/extras/Demo/Source/MainWindow.cpp:161 | the trimmed title is no longer than its input and has no whitespace at either end |
| `Text.TrimOfTrimmed` | lib_juce/extras/Demo/Source/MainWindow.cpp:161 | trimming text without whitespace at the ends changes nothing |
| `Text.TrimOfPadded` | lib_juce/extras/Demo/Source/MainWindow.cpp:161 | whitespace in front of an already trimmed text is removed and nothing else is |
| `Text.TrimSplits` | lib_juce/extras/Demo/Source/MainWindow.cpp:161 | every text is its leading whitespace, then its trimmed form, then its trailing whitespace |
| `Text.TrimIdempotent` | lib_juce/extras/Demo/Source/MainWindow.cpp:161 | trimming twice is trimming once |
| `Text.IndexOf` | lib_juce/extras/Demo/Source/MainWindow.cpp:158-161 | the first position of a value, or -1 exactly when it is absent: the first colon of a name here, and the OpenGL renderer's slot at line 612 |
| `Text.IndexOfIs` | lib_juce/extras/Demo/Source/MainWindow.cpp:158-161 | a position holding the character with none before it is the first occurrence |
| `Text.Contains` | lib_juce/extras/Demo/Source/MainWindow.cpp:216-219 | true exactly when the substring occurs at some position |
| `DemoRegistry.EntryAt` | lib_juce/extras/Demo/Source/MainWindow.cpp:180 | the list's subscript gives the entry at an index in range and nothing outside it |
| `DemoRegistry.InsertAtSortedPosition` | lib_juce/extras/Demo/Source/MainWindow.cpp:37-41 | inserting at a sorted position keeps the list sorted by name |
| `DemoRegistry.InsertFreshKeepsDistinct` | lib_juce/extras/Demo/Source/MainWindow.cpp:37-41 | inserting a new demo type keeps the entries distinct |
| `DemoRegistry.InsertAtCounts` | lib_juce/extras/Demo/Source/MainWindow.cpp:37-41 | inserting at a position adds exactly the new entry, at that position |
| `DemoRegistry.FindInsertIndex` | lib_juce/extras/Demo/Source/MainWindow.cpp:37-41 | the binary search finds a sorted position after every equal name |
| `DemoRegistry.FirstIndexOfId` | lib_juce/extras/Demo/Source/MainWindow.cpp:43-46 | the first entry for the demo type, or -1 exactly when it is absent |
| `DemoRegistry.RemoveFirst` | lib_juce/extras/Demo/Source/MainWindow.cpp:43-46 | removal shortens the list by one exactly when the demo type is listed |
| `DemoRegistry.RemoveFirstAbsent` | lib_juce/extras/Demo/Source/MainWindow.cpp:43-46 | removing a demo type that is not listed leaves the list unchanged |
| `DemoRegistry.RemoveFirstAt` | lib_juce/extras/Demo/Source/MainWindow.cpp:43-46 | when the first entry for the type is at k, removal cuts out exactly position k |
| `DemoRegistry.RemoveFirstCuts` | lib_juce/extras/Demo/Source/MainWindow.cpp:43-46 | removal cuts out the first matching entry and keeps every other entry in order; an absent type changes nothing |
| `DemoRegistry.RemoveFirstMultiset` | lib_juce/extras/Demo/Source/MainWindow.cpp:43-46 | removal takes exactly one matching entry out of the list |
| `DemoRegistry.RemoveFirstKeepsSorted` | lib_juce/extras/Demo/Source/MainWindow.cpp:43-46 | removal keeps the list sorted |
| `DemoRegistry.RemoveFirstKeepsDistinct` | lib_juce/extras/Demo/Source/MainWindow.cpp:43-46 | removal keeps the entries distinct |
| `DemoRegistry.RemoveFirstRemovesAll` | lib_juce/extras/Demo/Source/MainWindow.cpp:43-46 | with distinct entries, a destroyed demo type is no longer listed |
| `DemoRegistry.RemoveUndoesInsert` | lib_juce/extras/Demo/Source/MainWindow.cpp:37-46 | destroying a demo type undoes its registration |
| `DemoRegistry.Registry.constructor` | lib_juce/extras/Demo/Source/MainWindow.cpp:48-52 | the list starts empty |
| `DemoRegistry.Registry.Insert` | lib_juce/extras/Demo/Source/MainWindow.cpp:37-41 | the new entry goes in at a sorted position, the list stays sorted, the multiset grows by exactly that entry, and ids stay distinct |
| `DemoRegistry.Registry.Remove` | lib_juce/extras/Demo/Source/MainWindow.cpp:43-46 | the list becomes its first-match removal and stays sorted |
| `RowLabels.CategorySeparator` | lib_juce/extras/Demo/Source/MainWindow.cpp:163-166 | one character, a line break exactly when the row is taller than 20 pixels |
| `RowLabels.DisplayName` | lib_juce/extras/Demo/Source/MainWindow.cpp:151 | the shown name is a suffix of the demo's name with no leading whitespace |
| `RowLabels.DisplayNameOfClean` | lib_juce/extras/Demo/Source/MainWindow.cpp:151 | a name that starts with neither a digit nor whitespace is shown unchanged |
| `RowLabels.DisplayNameSplits` | lib_juce/extras/Demo/Source/MainWindow.cpp:151 | every name is its longest run of leading digits, then the longest run of whitespace after it, then the shown name |
| `RowLabels.SplitLabel` | lib_juce/extras/Demo/Source/MainWindow.cpp:156-167 | without a colon the whole name is the title and the category is empty; with one the category ends in the separator |
| `RowLabels.SplitAtFirstColon` | lib_juce/extras/Demo/Source/MainWindow.cpp:156-167 | the category is the text up to and including the first colon, and the title is the trimmed rest |
| `RowLabels.SplitLabelShape` | lib_juce/extras/Demo/Source/MainWindow.cpp:156-167 | with a colon the category is never empty |
| `RowLabels.RowLabelShape` | lib_juce/extras/Demo/Source/MainWindow.cpp:144-172 | `RowLabel`, the text a row draws: the title is no longer than the name and never starts with whitespace, and a category is drawn exactly when the shown name has a colon |
| `RowLabels.OrderingPrefixHidden` | lib_juce/extras/Demo/Source/MainWindow.cpp:151 | the ordering digits and the whitespace after them are not shown: the rest of the name is |
| `RowLabels.SplitAtColonAfter` | lib_juce/extras/Demo/Source/MainWindow.cpp:156-167 | text whose first colon follows head splits into head, the colon and the separator, and the trimmed rest |
| `RowLabels.PlainNameLabel` | lib_juce/extras/Demo/Source/MainWindow.cpp:144-172 | a numbered name without a colon is drawn as its title alone, at every row height |
| `RowLabels.CategoryNameLabel` | lib_juce/extras/Demo/Source/MainWindow.cpp:144-172 | a numbered name with a colon is drawn as the category up to the colon plus the separator, and the trimmed rest as the title |
| `RowLabels.ZebraExample` | lib_juce/extras/Demo/Source/MainWindow.cpp:144-172 | "20 Zebra" is drawn as the title "Zebra" with no category |
| `RowLabels.ComponentsExample` | lib_juce/extras/Demo/Source/MainWindow.cpp:144-172 | at 20 pixels the category ends in a space; at 25 pixels it ends in a line break |
| `Navigation.TruncatedRemainder` | lib_juce/extras/Demo/Source/MainWindow.cpp:210-211 | C++ `%` keeps the dividend's sign and differs from it by a multiple of the divisor |
| `Navigation.NegativeAwareModulo` | lib_juce/extras/Demo/Source/MainWindow.cpp:210-211 | the result lies in [0, divisor) and is the mathematical modulus, for negative dividends too |
| `Navigation.LastIndexOfName` | lib_juce/extras/Demo/Source/MainWindow.cpp:201-203 | the last row carrying the name, none after it, or -1 |
| `Navigation.PageIndex` | lib_juce/extras/Demo/Source/MainWindow.cpp:194-206 | -1 with nothing mounted; otherwise the last row with the mounted name, or -1 |
| `Navigation.SelectedDemo` | lib_juce/extras/Demo/Source/MainWindow.cpp:178-187 | a row in range mounts that demo; any other row leaves the mounted demo alone |
| `Navigation.MoveTarget` | lib_juce/extras/Demo/Source/MainWindow.cpp:208-214 | the target row is always in range and is (page index + delta) mod the count |
| `Navigation.MovedDemo` | lib_juce/extras/Demo/Source/MainWindow.cpp:208-214 | a move always mounts the demo of the target row |
| `Navigation.PreviousFromFirst` | lib_juce/extras/Demo/Source/MainWindow.cpp:208-214 | "previous" from the first row wraps to the last |
| `Navigation.NextFromNothing` | lib_juce/extras/Demo/Source/MainWindow.cpp:194-214 | with nothing mounted, "next" selects the first row |
| `Navigation.MoveByCountIsNoop` | lib_juce/extras/Demo/Source/MainWindow.cpp:208-214 | moving by the number of demos lands on the current demo |
| `Navigation.PageIndexOfRow` | lib_juce/extras/Demo/Source/MainWindow.cpp:194-206 | with distinct names, looking up a row's name finds that row |
| `Navigation.RingStepBack` | lib_juce/extras/Demo/Source/MainWindow.cpp:208-214 | k steps forward and k steps back round a ring of n rows return to the start |
| `Navigation.MoveThereAndBack` | lib_juce/extras/Demo/Source/MainWindow.cpp:208-214 | moving by k and then by -k returns to the starting demo |
| `Renderer.RenderingEngines` | lib_juce/extras/Demo/Source/MainWindow.cpp:574-586 | the peer's engines in order, followed by the OpenGL renderer when it is compiled in |
| `Renderer.EngineName` | lib_juce/extras/Demo/Source/MainWindow.cpp:590 | the engine at an index in range, the empty string otherwise |
| `Renderer.ActiveRenderingEngine` | lib_juce/extras/Demo/Source/MainWindow.cpp:608-619 | while attached, the first OpenGL slot; otherwise the peer's current engine; without a peer, 0 |
| `Renderer.IsShowingOpenGLDemo` | lib_juce/extras/Demo/Source/MainWindow.cpp:216-219 | a demo is mounted and its name contains "OpenGL" |
| `Renderer.AttachesOpenGL` | lib_juce/extras/Demo/Source/MainWindow.cpp:592-595 | the OpenGL context is attached exactly when OpenGL is compiled in, the index is a listed slot named "OpenGL Renderer", and a content component exists that is not showing an OpenGL demo |
| `Renderer.SetRenderingEngine` | lib_juce/extras/Demo/Source/MainWindow.cpp:588-606 | either OpenGL is attached and the peer is untouched, or OpenGL is detached and the peer switches to the index |
| `Renderer.SetRenderingEngineKeepsValid` | lib_juce/extras/Demo/Source/MainWindow.cpp:588-606 | the context is never attached in a build without OpenGL |
| `Renderer.SetRenderingEngineKeepsPeerInRange` | lib_juce/extras/Demo/Source/MainWindow.cpp:588-606 | attaching OpenGL, or switching to an engine the peer offers, keeps the peer's current engine one it offers |
| `Renderer.ActiveAfterSet` | lib_juce/extras/Demo/Source/MainWindow.cpp:588-619 | after choosing an engine, that engine is the active one, when OpenGL is attached or the index is one of the peer's engines |
| `Renderer.ActiveInRangeWhileAttached` | lib_juce/extras/Demo/Source/MainWindow.cpp:608-619 | while OpenGL is attached the active engine is a valid slot |
| `Renderer.ActiveInRange` | lib_juce/extras/Demo/Source/MainWindow.cpp:608-619 | with OpenGL attached, or with a peer whose current engine it offers, the active engine is a valid slot |
| `Layout.RemoveFromLeft` | lib_juce/extras/Demo/Source/MainWindow.cpp:126-131 | takes the amount requested, or the whole width when that is smaller |
| `Layout.Resized` | lib_juce/extras/Demo/Source/MainWindow.cpp:120-137 | the list and the demo share the width exactly; wider than 600 gives 210 pixels and 20-pixel rows, otherwise 130 pixels and 30-pixel rows |
| `Layout.LayoutDecidesLabelBreak` | lib_juce/extras/Demo/Source/MainWindow.cpp:120-172 | the wide layout draws labels on one line and the narrow layout on two |
| `Commands.FixedCommands` | lib_juce/extras/Demo/Source/MainWindow.cpp:244-264 | sixteen commands, seventeen where kiosk mode exists, all known and none a renderer slot |
| `Commands.EngineCommands` | lib_juce/extras/Demo/Source/MainWindow.cpp:266-272 | the first n renderer slots, in order |
| `Commands.AllCommandsAsWritten` | lib_juce/extras/Demo/Source/MainWindow.cpp:267-272 | with more than three engines the slot array is overrun; otherwise the result is the corrected list |
| `Commands.ThreePeerEnginesOverrun` | lib_juce/extras/Demo/Source/MainWindow.cpp:267-272 | a peer with three engines plus OpenGL overruns the slot array |
| `Commands.AllCommands` | lib_juce/extras/Demo/Source/MainWindow.cpp:241-273 | lists every known command once; the kiosk command only where kiosk mode exists; renderer slots exactly below the engine count |
| `Commands.DigitKey` | lib_juce/extras/Demo/Source/MainWindow.cpp:292-294 | '1' plus the offset is the digit key for that offset |
| `Commands.DefaultKey` | lib_juce/extras/Demo/Source/MainWindow.cpp:284-392 | only the renderer slots and the repaint toggle are bound without a modifier, and exactly the demo jumps and renderer slots are bound to digits |
| `Commands.DefaultKeyInjective` | lib_juce/extras/Demo/Source/MainWindow.cpp:275-400 | two different commands never have the same default key press |
| `Commands.DemoInfo` | lib_juce/extras/Demo/Source/MainWindow.cpp:282-335 | every demo command has a name, sits in the "Demos" category, is never ticked and has its one default key |
| `Commands.EngineInfo` | lib_juce/extras/Demo/Source/MainWindow.cpp:337-350 | a renderer slot is named, sits in "General", and is ticked exactly when it is the active engine |
| `Commands.GeneralInfo` | lib_juce/extras/Demo/Source/MainWindow.cpp:352-394 | every look-and-feel and toggle command is named and sits in "General" with its one default key |
| `Commands.GetCommandInfo` | lib_juce/extras/Demo/Source/MainWindow.cpp:275-400 | a command gets a name exactly when it is known, and then exactly its one default key; an unknown command is left undescribed |
| `Commands.Perform` | lib_juce/extras/Demo/Source/MainWindow.cpp:402-464 | with no main window everything is consumed and nothing changes; otherwise a command is consumed exactly when it is known, a declined command changes nothing, previous and next mount the demo one row away with wrap-around, a jump mounts its row, a renderer slot switches only the renderer, a look-and-feel command changes only the look-and-feel, and each toggle flips only its own flag |
| `Commands.PublishedCommandsAreDescribed` | lib_juce/extras/Demo/Source/MainWindow.cpp:241-400 | every published command has a name |
| `Commands.PublishedCommandsAreHandled` | lib_juce/extras/Demo/Source/MainWindow.cpp:241-464 | every published command is consumed by perform |
| `Commands.ExactlyOneLookAndFeelTicked` | lib_juce/extras/Demo/Source/MainWindow.cpp:352-367 | exactly one of the three look-and-feel commands is ticked |
| `Commands.EngineSlotInfo` | lib_juce/extras/Demo/Source/MainWindow.cpp:337-350 | a renderer slot is ticked exactly when it is the active engine; its key is its digit with no modifier |
| `Commands.ToggleTicksShowFlags` | lib_juce/extras/Demo/Source/MainWindow.cpp:370-394 | the repaint, title-bar and kiosk ticks show the flags they toggle; the title bar is unticked without a window |
| `Commands.ToggleFlipsTick` | lib_juce/extras/Demo/Source/MainWindow.cpp:370-457 | performing a toggle flips the tick its command shows |
| `Commands.DefaultKeysDistinct` | lib_juce/extras/Demo/Source/MainWindow.cpp:275-400 | no two known commands share a default key |
| `Commands.ToggleTwiceRestores` | lib_juce/extras/Demo/Source/MainWindow.cpp:436-457 | repaint debugging, the native title bar and kiosk mode are toggles: applied twice, nothing changes |
| `Commands.LookAndFeelCommandSelects` | lib_juce/extras/Demo/Source/MainWindow.cpp:432-434 | a look-and-feel command installs that version, and afterwards only its command is ticked |
| `Commands.DemoJump` | lib_juce/extras/Demo/Source/MainWindow.cpp:414-424 | jump k mounts row k; when the list has no row k it changes nothing but is still consumed |
| `Commands.PreviousWrapsAround` | lib_juce/extras/Demo/Source/MainWindow.cpp:411 | "previous" on the first demo mounts the last demo |
| `Commands.NextThenPreviousRestores` | lib_juce/extras/Demo/Source/MainWindow.cpp:411-412 | with distinct demo names, "next" and then "previous" mount the demo shown before |
| `Commands.ChosenRendererIsTicked` | lib_juce/extras/Demo/Source/MainWindow.cpp:426-429 | after choosing a renderer slot that is the OpenGL slot or one of the peer's engines, that slot is the active engine and its command is ticked |
| `MainWindow.ContentComponent.constructor` | lib_juce/extras/Demo/Source/MainWindow.cpp:110-118 | the third look-and-feel is installed and the first row is selected |
| `MainWindow.ContentComponent.SelectedRowsChanged` | lib_juce/extras/Demo/Source/MainWindow.cpp:178-187 | mounts the selected row's demo; a row out of range changes nothing |
| `MainWindow.ContentComponent.CurrentPageIndex` | lib_juce/extras/Demo/Source/MainWindow.cpp:194-206 | the countdown search returns the last row with the mounted name, or -1 |
| `MainWindow.ContentComponent.MoveDemoPages` | lib_juce/extras/Demo/Source/MainWindow.cpp:208-214 | mounts the demo delta rows away, wrapping around |
| `MainWindow.ContentComponent.Perform` | lib_juce/extras/Demo/Source/MainWindow.cpp:402-464 | the new content and window state and the result agree with `Commands.Perform` |
| `MainWindow.MainAppWindow.constructor` | lib_juce/extras/Demo/Source/MainWindow.cpp:471-501 | uses the native title bar and creates a fresh content component |
| `MainWindow.MainAppWindow.Dispose` | lib_juce/extras/Demo/Source/MainWindow.cpp:503-513 | releases the content component and detaches OpenGL |
| `MainWindow.MainAppWindow.SetUsingNativeTitleBar` | lib_juce/extras/Demo/Source/MainWindow.cpp:442 | sets the title-bar flag and nothing else |
| `MainWindow.MainAppWindow.SetRenderingEngine` | lib_juce/extras/Demo/Source/MainWindow.cpp:588-606 | the new renderer state is `Renderer.SetRenderingEngine` of the old one, and the window stays valid |

## Findings

| source | as written | input that shows it | evidently intended | confidence | as-written member | corrected member |
|---|---|---|---|---|---|---|
| lib_juce/extras/Demo/Source/MainWindow.cpp:267-272 | copies as many renderer-slot identifiers as there are rendering engines out of an array of three | a peer that offers three engines, in a build with OpenGL: four engines, so a fourth identifier is read past the array | one renderer command per engine, at most three | not executed; how many engines a peer offers is outside this model | `Commands.AllCommandsAsWritten`, `Commands.ThreePeerEnginesOverrun` | `Commands.AllCommands` |

## Left out

- Drawing is left out: fonts, colours, the attributed string, the logo path, the message bubble and the system-tray icon. The row label is modelled as the category and title text it draws.
- The command manager, key listener registration, asynchronous command registration, the audio device manager and the application's quit request are left out. They are platform services, not state of the window.
- Window placement is left out. It uses floating-point fractions of the screen size.
- `ListBox::selectRow` is modelled as a direct call of `selectedRowsChanged`. The list box's own selection state is left out, so re-selecting the selected row is treated like any other selection.
- The mounted demo is represented only by its name. Creating the demo component and setting its bounds are left out.
- `getMainAppWindow` searches the top-level windows. It becomes the `mainWindow` parameter, which is either null or the one window whose content is the performing component.
- The repaint-debugging flag is a global and the kiosk-mode component belongs to the desktop. Both are fields of the one content component. The window's repaint after a toggle is left out.
- The peer's own response to `setCurrentRenderingEngine` is modelled as recording the index. How a peer rejects an index, and how switching the title bar recreates the peer, are left out.
- `Text.IsWhitespace` only recognises ASCII whitespace. Unicode whitespace is left out.
- `Text.Compare` is plain code-point order. JUCE's comparison of strings with embedded NUL characters is left out.
- `DemoRegistry.Registry.Insert` does not fix where an entry goes among entries with an equal name. The array's tie-break is not part of this model.
- `MainWindow.ContentComponent.MoveDemoPages` requires a non-empty registry. The program would take `%` by zero there.
- `Commands.Perform` requires a non-empty registry for "previous" and "next" when a window exists, for the same reason.
- `Commands.GetCommandInfo` requires a window for a renderer slot. The program dereferences the window it looks up without checking it.
- `Renderer.SetRenderingEngine` gives a result when there is no content component, but the program never gets there: line 590 always shows the message bubble, and `showMessageBubble` (line 560) dereferences the content component without checking it. The content and `contentComponent` are set together (489-490) and cleared together (505-506), so the `content == None` branch describes a path the program would crash on first.
- `Commands.AllCommands` takes the engine count as a parameter and so assumes a main window exists. Line 271 dereferences the window returned by `getMainAppWindow` without checking it, and that crash is not part of this model.
- `Renderer.ActiveAfterSet` and `Commands.ChosenRendererIsTicked` only cover an index that is the OpenGL slot or one of the peer's own engines. How a peer answers an index it does not offer is not part of this model.
