/**
 * The content component as an application command target: the commands it
 * publishes (getAllCommands), how each is described, ticked and bound to a
 * key (getCommandInfo), and what invoking it does (perform).
 */
module Commands {
  import opened Wrappers
  import opened DemoRegistry
  import opened Navigation
  import opened Renderer

  /** Offset from the "welcome" command of the nine demo jumps, which are numbered consecutively. */
  type DemoOffset = k: int | 0 <= k < 9

  /** Offset from "renderingEngineOne" of the three renderer slots, which are numbered consecutively. */
  type EngineSlot = k: int | 0 <= k < 3

  /** A command identifier; OtherCommand stands for every identifier this target does not know. */
  datatype CommandID =
    | ShowPreviousDemo
    | ShowNextDemo
    | ShowDemo(offset: DemoOffset)
    | UseLookAndFeelV1
    | UseLookAndFeelV2
    | UseLookAndFeelV3
    | ToggleRepaintDebugging
    | GoToKioskMode
    | UseNativeTitleBar
    | UseRenderingEngine(slot: EngineSlot)
    | OtherCommand(raw: int)

  /** What the build compiled in: kiosk mode (every platform but Linux) and OpenGL. */
  datatype Build = Build(kioskSupported: bool, hasOpenGL: bool)

  /** The three look-and-feel versions the content component owns. */
  datatype LookAndFeel = V1 | V2 | V3

  datatype Modifiers = NoModifiers | CommandModifier

  datatype KeyPress = KeyPress(key: char, modifiers: Modifiers)

  /** The part of an ApplicationCommandInfo that getCommandInfo fills in. */
  datatype CommandInfo = CommandInfo(shortName: string, description: string, category: string,
                                     keys: seq<KeyPress>, ticked: bool)

  /** An ApplicationCommandInfo as it is before getCommandInfo fills it in. */
  const NoInfo := CommandInfo("", "", "", [], false)

  /**
   * The state the commands read and change on the content side: the mounted
   * demo's name, the default look-and-feel, the process-wide repaint-debugging
   * flag and whether the desktop is in kiosk mode.
   */
  datatype ContentState = ContentState(demo: Option<string>, lookAndFeel: LookAndFeel,
                                       repaintDebugging: bool, kioskMode: bool)

  /** The state the commands read and change on the main window. */
  datatype WindowState = WindowState(renderer: RendererState, nativeTitleBar: bool)

  /** The commands this target handles in a given build. */
  predicate IsKnown(id: CommandID, b: Build)
  {
    !id.OtherCommand? && (id.GoToKioskMode? ==> b.kioskSupported)
  }

  /** The fixed part of getAllCommands: the kiosk command only where kiosk mode exists. */
  function FixedCommands(b: Build): (ids: seq<CommandID>)
    ensures |ids| == (if b.kioskSupported then 17 else 16)
    ensures forall i :: 0 <= i < |ids| ==> IsKnown(ids[i], b) && !ids[i].UseRenderingEngine?
  {
    [ShowPreviousDemo, ShowNextDemo]
    + seq(9, k requires 0 <= k < 9 => ShowDemo(k))
    + [UseLookAndFeelV1, UseLookAndFeelV2, UseLookAndFeelV3, ToggleRepaintDebugging]
    + (if b.kioskSupported then [GoToKioskMode] else [])
    + [UseNativeTitleBar]
  }

  /** The first n renderer-slot commands of the three-element slot array. */
  function EngineCommands(n: nat): (ids: seq<CommandID>)
    requires n <= 3
    ensures |ids| == n && forall i :: 0 <= i < n ==> ids[i] == UseRenderingEngine(i)
  {
    seq(n, k requires 0 <= k < n => UseRenderingEngine(k))
  }

  /**
   * getAllCommands as written: it copies one renderer slot per available
   * engine out of an array of three slots, so with more than three engines
   * it reads past the end of that array (None stands for that read).
   */
  function AllCommandsAsWritten(b: Build, numEngines: nat): (ids: Option<seq<CommandID>>)
    ensures ids.None? <==> numEngines > 3
    ensures numEngines <= 3 ==> ids == Some(AllCommands(b, numEngines))
  {
    if numEngines > 3 then None else Some(FixedCommands(b) + EngineCommands(numEngines))
  }

  /**
   * A peer offering three engines in a build with OpenGL yields four
   * engines, one more than there are renderer slots.
   */
  lemma ThreePeerEnginesOverrun(peer: Peer, b: Build)
    requires |peer.engines| == 3 && b.hasOpenGL
    ensures AllCommandsAsWritten(b, |RenderingEngines(Some(peer), b.hasOpenGL)|).None?
  {
  }

  /**
   * getAllCommands with the slot count bounded by the three slots there are:
   * every known command, with exactly the renderer slots below numEngines,
   * each listed once.
   */
  function AllCommands(b: Build, numEngines: nat): (ids: seq<CommandID>)
    ensures |ids| == (if b.kioskSupported then 17 else 16) + (if numEngines < 3 then numEngines else 3)
    ensures forall id :: id in ids <==> IsKnown(id, b) && (id.UseRenderingEngine? ==> id.slot < numEngines)
    ensures forall i, j :: 0 <= i < j < |ids| ==> ids[i] != ids[j]
  {
    var n := if numEngines < 3 then numEngines else 3;
    KnownCommandsListed(b, n);
    FixedCommandsDistinct(b);
    FixedCommands(b) + EngineCommands(n)
  }

  /** Every known command with a slot below n is listed by getAllCommands. */
  lemma KnownCommandsListed(b: Build, n: nat)
    requires n <= 3
    ensures forall id ::
              IsKnown(id, b) && (id.UseRenderingEngine? ==> id.slot < n) ==>
                id in FixedCommands(b) + EngineCommands(n)
  {
    var ids := FixedCommands(b) + EngineCommands(n);
    forall id | IsKnown(id, b) && (id.UseRenderingEngine? ==> id.slot < n)
      ensures id in ids
    {
      match id
      case ShowDemo(k) => assert ids[2 + k] == id;
      case UseRenderingEngine(k) => assert ids[|FixedCommands(b)| + k] == id;
      case _ =>
    }
  }

  /** The fixed part of the command list names no command twice. */
  lemma FixedCommandsDistinct(b: Build)
    ensures forall i, j :: 0 <= i < j < |FixedCommands(b)| ==> FixedCommands(b)[i] != FixedCommands(b)[j]
  {
  }

  /** Menu names of the nine demo jumps. */
  const DemoCommandNames: seq<string> :=
    ["Welcome Demo", "Animation Demo", "Dialog Boxes Demo", "Key Mappings Demo",
     "Multi-Document Demo", "Property Editor Demo", "Component Transforms Demo",
     "Web Browser Demo", "Widgets Demo"]

  /** Descriptions of the nine demo jumps, spelt as the program spells them. */
  const DemoCommandDescriptions: seq<string> :=
    ["Shows the first demo in the list", "Shows the second demo in the list",
     "Shows the third demo in the list", "Shows the fourth demo in the list",
     "Shows the fith demo in the list", "Shows the sixth demo in the list",
     "Shows the sevent demo in the list", "Shows the eight demo in the list",
     "Shows the ninth demo in the list"]

  /** The digit key '1' + k. */
  function DigitKey(k: int): (c: char)
    requires 0 <= k < 9
    ensures '1' <= c <= '9' && c as int - '1' as int == k
  {
    (('1' as int) + k) as char
  }

  /** The default key press of every command the target describes. */
  function DefaultKey(id: CommandID): (k: KeyPress)
    requires !id.OtherCommand?
    ensures k.modifiers == NoModifiers <==> id.UseRenderingEngine? || id.ToggleRepaintDebugging?
    ensures '1' <= k.key <= '9' <==> id.ShowDemo? || id.UseRenderingEngine?
  {
    match id
    case ShowPreviousDemo => KeyPress('-', CommandModifier)
    case ShowNextDemo => KeyPress('=', CommandModifier)
    case ShowDemo(k) => KeyPress(DigitKey(k), CommandModifier)
    case UseRenderingEngine(slot) => KeyPress(DigitKey(slot), NoModifiers)
    case UseLookAndFeelV1 => KeyPress('i', CommandModifier)
    case UseLookAndFeelV2 => KeyPress('o', CommandModifier)
    case UseLookAndFeelV3 => KeyPress('p', CommandModifier)
    case ToggleRepaintDebugging => KeyPress('r', NoModifiers)
    case UseNativeTitleBar => KeyPress('n', CommandModifier)
    case GoToKioskMode => KeyPress('f', CommandModifier)
  }

  /** No two commands share a default key. */
  lemma DefaultKeyInjective(id1: CommandID, id2: CommandID)
    requires !id1.OtherCommand? && !id2.OtherCommand? && id1 != id2
    ensures DefaultKey(id1) != DefaultKey(id2)
  {
    if id1.ShowDemo? && id2.ShowDemo? {
      assert DigitKey(id1.offset) != DigitKey(id2.offset);
    } else if id1.UseRenderingEngine? && id2.UseRenderingEngine? {
      assert DigitKey(id1.slot) != DigitKey(id2.slot);
    }
  }

  /** getCommandInfo for the commands of the "Demos" category: never ticked. */
  function DemoInfo(id: CommandID): (info: CommandInfo)
    requires id.ShowPreviousDemo? || id.ShowNextDemo? || id.ShowDemo?
    ensures info.shortName != "" && info.category == "Demos" && !info.ticked
    ensures info.keys == [DefaultKey(id)]
  {
    match id
    case ShowPreviousDemo =>
      CommandInfo("Previous Demo", "Shows the previous demo in the list", "Demos", [DefaultKey(id)], false)
    case ShowNextDemo =>
      CommandInfo("Next Demo", "Shows the next demo in the list", "Demos", [DefaultKey(id)], false)
    case ShowDemo(k) =>
      CommandInfo(DemoCommandNames[k], DemoCommandDescriptions[k], "Demos", [DefaultKey(id)], false)
  }

  /** getCommandInfo for a renderer slot: named after its engine and ticked while it is the active one. */
  function EngineInfo(slot: EngineSlot, b: Build, w: WindowState): (info: CommandInfo)
    ensures info.shortName != "" && info.category == "General"
    ensures info.keys == [DefaultKey(UseRenderingEngine(slot))]
    ensures info.ticked <==> ActiveRenderingEngine(w.renderer, b.hasOpenGL) == slot
  {
    var name := EngineName(RenderingEngines(w.renderer.peer, b.hasOpenGL), slot);
    CommandInfo("Use " + name, "Uses the " + name + " engine to render the UI", "General",
                [DefaultKey(UseRenderingEngine(slot))],
                ActiveRenderingEngine(w.renderer, b.hasOpenGL) == slot)
  }

  /** getCommandInfo for the look-and-feel, repaint, title-bar and kiosk commands. */
  function GeneralInfo(id: CommandID, c: ContentState, w: Option<WindowState>): (info: CommandInfo)
    requires id.UseLookAndFeelV1? || id.UseLookAndFeelV2? || id.UseLookAndFeelV3?
             || id.ToggleRepaintDebugging? || id.UseNativeTitleBar? || id.GoToKioskMode?
    ensures info.shortName != "" && info.category == "General"
    ensures info.keys == [DefaultKey(id)]
  {
    match id
    case UseLookAndFeelV1 =>
      CommandInfo("Use LookAndFeel_V1", "", "General", [DefaultKey(id)], c.lookAndFeel == V1)
    case UseLookAndFeelV2 =>
      CommandInfo("Use LookAndFeel_V2", "", "General", [DefaultKey(id)], c.lookAndFeel == V2)
    case UseLookAndFeelV3 =>
      CommandInfo("Use LookAndFeel_V3", "", "General", [DefaultKey(id)], c.lookAndFeel == V3)
    case ToggleRepaintDebugging =>
      CommandInfo("Toggle repaint display", "", "General", [DefaultKey(id)], c.repaintDebugging)
    case UseNativeTitleBar =>
      CommandInfo("Use native window title bar", "", "General", [DefaultKey(id)],
                  w.Some? && w.value.nativeTitleBar)
    case GoToKioskMode =>
      CommandInfo("Show full-screen kiosk mode", "", "General", [DefaultKey(id)], c.kioskMode)
  }

  /**
   * getCommandInfo: the name, description, category, default key and tick of
   * a command. A renderer slot needs the main window; an unknown command is
   * left undescribed.
   */
  function GetCommandInfo(id: CommandID, b: Build, c: ContentState, w: Option<WindowState>): (info: CommandInfo)
    requires id.UseRenderingEngine? ==> w.Some?
    ensures info.shortName != "" <==> IsKnown(id, b)
    ensures IsKnown(id, b) ==> info.keys == [DefaultKey(id)]
    ensures !IsKnown(id, b) ==> info == NoInfo
  {
    match id
    case ShowPreviousDemo => DemoInfo(id)
    case ShowNextDemo => DemoInfo(id)
    case ShowDemo(_) => DemoInfo(id)
    case UseRenderingEngine(slot) => EngineInfo(slot, b, w.value)
    case GoToKioskMode => if b.kioskSupported then GeneralInfo(id, c, w) else NoInfo
    case OtherCommand(_) => NoInfo
    case _ => GeneralInfo(id, c, w)
  }

  /** The outcome of perform: the new content and window state and whether the command was consumed. */
  datatype Outcome = Outcome(content: ContentState, window: Option<WindowState>, handled: bool)

  /**
   * perform: with no main window every command is consumed and nothing
   * changes; otherwise each known command takes its effect and is consumed,
   * and any other is declined.
   */
  function Perform(entries: seq<Descriptor>, b: Build, c: ContentState, w: Option<WindowState>, id: CommandID): (o: Outcome)
    requires w.Some? && (id.ShowPreviousDemo? || id.ShowNextDemo?) ==> |entries| > 0
    ensures w.None? ==> o == Outcome(c, w, true)
    ensures o.window.Some? <==> w.Some?
    ensures w.Some? ==> (o.handled <==> IsKnown(id, b))
    ensures !o.handled ==> o.content == c && o.window == w
    ensures w.Some? && id == ShowPreviousDemo ==>
              o.content == c.(demo := MovedDemo(entries, c.demo, -1)) && o.window == w
    ensures w.Some? && id == ShowNextDemo ==>
              o.content == c.(demo := MovedDemo(entries, c.demo, 1)) && o.window == w
    ensures w.Some? && id.ShowDemo? ==>
              o.content == c.(demo := SelectedDemo(entries, c.demo, id.offset)) && o.window == w
    ensures w.Some? && id.UseRenderingEngine? ==>
              o.content == c
              && o.window == Some(w.value.(renderer := SetRenderingEngine(w.value.renderer, b.hasOpenGL, Some(c.demo), id.slot)))
    ensures w.Some? && id == UseLookAndFeelV1 ==> o.content == c.(lookAndFeel := V1) && o.window == w
    ensures w.Some? && id == UseLookAndFeelV2 ==> o.content == c.(lookAndFeel := V2) && o.window == w
    ensures w.Some? && id == UseLookAndFeelV3 ==> o.content == c.(lookAndFeel := V3) && o.window == w
    ensures w.Some? && id == ToggleRepaintDebugging ==>
              o.content == c.(repaintDebugging := !c.repaintDebugging) && o.window == w
    ensures w.Some? && id == UseNativeTitleBar ==>
              o.content == c && o.window == Some(w.value.(nativeTitleBar := !w.value.nativeTitleBar))
    ensures w.Some? && id == GoToKioskMode && b.kioskSupported ==>
              o.content == c.(kioskMode := !c.kioskMode) && o.window == w
  {
    if w.None? then
      Outcome(c, w, true)
    else
      var win := w.value;
      match id
      case ShowPreviousDemo => Outcome(c.(demo := MovedDemo(entries, c.demo, -1)), w, true)
      case ShowNextDemo => Outcome(c.(demo := MovedDemo(entries, c.demo, 1)), w, true)
      case ShowDemo(k) => Outcome(c.(demo := SelectedDemo(entries, c.demo, k)), w, true)
      case UseRenderingEngine(slot) =>
        var renderer := SetRenderingEngine(win.renderer, b.hasOpenGL, Some(c.demo), slot);
        Outcome(c, Some(win.(renderer := renderer)), true)
      case UseLookAndFeelV1 => Outcome(c.(lookAndFeel := V1), w, true)
      case UseLookAndFeelV2 => Outcome(c.(lookAndFeel := V2), w, true)
      case UseLookAndFeelV3 => Outcome(c.(lookAndFeel := V3), w, true)
      case ToggleRepaintDebugging => Outcome(c.(repaintDebugging := !c.repaintDebugging), w, true)
      case UseNativeTitleBar => Outcome(c, Some(win.(nativeTitleBar := !win.nativeTitleBar)), true)
      case GoToKioskMode =>
        if b.kioskSupported then Outcome(c.(kioskMode := !c.kioskMode), w, true)
        else Outcome(c, w, false)
      case OtherCommand(_) => Outcome(c, w, false)
  }

  /** Every command getAllCommands publishes is described. */
  lemma PublishedCommandsAreDescribed(b: Build, c: ContentState, w: WindowState, numEngines: nat, id: CommandID)
    requires id in AllCommands(b, numEngines)
    ensures GetCommandInfo(id, b, c, Some(w)).shortName != ""
  {
  }

  /** Every command getAllCommands publishes is consumed by perform. */
  lemma PublishedCommandsAreHandled(entries: seq<Descriptor>, b: Build, c: ContentState, w: Option<WindowState>,
                                    numEngines: nat, id: CommandID)
    requires id in AllCommands(b, numEngines)
    requires |entries| > 0
    ensures Perform(entries, b, c, w, id).handled
  {
  }

  /** Exactly one of the three look-and-feel commands is ticked. */
  lemma ExactlyOneLookAndFeelTicked(b: Build, c: ContentState, w: Option<WindowState>)
    ensures var t1 := GetCommandInfo(UseLookAndFeelV1, b, c, w).ticked;
            var t2 := GetCommandInfo(UseLookAndFeelV2, b, c, w).ticked;
            var t3 := GetCommandInfo(UseLookAndFeelV3, b, c, w).ticked;
            (t1 || t2 || t3) && !(t1 && t2) && !(t1 && t3) && !(t2 && t3)
  {
  }

  /** Renderer slot i is ticked exactly when it is the active engine, and its key is the digit i + 1 alone. */
  lemma EngineSlotInfo(slot: EngineSlot, b: Build, c: ContentState, w: WindowState)
    ensures var info := GetCommandInfo(UseRenderingEngine(slot), b, c, Some(w));
      (info.ticked <==> ActiveRenderingEngine(w.renderer, b.hasOpenGL) == slot)
      && info.keys == [KeyPress(DigitKey(slot), NoModifiers)]
  {
  }

  /** The repaint tick shows the process-wide flag, the title-bar tick the window's flag. */
  lemma ToggleTicksShowFlags(b: Build, c: ContentState, w: Option<WindowState>)
    ensures GetCommandInfo(ToggleRepaintDebugging, b, c, w).ticked == c.repaintDebugging
    ensures GetCommandInfo(UseNativeTitleBar, b, c, w).ticked == (w.Some? && w.value.nativeTitleBar)
    ensures b.kioskSupported ==> GetCommandInfo(GoToKioskMode, b, c, w).ticked == c.kioskMode
  {
  }

  /** No two known commands share a default key. */
  lemma DefaultKeysDistinct(b: Build, c: ContentState, w: WindowState, id1: CommandID, id2: CommandID)
    requires IsKnown(id1, b) && IsKnown(id2, b) && id1 != id2
    ensures GetCommandInfo(id1, b, c, Some(w)).keys != GetCommandInfo(id2, b, c, Some(w)).keys
  {
    DefaultKeyInjective(id1, id2);
  }

  /** Each toggle command flips the tick getCommandInfo shows for it. */
  lemma ToggleFlipsTick(entries: seq<Descriptor>, b: Build, c: ContentState, w: WindowState, id: CommandID)
    requires id == ToggleRepaintDebugging || id == UseNativeTitleBar || (id == GoToKioskMode && b.kioskSupported)
    ensures var o := Perform(entries, b, c, Some(w), id);
      GetCommandInfo(id, b, o.content, o.window).ticked == !GetCommandInfo(id, b, c, Some(w)).ticked
  {
    ToggleTicksShowFlags(b, c, Some(w));
    var o := Perform(entries, b, c, Some(w), id);
    ToggleTicksShowFlags(b, o.content, o.window);
  }

  /** With distinct demo names, "next" followed by "previous" brings back the demo shown before. */
  lemma NextThenPreviousRestores(entries: seq<Descriptor>, b: Build, c: ContentState, w: WindowState, i: int)
    requires DistinctNames(entries) && 0 <= i < |entries| && c.demo == Some(entries[i].name)
    ensures var o1 := Perform(entries, b, c, Some(w), ShowNextDemo);
            var o2 := Perform(entries, b, o1.content, o1.window, ShowPreviousDemo);
            o2.content == c && o2.window == Some(w)
  {
    MoveThereAndBack(entries, i, 1);
  }

  /** A toggle command applied twice restores the state it started from. */
  lemma ToggleTwiceRestores(entries: seq<Descriptor>, b: Build, c: ContentState, w: Option<WindowState>, id: CommandID)
    requires id == ToggleRepaintDebugging || id == UseNativeTitleBar || id == GoToKioskMode
    ensures var o1 := Perform(entries, b, c, w, id);
            var o2 := Perform(entries, b, o1.content, o1.window, id);
            o2.content == c && o2.window == w
  {
  }

  /** A look-and-feel command makes that version, and only it, the ticked one. */
  lemma LookAndFeelCommandSelects(entries: seq<Descriptor>, b: Build, c: ContentState, w: WindowState, id: CommandID)
    requires id == UseLookAndFeelV1 || id == UseLookAndFeelV2 || id == UseLookAndFeelV3
    ensures var o := Perform(entries, b, c, Some(w), id);
      o.content.lookAndFeel == (if id == UseLookAndFeelV1 then V1 else if id == UseLookAndFeelV2 then V2 else V3)
      && forall other :: other in {UseLookAndFeelV1, UseLookAndFeelV2, UseLookAndFeelV3} ==>
           (GetCommandInfo(other, b, o.content, o.window).ticked <==> other == id)
  {
  }

  /** The demo jump welcome + k mounts row k, and does nothing when there are not k + 1 demos. */
  lemma DemoJump(entries: seq<Descriptor>, b: Build, c: ContentState, w: WindowState, k: DemoOffset)
    ensures var o := Perform(entries, b, c, Some(w), ShowDemo(k));
      (k < |entries| ==> o.content == c.(demo := Some(entries[k].name)) && o.window == Some(w))
      && (|entries| <= k ==> o == Outcome(c, Some(w), true))
  {
  }

  /** "Previous" on the first demo wraps to the last one. */
  lemma PreviousWrapsAround(entries: seq<Descriptor>, b: Build, c: ContentState, w: WindowState)
    requires |entries| > 0 && PageIndex(entries, c.demo) == 0
    ensures Perform(entries, b, c, Some(w), ShowPreviousDemo).content.demo == Some(entries[|entries| - 1].name)
  {
    PreviousFromFirst(entries, c.demo);
  }

  /**
   * Choosing a renderer slot makes it the active engine and ticks its
   * command, when the switch can take effect (see ActiveAfterSet).
   */
  lemma ChosenRendererIsTicked(entries: seq<Descriptor>, b: Build, c: ContentState, w: WindowState, slot: EngineSlot)
    requires ValidRenderer(w.renderer, b.hasOpenGL)
    requires OpenGLRendererName !in PeerEngines(w.renderer.peer)
    requires !AttachesOpenGL(w.renderer, b.hasOpenGL, Some(c.demo), slot) ==> slot < |PeerEngines(w.renderer.peer)|
    ensures var o := Perform(entries, b, c, Some(w), UseRenderingEngine(slot));
      ActiveRenderingEngine(o.window.value.renderer, b.hasOpenGL) == slot
      && GetCommandInfo(UseRenderingEngine(slot), b, o.content, o.window).ticked
  {
    ActiveAfterSet(w.renderer, b.hasOpenGL, Some(c.demo), slot);
  }
}
