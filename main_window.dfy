/**
 * The two objects of the demo's main window whose state the commands change:
 * the content component (the mounted demo, the look-and-feel and the flags it
 * toggles) and the main application window (its renderer and title bar).
 * Each state-changing method is specified by the pure functions of
 * Navigation, Renderer and Commands.
 */
module MainWindow {
  import opened Wrappers
  import opened DemoRegistry
  import opened Navigation
  import Renderer
  import opened Commands

  /**
   * The content component: the demo list beside the mounted demo. The
   * repaint-debugging flag and the kiosk-mode component are process-wide in
   * the program; here they are fields of the one content component.
   */
  class ContentComponent {
    const registry: Registry
    const build: Build
    var currentDemo: Option<string>
    var lookAndFeel: LookAndFeel
    var repaintDebugging: bool
    var kioskMode: bool

    function State(): ContentState
      reads this
    {
      ContentState(currentDemo, lookAndFeel, repaintDebugging, kioskMode)
    }

    /** Installs the third look-and-feel and selects the first row. */
    constructor(registry: Registry, build: Build)
      ensures this.registry == registry && this.build == build
      ensures State() == ContentState(SelectedDemo(registry.entries, None, 0), V3, false, false)
    {
      this.registry := registry;
      this.build := build;
      currentDemo := None;
      lookAndFeel := V3;
      repaintDebugging := false;
      kioskMode := false;
      new;
      SelectedRowsChanged(0);
    }

    /** Mounts the demo of the selected row; a row outside the list leaves the mounted demo alone. */
    method SelectedRowsChanged(row: int)
      modifies this
      ensures currentDemo == SelectedDemo(registry.entries, old(currentDemo), row)
      ensures lookAndFeel == old(lookAndFeel) && repaintDebugging == old(repaintDebugging)
      ensures kioskMode == old(kioskMode)
    {
      if 0 <= row < |registry.entries| {
        currentDemo := Some(registry.entries[row].name);
      }
    }

    /** Searches the list from the end for the mounted demo's name. */
    method CurrentPageIndex() returns (index: int)
      ensures index == PageIndex(registry.entries, currentDemo)
      ensures -1 <= index < |registry.entries|
    {
      if currentDemo.None? {
        return -1;
      }
      var demos := registry.entries;
      var name := currentDemo.value;
      var i := |demos|;
      while i > 0
        invariant 0 <= i <= |demos|
        invariant forall j :: i <= j < |demos| ==> demos[j].name != name
      {
        i := i - 1;
        if demos[i].name == name {
          return i;
        }
      }
      return -1;
    }

    /** Selects the row delta places from the mounted demo, wrapping around the list. */
    method MoveDemoPages(delta: int)
      requires |registry.entries| > 0
      modifies this
      ensures currentDemo == MovedDemo(registry.entries, old(currentDemo), delta)
      ensures lookAndFeel == old(lookAndFeel) && repaintDebugging == old(repaintDebugging)
      ensures kioskMode == old(kioskMode)
    {
      var index := CurrentPageIndex();
      var newIndex := NegativeAwareModulo(index + delta, |registry.entries|);
      SelectedRowsChanged(newIndex);
    }

    /**
     * Carries out a command. mainWindow is the window the program finds among
     * its top-level windows, or null when there is none.
     */
    method Perform(id: CommandID, mainWindow: MainAppWindow?) returns (handled: bool)
      requires mainWindow != null ==> mainWindow.content == this && mainWindow.Valid()
      requires mainWindow != null && (id.ShowPreviousDemo? || id.ShowNextDemo?) ==> |registry.entries| > 0
      modifies this, mainWindow
      ensures mainWindow != null ==> mainWindow.content == this && mainWindow.Valid()
      ensures var o := Commands.Perform(registry.entries, build, old(State()), old(WindowOf(mainWindow)), id);
        State() == o.content && WindowOf(mainWindow) == o.window && handled == o.handled
    {
      if mainWindow == null {
        return true;
      }
      handled := true;
      match id
      case ShowPreviousDemo => MoveDemoPages(-1);
      case ShowNextDemo => MoveDemoPages(1);
      case ShowDemo(k) => SelectedRowsChanged(k);
      case UseRenderingEngine(slot) => mainWindow.SetRenderingEngine(slot);
      case UseLookAndFeelV1 => lookAndFeel := V1;
      case UseLookAndFeelV2 => lookAndFeel := V2;
      case UseLookAndFeelV3 => lookAndFeel := V3;
      case ToggleRepaintDebugging => repaintDebugging := !repaintDebugging;
      case UseNativeTitleBar => mainWindow.SetUsingNativeTitleBar(!mainWindow.nativeTitleBar);
      case GoToKioskMode =>
        if build.kioskSupported {
          kioskMode := !kioskMode;
        } else {
          handled := false;
        }
      case OtherCommand(_) => handled := false;
    }
  }

  /**
   * The main application window: its peer (None when it is not on screen),
   * whether the OpenGL context is attached, whether it uses the native title
   * bar, and the content component it shows (null once it is destroyed).
   */
  class MainAppWindow {
    const build: Build
    var peer: Option<Renderer.Peer>
    var openGLAttached: bool
    var nativeTitleBar: bool
    var content: ContentComponent?

    /** The content shares the window's build, and the OpenGL context is only attached where OpenGL exists. */
    ghost predicate Valid()
      reads this, content
    {
      (content != null ==> content.build == build)
      && Renderer.ValidRenderer(RenderState(), build.hasOpenGL)
    }

    function RenderState(): Renderer.RendererState
      reads this
    {
      Renderer.RendererState(peer, openGLAttached)
    }

    /** The mounted demo as the window sees it: None without a content component. */
    function ContentDemo(): Option<Option<string>>
      reads this, content
    {
      if content == null then None else Some(content.currentDemo)
    }

    /** Uses the native title bar and creates the content component. */
    constructor(registry: Registry, build: Build, peer: Option<Renderer.Peer>)
      ensures Valid() && this.build == build && this.peer == peer
      ensures nativeTitleBar && !openGLAttached
      ensures content != null && fresh(content) && content.registry == registry && content.build == build
      ensures content.State() == ContentState(SelectedDemo(registry.entries, None, 0), V3, false, false)
    {
      this.build := build;
      this.peer := peer;
      openGLAttached := false;
      nativeTitleBar := true;
      content := new ContentComponent(registry, build);
    }

    /** Releases the content component and detaches the OpenGL context. */
    method Dispose()
      modifies this
      ensures content == null && !openGLAttached
      ensures peer == old(peer) && nativeTitleBar == old(nativeTitleBar)
      ensures Valid()
    {
      content := null;
      openGLAttached := false;
    }

    method SetUsingNativeTitleBar(useNative: bool)
      modifies this
      ensures nativeTitleBar == useNative
      ensures peer == old(peer) && openGLAttached == old(openGLAttached) && content == old(content)
    {
      nativeTitleBar := useNative;
    }

    /** Switches renderer: attaches OpenGL, or detaches it and hands the index to the peer. */
    method SetRenderingEngine(index: int)
      requires Valid()
      modifies this
      ensures Valid()
      ensures RenderState() == Renderer.SetRenderingEngine(old(RenderState()), build.hasOpenGL, old(ContentDemo()), index)
      ensures nativeTitleBar == old(nativeTitleBar) && content == old(content)
    {
      var engines := Renderer.RenderingEngines(peer, build.hasOpenGL);
      var name := Renderer.EngineName(engines, index);
      if build.hasOpenGL && name == Renderer.OpenGLRendererName && content != null
         && !Renderer.IsShowingOpenGLDemo(content.currentDemo)
      {
        openGLAttached := true;
        return;
      }
      if build.hasOpenGL {
        openGLAttached := false;
      }
      if peer.Some? {
        peer := Some(peer.value.(current := index));
      }
    }
  }

  /** The window state the commands see: None when there is no main window. */
  function WindowOf(w: MainAppWindow?): Option<WindowState>
    reads w
  {
    if w == null then None else Some(WindowState(w.RenderState(), w.nativeTitleBar))
  }
}
