/**
 * The window's rendering engines: those the native peer offers, plus the
 * OpenGL renderer when OpenGL support is compiled in (getRenderingEngines,
 * setRenderingEngine, getActiveRenderingEngine).
 */
module Renderer {
  import opened Wrappers
  import opened Text

  /** The window's native peer: the engines it offers and the index of the one in use. */
  datatype Peer = Peer(engines: seq<string>, current: int)

  /**
   * What the renderer switch reads and changes: the peer (absent until the
   * window is on the desktop) and whether the OpenGL context is attached.
   */
  datatype RendererState = RendererState(peer: Option<Peer>, openGLAttached: bool)

  /** The name under which the OpenGL context is listed. */
  const OpenGLRendererName: string := "OpenGL Renderer"

  /** The peer's engines, none without a peer. */
  function PeerEngines(peer: Option<Peer>): seq<string>
  {
    if peer.Some? then peer.value.engines else []
  }

  /** getRenderingEngines: the peer's engines, then the OpenGL renderer when it is compiled in. */
  function RenderingEngines(peer: Option<Peer>, hasOpenGL: bool): (r: seq<string>)
    ensures |r| == |PeerEngines(peer)| + (if hasOpenGL then 1 else 0)
    ensures r[..|PeerEngines(peer)|] == PeerEngines(peer)
    ensures hasOpenGL ==> r[|r| - 1] == OpenGLRendererName
  {
    PeerEngines(peer) + (if hasOpenGL then [OpenGLRendererName] else [])
  }

  /** StringArray's operator[]: the empty string for an index out of range. */
  function EngineName(engines: seq<string>, index: int): (name: string)
    ensures 0 <= index < |engines| ==> name == engines[index]
    ensures !(0 <= index < |engines|) ==> name == ""
  {
    if 0 <= index < |engines| then engines[index] else ""
  }

  /**
   * getActiveRenderingEngine: the OpenGL renderer's slot while the context is
   * attached, otherwise the peer's current engine, otherwise 0.
   */
  function ActiveRenderingEngine(r: RendererState, hasOpenGL: bool): (index: int)
    ensures hasOpenGL && r.openGLAttached ==>
      var engines := RenderingEngines(r.peer, hasOpenGL);
      0 <= index < |engines| && engines[index] == OpenGLRendererName && OpenGLRendererName !in engines[..index]
    ensures !(hasOpenGL && r.openGLAttached) && r.peer.Some? ==> index == r.peer.value.current
    ensures !(hasOpenGL && r.openGLAttached) && r.peer.None? ==> index == 0
  {
    if hasOpenGL && r.openGLAttached then
      IndexOf(RenderingEngines(r.peer, hasOpenGL), OpenGLRendererName)
    else if r.peer.Some? then
      r.peer.value.current
    else
      0
  }

  /** isShowingOpenGLDemo: a demo is mounted and its name contains "OpenGL". */
  function IsShowingOpenGLDemo(demo: Option<string>): (b: bool)
    ensures b <==> demo.Some? && exists i :: OccursAt(demo.value, "OpenGL", i)
  {
    demo.Some? && Contains(demo.value, "OpenGL")
  }

  /**
   * When setRenderingEngine attaches the OpenGL context: OpenGL is compiled in,
   * the chosen slot is named "OpenGL Renderer", there is a content component
   * (content is its mounted demo) and that demo does not do its own OpenGL.
   */
  predicate AttachesOpenGL(r: RendererState, hasOpenGL: bool, content: Option<Option<string>>, index: int): (attach: bool)
    ensures attach <==>
      var engines := RenderingEngines(r.peer, hasOpenGL);
      hasOpenGL && 0 <= index < |engines| && engines[index] == OpenGLRendererName
      && content.Some? && !IsShowingOpenGLDemo(content.value)
  {
    hasOpenGL
    && EngineName(RenderingEngines(r.peer, hasOpenGL), index) == OpenGLRendererName
    && content.Some? && !IsShowingOpenGLDemo(content.value)
  }

  /**
   * setRenderingEngine (index): attach the OpenGL context and leave the peer
   * alone, or else detach it and switch the peer (if any) to engine index.
   */
  function SetRenderingEngine(r: RendererState, hasOpenGL: bool, content: Option<Option<string>>, index: int): (r': RendererState)
    ensures AttachesOpenGL(r, hasOpenGL, content, index) ==> r'.openGLAttached && r'.peer == r.peer
    ensures !AttachesOpenGL(r, hasOpenGL, content, index) ==>
      (hasOpenGL ==> !r'.openGLAttached) && (!hasOpenGL ==> r'.openGLAttached == r.openGLAttached)
      && r'.peer.Some? == r.peer.Some?
      && (r.peer.Some? ==> r'.peer.value.engines == r.peer.value.engines && r'.peer.value.current == index)
  {
    if AttachesOpenGL(r, hasOpenGL, content, index) then
      r.(openGLAttached := true)
    else
      var detached := if hasOpenGL then r.(openGLAttached := false) else r;
      match r.peer
      case Some(p) => detached.(peer := Some(p.(current := index)))
      case None => detached
  }

  /** The attached flag is only ever set when OpenGL is compiled in. */
  predicate ValidRenderer(r: RendererState, hasOpenGL: bool)
  {
    r.openGLAttached ==> hasOpenGL
  }

  /** The peer's current engine is one of the engines it offers. */
  predicate PeerInRange(r: RendererState)
  {
    r.peer.Some? ==> 0 <= r.peer.value.current < |r.peer.value.engines|
  }

  /** Switching keeps the attached flag consistent with the build. */
  lemma SetRenderingEngineKeepsValid(r: RendererState, hasOpenGL: bool, content: Option<Option<string>>, index: int)
    requires ValidRenderer(r, hasOpenGL)
    ensures ValidRenderer(SetRenderingEngine(r, hasOpenGL, content, index), hasOpenGL)
  {
  }

  /**
   * Switching to an engine the peer offers, or attaching OpenGL, keeps the
   * peer's current engine one it offers.
   */
  lemma SetRenderingEngineKeepsPeerInRange(r: RendererState, hasOpenGL: bool, content: Option<Option<string>>, index: int)
    requires PeerInRange(r)
    requires !AttachesOpenGL(r, hasOpenGL, content, index) ==> 0 <= index < |PeerEngines(r.peer)|
    ensures PeerInRange(SetRenderingEngine(r, hasOpenGL, content, index))
  {
  }

  /**
   * After setRenderingEngine (index) the active engine is index, provided that
   * either the OpenGL context was attached and no peer engine shares its name,
   * or index is one of the peer's own engines.
   */
  lemma ActiveAfterSet(r: RendererState, hasOpenGL: bool, content: Option<Option<string>>, index: int)
    requires ValidRenderer(r, hasOpenGL)
    requires AttachesOpenGL(r, hasOpenGL, content, index) ==> OpenGLRendererName !in PeerEngines(r.peer)
    requires !AttachesOpenGL(r, hasOpenGL, content, index) ==> 0 <= index < |PeerEngines(r.peer)|
    ensures ActiveRenderingEngine(SetRenderingEngine(r, hasOpenGL, content, index), hasOpenGL) == index
  {
    if AttachesOpenGL(r, hasOpenGL, content, index) {
      var engines := RenderingEngines(r.peer, hasOpenGL);
      assert engines[..|PeerEngines(r.peer)|] == PeerEngines(r.peer);
    }
  }

  /** While the OpenGL context is attached the active engine is a valid slot. */
  lemma ActiveInRangeWhileAttached(r: RendererState, hasOpenGL: bool)
    requires ValidRenderer(r, hasOpenGL) && r.openGLAttached
    ensures 0 <= ActiveRenderingEngine(r, hasOpenGL) < |RenderingEngines(r.peer, hasOpenGL)|
  {
  }

  /**
   * With OpenGL attached, or with a peer whose current engine it offers, the
   * active engine is a valid slot of getRenderingEngines.
   */
  lemma ActiveInRange(r: RendererState, hasOpenGL: bool)
    requires ValidRenderer(r, hasOpenGL) && PeerInRange(r) && (r.openGLAttached || r.peer.Some?)
    ensures 0 <= ActiveRenderingEngine(r, hasOpenGL) < |RenderingEngines(r.peer, hasOpenGL)|
  {
  }
}
