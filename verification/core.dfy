/** The rendering context (`createRenderingContext`): it holds at most one active
    renderer, disposes the outgoing one when another strategy is selected, and forwards
    `configure` and `render` to whichever renderer is current. Calls that reach the GL
    context alone (`clear`, `flush`) and the calls forwarded to a renderer are recorded
    as a trace of events. */
module Core {
  import opened Js
  import opened Tomograms
  import Base2D
  import Quads
  import QuadStrip
  import Texture
  import ThreeD
  import ThreeDTexture

  /** The drawing strategies an initializer can create. */
  datatype Kind = QuadsKind | QuadStripKind | TextureKind | ThreeDKind | ThreeDTextureKind

  /** A live renderer of one of the strategies. */
  datatype Strategy =
    | QuadsRenderer(quads: Quads.Renderer)
    | QuadStripRenderer(strip: QuadStrip.Renderer)
    | TextureRenderer(texture: Texture.Renderer)
    | ThreeDRenderer(atlas: ThreeD.Renderer)
    | ThreeDTextureRenderer(volume: ThreeDTexture.Renderer)

  /** The renderer an initializer returns: never configured. */
  function Create(kind: Kind): (s: Strategy)
    ensures !Configured(s)
  {
    match kind
    case QuadsKind => QuadsRenderer(Quads.Init())
    case QuadStripKind => QuadStripRenderer(QuadStrip.Init())
    case TextureKind => TextureRenderer(Texture.Init())
    case ThreeDKind => ThreeDRenderer(ThreeD.Init())
    case ThreeDTextureKind => ThreeDTextureRenderer(ThreeDTexture.Init())
  }

  /** The renderer has a state, that is, `configure` has succeeded on it at least once. */
  predicate Configured(s: Strategy)
  {
    match s
    case QuadsRenderer(r) => r.state.Some?
    case QuadStripRenderer(r) => r.state.Some?
    case TextureRenderer(r) => r.state.Some?
    case ThreeDRenderer(r) => r.state.Some?
    case ThreeDTextureRenderer(r) => r.state.Some?
  }

  /** `renderer.configure(tomogram, config)`, of whichever strategy it is. */
  function ConfigureStrategy(s: Strategy, t: Tomogram, config: Base2D.Config): (r: Result<Strategy>)
    ensures r.Ok? ==> Configured(r.value)
  {
    match s
    case QuadsRenderer(r) => var n :- Quads.Configure(r, t, config); Ok(QuadsRenderer(n))
    case QuadStripRenderer(r) => var n :- QuadStrip.Configure(r, t, config); Ok(QuadStripRenderer(n))
    case TextureRenderer(r) => var n :- Texture.Configure(r, t, config); Ok(TextureRenderer(n))
    case ThreeDRenderer(r) => var n :- ThreeD.Configure(r, t, config); Ok(ThreeDRenderer(n))
    case ThreeDTextureRenderer(r) => var n :- ThreeDTexture.Configure(r, t, config); Ok(ThreeDTextureRenderer(n))
  }

  /** `renderer.render()`, of whichever strategy it is: a TypeError before the first
      successful `configure`. */
  function RenderStrategy(s: Strategy): (r: Result<Strategy>)
    ensures r.Ok? <==> Configured(s)
    ensures r.Err? ==> r.error == TypeError
    ensures r.Ok? ==> Configured(r.value)
  {
    match s
    case QuadsRenderer(r) => var f :- Quads.Render(r); Ok(QuadsRenderer(f.1))
    case QuadStripRenderer(r) => var f :- QuadStrip.Render(r); Ok(QuadStripRenderer(f.1))
    case TextureRenderer(r) => var f :- Texture.Render(r); Ok(TextureRenderer(f.1))
    case ThreeDRenderer(r) => var f :- ThreeD.Render(r); Ok(ThreeDRenderer(f.1))
    case ThreeDTextureRenderer(r) => var f :- ThreeDTexture.Render(r); Ok(ThreeDTextureRenderer(f.1))
  }

  /** The current renderer, numbered in creation order. */
  datatype Active = Active(id: nat, strategy: Strategy)

  /** What the context did, in order. */
  datatype Event =
    | Disposed(id: nat)
    | Created(id: nat, kind: Kind)
    | ConfigureCalled(id: nat)
    | RenderCalled(id: nat)
    | Cleared
    | Flushed

  /** The context: the current renderer (`undefined` before the first `setRenderer`), the
      number of renderers created so far, and the trace. */
  datatype Context = Context(renderer: Option<Active>, created: nat, trace: seq<Event>)

  /** A context call's effect, and the exception it threw, if any. */
  datatype Outcome = Outcome(context: Context, thrown: Option<Error>)

  function Initial(): (c: Context)
    ensures c.renderer.None? && c.trace == []
  {
    Context(None, 0, [])
  }

  /** `setRenderer(initializer)`: the current renderer, if any, is disposed first; then the
      initializer runs. When its shaders fail to compile it throws, and the disposed
      renderer stays current. */
  function SetRenderer(c: Context, kind: Kind, compiles: bool): (o: Outcome)
    ensures c.renderer.Some? ==> |o.context.trace| > |c.trace| && o.context.trace[|c.trace|] == Disposed(c.renderer.value.id)
    ensures compiles ==>
              && o.thrown.None?
              && o.context.renderer == Some(Active(c.created, Create(kind)))
              && o.context.created == c.created + 1
              && |o.context.trace| == |c.trace| + (if c.renderer.Some? then 2 else 1)
              && o.context.trace[|o.context.trace| - 1] == Created(c.created, kind)
    ensures !compiles ==>
              && o.thrown == Some(ShaderError)
              && o.context.renderer == c.renderer
              && o.context.created == c.created
              && |o.context.trace| == |c.trace| + (if c.renderer.Some? then 1 else 0)
    ensures o.context.trace[..|c.trace|] == c.trace
  {
    var disposal := if c.renderer.Some? then [Disposed(c.renderer.value.id)] else [];
    if compiles then
      Outcome(Context(Some(Active(c.created, Create(kind))), c.created + 1, c.trace + disposal + [Created(c.created, kind)]), None)
    else
      Outcome(c.(trace := c.trace + disposal), Some(ShaderError))
  }

  /** `configure(tomogram, config)`: a TypeError before any renderer exists; otherwise
      forwarded to the current renderer, whose own exception, if any, passes through. */
  function Configure(c: Context, t: Tomogram, config: Base2D.Config): (o: Outcome)
    ensures c.renderer.None? ==> o == Outcome(c, Some(TypeError))
    ensures c.renderer.Some? ==>
              var a := c.renderer.value;
              var r := ConfigureStrategy(a.strategy, t, config);
              && o.context.trace == c.trace + [ConfigureCalled(a.id)]
              && o.context.created == c.created
              && (r.Ok? ==> o.context.renderer == Some(Active(a.id, r.value)) && o.thrown.None?)
              && (r.Err? ==> o.context.renderer == c.renderer && o.thrown == Some(r.error))
  {
    match c.renderer
    case None => Outcome(c, Some(TypeError))
    case Some(a) =>
      var trace := c.trace + [ConfigureCalled(a.id)];
      match ConfigureStrategy(a.strategy, t, config)
      case Ok(s) => Outcome(Context(Some(Active(a.id, s)), c.created, trace), None)
      case Err(e) => Outcome(c.(trace := trace), Some(e))
  }

  /** `render()`: a TypeError before any renderer exists, and forwarded otherwise. */
  function Render(c: Context): (o: Outcome)
    ensures c.renderer.None? ==> o == Outcome(c, Some(TypeError))
    ensures c.renderer.Some? ==>
              var a := c.renderer.value;
              && o.context.trace == c.trace + [RenderCalled(a.id)]
              && o.context.created == c.created
              && o.context.renderer.Some? && o.context.renderer.value.id == a.id
              && (o.thrown.None? <==> Configured(a.strategy))
              && (o.thrown.Some? ==> o.thrown == Some(TypeError) && o.context.renderer == c.renderer)
  {
    match c.renderer
    case None => Outcome(c, Some(TypeError))
    case Some(a) =>
      var trace := c.trace + [RenderCalled(a.id)];
      match RenderStrategy(a.strategy)
      case Ok(s) => Outcome(Context(Some(Active(a.id, s)), c.created, trace), None)
      case Err(e) => Outcome(c.(trace := trace), Some(e))
  }

  /** `clear()` and `flush()` reach the GL context only. */
  function Clear(c: Context): (o: Outcome)
    ensures o.thrown.None? && o.context.renderer == c.renderer && o.context.created == c.created
    ensures o.context.trace == c.trace + [Cleared]
  {
    Outcome(c.(trace := c.trace + [Cleared]), None)
  }

  function Flush(c: Context): (o: Outcome)
    ensures o.thrown.None? && o.context.renderer == c.renderer && o.context.created == c.created
    ensures o.context.trace == c.trace + [Flushed]
  {
    Outcome(c.(trace := c.trace + [Flushed]), None)
  }

  /** One call on the context. */
  datatype Op =
    | SetRendererOp(kind: Kind, compiles: bool)
    | ConfigureOp(tomogram: Tomogram, config: Base2D.Config)
    | RenderOp
    | ClearOp
    | FlushOp

  function Apply(c: Context, op: Op): Outcome
  {
    match op
    case SetRendererOp(kind, compiles) => SetRenderer(c, kind, compiles)
    case ConfigureOp(t, config) => Configure(c, t, config)
    case RenderOp => Render(c)
    case ClearOp => Clear(c)
    case FlushOp => Flush(c)
  }

  /** A sequence of calls, each made by its own event handler: an exception ends that
      call, and the next call starts from the context it left. */
  function Run(c: Context, ops: seq<Op>): Context
    decreases |ops|
  {
    if ops == [] then c else Run(Apply(c, ops[0]).context, ops[1..])
  }

  /** Every renderer created has been disposed at most once, only renderers already
      created have been disposed, and the current one has not been disposed. */
  ghost predicate DisposedOnce(c: Context)
  {
    && (forall i, j :: 0 <= i < j < |c.trace| && c.trace[i].Disposed? ==> c.trace[j] != c.trace[i])
    && (forall i :: 0 <= i < |c.trace| && c.trace[i].Disposed? ==> c.trace[i].id < c.created)
    && (c.renderer.Some? ==> c.renderer.value.id < c.created && Disposed(c.renderer.value.id) !in c.trace)
  }

  /** One call keeps `DisposedOnce`, unless it is a `setRenderer` whose initializer throws. */
  lemma ApplyKeepsDisposedOnce(c: Context, op: Op)
    requires DisposedOnce(c)
    requires op.SetRendererOp? ==> op.compiles
    ensures DisposedOnce(Apply(c, op).context)
  {
    var c' := Apply(c, op).context;
    match op
    case SetRendererOp(kind, compiles) =>
      var disposal := if c.renderer.Some? then [Disposed(c.renderer.value.id)] else [];
      assert c'.trace == c.trace + disposal + [Created(c.created, kind)];
      forall i | 0 <= i < |c'.trace| && c'.trace[i].Disposed?
        ensures c'.trace[i].id < c'.created
      {
        if i >= |c.trace| {
          assert c'.trace[i] == disposal[i - |c.trace|];
        }
      }
      forall i, j | 0 <= i < j < |c'.trace| && c'.trace[i].Disposed?
        ensures c'.trace[j] != c'.trace[i]
      {
        if j >= |c.trace| && i < |c.trace| && j < |c.trace| + |disposal| {
          assert c'.trace[j] == disposal[0];
          assert c'.trace[i] == c.trace[i];
        }
      }
      assert Disposed(c.created) !in c'.trace;
    case ConfigureOp(t, config) =>
      assert c'.trace == c.trace || (c.renderer.Some? && c'.trace == c.trace + [ConfigureCalled(c.renderer.value.id)]);
    case RenderOp =>
      assert c'.trace == c.trace || (c.renderer.Some? && c'.trace == c.trace + [RenderCalled(c.renderer.value.id)]);
    case ClearOp =>
    case FlushOp =>
  }

  /** As long as every initializer succeeds, no renderer is ever disposed twice, and the
      current renderer is never a disposed one. */
  lemma {:induction false} RunDisposesOnce(c: Context, ops: seq<Op>)
    requires DisposedOnce(c)
    requires forall k :: 0 <= k < |ops| && ops[k].SetRendererOp? ==> ops[k].compiles
    ensures DisposedOnce(Run(c, ops))
    decreases |ops|
  {
    if ops != [] {
      ApplyKeepsDisposedOnce(c, ops[0]);
      RunDisposesOnce(Apply(c, ops[0]).context, ops[1..]);
    }
  }

  /** The first `setRenderer` disposes nothing. */
  lemma FirstSetRendererDisposesNothing(kind: Kind)
    ensures SetRenderer(Initial(), kind, true).context.trace == [Created(0, kind)]
  {
  }

  /** When an initializer throws, the renderer it was to replace has been disposed but
      stays current; the next `setRenderer` disposes it a second time. */
  lemma FailedInitDisposesTwice()
    ensures Run(Initial(), [SetRendererOp(QuadsKind, true), SetRendererOp(TextureKind, false), SetRendererOp(QuadsKind, true)]).trace
         == [Created(0, QuadsKind), Disposed(0), Disposed(0), Created(1, QuadsKind)]
  {
  }

  /** After `setRenderer`, calls go to the new renderer only, and it starts unconfigured:
      `render` throws until a `configure` has succeeded on it. */
  lemma NewRendererStartsUnconfigured(c: Context, kind: Kind)
    ensures var c' := SetRenderer(c, kind, true).context;
            var o := Render(c');
            && o.thrown == Some(TypeError)
            && o.context.trace[|o.context.trace| - 1] == RenderCalled(c.created)
  {
  }

  /** `configure` after `setRenderer` reaches the new renderer, and a successful one makes
      the next `render` succeed. */
  lemma ConfigureThenRender(c: Context, kind: Kind, t: Tomogram, config: Base2D.Config)
    requires ConfigureStrategy(Create(kind), t, config).Ok?
    ensures var c1 := SetRenderer(c, kind, true).context;
            var o1 := Configure(c1, t, config);
            var o2 := Render(o1.context);
            && o1.thrown.None? && o1.context.trace[|o1.context.trace| - 1] == ConfigureCalled(c.created)
            && o2.thrown.None? && o2.context.renderer.value.id == c.created
  {
  }
}
