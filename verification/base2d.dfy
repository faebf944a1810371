/** The renderer state shared by every drawing strategy (`Base2DRenderer`) and its
    diff-and-invalidate policy: `configure` decides whether the expensive
    `updateCache` of the strategy must run. */
module Base2D {
  import opened Js
  import opened Tomograms

  /** The configuration properties a renderer can be told about. `TransferFunctionMax`
      is not part of the configuration type, but the texture strategy's trigger set names it. */
  datatype Key = Layer | TransferFunctionMin | TransferFunctionWidth | TransferFunctionMax

  /** A configuration object: its own properties and their (integer) values. */
  type Config = map<Key, int>

  /** `config[k]`: `undefined` when the object has no property `k`. */
  function Get(c: Config, k: Key): (v: Value)
    ensures v.Num? <==> k in c
    ensures k in c ==> v.n == c[k]
  {
    if k in c then Num(c[k]) else Undefined
  }

  /** The window `[min, min + width]` the min/width strategies hand to the transfer
      function; NaN bounds when the configuration lacks a property. */
  function MinWidthWindow(c: Config): (w: (Number, Number))
    ensures w.0 == ToNumber(Get(c, TransferFunctionMin))
    ensures w.1.Int? <==> TransferFunctionMin in c && TransferFunctionWidth in c
    ensures w.1.Int? ==> w.1.i == c[TransferFunctionMin] + c[TransferFunctionWidth]
  {
    var lo := ToNumber(Get(c, TransferFunctionMin));
    (lo, Add(lo, ToNumber(Get(c, TransferFunctionWidth))))
  }

  /** The state a strategy renders from: the tomogram, a snapshot of the configuration
      and the windowed colour cache. */
  datatype State = State(tomogram: Tomogram, config: Config, cache: seq<int>)

  /** The state after the diff, and whether `updateCache` must run on it. */
  datatype Step = Step(state: State, refresh: bool)

  /** Some incoming property that belongs to the trigger set differs from the stored snapshot. */
  predicate TriggerChanged(stored: Config, incoming: Config, triggers: set<Key>)
  {
    exists k :: k in incoming && k in triggers && Get(stored, k) != Num(incoming[k])
  }

  /** The diff performed by `configure`. A first call adopts the tomogram, a copy of the
      configuration and a zeroed cache, and refreshes. A different tomogram reference
      always refreshes, and the cache is replaced by a zeroed one only when its length
      no longer matches the samples. With the same tomogram, the cache is refreshed
      exactly when a changed incoming property is in the trigger set. Every incoming
      property is copied into the snapshot, triggering or not. */
  function Configure(prior: Option<State>, t: Tomogram, config: Config, triggers: set<Key>): (s: Step)
    ensures s.state.tomogram.id == t.id
    ensures forall k :: k in config ==> Get(s.state.config, k) == Num(config[k])
    ensures prior.None? ==> s.refresh && s.state == State(t, config, Zeros(|t.data|))
    ensures prior.Some? ==> forall k :: k !in config ==> Get(s.state.config, k) == Get(prior.value.config, k)
    ensures prior.Some? && prior.value.tomogram.id != t.id ==>
              && s.refresh
              && s.state.tomogram == t
              && s.state.cache == (if |prior.value.cache| != |t.data| then Zeros(|t.data|) else prior.value.cache)
    ensures prior.Some? && prior.value.tomogram.id == t.id ==>
              && s.state.tomogram == prior.value.tomogram
              && s.state.cache == prior.value.cache
              && (s.refresh <==> exists k :: k in config && k in triggers && Get(prior.value.config, k) != Num(config[k]))
  {
    match prior
    case None => Step(State(t, config, Zeros(|t.data|)), true)
    case Some(st) =>
      var swapped := st.tomogram.id != t.id;
      var cache := if swapped && |st.cache| != |t.data| then Zeros(|t.data|) else st.cache;
      var tomogram := if swapped then t else st.tomogram;
      Step(State(tomogram, st.config + config, cache), swapped || TriggerChanged(st.config, config, triggers))
  }

  /** `configure` as the source writes it: the tomogram check, then one pass over the
      incoming keys that compares each with the stored snapshot (whose earlier keys it
      has already overwritten) before overwriting it. The keys are visited in no
      particular order; the outcome is the one `Configure` describes. */
  method ConfigureKeys(prior: Option<State>, t: Tomogram, config: Config, triggers: set<Key>)
    returns (s: State, refresh: bool)
    ensures Step(s, refresh) == Configure(prior, t, config, triggers)
  {
    refresh := false;
    if prior.None? {
      s := State(t, config, Zeros(|t.data|));
      refresh := true;
    } else {
      var st := prior.value;
      s := st;
      if t.id != s.tomogram.id {
        if |s.cache| != |t.data| {
          s := s.(cache := Zeros(|t.data|));
        }
        s := s.(tomogram := t);
        refresh := true;
      }
      var swapped := refresh;
      var keys := config.Keys;
      ghost var done: set<Key> := {};
      while keys != {}
        invariant keys !! done && keys + done == config.Keys
        invariant s.tomogram == (if swapped then t else st.tomogram)
        invariant s.cache == (if swapped && |st.cache| != |t.data| then Zeros(|t.data|) else st.cache)
        invariant s.config.Keys == st.config.Keys + done
        invariant forall k :: k in done ==> s.config[k] == config[k]
        invariant forall k :: k in st.config && k !in done ==> s.config[k] == st.config[k]
        invariant refresh <==>
          swapped || exists k :: k in done && k in triggers && Get(st.config, k) != Num(config[k])
        decreases keys
      {
        var k :| k in keys;
        assert Get(s.config, k) == Get(st.config, k);
        if Get(s.config, k) != Num(config[k]) && k in triggers {
          refresh := true;
        }
        s := s.(config := s.config[k := config[k]]);
        keys := keys - {k};
        done := done + {k};
      }
      assert s.config == st.config + config;
    }
  }

  /** Configuring again with the same tomogram and the same configuration does not run
      `updateCache` and leaves the state as it was. */
  lemma ConfigureIdempotent(prior: Option<State>, t: Tomogram, config: Config, triggers: set<Key>)
    ensures var first := Configure(prior, t, config, triggers).state;
            Configure(Some(first), t, config, triggers) == Step(first, false)
  {
    var first := Configure(prior, t, config, triggers).state;
    assert first.config + config == first.config;
  }

  /** A renderer built on this state: the state (absent before the first `configure`),
      the strategy's private buffers, and a count of `updateCache` runs. */
  datatype Renderer<B> = Renderer(state: Option<State>, buffers: B, refreshes: nat)

  /** A renderer as its initializer returns it: never configured. */
  function Initial<B>(buffers: B): (r: Renderer<B>)
    ensures r.state.None? && r.refreshes == 0 && r.buffers == buffers
  {
    Renderer(None, buffers, 0)
  }

  /** The offset of the configured layer in the cache, `layer * sizeX * sizeY`, as the
      mesh strategies compute it: NaN when the configuration has no layer. */
  function LayerOffset(st: State): (n: Number)
    ensures n.Int? <==> Layer in st.config
    ensures n.Int? ==> n.i == st.config[Layer] * st.tomogram.size.x * st.tomogram.size.y
  {
    Mul(Mul(ToNumber(Get(st.config, Layer)), Int(st.tomogram.size.x)), Int(st.tomogram.size.y))
  }

  /** `configure` followed, when the diff asks for it, by the strategy's `updateCache`,
      which rewrites the cache and its private buffers (or throws). */
  function ConfigureWith<B>(r: Renderer<B>, t: Tomogram, config: Config, triggers: set<Key>,
                            update: (State, B) -> Result<(seq<int>, B)>): (out: Result<Renderer<B>>)
    ensures var step := Configure(r.state, t, config, triggers);
            && (!step.refresh ==> out == Ok(Renderer(Some(step.state), r.buffers, r.refreshes)))
            && (step.refresh ==> (out.Ok? <==> update(step.state, r.buffers).Ok?))
            && (out.Ok? && step.refresh ==>
                  var u := update(step.state, r.buffers).value;
                  out.value == Renderer(Some(step.state.(cache := u.0)), u.1, r.refreshes + 1))
  {
    var step := Configure(r.state, t, config, triggers);
    if step.refresh then
      var u :- update(step.state, r.buffers);
      Ok(Renderer(Some(step.state.(cache := u.0)), u.1, r.refreshes + 1))
    else
      Ok(Renderer(Some(step.state), r.buffers, r.refreshes))
  }

  /** `render` hands the state to the strategy; before the first `configure` the state
      is `null` and reading from it throws. */
  function RenderWith<B, F>(r: Renderer<B>, draw: (State, B) -> (F, B)): (out: Result<(F, Renderer<B>)>)
    ensures out.Ok? <==> r.state.Some?
    ensures out.Err? ==> out.error == TypeError
    ensures out.Ok? ==> out.value.0 == draw(r.state.value, r.buffers).0
    ensures out.Ok? ==> out.value.1 == r.(buffers := draw(r.state.value, r.buffers).1)
  {
    match r.state
    case None => Err(TypeError)
    case Some(st) =>
      var d := draw(st, r.buffers);
      Ok((d.0, r.(buffers := d.1)))
  }
}
