/** The join feature: its mode enumeration, the recipe `execute` runs for
    each mode, and the write of the result to the feature's output slot. */
module JoinFeature {
  import opened Outcomes
  import opened Geometry
  import opened MaxVolume

  datatype Mode = Bypass | Connect | Embed | Cutout

  /** The enumeration's entries, in the order the property declares them. */
  const ModeNames: seq<string> := ["bypass", "Connect", "Embed", "Cutout"]

  function ModeName(m: Mode): string {
    match m
    case Bypass => "bypass"
    case Connect => "Connect"
    case Embed => "Embed"
    case Cutout => "Cutout"
  }

  /** The mode an enumeration entry selects; anything else is not a mode. */
  function ParseMode(name: string): (r: Option<Mode>)
    ensures r.Some? <==> name in ModeNames
    ensures r.Some? ==> ModeName(r.value) == name
  {
    if name == "bypass" then Some(Bypass)
    else if name == "Connect" then Some(Connect)
    else if name == "Embed" then Some(Embed)
    else if name == "Cutout" then Some(Cutout)
    else None
  }

  /** Every mode has exactly one entry, and reading it back gives the mode. */
  lemma ModeNamesRoundTrip(m: Mode)
    ensures ModeName(m) in ModeNames
    ensures ParseMode(ModeName(m)) == Some(m)
    ensures forall m' :: ModeName(m') == ModeName(m) ==> m' == m
  {
  }

  /** The value of `rst` before the refine step: a shape, or `None` when
      Cutout found no piece in `Base.cut(Tool)`. */
  function Recipe<S>(k: Kernel<S>, mode: Mode, base: S, tool: S): Result<Option<S>> {
    if mode == Bypass then Ok(Some(k.makeCompound([base, tool])))
    else
      var cut1 :- ShapeOfMaxVol(k, k.cut(base, tool));
      if mode == Connect then
        var cut2 :- ShapeOfMaxVol(k, k.cut(tool, base));
        if cut1.None? then Err(NoneHasNoMethod)
        else if cut2.None? then Err(NotAShape)
        else Ok(Some(k.multiFuse(cut1.value, [cut2.value, k.common(tool, base)])))
      else if mode == Embed then
        if cut1.None? then Err(NoneHasNoMethod)
        else Ok(Some(k.fuse(cut1.value, tool)))
      else
        Ok(cut1)
  }

  /** `rst.removeSplitter()` when `Refine` is set, outside bypass mode. */
  function RefineStep<S>(k: Kernel<S>, mode: Mode, refine: bool, rst: Option<S>): Result<Option<S>> {
    if mode == Bypass || !refine then Ok(rst)
    else if rst.None? then Err(NoneHasNoMethod)
    else Ok(Some(k.removeSplitter(rst.value)))
  }

  /** `obj.Shape = rst`: only a shape can be written. */
  function Assign<S>(rst: Option<S>): Result<S> {
    if rst.None? then Err(NotAShape) else Ok(rst.value)
  }

  /** `execute`: the shape written to the output slot, or the exception. */
  function Execute<S>(k: Kernel<S>, mode: Mode, base: S, tool: S, refine: bool): (r: Result<S>)
    // bypass mode cannot fail
    ensures r.Err? ==> mode != Bypass
    // the tie error comes from exactly the disambiguations the mode performs
    ensures r == Err(EqualVolumes) <==>
              mode != Bypass &&
              (ShapeOfMaxVol(k, k.cut(base, tool)).Err? ||
               (mode == Connect && ShapeOfMaxVol(k, k.cut(tool, base)).Err?))
    // a boolean mode succeeds only when Base.cut(Tool) left one main piece
    ensures r.Ok? && mode != Bypass ==>
              ShapeOfMaxVol(k, k.cut(base, tool)).Ok? &&
              ShapeOfMaxVol(k, k.cut(base, tool)).value.Some?
  {
    var rst :- Recipe(k, mode, base, tool);
    var refined :- RefineStep(k, mode, refine, rst);
    Assign(refined)
  }

  /** A join feature: its properties and its output slot. */
  datatype Feature<S> = Feature(mode: Mode, base: S, tool: S, refine: bool, shape: Option<S>)

  /** The feature after a recompute, and the exception if there was one. */
  datatype Recomputed<S> = Recomputed(feature: Feature<S>, failure: Option<JoinError>)

  /** A recompute writes `Shape` only when `execute` completes. */
  function Recompute<S>(k: Kernel<S>, f: Feature<S>): (r: Recomputed<S>)
    // the properties are inputs only
    ensures r.feature.(shape := f.shape) == f
    // a failure leaves the previous output in place
    ensures r.failure.Some? ==> r.feature == f
    // the output is written exactly when `execute` completes, with its result
    ensures r.failure.None? <==> Execute(k, f.mode, f.base, f.tool, f.refine).Ok?
    ensures r.failure.None? ==> r.feature.shape == Some(Execute(k, f.mode, f.base, f.tool, f.refine).value)
    // the failure reported is the exception `execute` raised
    ensures r.failure.Some? ==> r.failure.value == Execute(k, f.mode, f.base, f.tool, f.refine).error
    // the failure is the tie error exactly when a disambiguation the mode performs ties
    ensures r.failure == Some(EqualVolumes) <==>
              f.mode != Bypass &&
              (ShapeOfMaxVol(k, k.cut(f.base, f.tool)).Err? ||
               (f.mode == Connect && ShapeOfMaxVol(k, k.cut(f.tool, f.base)).Err?))
  {
    match Execute(k, f.mode, f.base, f.tool, f.refine)
    case Ok(s) => Recomputed(f.(shape := Some(s)), None)
    case Err(e) => Recomputed(f, Some(e))
  }

  /** Bypass mode always succeeds with the compound of Base and Tool, and
      depends on nothing but `makeCompound`: no boolean operation, no
      disambiguation, and `removeSplitter` is never applied, whatever
      `Refine` says. */
  lemma BypassIsPlainCompound<S>(k: Kernel<S>, k': Kernel<S>, base: S, tool: S, refine: bool, refine': bool)
    requires k'.makeCompound == k.makeCompound
    ensures Execute(k, Bypass, base, tool, refine) == Ok(k.makeCompound([base, tool]))
    ensures Execute(k, Bypass, base, tool, refine) == Execute(k', Bypass, base, tool, refine')
  {
  }

  /** Outside bypass mode `removeSplitter` is the last step and is applied
      exactly when `Refine` holds: refining succeeds exactly when the
      unrefined recipe does, and then refines its result. */
  lemma RefineAppliedLast<S>(k: Kernel<S>, mode: Mode, base: S, tool: S)
    requires mode != Bypass
    ensures Execute(k, mode, base, tool, true).Ok? <==> Execute(k, mode, base, tool, false).Ok?
    ensures Execute(k, mode, base, tool, false).Ok? ==>
              Execute(k, mode, base, tool, true).value ==
              k.removeSplitter(Execute(k, mode, base, tool, false).value)
    ensures Execute(k, mode, base, tool, true) == Err(EqualVolumes) <==>
              Execute(k, mode, base, tool, false) == Err(EqualVolumes)
  {
  }

  /** Cutout yields the main piece of `Base.cut(Tool)` and succeeds exactly
      when there is one; it uses no kernel operation besides `cut`, the
      disambiguation and `removeSplitter`. */
  lemma CutoutKeepsMainPiece<S>(k: Kernel<S>, k': Kernel<S>, base: S, tool: S, c: S, refine: bool)
    requires k' == k.(fuse := k'.fuse, common := k'.common, multiFuse := k'.multiFuse,
                      makeCompound := k'.makeCompound)
    ensures Execute(k, Cutout, base, tool, false) == Ok(c) <==>
              ShapeOfMaxVol(k, k.cut(base, tool)) == Ok(Some(c))
    ensures Execute(k, Cutout, base, tool, refine) == Execute(k', Cutout, base, tool, refine)
  {
  }

  /** Embed fuses Tool into the main piece of `Base.cut(Tool)`, and succeeds
      exactly when there is one; `common`, `multiFuse` and `makeCompound`
      play no part. */
  lemma EmbedFusesToolIntoMainPiece<S>(k: Kernel<S>, k': Kernel<S>, base: S, tool: S, refine: bool)
    requires k' == k.(common := k'.common, multiFuse := k'.multiFuse, makeCompound := k'.makeCompound)
    ensures Execute(k, Embed, base, tool, false).Ok? <==>
              ShapeOfMaxVol(k, k.cut(base, tool)).Ok? && ShapeOfMaxVol(k, k.cut(base, tool)).value.Some?
    ensures Execute(k, Embed, base, tool, false).Ok? ==>
              Execute(k, Embed, base, tool, false).value ==
              k.fuse(ShapeOfMaxVol(k, k.cut(base, tool)).value.value, tool)
    ensures Execute(k, Embed, base, tool, refine) == Execute(k', Embed, base, tool, refine)
  {
  }

  /** Connect fuses, in one `multiFuse`, the main piece of `Base.cut(Tool)`
      with the main piece of `Tool.cut(Base)` and `Tool.common(Base)`, and
      succeeds exactly when both main pieces exist; `fuse` and
      `makeCompound` play no part. */
  lemma ConnectFusesThreePieces<S>(k: Kernel<S>, k': Kernel<S>, base: S, tool: S, refine: bool)
    requires k' == k.(fuse := k'.fuse, makeCompound := k'.makeCompound)
    ensures Execute(k, Connect, base, tool, false).Ok? <==>
              ShapeOfMaxVol(k, k.cut(base, tool)).Ok? && ShapeOfMaxVol(k, k.cut(base, tool)).value.Some? &&
              ShapeOfMaxVol(k, k.cut(tool, base)).Ok? && ShapeOfMaxVol(k, k.cut(tool, base)).value.Some?
    ensures Execute(k, Connect, base, tool, false).Ok? ==>
              Execute(k, Connect, base, tool, false).value ==
              k.multiFuse(ShapeOfMaxVol(k, k.cut(base, tool)).value.value,
                          [ShapeOfMaxVol(k, k.cut(tool, base)).value.value, k.common(tool, base)])
    ensures Execute(k, Connect, base, tool, refine) == Execute(k', Connect, base, tool, refine)
  {
  }
}
