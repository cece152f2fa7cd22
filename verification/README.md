# JoinFeatures: largest-piece selection and the join recipes

A Dafny model of the logic in FreeCAD's `JoinFeatures` module: the
`shapeOfMaxVol` heuristic that picks the largest-volume piece of a compound,
and the recipe `_PartJoinFeature.execute` runs for each of the four modes
`bypass`, `Connect`, `Embed` and `Cutout`.

The geometric kernel is not modelled. A `Geometry.Kernel<S>` is a record of
arbitrary functions over an abstract shape type `S`. It covers compound
detection, the children of a compound, volume, `cut`, `fuse`, `common`,
`multiFuse`, `makeCompound` and `removeSplitter`. Every property below holds
for every such kernel.

Layout:
- `outcomes.dfy` (`Outcomes`): `Option`, and `Result`, which is either a value
  or the exception the Python code would raise.
- `geometry.dfy` (`Geometry`): the kernel record.
- `max_volume.dfy` (`MaxVolume`): `shapeOfMaxVol`, first as a fold `Scan` over
  the children, then as the Python loop of `shapeOfMaxVol`. Lemmas characterise the fold without
  the fold.
- `join_feature.dfy` (`JoinFeature`): the mode enumeration, `execute` as the
  pure function `Execute` of (kernel, mode, Base, Tool, Refine), and
  `Recompute`, which writes the output slot.
- `examples_join.dfy` (`JoinExamples`): a free kernel whose operations build
  terms, and worked cases.

Behaviour of the code worth knowing:
- A compound whose children all have volume at most `1e-8` gives `None` only if
  at most one child is within `1e-8` of zero. The tie counter starts against a
  maximum of 0, so two tiny children raise `ValueError`
  (`MaxVolume.NoneIffNothingLarge`, `JoinExamples.TinyPieces`).
- The tolerance is not transitive, so the outcome depends on the order of the
  children (`JoinExamples.OrderMatters`).
- An empty compound gives `None`, and so `cut1` or `cut2` may be `None`. When
  `cut1` is `None`, the code calls a method on `None` in Embed, Connect and
  refined Cutout, and unrefined Cutout tries to assign `None` to `obj.Shape`,
  which fails. When Connect's `cut2` is `None` but `cut1` is not, the code
  passes `None` to `multiFuse`; when both are `None`, `cut1.multiFuse` fails
  first. The model
  turns each of these into an error. Calling a method on `None` is
  `NoneHasNoMethod`, a Python `AttributeError`. Handing `None` where a shape is
  required is `NotAShape`: the host or kernel rejects it.

## Model

| member | source | states |
|---|---|---|
| MaxVolume.Step | JoinFeatures.py:44-50 | One loop iteration. The maximum stays put or grows by more than `1e-8`. A child more than `1e-8` above the maximum becomes the new maximum and best piece, with tie count 1. Only a child setting a new maximum replaces `shMax`, and it resets the tie count to 1. A child within `1e-8` of the maximum only adds a tie. Any other child changes nothing. |
| MaxVolume.ShapeOfMaxVol | JoinFeatures.py:38-55 | A non-compound is returned unchanged. An empty compound gives `None`. A piece returned from a compound is one of its children and has volume above `1e-8`. |
| MaxVolume.ShapeOfMaxVolLoop | JoinFeatures.py:38-55 | The Python loop of `shapeOfMaxVol`, over `maxVol`, `shMax` and `cntEq`, computes exactly what the fold `ShapeOfMaxVol` does. |
| MaxVolume.ScanCharacterized | JoinFeatures.py:40-50 | Either no child set a maximum, or child `j` set the final one: it exceeded the scan's maximum over the children before it by more than `1e-8`. No maximum: the maximum is 0, nothing is chosen, every volume is at most `1e-8`, and the ties are the children within `1e-8` of 0. Child `j`: earlier children are strictly smaller, later ones are at most `1e-8` larger, and the ties are `j` plus the later children within `1e-8` of it. |
| MaxVolume.BestIsChild | JoinFeatures.py:42-47 | A best piece is one of the children and its volume exceeds `1e-8`. |
| MaxVolume.ChosenChildIsStrictMaximum | JoinFeatures.py:40-53 | A piece returned from a compound is child `j` and its volume is above `1e-8`. Every other child is strictly smaller. Every later child is more than `1e-8` smaller. |
| MaxVolume.MaximumBoundsEveryChild | JoinFeatures.py:45-53 | When a compound does not raise, every child is at most `1e-8` above the scan's maximum. A returned piece has exactly that maximum as its volume. |
| MaxVolume.NoneIffNothingLarge | JoinFeatures.py:40-53 | A compound gives `None` if and only if no child exceeds `1e-8` and at most one child is within `1e-8` of 0. |
| MaxVolume.SeparatedMaximumIsChosen | JoinFeatures.py:43-53 | A child above `1e-8` that beats every other child by more than `1e-8` is returned, wherever it stands in the order. |
| MaxVolume.ExactTopTieRaises | JoinFeatures.py:45-52 | Two children exactly tied for the largest volume (at least `-1e-8`) raise `ValueError`, in any order. |
| MaxVolume.MaximumMonotone | JoinFeatures.py:45-48 | The running maximum never decreases along the children. |
| JoinFeature.ParseMode | JoinFeatures.py:70-71 | A name selects a mode exactly when it is one of the four enumeration entries, and it selects the mode with that name. |
| JoinFeature.ModeNamesRoundTrip | JoinFeatures.py:70-71 | Every mode has an enumeration entry, reading it back gives the mode, and no two modes share a name. |
| JoinFeature.Execute | JoinFeatures.py:79-96 | Bypass never fails. The tie error occurs exactly when `shapeOfMaxVol(Base.cut(Tool))` raises, or, in Connect, when `shapeOfMaxVol(Tool.cut(Base))` raises. A boolean mode succeeds only if `Base.cut(Tool)` left a main piece. |
| JoinFeature.Recompute | JoinFeatures.py:79-96 | A recompute changes only the output slot. The output is written exactly when `execute` completes, and it is written with the shape `execute` computed. Any failure, the tie error or a `None` error, leaves the previous output in place and reports the exception `execute` raised. The failure is the tie error exactly when a disambiguation the mode performs hits a tie. |
| JoinFeature.BypassIsPlainCompound | JoinFeatures.py:80-96 | Bypass gives `makeCompound([Base, Tool])` and depends only on `makeCompound`. It performs no boolean operation and no disambiguation, and never applies `removeSplitter`, whatever `Refine` is. |
| JoinFeature.RefineAppliedLast | JoinFeatures.py:83-95 | Outside bypass, `Refine` decides whether `removeSplitter` is applied, as the last step. The refined run succeeds exactly when the unrefined one does and returns its result refined. Both runs raise the tie error on the same inputs. |
| JoinFeature.CutoutKeepsMainPiece | JoinFeatures.py:83-95 | Unrefined Cutout returns `c` if and only if `c` is the main piece of `Base.cut(Tool)`. Its result does not depend on `fuse`, `common`, `multiFuse` or `makeCompound`. |
| JoinFeature.EmbedFusesToolIntoMainPiece | JoinFeatures.py:83-91 | Unrefined Embed succeeds if and only if `Base.cut(Tool)` has a main piece, and it returns that piece fused with Tool. Its result does not depend on `common`, `multiFuse` or `makeCompound`. |
| JoinFeature.ConnectFusesThreePieces | JoinFeatures.py:83-89 | Unrefined Connect succeeds if and only if both `Base.cut(Tool)` and `Tool.cut(Base)` have a main piece. It returns one `multiFuse` of the first main piece with the second and `Tool.common(Base)`. Its result does not depend on `fuse` or `makeCompound`. |
| JoinExamples.RecipeTerms | JoinFeatures.py:79-96 | Under a free kernel, each mode's result is the term naming the operations it composes, in order and with argument order. |
| JoinExamples.TieExamples | JoinFeatures.py:38-55 | Volumes `[5, 5]` and `[5, 5+1e-9]` raise. `[3, 7, 2]` gives the piece of volume 7. |
| JoinExamples.OrderMatters | JoinFeatures.py:45-52 | `[5, 5+0.6e-8, 5+1.2e-8]` gives the last piece. The same volumes in reverse order raise. |
| JoinExamples.TinyPieces | JoinFeatures.py:40-53 | An empty compound gives `None`, and so does one tiny piece. Two tiny pieces raise. |
| JoinExamples.TieKeepsPreviousOutput | JoinFeatures.py:83-96 | When the cut splits into two equal halves, every non-bypass mode aborts with the tie error and the previous output stays. |

## Left out

- The geometric kernel (`cut`, `fuse`, `common`, `multiFuse`, `makeCompound`, `removeSplitter`, `Volume`, `childShapes`, `ShapeType`) is a foreign library. The model leaves it as arbitrary functions.
- Volumes are exact reals. The model does not reproduce IEEE-754 rounding of `maxVol + 1e-8` in doubles. The model and the Python code can disagree when a volume `v` lies between the exact `maxVol + 1e-8` and its rounded value; only that step disagrees, so `[1e8, 1e8 + 2^-26, 1e8 + 3·2^-26]` gives the last piece in both. For `maxVol` in [2^26, 2^27), about 6.7e7 to 1.3e8, the rounded sum is `maxVol + 2^-26`, about `maxVol + 1.49e-8`. That gap is half the tolerance wide. A child one ulp above the running maximum is then neither a new maximum nor a tie, so for volumes `[1e8, 1e8 + 2^-26]` the Python code returns the smaller first piece without error, while the model returns the second.
- MaxVolume.ChosenChildIsStrictMaximum: holds for exact reals only. Inside the rounding gap above, the Python code can return a piece smaller than another child.
- MaxVolume.SeparatedMaximumIsChosen: holds for exact reals only. With volumes `[1e8, 1e8 + 2^-26]`, the second piece is above `1e-8` and beats the first by about `1.49e-8`, yet the Python code returns the first piece, because `1e8 + 1e-8` rounds to `1e8 + 2^-26`.
- MaxVolume.ExactTopTieRaises: holds for exact reals only. With volumes `[1e8, 1e8 + 2^-26, 1e8 + 2^-26]`, the Python code counts neither top piece as a new maximum or a tie against `1e8`, so `cntEq` stays 1 and it returns the first piece without raising.
- MaxVolume.MaximumBoundsEveryChild: holds for exact reals only. Inside the rounding gap above, a child can exceed the Python code's maximum by more than `1e-8`.
- Kernel operations are total functions here. An exception raised by the kernel itself, such as a failed `cut`, is not modelled.
- The model does not cover `getParamRefine` (JoinFeatures.py:35-36). It reads a global preference, and `Refine` is a plain input here.
- The model does not cover `makePartJoinFeature` or the property declarations in `_PartJoinFeature.__init__` (JoinFeatures.py:57-76). They are document persistence plumbing. Mode, Base, Tool and Refine are plain inputs, and Base and Tool stand for the shapes of the linked objects. Unset links are not modelled: an unset `Base` or `Tool` makes `obj.Base.Shape` or `obj.Tool.Shape` raise `AttributeError` in every mode, bypass included, so "bypass never fails" assumes both links are set.
- The model does not cover the view provider, `CreateJoinFeature` or the GUI command classes (JoinFeatures.py:100-233). They are Qt dialogs, selection handling, transactions and command registration.
- A mode string outside the enumeration cannot reach `execute`, because the host's enumeration property rejects it. `Mode` therefore has exactly the four values.
- Concurrency does not arise: a recompute is a single synchronous call.
