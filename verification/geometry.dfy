/** The solid-modelling kernel the join features delegate to. Its operations
    are not modelled: a `Kernel` is a record of arbitrary functions, and every
    statement of this project holds for all of them. */
module Geometry {

  /** The kernel API over an abstract shape type `S`.
      - `isCompound(s)`: `s.ShapeType == 'Compound'`
      - `childShapes(s)`: `s.childShapes()`, in the kernel's order
      - `volume(s)`: `s.Volume`
      - `cut(a, b)`, `fuse(a, b)`, `common(a, b)`: `a.cut(b)`, `a.fuse(b)`, `a.common(b)`
      - `multiFuse(a, bs)`: `a.multiFuse(bs)`
      - `makeCompound(ss)`: `Part.makeCompound(ss)`
      - `removeSplitter(s)`: `s.removeSplitter()` */
  datatype Kernel<!S> = Kernel(
    isCompound: S -> bool,
    childShapes: S -> seq<S>,
    volume: S -> real,
    cut: (S, S) -> S,
    fuse: (S, S) -> S,
    common: (S, S) -> S,
    multiFuse: (S, seq<S>) -> S,
    makeCompound: seq<S> -> S,
    removeSplitter: S -> S
  )
}
