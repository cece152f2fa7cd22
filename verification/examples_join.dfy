/** Worked cases on a free kernel whose operations build terms, so that a
    result shows which operations produced it and in which order. */
module JoinExamples {
  import opened Outcomes
  import opened Geometry
  import opened MaxVolume
  import opened JoinFeature

  /** A solid of a given volume, a compound of parts, or a term recording a
      kernel operation. */
  datatype Term =
    | Piece(size: real)
    | Pack(parts: seq<Term>)
    | CutOf(a: Term, b: Term)
    | FuseOf(a: Term, b: Term)
    | CommonOf(a: Term, b: Term)
    | MultiFuseOf(a: Term, rest: seq<Term>)
    | Refined(t: Term)

  function TermKernel(): Kernel<Term> {
    Kernel(
      (t: Term) => t.Pack?,
      (t: Term) => if t.Pack? then t.parts else [],
      (t: Term) => if t.Piece? then t.size else 0.0,
      (a, b) => CutOf(a, b),
      (a, b) => FuseOf(a, b),
      (a, b) => CommonOf(a, b),
      (a, rest) => MultiFuseOf(a, rest),
      parts => Pack(parts),
      t => Refined(t))
  }

  /** The recipe of every mode, written out as the term it builds. */
  lemma RecipeTerms(refine: bool)
    ensures Execute(TermKernel(), Bypass, Piece(1.0), Piece(2.0), refine) ==
              Ok(Pack([Piece(1.0), Piece(2.0)]))
    ensures Execute(TermKernel(), Cutout, Piece(1.0), Piece(2.0), false) ==
              Ok(CutOf(Piece(1.0), Piece(2.0)))
    ensures Execute(TermKernel(), Embed, Piece(1.0), Piece(2.0), true) ==
              Ok(Refined(FuseOf(CutOf(Piece(1.0), Piece(2.0)), Piece(2.0))))
    ensures Execute(TermKernel(), Connect, Piece(1.0), Piece(2.0), false) ==
              Ok(MultiFuseOf(CutOf(Piece(1.0), Piece(2.0)),
                             [CutOf(Piece(2.0), Piece(1.0)), CommonOf(Piece(2.0), Piece(1.0))]))
  {
  }

  function Pick(cs: seq<Term>): Result<Option<Term>> {
    ShapeOfMaxVol(TermKernel(), Pack(cs))
  }

  /** The scan of a one-, two- or three-child list, step by step. */
  lemma Unfold1(a: Term)
    ensures Scan(TermKernel().volume, [a]) == Step(TermKernel().volume, Start(), a)
  {
    ScanSnoc(TermKernel().volume, [], a);
    assert [] + [a] == [a];
  }

  lemma Unfold2(a: Term, b: Term)
    ensures Scan(TermKernel().volume, [a, b]) ==
              Step(TermKernel().volume, Step(TermKernel().volume, Start(), a), b)
  {
    Unfold1(a);
    ScanSnoc(TermKernel().volume, [a], b);
    assert [a] + [b] == [a, b];
  }

  lemma Unfold3(a: Term, b: Term, c: Term)
    ensures Scan(TermKernel().volume, [a, b, c]) ==
              Step(TermKernel().volume, Step(TermKernel().volume, Step(TermKernel().volume, Start(), a), b), c)
  {
    Unfold2(a, b);
    ScanSnoc(TermKernel().volume, [a, b], c);
    assert [a, b] + [c] == [a, b, c];
  }

  /** Exact and near ties raise; a clear maximum is returned. */
  lemma TieExamples()
    ensures Pick([Piece(5.0), Piece(5.0)]) == Err(EqualVolumes)
    ensures Pick([Piece(5.0), Piece(5.000000001)]) == Err(EqualVolumes)
    ensures Pick([Piece(3.0), Piece(7.0), Piece(2.0)]) == Ok(Some(Piece(7.0)))
  {
    Unfold2(Piece(5.0), Piece(5.0));
    Unfold2(Piece(5.0), Piece(5.000000001));
    Unfold3(Piece(3.0), Piece(7.0), Piece(2.0));
  }

  /** The tolerance is not transitive, so the outcome depends on the order
      of the children: the same three volumes raise in one order and not in
      the other. */
  lemma OrderMatters()
    ensures Pick([Piece(5.0), Piece(5.000000006), Piece(5.000000012)]) == Ok(Some(Piece(5.000000012)))
    ensures Pick([Piece(5.000000012), Piece(5.000000006), Piece(5.0)]) == Err(EqualVolumes)
  {
    Unfold3(Piece(5.0), Piece(5.000000006), Piece(5.000000012));
    Unfold3(Piece(5.000000012), Piece(5.000000006), Piece(5.0));
  }

  /** No piece above the tolerance: `None` for one tiny piece, an error for
      two. */
  lemma TinyPieces()
    ensures Pick([]) == Ok(None)
    ensures Pick([Piece(0.000000001)]) == Ok(None)
    ensures Pick([Piece(0.000000001), Piece(0.0)]) == Err(EqualVolumes)
  {
    Unfold1(Piece(0.000000001));
    Unfold2(Piece(0.000000001), Piece(0.0));
  }

  /** A kernel whose cut always splits into two equal halves. */
  function HalvingKernel(): Kernel<Term> {
    TermKernel().(cut := (a, b) => Pack([Piece(5.0), Piece(5.0)]))
  }

  /** The tie aborts the recompute and the previous output stays. */
  lemma TieKeepsPreviousOutput(mode: Mode)
    requires mode != Bypass
    ensures Recompute(HalvingKernel(), Feature(mode, Piece(1.0), Piece(2.0), true, Some(Piece(3.0)))) ==
              Recomputed(Feature(mode, Piece(1.0), Piece(2.0), true, Some(Piece(3.0))), Some(EqualVolumes))
  {
    TieExamples();
    assert HalvingKernel().volume == TermKernel().volume;
  }
}
