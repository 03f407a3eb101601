/**
 * The feature-reassembly step of the WGAN evaluation script
 * (`reassemble` in IDSGAN/test_wgan.py). The generator rewrites only the
 * non-functional features of each malicious record; reassembly splices the
 * generated columns back between the untouched functional columns in the
 * NSL-KDD column order (intrinsic, content, time-based, host-based,
 * categorical), does the same for the normal records, and stacks the
 * adversarial rows above the normal rows.
 */
module Reassembly {
  import opened Wrappers
  import opened NdArray

  /** The attack categories `reassemble` knows how to lay out. */
  datatype Attack = DoS | Probe

  function ParseAttack(attackType: string): Option<Attack>
  {
    if attackType == "DoS" then Some(DoS)
    else if attackType == "Probe" then Some(Probe)
    else None
  }

  /** Which input array a column comes from. */
  datatype Part = Functional | NonFunctional

  /** One column block: `part[:, start:stop]`. */
  datatype Block = Block(part: Part, start: nat, stop: Stop)

  /** The column layout for each attack, in the order the blocks are joined:
      intrinsic, content, time-based, host-based, categorical. For DoS the
      host-based block comes from the generated features; for Probe it is a
      functional block, and generated columns from 13 on are not used. */
  function Plan(attack: Attack): (plan: seq<Block>)
    ensures |plan| == 5
    ensures plan[0].part == Functional && plan[1].part == NonFunctional
  {
    match attack
    case DoS =>
      [Block(Functional, 0, At(6)), Block(NonFunctional, 0, At(13)), Block(Functional, 6, At(15)),
       Block(NonFunctional, 13, ToEnd), Block(Functional, 15, ToEnd)]
    case Probe =>
      [Block(Functional, 0, At(6)), Block(NonFunctional, 0, At(13)), Block(Functional, 6, At(15)),
       Block(Functional, 15, At(25)), Block(Functional, 25, ToEnd)]
  }

  function Pick<X>(part: Part, functional: X, nonFunctional: X): X
  {
    match part
    case Functional => functional
    case NonFunctional => nonFunctional
  }

  /** Width of the spliced rows when the functional rows have `wf` columns
      and the non-functional rows `wn`. */
  function PlanWidth(plan: seq<Block>, wf: nat, wn: nat): nat
  {
    if plan == [] then 0
    else SliceLength(Pick(plan[0].part, wf, wn), plan[0].start, plan[0].stop) + PlanWidth(plan[1..], wf, wn)
  }

  function LayoutWidth(attack: Attack, wf: nat, wn: nat): nat
  {
    PlanWidth(Plan(attack), wf, wn)
  }

  /** The column blocks of one array pair, as numpy slices them. */
  function BlockArrays<T>(plan: seq<Block>, ff: Array2<T>, nff: Array2<T>): (r: seq<Array2<T>>)
    requires Rectangular(ff) && Rectangular(nff)
    ensures |r| == |plan|
    ensures forall k :: 0 <= k < |r| ==>
      Rectangular(r[k]) && Height(r[k]) == Height(Pick(plan[k].part, ff, nff))
    ensures TotalWidth(r) == PlanWidth(plan, ff.width, nff.width)
  {
    if plan == [] then []
    else
      var b := plan[0];
      var rest := BlockArrays(plan[1..], ff, nff);
      var r := [ColumnSlice(Pick(b.part, ff, nff), b.start, b.stop)] + rest;
      assert r[1..] == rest;
      r
  }

  /** One spliced row, built from a functional row and a non-functional row. */
  function SpliceParts<T>(plan: seq<Block>, ffRow: seq<T>, nffRow: seq<T>): (r: seq<T>)
    ensures |r| == PlanWidth(plan, |ffRow|, |nffRow|)
  {
    if plan == [] then []
    else
      assert |Pick(plan[0].part, ffRow, nffRow)| == Pick(plan[0].part, |ffRow|, |nffRow|);
      Slice(Pick(plan[0].part, ffRow, nffRow), plan[0].start, plan[0].stop)
        + SpliceParts(plan[1..], ffRow, nffRow)
  }

  /** The reassembled row for an attack: the row-level reading of the layout. */
  function SpliceRow<T>(attack: Attack, ffRow: seq<T>, nffRow: seq<T>): seq<T>
  {
    SpliceParts(Plan(attack), ffRow, nffRow)
  }

  /** The spliced rows of one array pair. */
  function SplicedRows<T>(attack: Attack, ff: Array2<T>, nff: Array2<T>): (r: seq<seq<T>>)
    requires Height(ff) == Height(nff)
    ensures |r| == Height(ff)
  {
    seq(Height(ff), i requires 0 <= i < Height(ff) => SpliceRow(attack, ff.rows[i], nff.rows[i]))
  }

  /** `np.concatenate((intrinsic, content, time_based, host_based, categorical), axis=1)`
      for one pair of functional / non-functional arrays. It succeeds exactly
      when the two arrays have the same number of rows; row i of the result
      then depends only on row i of each input, and the width is the layout's. */
  function Traffic<T>(attack: Attack, ff: Array2<T>, nff: Array2<T>): (r: Result<Array2<T>, ValueError>)
    requires Rectangular(ff) && Rectangular(nff)
    ensures r.Ok? <==> Height(ff) == Height(nff)
    ensures r.Ok? ==>
      && Rectangular(r.value)
      && Height(r.value) == Height(ff)
      && r.value.width == LayoutWidth(attack, ff.width, nff.width)
      && r.value.rows == SplicedRows(attack, ff, nff)
  {
    SplicedBlocks(attack, ff, nff);
    ConcatColumns(BlockArrays(Plan(attack), ff, nff))
  }

  /** How `reassemble` can fail. */
  datatype ReassembleError =
    | TrafficUnbound(attackType: string)   // neither branch ran: UnboundLocalError
    | Numpy(error: ValueError)             // np.concatenate rejected the shapes

  /** `reassemble(type, adversarial_nff, adversarial_ff, normal_nff, normal_ff)`,
      with the parameters in the Python function's order. It fails with an
      unbound result for an unknown attack type, fails in np.concatenate when
      the functional and non-functional arrays differ in row count or the two
      spliced blocks differ in width, and otherwise yields every adversarial
      row spliced, in order, followed by every normal row spliced the same way. */
  function Reassemble<T>(attackType: string, adversarialNff: Array2<T>, adversarialFf: Array2<T>,
                         normalNff: Array2<T>, normalFf: Array2<T>): (r: Result<Array2<T>, ReassembleError>)
    requires Rectangular(adversarialNff) && Rectangular(adversarialFf)
    requires Rectangular(normalNff) && Rectangular(normalFf)
    ensures r == Err(TrafficUnbound(attackType)) <==> attackType != "DoS" && attackType != "Probe"
    ensures r.Ok? <==>
      && ParseAttack(attackType).Some?
      && Height(adversarialFf) == Height(adversarialNff)
      && Height(normalFf) == Height(normalNff)
      && LayoutWidth(ParseAttack(attackType).value, adversarialFf.width, adversarialNff.width)
         == LayoutWidth(ParseAttack(attackType).value, normalFf.width, normalNff.width)
    ensures r.Ok? ==>
      var attack, out := ParseAttack(attackType).value, r.value;
      && Rectangular(out)
      && out.width == LayoutWidth(attack, adversarialFf.width, adversarialNff.width)
      && Height(out) == Height(adversarialFf) + Height(normalFf)
      && out.rows == SplicedRows(attack, adversarialFf, adversarialNff) + SplicedRows(attack, normalFf, normalNff)
  {
    match ParseAttack(attackType)
    case None => Err(TrafficUnbound(attackType))
    case Some(attack) =>
      match Traffic(attack, adversarialFf, adversarialNff)
      case Err(e) => Err(Numpy(e))
      case Ok(adversarialTraffic) =>
        match Traffic(attack, normalFf, normalNff)
        case Err(e) => Err(Numpy(e))
        case Ok(normalTraffic) =>
          ConcatTwoRows(adversarialTraffic, normalTraffic);
          match ConcatRows([adversarialTraffic, normalTraffic])
          case Err(e) => Err(Numpy(e))
          case Ok(output) => Ok(output)
  }

  // ---------------------------------------------------------------------------
  // From arrays to rows

  /** Row i of the joined blocks is the spliced row i. */
  lemma {:induction false} JoinedBlockRow<T>(plan: seq<Block>, ff: Array2<T>, nff: Array2<T>, i: nat)
    requires Rectangular(ff) && Rectangular(nff)
    requires i < Height(ff) && i < Height(nff)
    ensures forall k :: 0 <= k < |plan| ==> i < Height(BlockArrays(plan, ff, nff)[k])
    ensures JoinedRow(BlockArrays(plan, ff, nff), i) == SpliceParts(plan, ff.rows[i], nff.rows[i])
  {
    var blocks := BlockArrays(plan, ff, nff);
    assert forall k :: 0 <= k < |plan| ==> i < Height(blocks[k]) by {
      forall k | 0 <= k < |plan| ensures i < Height(blocks[k]) {
        assert Height(blocks[k]) == Height(Pick(plan[k].part, ff, nff));
        assert plan[k].part == Functional || plan[k].part == NonFunctional;
      }
    }
    if plan != [] {
      JoinedBlockRow(plan[1..], ff, nff, i);
      assert blocks[1..] == BlockArrays(plan[1..], ff, nff);
      assert blocks[0].rows[i] == Slice(Pick(plan[0].part, ff, nff).rows[i], plan[0].start, plan[0].stop);
      assert Pick(plan[0].part, ff, nff).rows[i] == Pick(plan[0].part, ff.rows[i], nff.rows[i]);
    }
  }

  /** The joined blocks of one array pair, row by row. */
  lemma SplicedBlocks<T>(attack: Attack, ff: Array2<T>, nff: Array2<T>)
    requires Rectangular(ff) && Rectangular(nff)
    ensures ConcatColumns(BlockArrays(Plan(attack), ff, nff)).Ok? <==> Height(ff) == Height(nff)
    ensures ConcatColumns(BlockArrays(Plan(attack), ff, nff)).Ok? ==>
      var t := ConcatColumns(BlockArrays(Plan(attack), ff, nff)).value;
      && Rectangular(t)
      && Height(t) == Height(ff)
      && t.width == LayoutWidth(attack, ff.width, nff.width)
      && t.rows == SplicedRows(attack, ff, nff)
  {
    var plan := Plan(attack);
    var blocks := BlockArrays(plan, ff, nff);
    assert Height(blocks[0]) == Height(ff) && Height(blocks[1]) == Height(nff);
    if Height(ff) == Height(nff) {
      assert SameHeights(blocks) by {
        forall k | 0 <= k < |blocks| ensures Height(blocks[k]) == Height(blocks[0]) {
          assert Height(blocks[k]) == Height(Pick(plan[k].part, ff, nff));
        }
      }
      var t := ConcatColumns(blocks).value;
      forall i | 0 <= i < Height(ff) ensures t.rows[i] == SplicedRows(attack, ff, nff)[i] {
        JoinedBlockRow(plan, ff, nff, i);
      }
    }
  }

  // ---------------------------------------------------------------------------
  // The two layouts, block by block

  /** Splicing a plan that starts with block b. */
  lemma SpliceCons<T>(b: Block, rest: seq<Block>, ffRow: seq<T>, nffRow: seq<T>)
    ensures SpliceParts([b] + rest, ffRow, nffRow)
      == Slice(Pick(b.part, ffRow, nffRow), b.start, b.stop) + SpliceParts(rest, ffRow, nffRow)
  {
    assert ([b] + rest)[1..] == rest;
  }

  /** The DoS row written out: ff[:6], nff[:13], ff[6:15], nff[13:], ff[15:]. */
  lemma DoSRow<T>(ff: seq<T>, nff: seq<T>)
    ensures SpliceRow(DoS, ff, nff)
      == Slice(ff, 0, At(6)) + Slice(nff, 0, At(13)) + Slice(ff, 6, At(15))
         + Slice(nff, 13, ToEnd) + Slice(ff, 15, ToEnd)
  {
    var b0, b1, b2, b3, b4 :=
      Block(Functional, 0, At(6)), Block(NonFunctional, 0, At(13)), Block(Functional, 6, At(15)),
      Block(NonFunctional, 13, ToEnd), Block(Functional, 15, ToEnd);
    assert Plan(DoS) == [b0] + ([b1] + ([b2] + ([b3] + ([b4] + []))));
    SpliceCons(b4, [], ff, nff);
    SpliceCons(b3, [b4] + [], ff, nff);
    SpliceCons(b2, [b3] + ([b4] + []), ff, nff);
    SpliceCons(b1, [b2] + ([b3] + ([b4] + [])), ff, nff);
    SpliceCons(b0, [b1] + ([b2] + ([b3] + ([b4] + []))), ff, nff);
  }

  /** The Probe row written out: ff[:6], nff[:13], ff[6:15], ff[15:25], ff[25:]. */
  lemma ProbeRow<T>(ff: seq<T>, nff: seq<T>)
    ensures SpliceRow(Probe, ff, nff)
      == Slice(ff, 0, At(6)) + Slice(nff, 0, At(13)) + Slice(ff, 6, At(15))
         + Slice(ff, 15, At(25)) + Slice(ff, 25, ToEnd)
  {
    var b0, b1, b2, b3, b4 :=
      Block(Functional, 0, At(6)), Block(NonFunctional, 0, At(13)), Block(Functional, 6, At(15)),
      Block(Functional, 15, At(25)), Block(Functional, 25, ToEnd);
    assert Plan(Probe) == [b0] + ([b1] + ([b2] + ([b3] + ([b4] + []))));
    SpliceCons(b4, [], ff, nff);
    SpliceCons(b3, [b4] + [], ff, nff);
    SpliceCons(b2, [b3] + ([b4] + []), ff, nff);
    SpliceCons(b1, [b2] + ([b3] + ([b4] + [])), ff, nff);
    SpliceCons(b0, [b1] + ([b2] + ([b3] + ([b4] + []))), ff, nff);
  }

  /** A DoS row keeps every input column: its width is the sum of both widths,
      whatever those widths are. A Probe row keeps every functional column and
      at most 13 generated ones. */
  lemma LayoutWidths(wf: nat, wn: nat)
    ensures LayoutWidth(DoS, wf, wn) == wf + wn
    ensures LayoutWidth(Probe, wf, wn) == wf + Clip(13, wn)
  {
    var f: seq<int> := seq(wf, j => 0);
    var n: seq<int> := seq(wn, j => 0);
    DoSRow(f, n);
    ProbeRow(f, n);
  }

  /** A column of the input pair: `ff[index]` or `nff[index]`. */
  datatype Column = Column(part: Part, index: nat)

  predicate InRange(c: Column, wf: nat, wn: nat)
  {
    c.index < Pick(c.part, wf, wn)
  }

  function CellAt<T>(ff: seq<T>, nff: seq<T>, c: Column): T
    requires InRange(c, |ff|, |nff|)
  {
    match c.part
    case Functional => ff[c.index]
    case NonFunctional => nff[c.index]
  }

  /** Where output column i of a DoS row comes from. With the full NSL-KDD
      widths the boundaries are 6, 19, 28 and 15 + wn; narrower inputs
      shrink the blocks exactly as Python's clipped slices do. */
  function DoSSource(wf: nat, wn: nat, i: nat): Column
  {
    var a, b, c := Clip(6, wf), Clip(13, wn), Clip(15, wf);
    if i < a then Column(Functional, i)
    else if i < a + b then Column(NonFunctional, i - a)
    else if i < b + c then Column(Functional, i - b)
    else if i < c + wn then Column(NonFunctional, i - c)
    else Column(Functional, i - wn)
  }

  /** Where input column c lands in a DoS row. */
  function DoSDestination(wf: nat, wn: nat, c: Column): nat
  {
    var a, b, cc := Clip(6, wf), Clip(13, wn), Clip(15, wf);
    match c.part
    case Functional =>
      if c.index < a then c.index else if c.index < cc then c.index + b else c.index + wn
    case NonFunctional =>
      if c.index < b then c.index + a else c.index + cc
  }

  /** DoSSource and DoSDestination are inverse: the DoS layout is a
      bijection between the wf + wn output columns and the input columns. */
  lemma DoSColumnsBijective(wf: nat, wn: nat)
    ensures forall i :: 0 <= i < wf + wn ==>
      InRange(DoSSource(wf, wn, i), wf, wn) && DoSDestination(wf, wn, DoSSource(wf, wn, i)) == i
    ensures forall c :: InRange(c, wf, wn) ==>
      DoSDestination(wf, wn, c) < wf + wn && DoSSource(wf, wn, DoSDestination(wf, wn, c)) == c
  {
  }

  /** Output column i of a DoS row holds the input cell DoSSource names. */
  lemma DoSCell<T>(ff: seq<T>, nff: seq<T>, i: nat)
    requires i < |ff| + |nff|
    ensures i < |SpliceRow(DoS, ff, nff)|
    ensures InRange(DoSSource(|ff|, |nff|, i), |ff|, |nff|)
    ensures SpliceRow(DoS, ff, nff)[i] == CellAt(ff, nff, DoSSource(|ff|, |nff|, i))
  {
    var wf, wn := |ff|, |nff|;
    var out := SpliceRow(DoS, ff, nff);
    DoSRow(ff, nff);
    var a, b, c := Clip(6, wf), Clip(13, wn), Clip(15, wf);
    var s0, s1, s2, s3, s4 :=
      Slice(ff, 0, At(6)), Slice(nff, 0, At(13)), Slice(ff, 6, At(15)), Slice(nff, 13, ToEnd), Slice(ff, 15, ToEnd);
    assert |s0| == a && |s1| == b && |s2| == c - a && |s3| == wn - b && |s4| == wf - c;
    if i < a {
      SliceCells(ff, 0, At(6));
      assert out[i] == s0[i];
    } else if i < a + b {
      SliceCells(nff, 0, At(13));
      assert out[i] == s1[i - a];
    } else if i < b + c {
      SliceCells(ff, 6, At(15));
      assert out[i] == s2[i - a - b];
    } else if i < c + wn {
      SliceCells(nff, 13, ToEnd);
      assert out[i] == s3[i - b - c];
    } else {
      SliceCells(ff, 15, ToEnd);
      assert out[i] == s4[i - c - wn];
    }
  }

  /** Every cell of a DoS row is the input cell DoSSource names, and every
      input cell appears in the row, at DoSDestination. */
  lemma DoSPlacement<T>(ff: seq<T>, nff: seq<T>)
    ensures |SpliceRow(DoS, ff, nff)| == |ff| + |nff|
    ensures forall i :: 0 <= i < |ff| + |nff| ==>
      InRange(DoSSource(|ff|, |nff|, i), |ff|, |nff|)
      && SpliceRow(DoS, ff, nff)[i] == CellAt(ff, nff, DoSSource(|ff|, |nff|, i))
    ensures forall c :: InRange(c, |ff|, |nff|) ==>
      DoSDestination(|ff|, |nff|, c) < |ff| + |nff|
      && SpliceRow(DoS, ff, nff)[DoSDestination(|ff|, |nff|, c)] == CellAt(ff, nff, c)
  {
    LayoutWidths(|ff|, |nff|);
    forall i | 0 <= i < |ff| + |nff|
      ensures InRange(DoSSource(|ff|, |nff|, i), |ff|, |nff|)
      ensures SpliceRow(DoS, ff, nff)[i] == CellAt(ff, nff, DoSSource(|ff|, |nff|, i))
    {
      DoSCell(ff, nff, i);
    }
    forall c | InRange(c, |ff|, |nff|)
      ensures DoSDestination(|ff|, |nff|, c) < |ff| + |nff|
      ensures SpliceRow(DoS, ff, nff)[DoSDestination(|ff|, |nff|, c)] == CellAt(ff, nff, c)
    {
      DoSColumnsBijective(|ff|, |nff|);
      DoSCell(ff, nff, DoSDestination(|ff|, |nff|, c));
    }
  }

  /** A DoS row is a permutation of the functional and non-functional cells
      together: nothing is dropped and nothing is duplicated. */
  lemma DoSKeepsEveryCell<T>(ff: seq<T>, nff: seq<T>)
    ensures multiset(SpliceRow(DoS, ff, nff)) == multiset(ff) + multiset(nff)
  {
    DoSRow(ff, nff);
    SliceSplit(ff, 0, 6, At(15));
    SliceSplit(ff, 0, 15, ToEnd);
    SliceSplit(nff, 0, 13, ToEnd);
    assert Slice(ff, 0, ToEnd) == ff;
    assert Slice(nff, 0, ToEnd) == nff;
  }

  /** In a Probe row the three trailing functional blocks ff[6:15], ff[15:25]
      and ff[25:] together are ff[6:]: the row is ff[:6], nff[:13], ff[6:]. */
  lemma ProbeCollapses<T>(ff: seq<T>, nff: seq<T>)
    ensures SpliceRow(Probe, ff, nff) == Slice(ff, 0, At(6)) + Slice(nff, 0, At(13)) + Slice(ff, 6, ToEnd)
    ensures |SpliceRow(Probe, ff, nff)| == |ff| + Clip(13, |nff|)
  {
    ProbeRow(ff, nff);
    SliceSplit(ff, 6, 15, At(25));
    SliceSplit(ff, 6, 25, ToEnd);
    LayoutWidths(|ff|, |nff|);
  }

  /** A Probe row does not depend on the generated columns from 13 on. */
  lemma ProbeIgnoresGeneratedTail<T>(ff: seq<T>, nff: seq<T>, nff': seq<T>)
    requires Slice(nff, 0, At(13)) == Slice(nff', 0, At(13))
    ensures SpliceRow(Probe, ff, nff) == SpliceRow(Probe, ff, nff')
  {
    ProbeCollapses(ff, nff);
    ProbeCollapses(ff, nff');
  }

  /** Where output column i of a Probe row comes from. */
  function ProbeSource(wf: nat, wn: nat, i: nat): Column
  {
    var a, b := Clip(6, wf), Clip(13, wn);
    if i < a then Column(Functional, i)
    else if i < a + b then Column(NonFunctional, i - a)
    else Column(Functional, i - b)
  }

  /** Where input column c lands in a Probe row, if it is kept at all. */
  function ProbeDestination(wf: nat, wn: nat, c: Column): Option<nat>
  {
    var a, b := Clip(6, wf), Clip(13, wn);
    match c.part
    case Functional => Some(if c.index < a then c.index else c.index + b)
    case NonFunctional => if c.index < b then Some(c.index + a) else None
  }

  /** Output column i of a Probe row holds the input cell ProbeSource names. */
  lemma ProbeCell<T>(ff: seq<T>, nff: seq<T>, i: nat)
    requires i < |SpliceRow(Probe, ff, nff)|
    ensures InRange(ProbeSource(|ff|, |nff|, i), |ff|, |nff|)
    ensures SpliceRow(Probe, ff, nff)[i] == CellAt(ff, nff, ProbeSource(|ff|, |nff|, i))
  {
    var wf, wn := |ff|, |nff|;
    var out := SpliceRow(Probe, ff, nff);
    ProbeCollapses(ff, nff);
    var a, b := Clip(6, wf), Clip(13, wn);
    var s0, s1, s2 := Slice(ff, 0, At(6)), Slice(nff, 0, At(13)), Slice(ff, 6, ToEnd);
    assert |s0| == a && |s1| == b && |s2| == wf - a;
    if i < a {
      SliceCells(ff, 0, At(6));
      assert out[i] == s0[i];
    } else if i < a + b {
      SliceCells(nff, 0, At(13));
      assert out[i] == s1[i - a];
    } else {
      SliceCells(ff, 6, ToEnd);
      assert out[i] == s2[i - a - b];
    }
  }

  /** Every cell of a Probe row is the input cell ProbeSource names; every
      functional cell and each of the first 13 generated cells appears in
      the row at ProbeDestination, and no other generated cell does. */
  lemma ProbePlacement<T>(ff: seq<T>, nff: seq<T>)
    ensures forall i :: 0 <= i < |SpliceRow(Probe, ff, nff)| ==>
      InRange(ProbeSource(|ff|, |nff|, i), |ff|, |nff|)
      && SpliceRow(Probe, ff, nff)[i] == CellAt(ff, nff, ProbeSource(|ff|, |nff|, i))
    ensures forall c :: InRange(c, |ff|, |nff|) ==>
      (ProbeDestination(|ff|, |nff|, c).Some? <==> c.part == Functional || c.index < 13)
    ensures forall c :: InRange(c, |ff|, |nff|) && ProbeDestination(|ff|, |nff|, c).Some? ==>
      var i := ProbeDestination(|ff|, |nff|, c).value;
      i < |SpliceRow(Probe, ff, nff)| && ProbeSource(|ff|, |nff|, i) == c
      && SpliceRow(Probe, ff, nff)[i] == CellAt(ff, nff, c)
  {
    ProbeCollapses(ff, nff);
    forall i | 0 <= i < |SpliceRow(Probe, ff, nff)|
      ensures InRange(ProbeSource(|ff|, |nff|, i), |ff|, |nff|)
      ensures SpliceRow(Probe, ff, nff)[i] == CellAt(ff, nff, ProbeSource(|ff|, |nff|, i))
    {
      ProbeCell(ff, nff, i);
    }
    forall c | InRange(c, |ff|, |nff|) && ProbeDestination(|ff|, |nff|, c).Some?
      ensures ProbeDestination(|ff|, |nff|, c).value < |SpliceRow(Probe, ff, nff)|
      ensures ProbeSource(|ff|, |nff|, ProbeDestination(|ff|, |nff|, c).value) == c
      ensures SpliceRow(Probe, ff, nff)[ProbeDestination(|ff|, |nff|, c).value] == CellAt(ff, nff, c)
    {
      ProbeCell(ff, nff, ProbeDestination(|ff|, |nff|, c).value);
    }
  }

  // ---------------------------------------------------------------------------
  // Stacking and labels

  /** When the adversarial and normal arrays come from the same feature
      split (equal widths), the two spliced blocks have equal widths and
      stacking cannot fail: a known attack type and matching row counts are
      all `reassemble` needs. */
  lemma SameSplitStacks<T>(attackType: string, adversarialNff: Array2<T>, adversarialFf: Array2<T>,
                           normalNff: Array2<T>, normalFf: Array2<T>)
    requires Rectangular(adversarialNff) && Rectangular(adversarialFf)
    requires Rectangular(normalNff) && Rectangular(normalFf)
    requires adversarialFf.width == normalFf.width && adversarialNff.width == normalNff.width
    ensures Reassemble(attackType, adversarialNff, adversarialFf, normalNff, normalFf).Ok?
      <==> (attackType == "DoS" || attackType == "Probe")
           && Height(adversarialFf) == Height(adversarialNff) && Height(normalFf) == Height(normalNff)
  {
  }

  /** Rows paired with their labels. */
  function Labelled<T, L>(rows: seq<seq<T>>, labels: seq<L>): (r: seq<(seq<T>, L)>)
    requires |rows| == |labels|
    ensures |r| == |rows|
  {
    seq(|rows|, i requires 0 <= i < |rows| => (rows[i], labels[i]))
  }

  /** The labels `np.concatenate((labels_mal, labels_nor))` line up with the
      reassembled rows: pairing data with labels is the same as pairing the
      spliced adversarial rows with the malicious labels, followed by the
      spliced normal rows with the normal labels. */
  lemma LabelsFollowRows<T, L>(attackType: string, adversarialNff: Array2<T>, adversarialFf: Array2<T>,
                               normalNff: Array2<T>, normalFf: Array2<T>, labelsMal: seq<L>, labelsNor: seq<L>)
    requires Rectangular(adversarialNff) && Rectangular(adversarialFf)
    requires Rectangular(normalNff) && Rectangular(normalFf)
    requires |labelsMal| == Height(adversarialNff) && |labelsNor| == Height(normalNff)
    requires Reassemble(attackType, adversarialNff, adversarialFf, normalNff, normalFf).Ok?
    ensures var data := Reassemble(attackType, adversarialNff, adversarialFf, normalNff, normalFf).value;
      var attack := ParseAttack(attackType).value;
      && Height(adversarialFf) == Height(adversarialNff)
      && Height(normalFf) == Height(normalNff)
      && |data.rows| == |labelsMal + labelsNor|
      && Labelled(data.rows, labelsMal + labelsNor)
         == Labelled(SplicedRows(attack, adversarialFf, adversarialNff), labelsMal)
            + Labelled(SplicedRows(attack, normalFf, normalNff), labelsNor)
  {
    var attack := ParseAttack(attackType).value;
    LabelledAppend(SplicedRows(attack, adversarialFf, adversarialNff), labelsMal,
                   SplicedRows(attack, normalFf, normalNff), labelsNor);
  }

  lemma LabelledAppend<T, L>(rows: seq<seq<T>>, labels: seq<L>, rows': seq<seq<T>>, labels': seq<L>)
    requires |rows| == |labels| && |rows'| == |labels'|
    ensures Labelled(rows + rows', labels + labels') == Labelled(rows, labels) + Labelled(rows', labels')
  {
  }
}
