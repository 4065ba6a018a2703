/**
 * The eagle parameter handler: the layout of the feature vector that the eagle strategy
 * moves around, and the masks derived from it.
 *
 * Each parameter of the search space occupies a block of columns. A categorical
 * parameter with n feasible values is one-hot encoded in n + 1 columns, the last being
 * the out-of-vocabulary (OOV) slot; every other parameter (a float, or a discrete one
 * converted with no discrete indices) is one continuous column.
 */
module EagleParamHandler {

  datatype ParamEncoding = Categorical(feasibleCount: nat) | Continuous

  /** What one column of the feature vector encodes. */
  datatype Column =
    | Plain
      /** Slot `slot` of the categorical parameter numbered `rank` among the categoricals. */
    | Slot(rank: nat, slot: nat, size: nat)

  /** The OOV slot is the last slot of a categorical block. */
  predicate IsOov(c: Column)
  {
    c.Slot? && c.slot == c.size
  }

  /** Where a categorical block starts, and how many feasible values it has. */
  datatype CategoricalBlock = CategoricalBlock(offset: nat, size: nat)

  /** The column of slot s of a block. */
  function BlockColumn(b: CategoricalBlock, s: nat): nat
  {
    b.offset + s
  }

  function Width(e: ParamEncoding): nat
  {
    match e
    case Categorical(n) => n + 1
    case Continuous => 1
  }

  /** The number of columns of a layout: the sum of its block widths. */
  function NFeatures(layout: seq<ParamEncoding>): nat
  {
    if |layout| == 0 then 0 else Width(layout[0]) + NFeatures(layout[1..])
  }

  /** The number of categorical parameters. */
  function NCategorical(layout: seq<ParamEncoding>): nat
  {
    if |layout| == 0 then 0 else (if layout[0].Categorical? then 1 else 0) + NCategorical(layout[1..])
  }

  predicate HasCategorical(layout: seq<ParamEncoding>)
  {
    NCategorical(layout) > 0
  }

  function EncodingColumns(e: ParamEncoding, rank: nat): seq<Column>
  {
    match e
    case Categorical(n) => seq(n + 1, s requires 0 <= s <= n => Slot(rank, s, n))
    case Continuous => [Plain]
  }

  /** The columns of the parameters `ps`, the first categorical among them numbered `rank`. */
  function ColumnsOf(ps: seq<ParamEncoding>, rank: nat): seq<Column>
  {
    if |ps| == 0 then []
    else EncodingColumns(ps[0], rank) + ColumnsOf(ps[1..], if ps[0].Categorical? then rank + 1 else rank)
  }

  /** The columns of a layout: one per unit of block width. */
  function Columns(layout: seq<ParamEncoding>): (cols: seq<Column>)
    ensures |cols| == NFeatures(layout)
  {
    ColumnsShape(layout, 0);
    ColumnsOf(layout, 0)
  }

  /** The categorical blocks of `ps`, in order, the columns of `ps` starting at `offset`. */
  function BlocksOf(ps: seq<ParamEncoding>, offset: nat): seq<CategoricalBlock>
  {
    if |ps| == 0 then []
    else (match ps[0]
          case Categorical(n) => [CategoricalBlock(offset, n)]
          case Continuous => [])
         + BlocksOf(ps[1..], offset + Width(ps[0]))
  }

  /** The categorical blocks of a layout: one per categorical parameter, inside the columns. */
  function Blocks(layout: seq<ParamEncoding>): (blocks: seq<CategoricalBlock>)
    ensures |blocks| == NCategorical(layout)
    ensures forall r :: 0 <= r < |blocks| ==> BlockColumn(blocks[r], blocks[r].size) < NFeatures(layout)
  {
    BlocksShape(layout, 0);
    BlocksOf(layout, 0)
  }

  /**
   * The shape of the columns: one per unit of width, and the categorical ranks
   * numbered consecutively from `rank`, each slot at most its block's size.
   */
  lemma {:induction false} ColumnsShape(ps: seq<ParamEncoding>, rank: nat)
    ensures |ColumnsOf(ps, rank)| == NFeatures(ps)
    ensures forall c :: 0 <= c < |ColumnsOf(ps, rank)| && ColumnsOf(ps, rank)[c].Slot? ==>
              rank <= ColumnsOf(ps, rank)[c].rank < rank + NCategorical(ps)
              && ColumnsOf(ps, rank)[c].slot <= ColumnsOf(ps, rank)[c].size
  {
    if |ps| > 0 {
      var next := if ps[0].Categorical? then rank + 1 else rank;
      ColumnsShape(ps[1..], next);
      var head := EncodingColumns(ps[0], rank);
      var cols := ColumnsOf(ps, rank);
      assert cols == head + ColumnsOf(ps[1..], next);
      forall c | 0 <= c < |cols| && cols[c].Slot?
        ensures rank <= cols[c].rank < rank + NCategorical(ps) && cols[c].slot <= cols[c].size
      {
        if c >= |head| {
          assert cols[c] == ColumnsOf(ps[1..], next)[c - |head|];
        }
      }
    }
  }

  /** There is one block per categorical parameter, each lying inside the columns. */
  lemma {:induction false} BlocksShape(ps: seq<ParamEncoding>, offset: nat)
    ensures |BlocksOf(ps, offset)| == NCategorical(ps)
    ensures forall r :: 0 <= r < |BlocksOf(ps, offset)| ==>
              offset <= BlocksOf(ps, offset)[r].offset
              && BlocksOf(ps, offset)[r].offset + BlocksOf(ps, offset)[r].size < offset + NFeatures(ps)
  {
    if |ps| > 0 {
      BlocksShape(ps[1..], offset + Width(ps[0]));
    }
  }

  /**
   * Block r of the layout is the categorical parameter of rank r: its slot s is column
   * offset + s.
   */
  lemma {:induction false} BlocksLocate(ps: seq<ParamEncoding>, rank: nat, offset: nat, r: nat, s: nat)
    requires r < |BlocksOf(ps, offset)| && s <= BlocksOf(ps, offset)[r].size
    ensures offset <= BlocksOf(ps, offset)[r].offset
    ensures BlocksOf(ps, offset)[r].offset - offset + s < |ColumnsOf(ps, rank)|
    ensures ColumnsOf(ps, rank)[BlocksOf(ps, offset)[r].offset - offset + s]
            == Slot(rank + r, s, BlocksOf(ps, offset)[r].size)
  {
    var next := if ps[0].Categorical? then rank + 1 else rank;
    var w := Width(ps[0]);
    if ps[0].Categorical? && r == 0 {
      FirstBlockColumns(ps, rank, offset, s);
    } else {
      var r' := if ps[0].Categorical? then r - 1 else r;
      BlocksOfTail(ps, offset, r);
      var b := BlocksOf(ps[1..], offset + w)[r'];
      BlocksLocate(ps[1..], next, offset + w, r', s);
      ColumnsOfTail(ps, rank, b.offset - (offset + w) + s);
    }
  }

  /** A leading categorical parameter is block 0, its slots the first columns. */
  lemma FirstBlockColumns(ps: seq<ParamEncoding>, rank: nat, offset: nat, s: nat)
    requires |ps| > 0 && ps[0].Categorical? && s <= ps[0].feasibleCount
    ensures |BlocksOf(ps, offset)| > 0 && BlocksOf(ps, offset)[0] == CategoricalBlock(offset, ps[0].feasibleCount)
    ensures s < |ColumnsOf(ps, rank)| && ColumnsOf(ps, rank)[s] == Slot(rank, s, ps[0].feasibleCount)
  {
    var head := EncodingColumns(ps[0], rank);
    assert ColumnsOf(ps, rank) == head + ColumnsOf(ps[1..], rank + 1);
    assert head[s] == Slot(rank, s, ps[0].feasibleCount);
  }

  /** Past the first parameter's block, the blocks are those of the remaining parameters. */
  lemma BlocksOfTail(ps: seq<ParamEncoding>, offset: nat, r: nat)
    requires r < |BlocksOf(ps, offset)|
    requires ps[0].Categorical? ==> r > 0
    ensures |ps| > 0
    ensures var r' := if ps[0].Categorical? then r - 1 else r;
            r' < |BlocksOf(ps[1..], offset + Width(ps[0]))|
            && BlocksOf(ps, offset)[r] == BlocksOf(ps[1..], offset + Width(ps[0]))[r']
  {
  }

  /** Past the first parameter's columns, the columns are those of the remaining parameters. */
  lemma ColumnsOfTail(ps: seq<ParamEncoding>, rank: nat, j: nat)
    requires |ps| > 0
    requires j < |ColumnsOf(ps[1..], if ps[0].Categorical? then rank + 1 else rank)|
    ensures Width(ps[0]) + j < |ColumnsOf(ps, rank)|
    ensures ColumnsOf(ps, rank)[Width(ps[0]) + j] == ColumnsOf(ps[1..], if ps[0].Categorical? then rank + 1 else rank)[j]
  {
    var head := EncodingColumns(ps[0], rank);
    var tail := ColumnsOf(ps[1..], if ps[0].Categorical? then rank + 1 else rank);
    assert ColumnsOf(ps, rank) == head + tail;
    assert |head| == Width(ps[0]);
  }

  /** The categorical blocks of a layout, each at its offset among the layout's columns. */
  lemma LayoutBlocks(layout: seq<ParamEncoding>)
    ensures |Columns(layout)| == NFeatures(layout) && |Blocks(layout)| == NCategorical(layout)
    ensures forall r: nat, s: nat :: 0 <= r < |Blocks(layout)| && s <= Blocks(layout)[r].size ==>
              BlockColumn(Blocks(layout)[r], s) < NFeatures(layout)
              && Columns(layout)[BlockColumn(Blocks(layout)[r], s)] == Slot(r, s, Blocks(layout)[r].size)
    ensures forall c :: 0 <= c < |Columns(layout)| && Columns(layout)[c].Slot? ==>
              Columns(layout)[c].rank < NCategorical(layout) && Columns(layout)[c].slot <= Columns(layout)[c].size
  {
    ColumnsShape(layout, 0);
    BlocksShape(layout, 0);
    forall r: nat, s: nat | 0 <= r < |Blocks(layout)| && s <= Blocks(layout)[r].size
      ensures BlockColumn(Blocks(layout)[r], s) < NFeatures(layout)
              && Columns(layout)[BlockColumn(Blocks(layout)[r], s)] == Slot(r, s, Blocks(layout)[r].size)
    {
      BlocksLocate(layout, 0, 0, r, s);
    }
  }

  // ---------------------------------------------------------------------------------
  // Masks
  // ---------------------------------------------------------------------------------

  /** One row per categorical parameter, 1 on the columns of its block (OOV slot included). */
  function CategoricalParamsMask(layout: seq<ParamEncoding>): seq<seq<int>>
  {
    var cols := Columns(layout);
    seq(NCategorical(layout), r => CategoricalRow(cols, r))
  }

  /** The row of the categorical parameter of rank r. */
  function CategoricalRow(cols: seq<Column>, r: int): seq<int>
  {
    seq(|cols|, c requires 0 <= c < |cols| => if cols[c].Slot? && cols[c].rank == r then 1 else 0)
  }

  /** 1 on every categorical column. */
  function CategoricalMask(layout: seq<ParamEncoding>): seq<int>
  {
    var cols := Columns(layout);
    seq(|cols|, c requires 0 <= c < |cols| => if cols[c].Slot? then 1 else 0)
  }

  /** 0 on the OOV slots, 1 elsewhere. */
  function OovMask(layout: seq<ParamEncoding>): seq<real>
  {
    var cols := Columns(layout);
    seq(|cols|, c requires 0 <= c < |cols| => if IsOov(cols[c]) then 0.0 else 1.0)
  }

  /** The categorical perturbation factor on categorical columns, 1 elsewhere. */
  function PerturbationFactors(layout: seq<ParamEncoding>, categoricalFactor: real): seq<real>
  {
    var cols := Columns(layout);
    seq(|cols|, c requires 0 <= c < |cols| => if cols[c].Slot? then categoricalFactor else 1.0)
  }

  /** Every column is categorical. */
  predicate AllFeaturesCategorical(layout: seq<ParamEncoding>)
  {
    forall c :: 0 <= c < |CategoricalMask(layout)| ==> CategoricalMask(layout)[c] == 1
  }

  /**
   * The combined mask is the union of the per-parameter rows, and the rows are
   * disjoint: a categorical column lies in exactly one row, any other column in none.
   */
  lemma CategoricalMaskIsUnionOfRows(layout: seq<ParamEncoding>, c: nat)
    requires c < NFeatures(layout)
    ensures |CategoricalMask(layout)| == NFeatures(layout)
    ensures |CategoricalParamsMask(layout)| == NCategorical(layout)
    ensures CategoricalMask(layout)[c] == 1 <==>
            exists r :: 0 <= r < NCategorical(layout) && CategoricalParamsMask(layout)[r][c] == 1
    ensures forall r, r' :: 0 <= r < r' < NCategorical(layout) ==>
              CategoricalParamsMask(layout)[r][c] == 0 || CategoricalParamsMask(layout)[r'][c] == 0
  {
    LayoutBlocks(layout);
    var cols := Columns(layout);
    if cols[c].Slot? {
      assert CategoricalParamsMask(layout)[cols[c].rank][c] == 1;
    }
  }

  /**
   * The OOV mask is 0 exactly at the last slot of each categorical block, and 1 on
   * every other column.
   */
  lemma OovMaskAtLastSlots(layout: seq<ParamEncoding>)
    ensures |OovMask(layout)| == NFeatures(layout)
    ensures forall r: nat, s: nat :: 0 <= r < |Blocks(layout)| && s <= Blocks(layout)[r].size ==>
              BlockColumn(Blocks(layout)[r], s) < NFeatures(layout)
              && (OovMask(layout)[BlockColumn(Blocks(layout)[r], s)] == 0.0 <==> s == Blocks(layout)[r].size)
    ensures forall c :: 0 <= c < |OovMask(layout)| && !Columns(layout)[c].Slot? ==> OovMask(layout)[c] == 1.0
  {
    LayoutBlocks(layout);
  }

  /** A block of columns is all-categorical exactly when its parameter is. */
  lemma {:induction false} AllColumnsCategorical(ps: seq<ParamEncoding>, rank: nat)
    ensures (forall c :: 0 <= c < |ColumnsOf(ps, rank)| ==> ColumnsOf(ps, rank)[c].Slot?)
            <==> (forall p :: 0 <= p < |ps| ==> ps[p].Categorical?)
  {
    if |ps| > 0 {
      var next := if ps[0].Categorical? then rank + 1 else rank;
      AllColumnsCategorical(ps[1..], next);
      var head := EncodingColumns(ps[0], rank);
      var tail := ColumnsOf(ps[1..], next);
      assert ColumnsOf(ps, rank) == head + tail;
      assert |head| > 0;
      var cols: seq<Column> := head + tail;
      if (forall c :: 0 <= c < |cols| ==> cols[c].Slot?) {
        assert head[0] == cols[0];
        forall c | 0 <= c < |tail| ensures tail[c].Slot? {
          assert tail[c] == cols[|head| + c];
        }
        forall p | 0 <= p < |ps| ensures ps[p].Categorical? {
          if p > 0 {
            assert ps[p] == ps[1..][p - 1];
          }
        }
      }
      if (forall p :: 0 <= p < |ps| ==> ps[p].Categorical?) {
        assert forall p :: 0 <= p < |ps[1..]| ==> ps[1..][p] == ps[p + 1];
      }
    }
  }

  /** All features are categorical exactly when every parameter is categorical. */
  lemma AllFeaturesCategoricalIff(layout: seq<ParamEncoding>)
    ensures AllFeaturesCategorical(layout) <==> forall p :: 0 <= p < |layout| ==> layout[p].Categorical?
  {
    AllColumnsCategorical(layout, 0);
    var cols := Columns(layout);
    assert forall c :: 0 <= c < |cols| ==> (CategoricalMask(layout)[c] == 1 <==> cols[c].Slot?);
  }

  /**
   * The tiebreak array: -eps * (i + 1) for column i; for a positive eps it is negative
   * and strictly decreasing.
   */
  function TiebreakArray(n: nat, eps: real): (t: seq<real>)
    ensures |t| == n
    ensures eps > 0.0 ==> forall i :: 0 <= i < n ==> t[i] < 0.0
    ensures eps > 0.0 ==> forall i :: 0 < i < n ==> t[i] < t[i - 1]
  {
    seq(n, i requires 0 <= i < n => -(eps * (i + 1) as real))
  }

  // ---------------------------------------------------------------------------------
  // The test layout: c1 (2 values), f1, c2 (3 values), d1 as continuous
  // ---------------------------------------------------------------------------------

  const TestLayout: seq<ParamEncoding> := [Categorical(2), Continuous, Categorical(3), Continuous]

  lemma TestLayoutColumns()
    ensures Columns(TestLayout) == TestColumns
    ensures Blocks(TestLayout) == [CategoricalBlock(0, 2), CategoricalBlock(4, 3)]
  {
    TestLayoutColumnsOf();
    TestLayoutBlocksOf();
  }

  const TestColumns: seq<Column> := [Slot(0, 0, 2), Slot(0, 1, 2), Slot(0, 2, 2), Plain,
                                     Slot(1, 0, 3), Slot(1, 1, 3), Slot(1, 2, 3), Slot(1, 3, 3), Plain]

  lemma TestLayoutColumnsOf()
    ensures Columns(TestLayout) == TestColumns
  {
    var l := TestLayout;
    assert l[1..] == [Continuous, Categorical(3), Continuous];
    assert l[1..][1..] == [Categorical(3), Continuous];
    assert l[1..][1..][1..] == [Continuous];
    assert ColumnsOf(l[1..][1..][1..], 2) == [Plain];
    assert EncodingColumns(Categorical(3), 1) == [Slot(1, 0, 3), Slot(1, 1, 3), Slot(1, 2, 3), Slot(1, 3, 3)];
    assert ColumnsOf(l[1..][1..], 1) == [Slot(1, 0, 3), Slot(1, 1, 3), Slot(1, 2, 3), Slot(1, 3, 3), Plain];
    assert EncodingColumns(Categorical(2), 0) == [Slot(0, 0, 2), Slot(0, 1, 2), Slot(0, 2, 2)];
  }

  lemma TestLayoutBlocksOf()
    ensures Blocks(TestLayout) == [CategoricalBlock(0, 2), CategoricalBlock(4, 3)]
  {
    var l := TestLayout;
    assert l[1..] == [Continuous, Categorical(3), Continuous];
    assert l[1..][1..] == [Categorical(3), Continuous];
    assert l[1..][1..][1..] == [Continuous];
    assert BlocksOf(l[1..][1..][1..], 8) == [];
    assert BlocksOf(l[1..][1..], 4) == [CategoricalBlock(4, 3)];
    assert BlocksOf(l[1..], 3) == [CategoricalBlock(4, 3)];
  }

  /** The handler's sizes and masks for the test layout. */
  lemma TestLayoutMasks(cp: real)
    ensures NFeatures(TestLayout) == 9 && NCategorical(TestLayout) == 2
    ensures HasCategorical(TestLayout) && !AllFeaturesCategorical(TestLayout)
    ensures CategoricalParamsMask(TestLayout) == [[1, 1, 1, 0, 0, 0, 0, 0, 0], [0, 0, 0, 0, 1, 1, 1, 1, 0]]
    ensures CategoricalMask(TestLayout) == [1, 1, 1, 0, 1, 1, 1, 1, 0]
    ensures OovMask(TestLayout) == [1.0, 1.0, 0.0, 1.0, 1.0, 1.0, 1.0, 0.0, 1.0]
    ensures PerturbationFactors(TestLayout, cp) == [cp, cp, cp, 1.0, cp, cp, cp, cp, 1.0]
  {
    TestLayoutSizes();
    TestCategoricalParamsMask();
    TestCategoricalMask();
    TestOovMask();
    TestPerturbationFactors(cp);
  }

  lemma TestLayoutSizes()
    ensures NFeatures(TestLayout) == 9 && NCategorical(TestLayout) == 2
    ensures HasCategorical(TestLayout) && !AllFeaturesCategorical(TestLayout)
  {
    TestLayoutColumns();
    AllFeaturesCategoricalIff(TestLayout);
    assert !TestLayout[1].Categorical?;
  }

  lemma TestCategoricalParamsMask()
    ensures CategoricalParamsMask(TestLayout) == [[1, 1, 1, 0, 0, 0, 0, 0, 0], [0, 0, 0, 0, 1, 1, 1, 1, 0]]
  {
    TestLayoutColumnsOf();
    TestLayoutSizes();
    assert CategoricalRow(TestColumns, 0) == [1, 1, 1, 0, 0, 0, 0, 0, 0];
    assert CategoricalRow(TestColumns, 1) == [0, 0, 0, 0, 1, 1, 1, 1, 0];
  }

  lemma TestCategoricalMask()
    ensures CategoricalMask(TestLayout) == [1, 1, 1, 0, 1, 1, 1, 1, 0]
  {
    TestLayoutColumnsOf();
  }

  lemma TestOovMask()
    ensures OovMask(TestLayout) == [1.0, 1.0, 0.0, 1.0, 1.0, 1.0, 1.0, 0.0, 1.0]
  {
    TestLayoutColumnsOf();
  }

  lemma TestPerturbationFactors(cp: real)
    ensures PerturbationFactors(TestLayout, cp) == [cp, cp, cp, 1.0, cp, cp, cp, cp, 1.0]
  {
    TestLayoutColumnsOf();
  }

  // ---------------------------------------------------------------------------------
  // Sampling the categorical blocks
  // ---------------------------------------------------------------------------------

  /**
   * The choice for each categorical block is a feasible (non-OOV) slot; when the block
   * holds a positive entry, the chosen entry is positive, as a draw with probabilities
   * proportional to the entries makes it.
   */
  predicate Admissible(layout: seq<ParamEncoding>, row: seq<real>, choices: seq<nat>)
    requires |row| == NFeatures(layout) && |choices| == NCategorical(layout)
  {
    LayoutBlocks(layout);
    var blocks := Blocks(layout);
    forall r :: 0 <= r < |blocks| ==>
      && choices[r] < blocks[r].size
      && ((exists s: nat :: 0 <= s < blocks[r].size && row[BlockColumn(blocks[r], s)] > 0.0) ==>
            row[BlockColumn(blocks[r], choices[r])] > 0.0)
  }

  /** `sample_categorical` on one row: each categorical block becomes one-hot at its choice. */
  function SampleCategoricalRow(layout: seq<ParamEncoding>, row: seq<real>, choices: seq<nat>): seq<real>
    requires |row| == NFeatures(layout) && |choices| == NCategorical(layout)
  {
    LayoutBlocks(layout);
    var cols := Columns(layout);
    seq(|row|, c requires 0 <= c < |row| =>
      if cols[c].Slot? then (if cols[c].slot == choices[cols[c].rank] then 1.0 else 0.0) else row[c])
  }

  function SampleCategorical(layout: seq<ParamEncoding>, features: seq<seq<real>>, choices: seq<seq<nat>>)
    : seq<seq<real>>
    requires |choices| == |features|
    requires forall i :: 0 <= i < |features| ==>
               |features[i]| == NFeatures(layout) && |choices[i]| == NCategorical(layout)
  {
    seq(|features|, i requires 0 <= i < |features| => SampleCategoricalRow(layout, features[i], choices[i]))
  }

  /**
   * Sampling leaves the non-categorical columns unchanged and makes every categorical
   * block one-hot at the chosen slot; the OOV slot stays 0.
   */
  lemma SampleCategoricalRowProperties(layout: seq<ParamEncoding>, row: seq<real>, choices: seq<nat>)
    requires |row| == NFeatures(layout) && |choices| == NCategorical(layout)
    requires Admissible(layout, row, choices)
    ensures |SampleCategoricalRow(layout, row, choices)| == |row|
    ensures forall c :: 0 <= c < |row| && !Columns(layout)[c].Slot? ==>
              SampleCategoricalRow(layout, row, choices)[c] == row[c]
    ensures forall r: nat, s: nat :: 0 <= r < |Blocks(layout)| && s <= Blocks(layout)[r].size ==>
              BlockColumn(Blocks(layout)[r], s) < |row|
              && SampleCategoricalRow(layout, row, choices)[BlockColumn(Blocks(layout)[r], s)]
                 == if s == choices[r] then 1.0 else 0.0
    ensures forall r :: 0 <= r < |Blocks(layout)| ==>
              SampleCategoricalRow(layout, row, choices)[BlockColumn(Blocks(layout)[r], Blocks(layout)[r].size)] == 0.0
  {
    LayoutBlocks(layout);
  }

  /**
   * A block with exactly one positive feasible entry forces the choice: the sampled
   * one-hot slot is that entry.
   */
  lemma ForcedChoice(layout: seq<ParamEncoding>, row: seq<real>, choices: seq<nat>, r: nat, k: nat)
    requires |row| == NFeatures(layout) && |choices| == NCategorical(layout)
    requires Admissible(layout, row, choices)
    requires r < |Blocks(layout)| && k < Blocks(layout)[r].size
    requires row[BlockColumn(Blocks(layout)[r], k)] > 0.0
    requires forall s: nat :: 0 <= s < Blocks(layout)[r].size && s != k ==> row[BlockColumn(Blocks(layout)[r], s)] <= 0.0
    ensures choices[r] == k
  {
    LayoutBlocks(layout);
  }

  /** Sampling a test row with the given choice for each of the two blocks. */
  lemma SampleTestRow(row: seq<real>, choices: seq<nat>)
    requires |row| == 9 && |choices| == 2
    ensures SampleCategoricalRow(TestLayout, row, choices)
            == [if choices[0] == 0 then 1.0 else 0.0, if choices[0] == 1 then 1.0 else 0.0,
                if choices[0] == 2 then 1.0 else 0.0, row[3],
                if choices[1] == 0 then 1.0 else 0.0, if choices[1] == 1 then 1.0 else 0.0,
                if choices[1] == 2 then 1.0 else 0.0, if choices[1] == 3 then 1.0 else 0.0, row[8]]
  {
    TestLayoutColumnsOf();
  }

  /** The chosen slots of a test row whose two blocks each hold one positive entry. */
  lemma ForcedTestChoices(row: seq<real>, choices: seq<nat>, k0: nat, k1: nat)
    requires |row| == 9 && |choices| == 2 && k0 < 2 && k1 < 3
    requires Admissible(TestLayout, row, choices)
    requires row[k0] > 0.0 && row[1 - k0] <= 0.0
    requires row[4 + k1] > 0.0
    requires (k1 == 0 || row[4] <= 0.0) && (k1 == 1 || row[5] <= 0.0) && (k1 == 2 || row[6] <= 0.0)
    ensures choices == [k0, k1]
  {
    TestLayoutColumns();
    var blocks := Blocks(TestLayout);
    assert blocks[0] == CategoricalBlock(0, 2) && blocks[1] == CategoricalBlock(4, 3);
    ForcedChoice(TestLayout, row, choices, 0, k0);
    assert forall s: nat :: s < 3 ==> BlockColumn(blocks[1], s) == 4 + s;
    ForcedChoice(TestLayout, row, choices, 1, k1);
  }

  /** The sampling test: each block has one positive entry, which becomes the hot slot. */
  lemma SampleCategoricalExample(choices: seq<seq<nat>>)
    requires |choices| == 2 && |choices[0]| == 2 && |choices[1]| == 2
    requires Admissible(TestLayout, [2.0, 0.0, 0.0, 1.5, 0.0, 0.0, 0.1, 0.0, 9.0], choices[0])
    requires Admissible(TestLayout, [3.0, 0.0, 0.0, 3.5, 5.0, 0.0, 0.0, 0.0, 8.0], choices[1])
    ensures SampleCategorical(TestLayout, [[2.0, 0.0, 0.0, 1.5, 0.0, 0.0, 0.1, 0.0, 9.0],
                                           [3.0, 0.0, 0.0, 3.5, 5.0, 0.0, 0.0, 0.0, 8.0]], choices)
            == [[1.0, 0.0, 0.0, 1.5, 0.0, 0.0, 1.0, 0.0, 9.0],
                [1.0, 0.0, 0.0, 3.5, 1.0, 0.0, 0.0, 0.0, 8.0]]
  {
    var row0 := [2.0, 0.0, 0.0, 1.5, 0.0, 0.0, 0.1, 0.0, 9.0];
    var row1 := [3.0, 0.0, 0.0, 3.5, 5.0, 0.0, 0.0, 0.0, 8.0];
    ForcedTestChoices(row0, choices[0], 0, 2);
    ForcedTestChoices(row1, choices[1], 0, 0);
    SampleTestRow(row0, choices[0]);
    SampleTestRow(row1, choices[1]);
  }
}
