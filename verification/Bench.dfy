/** The memory benchmark's scores: per-sample aggregates, and aggregates of aggregates, over
    exact reals. */
module Bench {
  import opened Text
  import opened Seqs

  datatype Category = Category(number: int)

  /** One judged question; a negative `f1` marks a failed judgement. */
  datatype Score = Score(category: Category, f1: real, hit: real)

  /** Averages (or, while they are being formed, sums) over `count` questions, of which
      `valid` have an f1 score. */
  datatype Cell = Cell(f1: real, hit: real, count: nat, valid: nat)

  datatype Aggregate = Aggregate(overall: Cell, byCategory: map<Category, Cell>)

  const ZERO := Cell(0.0, 0.0, 0, 0)

  function Plus(a: Cell, b: Cell): Cell {
    Cell(a.f1 + b.f1, a.hit + b.hit, a.count + b.count, a.valid + b.valid)
  }

  /** From sums to averages. */
  function Averaged(c: Cell): Cell {
    Cell(if c.valid > 0 then c.f1 / c.valid as real else c.f1, if c.count > 0 then c.hit / c.count as real else c.hit,
         c.count, c.valid)
  }

  function AllAveraged(overall: Cell, sums: map<Category, Cell>): Aggregate {
    Aggregate(Averaged(overall), map c | c in sums :: Averaged(sums[c]))
  }

  /** `table` holds `f(c)` for exactly the categories in `keys`. */
  ghost predicate IsTable(table: map<Category, Cell>, keys: set<Category>, f: Category -> Cell) {
    && (forall c :: c in table <==> c in keys)
    && (forall c :: c in table ==> table[c] == f(c))
  }

  lemma TableIs(table: map<Category, Cell>, keys: set<Category>, f: Category -> Cell)
    requires IsTable(table, keys, f)
    ensures table == map c | c in keys :: f(c)
  {
  }

  // ----- Sums

  function SumF1(cells: seq<Cell>): real {
    if cells == [] then 0.0 else SumF1(cells[..|cells| - 1]) + cells[|cells| - 1].f1
  }

  function SumHit(cells: seq<Cell>): real {
    if cells == [] then 0.0 else SumHit(cells[..|cells| - 1]) + cells[|cells| - 1].hit
  }

  function SumCount(cells: seq<Cell>): nat {
    if cells == [] then 0 else SumCount(cells[..|cells| - 1]) + cells[|cells| - 1].count
  }

  function SumValid(cells: seq<Cell>): nat {
    if cells == [] then 0 else SumValid(cells[..|cells| - 1]) + cells[|cells| - 1].valid
  }

  function Sum(cells: seq<Cell>): Cell {
    Cell(SumF1(cells), SumHit(cells), SumCount(cells), SumValid(cells))
  }

  lemma SumOne(cells: seq<Cell>, c: Cell)
    ensures Sum(cells + [c]) == Plus(Sum(cells), c)
  {
    assert (cells + [c])[..|cells|] == cells;
  }

  lemma {:induction false} SumConcat(a: seq<Cell>, b: seq<Cell>)
    ensures Sum(a + b) == Plus(Sum(a), Sum(b))
    decreases |b|
  {
    if b == [] {
      assert a + b == a;
    } else {
      var n := |b| - 1;
      SumConcat(a, b[..n]);
      Assoc(a, b[..n], [b[n]]);
      assert b[..n] + [b[n]] == b;
      SumOne(a + b[..n], b[n]);
      SumOne(b[..n], b[n]);
    }
  }

  lemma {:induction false} SumOfZeros(cells: seq<Cell>)
    requires forall i :: 0 <= i < |cells| ==> cells[i] == ZERO
    ensures Sum(cells) == ZERO
  {
    if cells != [] {
      SumOfZeros(cells[..|cells| - 1]);
    }
  }

  // ----- One sample

  /** A category, or all of them. */
  type Scope = Option<Category>

  function Single(s: Score, scope: Scope): Cell {
    if scope.Some? && s.category != scope.value then ZERO
    else if s.f1 >= 0.0 then Cell(s.f1, s.hit, 1, 1)
    else Cell(0.0, s.hit, 1, 0)
  }

  function Singles(scores: seq<Score>, scope: Scope): seq<Cell> {
    seq(|scores|, i requires 0 <= i < |scores| => Single(scores[i], scope))
  }

  function Total(scores: seq<Score>, scope: Scope): Cell {
    Sum(Singles(scores, scope))
  }

  function Categories(scores: seq<Score>): set<Category> {
    set i | 0 <= i < |scores| :: scores[i].category
  }

  function Aggregated(scores: seq<Score>): Aggregate {
    AllAveraged(Total(scores, None), TotalTable(scores))
  }

  function TotalTable(scores: seq<Score>): map<Category, Cell> {
    map c | c in Categories(scores) :: Total(scores, Some(c))
  }

  lemma TotalOne(scores: seq<Score>, i: nat, scope: Scope)
    requires i < |scores|
    ensures Total(scores[..i + 1], scope) == Plus(Total(scores[..i], scope), Single(scores[i], scope))
  {
    assert Singles(scores[..i + 1], scope) == Singles(scores[..i], scope) + [Single(scores[i], scope)];
    SumOne(Singles(scores[..i], scope), Single(scores[i], scope));
  }

  lemma TotalElsewhere(scores: seq<Score>, c: Category)
    requires c !in Categories(scores)
    ensures Total(scores, Some(c)) == ZERO
  {
    SumOfZeros(Singles(scores, Some(c)));
  }

  /** The sums behind an aggregate. */
  ghost predicate AreSums(overall: Cell, acc: map<Category, Cell>, scores: seq<Score>) {
    && overall == Total(scores, None)
    && IsTable(acc, Categories(scores), c => Total(scores, Some(c)))
  }

  method AddScore(acc: map<Category, Cell>, s: Score) returns (out: map<Category, Cell>)
    ensures out == acc[s.category := Plus(if s.category in acc then acc[s.category] else ZERO, Single(s, None))]
  {
    var cell := if s.category in acc then acc[s.category] else ZERO;
    if s.f1 >= 0.0 {
      cell := cell.(f1 := cell.f1 + s.f1, valid := cell.valid + 1);
    }
    out := acc[s.category := cell.(hit := cell.hit + s.hit, count := cell.count + 1)];
  }

  method SumScores(scores: seq<Score>) returns (overall: Cell, acc: map<Category, Cell>)
    ensures AreSums(overall, acc, scores)
  {
    overall, acc := ZERO, map[];
    for i := 0 to |scores|
      invariant AreSums(overall, acc, scores[..i])
    {
      SumsStep(overall, acc, scores, i);
      overall := Plus(overall, Single(scores[i], None));
      acc := AddScore(acc, scores[i]);
    }
    assert scores[..|scores|] == scores;
  }

  method AggregateMetrics(scores: seq<Score>) returns (agg: Aggregate)
    ensures agg == Aggregated(scores)
  {
    var overall, acc := SumScores(scores);
    TableIs(acc, Categories(scores), c => Total(scores, Some(c)));
    agg := AllAveraged(overall, acc);
  }

  lemma SumsStep(overall: Cell, acc: map<Category, Cell>, scores: seq<Score>, i: nat)
    requires i < |scores| && AreSums(overall, acc, scores[..i])
    ensures var s := scores[i];
      AreSums(Plus(overall, Single(s, None)),
              acc[s.category := Plus(if s.category in acc then acc[s.category] else ZERO, Single(s, None))],
              scores[..i + 1])
  {
    var s := scores[i];
    var out := acc[s.category := Plus(if s.category in acc then acc[s.category] else ZERO, Single(s, None))];
    TotalOne(scores, i, None);
    CategoriesOne(scores, i);
    forall c | c in out ensures out[c] == Total(scores[..i + 1], Some(c)) {
      CellStep(acc, scores, i, c);
    }
  }

  lemma CellStep(acc: map<Category, Cell>, scores: seq<Score>, i: nat, c: Category)
    requires i < |scores| && acc.Keys == Categories(scores[..i]) && (c in acc || c == scores[i].category)
    requires c in acc ==> acc[c] == Total(scores[..i], Some(c))
    ensures Total(scores[..i + 1], Some(c)) ==
      var was := if c in acc then acc[c] else ZERO;
      if c == scores[i].category then Plus(was, Single(scores[i], None)) else was
  {
    TotalOne(scores, i, Some(c));
    if c !in acc {
      TotalElsewhere(scores[..i], c);
    }
  }

  lemma CategoriesOne(scores: seq<Score>, i: nat)
    requires i < |scores|
    ensures Categories(scores[..i + 1]) == Categories(scores[..i]) + {scores[i].category}
  {
    var a, b := scores[..i], scores[..i + 1];
    assert b == a + [scores[i]];
    forall c ensures c in Categories(b) <==> c in Categories(a) || c == scores[i].category {
      assert b[i].category == scores[i].category;
      assert forall k :: 0 <= k < i ==> b[k] == a[k];
    }
  }

  // ----- Aggregates of aggregates

  /** How many scores an average stands for; token modes read a zero as "not recorded". */
  function Weight(c: Cell, llm: bool): nat {
    if c.valid == 0 && c.count > 0 && !llm then c.count else c.valid
  }

  /** From averages back to sums. */
  function Weighted(c: Cell, llm: bool): Cell {
    Cell(c.f1 * Weight(c, llm) as real, c.hit * c.count as real, c.count, Weight(c, llm))
  }

  function CellOf(a: Aggregate, scope: Scope): Cell {
    if scope.None? then a.overall
    else if scope.value in a.byCategory then a.byCategory[scope.value]
    else ZERO
  }

  function Weights(aggs: seq<Aggregate>, llm: bool, scope: Scope): seq<Cell> {
    seq(|aggs|, i requires 0 <= i < |aggs| => Weighted(CellOf(aggs[i], scope), llm))
  }

  function Summed(aggs: seq<Aggregate>, llm: bool, scope: Scope): Cell {
    Sum(Weights(aggs, llm, scope))
  }

  function AllCategories(aggs: seq<Aggregate>): set<Category> {
    if aggs == [] then {} else AllCategories(aggs[..|aggs| - 1]) + aggs[|aggs| - 1].byCategory.Keys
  }

  function Combined(aggs: seq<Aggregate>, llm: bool): Aggregate {
    AllAveraged(Summed(aggs, llm, None), SummedTable(aggs, llm))
  }

  function SummedTable(aggs: seq<Aggregate>, llm: bool): map<Category, Cell> {
    map c | c in AllCategories(aggs) :: Summed(aggs, llm, Some(c))
  }

  /** Adds up two tables of cells. */
  method AddCells(acc: map<Category, Cell>, cells: map<Category, Cell>) returns (out: map<Category, Cell>)
    ensures forall c :: c in out <==> c in acc || c in cells
    ensures forall c :: c in acc && c !in cells ==> out[c] == acc[c]
    ensures forall c :: c in cells ==> out[c] == Plus(if c in acc then acc[c] else ZERO, cells[c])
  {
    out := acc;
    var rest: set<Category> := cells.Keys;
    while rest != {}
      invariant rest <= cells.Keys
      invariant forall c :: c in out <==> c in acc || (c in cells && c !in rest)
      invariant forall c :: c in acc && (c !in cells || c in rest) ==> out[c] == acc[c]
      invariant forall c :: c in cells && c !in rest ==> out[c] == Plus(if c in acc then acc[c] else ZERO, cells[c])
      decreases rest
    {
      var c :| c in rest;
      rest := rest - {c};
      var existing := if c in out then out[c] else ZERO;
      out := out[c := Plus(existing, cells[c])];
    }
  }

  /** The sums behind a combined aggregate. */
  ghost predicate AreWeighted(overall: Cell, acc: map<Category, Cell>, aggs: seq<Aggregate>, llm: bool) {
    && overall == Summed(aggs, llm, None)
    && IsTable(acc, AllCategories(aggs), c => Summed(aggs, llm, Some(c)))
  }

  method SumAggregates(aggs: seq<Aggregate>, llm: bool) returns (overall: Cell, acc: map<Category, Cell>)
    ensures AreWeighted(overall, acc, aggs, llm)
  {
    overall, acc := ZERO, map[];
    for i := 0 to |aggs|
      invariant AreWeighted(overall, acc, aggs[..i], llm)
    {
      ghost var before := acc;
      var cells := map c | c in aggs[i].byCategory :: Weighted(aggs[i].byCategory[c], llm);
      acc := AddCells(acc, cells);
      WeightedStep(overall, before, acc, cells, aggs, i, llm);
      overall := Plus(overall, Weighted(aggs[i].overall, llm));
    }
    assert aggs[..|aggs|] == aggs;
  }

  method ComputeModeAgg(aggs: seq<Aggregate>, llm: bool) returns (agg: Aggregate)
    ensures agg == Combined(aggs, llm)
  {
    var overall, acc := SumAggregates(aggs, llm);
    TableIs(acc, AllCategories(aggs), c => Summed(aggs, llm, Some(c)));
    agg := AllAveraged(overall, acc);
  }

  lemma WeightedZero(llm: bool)
    ensures Weighted(ZERO, llm) == ZERO
  {
  }

  lemma SummedOne(aggs: seq<Aggregate>, llm: bool, i: nat, scope: Scope)
    requires i < |aggs|
    ensures Summed(aggs[..i + 1], llm, scope) ==
      Plus(Summed(aggs[..i], llm, scope), Weighted(CellOf(aggs[i], scope), llm))
  {
    var w := Weighted(CellOf(aggs[i], scope), llm);
    assert Weights(aggs[..i + 1], llm, scope) == Weights(aggs[..i], llm, scope) + [w];
    SumOne(Weights(aggs[..i], llm, scope), w);
  }

  lemma WeightedStep(overall: Cell, acc: map<Category, Cell>, out: map<Category, Cell>, cells: map<Category, Cell>,
                     aggs: seq<Aggregate>, i: nat, llm: bool)
    requires i < |aggs| && AreWeighted(overall, acc, aggs[..i], llm)
    requires cells.Keys == aggs[i].byCategory.Keys
    requires forall c :: c in cells ==> cells[c] == Weighted(aggs[i].byCategory[c], llm)
    requires forall c :: c in out <==> c in acc || c in cells
    requires forall c :: c in acc && c !in cells ==> out[c] == acc[c]
    requires forall c :: c in cells ==> out[c] == Plus(if c in acc then acc[c] else ZERO, cells[c])
    ensures AreWeighted(Plus(overall, Weighted(aggs[i].overall, llm)), out, aggs[..i + 1], llm)
  {
    assert aggs[..i + 1][..i] == aggs[..i];
    SummedOne(aggs, llm, i, None);
    assert forall c :: c in out <==> c in AllCategories(aggs[..i + 1]);
    forall c | c in out ensures out[c] == Summed(aggs[..i + 1], llm, Some(c)) {
      SummedOne(aggs, llm, i, Some(c));
      OutCell(acc, out, cells, aggs, i, llm, c);
    }
  }

  lemma OutCell(acc: map<Category, Cell>, out: map<Category, Cell>, cells: map<Category, Cell>,
                aggs: seq<Aggregate>, i: nat, llm: bool, c: Category)
    requires i < |aggs| && IsTable(acc, AllCategories(aggs[..i]), c => Summed(aggs[..i], llm, Some(c)))
    requires c in out && (c in acc || c in cells)
    requires c in cells <==> c in aggs[i].byCategory
    requires c in cells ==> cells[c] == Weighted(aggs[i].byCategory[c], llm)
    requires c !in cells ==> out[c] == acc[c]
    requires c in cells ==> out[c] == Plus(if c in acc then acc[c] else ZERO, cells[c])
    ensures out[c] == Plus(Summed(aggs[..i], llm, Some(c)), Weighted(CellOf(aggs[i], Some(c)), llm))
  {
    if c !in acc {
      SummedElsewhere(aggs[..i], llm, c);
    }
    if c !in cells {
      WeightedZero(llm);
    }
  }

  lemma {:induction false} Uncategorized(aggs: seq<Aggregate>, c: Category, i: nat)
    requires c !in AllCategories(aggs) && i < |aggs|
    ensures c !in aggs[i].byCategory
    decreases |aggs|
  {
    if i < |aggs| - 1 {
      Uncategorized(aggs[..|aggs| - 1], c, i);
    }
  }

  lemma SummedElsewhere(aggs: seq<Aggregate>, llm: bool, c: Category)
    requires c !in AllCategories(aggs)
    ensures Summed(aggs, llm, Some(c)) == ZERO
  {
    forall i | 0 <= i < |aggs| ensures Weights(aggs, llm, Some(c))[i] == ZERO {
      Uncategorized(aggs, c, i);
      WeightedZero(llm);
    }
    SumOfZeros(Weights(aggs, llm, Some(c)));
  }

  // ----- Aggregating samples is aggregating all questions

  function Concat(samples: seq<seq<Score>>): seq<Score> {
    if samples == [] then [] else Concat(samples[..|samples| - 1]) + samples[|samples| - 1]
  }

  function AggregatedEach(samples: seq<seq<Score>>): seq<Aggregate> {
    seq(|samples|, i requires 0 <= i < |samples| => Aggregated(samples[i]))
  }

  /** A sum over no questions, or over no valid scores, is zero. */
  ghost predicate IsSum(c: Cell) {
    (c.valid == 0 ==> c.f1 == 0.0) && (c.count == 0 ==> c.hit == 0.0) && c.valid <= c.count
  }

  lemma {:induction false} SumIsSum(cells: seq<Cell>)
    requires forall i :: 0 <= i < |cells| ==> IsSum(cells[i])
    ensures IsSum(Sum(cells))
  {
    if cells != [] {
      SumIsSum(cells[..|cells| - 1]);
    }
  }

  lemma TimesBack(x: real, n: nat)
    requires n > 0
    ensures x / n as real * n as real == x
  {
  }

  /** Averaging and weighing again gives the sums back, apart from the weight itself. */
  lemma WeighBack(c: Cell, llm: bool)
    requires IsSum(c)
    ensures Weighted(Averaged(c), llm) == c.(valid := Weight(c, llm))
  {
    if c.valid > 0 {
      TimesBack(c.f1, c.valid);
    }
    if c.count > 0 {
      TimesBack(c.hit, c.count);
    }
  }

  lemma CellIsTotal(scores: seq<Score>, scope: Scope)
    ensures CellOf(Aggregated(scores), scope) == Averaged(Total(scores, scope))
  {
    if scope.Some? && scope.value !in Categories(scores) {
      TotalElsewhere(scores, scope.value);
    }
  }

  lemma TotalConcat(a: seq<Score>, b: seq<Score>, scope: Scope)
    ensures Total(a + b, scope) == Plus(Total(a, scope), Total(b, scope))
  {
    assert Singles(a + b, scope) == Singles(a, scope) + Singles(b, scope);
    SumConcat(Singles(a, scope), Singles(b, scope));
  }

  function Totals(samples: seq<seq<Score>>, scope: Scope): seq<Cell> {
    seq(|samples|, i requires 0 <= i < |samples| => Total(samples[i], scope))
  }

  lemma {:induction false} TotalOfConcat(samples: seq<seq<Score>>, scope: Scope)
    ensures Total(Concat(samples), scope) == Sum(Totals(samples, scope))
  {
    if samples != [] {
      var n := |samples| - 1;
      TotalOfConcat(samples[..n], scope);
      TotalConcat(Concat(samples[..n]), samples[n], scope);
      SumOfTotals(samples, scope);
    }
  }

  lemma SumOfTotals(samples: seq<seq<Score>>, scope: Scope)
    requires samples != []
    ensures var n := |samples| - 1;
      Sum(Totals(samples, scope)) == Plus(Sum(Totals(samples[..n], scope)), Total(samples[n], scope))
  {
    var n := |samples| - 1;
    assert Totals(samples, scope) == Totals(samples[..n], scope) + [Total(samples[n], scope)];
    SumOne(Totals(samples[..n], scope), Total(samples[n], scope));
  }

  /** What becomes of a sample's sums when they are averaged and weighed. */
  function Reweighed(cells: seq<Cell>, llm: bool): seq<Cell> {
    seq(|cells|, i requires 0 <= i < |cells| => cells[i].(valid := Weight(cells[i], llm)))
  }

  /** The questions that are counted as scored although none of their sample is. */
  function Miscounted(cells: seq<Cell>, llm: bool): nat {
    if cells == [] then 0
    else
      var last := cells[|cells| - 1];
      Miscounted(cells[..|cells| - 1], llm) + if !llm && last.valid == 0 then last.count else 0
  }

  lemma {:induction false} SumReweighed(cells: seq<Cell>, llm: bool)
    ensures var t := Sum(cells); Sum(Reweighed(cells, llm)) == t.(valid := t.valid + Miscounted(cells, llm))
  {
    if cells != [] {
      var n := |cells| - 1;
      SumReweighed(cells[..n], llm);
      assert Reweighed(cells, llm)[..n] == Reweighed(cells[..n], llm);
    }
  }

  lemma WeightOfSample(sample: seq<Score>, llm: bool, scope: Scope)
    ensures var t := Total(sample, scope);
      Weighted(CellOf(Aggregated(sample), scope), llm) == t.(valid := Weight(t, llm))
  {
    CellIsTotal(sample, scope);
    SumIsSum(Singles(sample, scope));
    WeighBack(Total(sample, scope), llm);
  }

  lemma WeightsAreReweighed(samples: seq<seq<Score>>, llm: bool, scope: Scope)
    ensures Weights(AggregatedEach(samples), llm, scope) == Reweighed(Totals(samples, scope), llm)
  {
    forall i | 0 <= i < |samples|
      ensures Weights(AggregatedEach(samples), llm, scope)[i] == Reweighed(Totals(samples, scope), llm)[i]
    {
      WeightOfSample(samples[i], llm, scope);
    }
  }

  /** Sums of sample aggregates are the sums over all questions, up to the miscount. */
  lemma SummedIsTotal(samples: seq<seq<Score>>, llm: bool, scope: Scope)
    ensures var t := Total(Concat(samples), scope);
      Summed(AggregatedEach(samples), llm, scope) == t.(valid := t.valid + Miscounted(Totals(samples, scope), llm))
  {
    WeightsAreReweighed(samples, llm, scope);
    SumReweighed(Totals(samples, scope), llm);
    TotalOfConcat(samples, scope);
  }

  lemma CategoriesConcat(a: seq<Score>, b: seq<Score>)
    ensures Categories(a + b) == Categories(a) + Categories(b)
  {
    forall c | c in Categories(b) ensures c in Categories(a + b) {
      var i :| 0 <= i < |b| && b[i].category == c;
      assert (a + b)[|a| + i] == b[i];
    }
    forall c | c in Categories(a) ensures c in Categories(a + b) {
      var i :| 0 <= i < |a| && a[i].category == c;
      assert (a + b)[i] == a[i];
    }
  }

  lemma {:induction false} SameCategories(samples: seq<seq<Score>>)
    ensures AllCategories(AggregatedEach(samples)) == Categories(Concat(samples))
  {
    if samples != [] {
      var n := |samples| - 1;
      SameCategories(samples[..n]);
      assert AggregatedEach(samples)[..n] == AggregatedEach(samples[..n]);
      CategoriesConcat(Concat(samples[..n]), samples[n]);
    }
  }

  /** Some sample has questions of category `c`, all of them with negative scores. */
  ghost predicate FailedCell(sample: seq<Score>, c: Category) {
    c in Categories(sample) && forall i :: 0 <= i < |sample| && sample[i].category == c ==> sample[i].f1 < 0.0
  }

  ghost predicate HasFailedCell(samples: seq<seq<Score>>) {
    exists i, c :: 0 <= i < |samples| && FailedCell(samples[i], c)
  }

  lemma {:induction false} MiscountedIff(cells: seq<Cell>, llm: bool)
    ensures Miscounted(cells, llm) > 0 <==>
      !llm && exists i :: 0 <= i < |cells| && cells[i].valid == 0 && cells[i].count > 0
  {
    if cells != [] {
      var n := |cells| - 1;
      MiscountedIff(cells[..n], llm);
      assert forall i :: 0 <= i < n ==> cells[..n][i] == cells[i];
    }
  }

  lemma {:induction false} SumPositive(cells: seq<Cell>)
    ensures Sum(cells).count > 0 <==> exists i :: 0 <= i < |cells| && cells[i].count > 0
    ensures Sum(cells).valid > 0 <==> exists i :: 0 <= i < |cells| && cells[i].valid > 0
  {
    if cells != [] {
      var n := |cells| - 1;
      SumPositive(cells[..n]);
      assert forall i :: 0 <= i < n ==> cells[..n][i] == cells[i];
    }
  }

  /** A cell without a valid score is a failed one, or has no questions. */
  lemma FailedCellIff(sample: seq<Score>, c: Category)
    ensures FailedCell(sample, c) <==> Total(sample, Some(c)).valid == 0 && Total(sample, Some(c)).count > 0
  {
    var cells := Singles(sample, Some(c));
    SumPositive(cells);
    assert forall i :: 0 <= i < |sample| ==>
      && (cells[i].count > 0 <==> sample[i].category == c)
      && (cells[i].valid > 0 <==> sample[i].category == c && sample[i].f1 >= 0.0);
    assert c in Categories(sample) <==> exists i :: 0 <= i < |cells| && cells[i].count > 0;
  }

  lemma CategoryMiscountedIff(samples: seq<seq<Score>>, llm: bool, c: Category)
    ensures Miscounted(Totals(samples, Some(c)), llm) > 0 <==>
      !llm && exists i :: 0 <= i < |samples| && FailedCell(samples[i], c)
  {
    var cells := Totals(samples, Some(c));
    MiscountedIff(cells, llm);
    forall i | 0 <= i < |samples|
      ensures FailedCell(samples[i], c) <==> cells[i].valid == 0 && cells[i].count > 0
    {
      FailedCellIff(samples[i], c);
    }
  }

  /** A sample without any valid score has a failed category. */
  lemma OverallMiscounted(samples: seq<seq<Score>>, llm: bool)
    requires Miscounted(Totals(samples, None), llm) > 0
    ensures !llm && HasFailedCell(samples)
  {
    var cells := Totals(samples, None);
    MiscountedIff(cells, llm);
    var i :| 0 <= i < |samples| && cells[i].valid == 0 && cells[i].count > 0;
    var sample := samples[i];
    var singles := Singles(sample, None);
    SumPositive(singles);
    assert sample != [];
    var c := sample[0].category;
    assert forall k :: 0 <= k < |sample| ==> singles[k].valid > 0 || sample[k].f1 < 0.0;
    assert c in Categories(sample);
    assert FailedCell(sample, c);
  }

  /** For any split into samples, the aggregate of the sample aggregates is the aggregate of
      all questions, overall and in every category, exactly when the mode is an llm mode or
      no sample has a category whose scores are all negative. */
  lemma AggregatesComposeIff(samples: seq<seq<Score>>, llm: bool)
    ensures Combined(AggregatedEach(samples), llm) == Aggregated(Concat(samples)) <==> llm || !HasFailedCell(samples)
  {
    SameCategories(samples);
    if llm || !HasFailedCell(samples) {
      Composes(samples, llm);
    } else {
      var i, c :| 0 <= i < |samples| && FailedCell(samples[i], c);
      DoesNotCompose(samples, llm, c);
    }
  }

  lemma Composes(samples: seq<seq<Score>>, llm: bool)
    requires llm || !HasFailedCell(samples)
    ensures Combined(AggregatedEach(samples), llm) == Aggregated(Concat(samples))
  {
    SameSums(samples, llm, None);
    SameTables(samples, llm);
  }

  lemma SameTables(samples: seq<seq<Score>>, llm: bool)
    requires llm || !HasFailedCell(samples)
    ensures SummedTable(AggregatedEach(samples), llm) == TotalTable(Concat(samples))
  {
    SameCategories(samples);
    forall c ensures Summed(AggregatedEach(samples), llm, Some(c)) == Total(Concat(samples), Some(c)) {
      SameSums(samples, llm, Some(c));
    }
    SameCells(AggregatedEach(samples), llm, Concat(samples));
  }

  lemma SameCells(aggs: seq<Aggregate>, llm: bool, scores: seq<Score>)
    requires AllCategories(aggs) == Categories(scores)
    requires forall c :: Summed(aggs, llm, Some(c)) == Total(scores, Some(c))
    ensures SummedTable(aggs, llm) == TotalTable(scores)
  {
  }

  lemma SameSums(samples: seq<seq<Score>>, llm: bool, scope: Scope)
    requires llm || !HasFailedCell(samples)
    ensures Summed(AggregatedEach(samples), llm, scope) == Total(Concat(samples), scope)
  {
    SummedIsTotal(samples, llm, scope);
    if scope.Some? {
      CategoryMiscountedIff(samples, llm, scope.value);
    } else if Miscounted(Totals(samples, None), llm) > 0 {
      OverallMiscounted(samples, llm);
    }
  }

  lemma DoesNotCompose(samples: seq<seq<Score>>, llm: bool, c: Category)
    requires !llm && exists i :: 0 <= i < |samples| && FailedCell(samples[i], c)
    ensures Combined(AggregatedEach(samples), llm) != Aggregated(Concat(samples))
  {
    var aggs, all := AggregatedEach(samples), Concat(samples);
    SameCategories(samples);
    SummedIsTotal(samples, llm, Some(c));
    CategoryMiscountedIff(samples, llm, c);
    var i :| 0 <= i < |samples| && FailedCell(samples[i], c);
    InConcat(samples, i, c);
    assert Combined(aggs, llm).byCategory[c].valid != Aggregated(all).byCategory[c].valid;
  }

  lemma {:induction false} InConcat(samples: seq<seq<Score>>, i: nat, c: Category)
    requires i < |samples| && c in Categories(samples[i])
    ensures c in Categories(Concat(samples))
  {
    var n := |samples| - 1;
    CategoriesConcat(Concat(samples[..n]), samples[n]);
    if i < n {
      InConcat(samples[..n], i, c);
    }
  }

  /** In particular it is whenever no score is negative. */
  lemma NonNegativeCompose(samples: seq<seq<Score>>, llm: bool)
    requires forall i, k :: 0 <= i < |samples| && 0 <= k < |samples[i]| ==> samples[i][k].f1 >= 0.0
    ensures Combined(AggregatedEach(samples), llm) == Aggregated(Concat(samples))
  {
    AggregatesComposeIff(samples, llm);
  }

  // ----- Token scores

  /** A question with the tokens retrieved for it, if anything was, and the tokens of its
      gold answer. */
  datatype Question = Question(category: Category, retrieved: Option<seq<string>>, gold: seq<string>, hit: real)

  /** How many tokens the two share, counted with repetition. */
  function Matches(a: seq<string>, b: seq<string>): nat {
    |multiset(a) * multiset(b)|
  }

  /** The share of both sides that matches. */
  function Overlap(a: seq<string>, b: seq<string>): real {
    if a == [] && b == [] then 1.0 else 2.0 * Matches(a, b) as real / (|a| + |b|) as real
  }

  method CountTokens(tokens: seq<string>) returns (count: map<string, nat>)
    ensures forall t :: t in count <==> t in tokens
    ensures forall t :: t in count ==> count[t] == multiset(tokens)[t]
  {
    count := map[];
    for i := 0 to |tokens|
      invariant forall t :: t in count <==> t in tokens[..i]
      invariant forall t :: t in count ==> count[t] == multiset(tokens[..i])[t]
    {
      var t := tokens[i];
      assert tokens[..i + 1] == tokens[..i] + [t];
      count := count[t := 1 + if t in count then count[t] else 0];
    }
    assert tokens[..|tokens|] == tokens;
  }

  method CountMatches(a: seq<string>, b: seq<string>) returns (matches: nat)
    ensures matches == Matches(a, b)
  {
    var refCount := CountTokens(b);
    var predCount := CountTokens(a);
    matches := 0;
    var rest := predCount.Keys;
    ghost var shared: multiset<string> := multiset{};
    while rest != {}
      invariant rest <= predCount.Keys && matches == |shared|
      invariant forall t :: shared[t] == if t in rest then 0 else (multiset(a) * multiset(b))[t]
      decreases rest
    {
      var t :| t in rest;
      rest := rest - {t};
      if t in refCount {
        var n := if predCount[t] < refCount[t] then predCount[t] else refCount[t];
        matches := matches + n;
        shared := shared[t := n];
      }
    }
    assert shared == multiset(a) * multiset(b);
  }

  /** The harmonic mean of precision and recall, as it is computed. */
  method TokenOverlapF1(retrieved: seq<string>, gold: seq<string>) returns (f1: real)
    ensures f1 == Overlap(retrieved, gold)
  {
    if |retrieved| == 0 && |gold| == 0 {
      return 1.0;
    }
    if |retrieved| == 0 || |gold| == 0 {
      assert multiset(retrieved) * multiset(gold) == multiset{};
      return 0.0;
    }
    var matches := CountMatches(retrieved, gold);
    var precision := matches as real / |retrieved| as real;
    var recall := matches as real / |gold| as real;
    HarmonicMean(matches as real, |retrieved| as real, |gold| as real);
    if precision + recall == 0.0 {
      return 0.0;
    }
    f1 := 2.0 * precision * recall / (precision + recall);
  }

  lemma HarmonicMean(m: real, a: real, b: real)
    requires m >= 0.0 && a > 0.0 && b > 0.0
    ensures var x, y := m / a, m / b;
      if x + y == 0.0 then 2.0 * m / (a + b) == 0.0 else 2.0 * x * y / (x + y) == 2.0 * m / (a + b)
  {
    var x, y := m / a, m / b;
    assert x * a == m && y * b == m;
    if x + y != 0.0 {
      assert 2.0 * x * y * (a + b) == 2.0 * y * (x * a) + 2.0 * x * (y * b) == 2.0 * m * (x + y);
      SameQuotient(2.0 * x * y, x + y, 2.0 * m, a + b);
    } else {
      assert x >= 0.0 && y >= 0.0;
    }
  }

  lemma SameQuotient(a: real, b: real, c: real, d: real)
    requires b != 0.0 && d != 0.0 && a * d == c * b
    ensures a / b == c / d
  {
    assert a / b * b == a && c / d * d == c;
    assert (a / b - c / d) * (b * d) == 0.0;
  }

  /** A token score lies between 0 and 1, and is 1 exactly when both sides hold the same
      tokens the same number of times. */
  lemma OverlapIsScore(a: seq<string>, b: seq<string>)
    ensures 0.0 <= Overlap(a, b) <= 1.0
    ensures Overlap(a, b) == 1.0 <==> multiset(a) == multiset(b)
  {
    MatchesBound(a, b);
    if a != [] || b != [] {
      ShareOf(2 * Matches(a, b), |a| + |b|);
    }
  }

  lemma MatchesBound(a: seq<string>, b: seq<string>)
    ensures 2 * Matches(a, b) <= |a| + |b|
    ensures 2 * Matches(a, b) == |a| + |b| <==> multiset(a) == multiset(b)
  {
    var x, y := multiset(a), multiset(b);
    assert |x - y| == |x| - |x * y| && |y - x| == |y| - |x * y|;
    if |x - y| == 0 && |y - x| == 0 {
      SameTokens(x, y);
    }
  }

  lemma ShareOf(m: nat, n: nat)
    requires m <= n && n > 0
    ensures 0.0 <= m as real / n as real <= 1.0
    ensures m as real / n as real == 1.0 <==> m == n
  {
    assert m as real / n as real * n as real == m as real;
  }

  lemma SameTokens(x: multiset<string>, y: multiset<string>)
    requires x - y == multiset{} && y - x == multiset{}
    ensures x == y
  {
    forall t ensures x[t] == y[t] {
      assert (x - y)[t] == 0 && (y - x)[t] == 0;
    }
  }

  /** Where nothing was retrieved the score is 0, even against an empty answer. */
  function Scored(q: Question): Score {
    match q.retrieved
    case None => Score(q.category, 0.0, 0.0)
    case Some(tokens) => Score(q.category, Overlap(tokens, q.gold), q.hit)
  }

  lemma ScoredIsScore(q: Question)
    ensures 0.0 <= Scored(q).f1 <= 1.0
    ensures Scored(q).f1 == 1.0 <==> q.retrieved.Some? && multiset(q.retrieved.value) == multiset(q.gold)
  {
    if q.retrieved.Some? {
      OverlapIsScore(q.retrieved.value, q.gold);
    }
  }

  function ScoredAll(qs: seq<Question>): seq<Score> {
    seq(|qs|, i requires 0 <= i < |qs| => Scored(qs[i]))
  }

  function ScoredEach(samples: seq<seq<Question>>): seq<seq<Score>> {
    seq(|samples|, i requires 0 <= i < |samples| => ScoredAll(samples[i]))
  }

  /** In token modes the aggregate of the sample aggregates is always the aggregate of all
      questions: their scores are never negative. */
  lemma TokenScoresCompose(samples: seq<seq<Question>>)
    ensures Combined(AggregatedEach(ScoredEach(samples)), false) == Aggregated(Concat(ScoredEach(samples)))
  {
    var scores: seq<seq<Score>> := ScoredEach(samples);
    forall i: int, k: int | 0 <= i < |scores| && 0 <= k < |scores[i]| ensures scores[i][k].f1 >= 0.0 {
      ScoredIsScore(samples[i][k]);
    }
    NonNegativeCompose(scores, false);
  }
}
