/** Compiling the block collision tables, and looking boxes up in them.

    A shape is written either as one box, six numbers, or as a list of boxes.  A block owns
    an inclusive range of state ids and names one shape for all of them or one for each. */
module Collision {
  import opened Basics

  type Row = seq<real>

  datatype Shape = One(numbers: Row) | Many(boxes: seq<Row>)

  datatype Mapping = Same(shape: nat) | Each(shapes: seq<nat>)

  datatype Block = Block(name: string, minState: nat, maxState: nat)

  datatype Error =
    | NoShapes
    | NotDense
    | NoBlocks
    | MissingMapping(name: string)
    | CountMismatch(name: string)
    | Gaps

  datatype Result<T> = Ok(value: T) | Err(error: Error)

  datatype Tables = Tables(stateShapes: seq<nat>, shapeRanges: seq<(nat, nat)>, flatBoxes: seq<Row>)

  function Normalised(shape: Shape): seq<Row> {
    match shape
    case One(numbers) => if numbers == [] then [] else [numbers]
    case Many(boxes) => boxes
  }

  /** The lookup of the physics code. */
  function CollisionBoxes(t: Tables, state: nat): Option<seq<Row>> {
    if state >= |t.stateShapes| || t.stateShapes[state] >= |t.shapeRanges| then None
    else
      var (start, count) := t.shapeRanges[t.stateShapes[state]];
      if start + count > |t.flatBoxes| then None else Some(t.flatBoxes[start..start + count])
  }

  // ------------------------------------------------------------- what the source assigns

  predicate Covers(b: Block, state: nat) {
    b.minState <= state <= b.maxState
  }

  function Size(b: Block): int {
    b.maxState - b.minState + 1
  }

  /** Why a block cannot be compiled, if it cannot. */
  function Fault(b: Block, mappings: map<string, Mapping>): Option<Error> {
    if b.name !in mappings then Some(MissingMapping(b.name))
    else
      match mappings[b.name]
      case Same(_) => if Size(b) < 0 then Some(CountMismatch(b.name)) else None
      case Each(shapes) => if |shapes| != Size(b) then Some(CountMismatch(b.name)) else None
  }

  /** The shape a block gives to one of its states. */
  function ShapeOf(b: Block, mappings: map<string, Mapping>, state: nat): nat
    requires Fault(b, mappings).None? && Covers(b, state)
  {
    match mappings[b.name]
    case Same(shape) => shape
    case Each(shapes) => shapes[state - b.minState]
  }

  /** `i` is the last of the first `n` blocks that cover the state. */
  ghost predicate LastCover(blocks: seq<Block>, n: nat, state: nat, i: nat) {
    && i < n <= |blocks| && Covers(blocks[i], state)
    && forall j :: i < j < n ==> !Covers(blocks[j], state)
  }

  ghost predicate Disjoint(blocks: seq<Block>) {
    forall i, j, state: nat :: 0 <= i < j < |blocks| && Covers(blocks[i], state) ==> !Covers(blocks[j], state)
  }

  ghost predicate Compilable(blocks: seq<Block>, n: nat, mappings: map<string, Mapping>)
    requires n <= |blocks|
  {
    forall i :: 0 <= i < n ==> Fault(blocks[i], mappings).None?
  }

  /** An entry holds what the last of the first `n` covering blocks gave it. */
  ghost predicate Holds(blocks: seq<Block>, n: nat, mappings: map<string, Mapping>, state: nat, entry: Option<nat>)
    requires n <= |blocks| && Compilable(blocks, n, mappings)
  {
    match entry
    case None => forall j :: 0 <= j < n ==> !Covers(blocks[j], state)
    case Some(shape) => exists i: nat :: LastCover(blocks, n, state, i) && shape == ShapeOf(blocks[i], mappings, state)
  }

  lemma NextBlock(blocks: seq<Block>, n: nat, mappings: map<string, Mapping>, state: nat, entry: Option<nat>)
    requires n < |blocks| && Compilable(blocks, n + 1, mappings)
    requires !Covers(blocks[n], state) ==> Holds(blocks, n, mappings, state, entry)
    requires Covers(blocks[n], state) ==> entry == Some(ShapeOf(blocks[n], mappings, state))
    ensures Holds(blocks, n + 1, mappings, state, entry)
  {
  }

  // --------------------------------------------------------------------- the compiler

  /** The largest state id. */
  method MaxState(blocks: seq<Block>) returns (top: nat)
    requires blocks != []
    ensures forall i :: 0 <= i < |blocks| ==> blocks[i].maxState <= top
    ensures exists i :: 0 <= i < |blocks| && blocks[i].maxState == top
  {
    top := blocks[0].maxState;
    for n := 1 to |blocks|
      invariant forall i :: 0 <= i < n ==> blocks[i].maxState <= top
      invariant exists i :: 0 <= i < n && blocks[i].maxState == top
    {
      if blocks[n].maxState > top {
        top := blocks[n].maxState;
      }
    }
  }

  /** Writes one block's shapes over its range and nothing else. */
  method FillBlock(b: Block, mappings: map<string, Mapping>, table: seq<Option<nat>>)
    returns (r: Result<seq<Option<nat>>>)
    requires b.maxState < |table|
    ensures r.Err? <==> Fault(b, mappings).Some?
    ensures r.Err? ==> r.error == Fault(b, mappings).value
    ensures r.Ok? ==> |r.value| == |table|
    ensures r.Ok? ==> forall s :: 0 <= s < |table| ==>
                        r.value[s] == if Covers(b, s) then Some(ShapeOf(b, mappings, s)) else table[s]
  {
    if b.name !in mappings {
      return Err(MissingMapping(b.name));
    }
    var count := Size(b);
    var ids := match mappings[b.name]
      case Same(shape) => if count < 0 then [] else seq(count, _ => shape)
      case Each(shapes) => shapes;
    if |ids| != count {
      return Err(CountMismatch(b.name));
    }
    var filled := table;
    for offset := 0 to |ids|
      invariant |filled| == |table|
      invariant forall s :: 0 <= s < |table| ==>
                  filled[s] == if b.minState <= s < b.minState + offset then Some(ids[s - b.minState]) else table[s]
    {
      filled := filled[b.minState + offset := Some(ids[offset])];
    }
    r := Ok(filled);
  }

  /** The first block that cannot be compiled decides the error; otherwise every state holds
      what the last block covering it says. */
  method FillStates(blocks: seq<Block>, mappings: map<string, Mapping>, top: nat)
    returns (r: Result<seq<Option<nat>>>)
    requires forall i :: 0 <= i < |blocks| ==> blocks[i].maxState <= top
    ensures r.Ok? ==> Compilable(blocks, |blocks|, mappings) && |r.value| == top + 1
    ensures r.Ok? ==> forall s: nat :: s < |r.value| ==> Holds(blocks, |blocks|, mappings, s, r.value[s])
    ensures r.Err? ==> FirstFault(blocks, mappings, r.error)
  {
    var table := seq(top + 1, _ => None);
    for n := 0 to |blocks|
      invariant |table| == top + 1 && Compilable(blocks, n, mappings)
      invariant forall s: nat :: s < |table| ==> Holds(blocks, n, mappings, s, table[s])
    {
      var filled := FillBlock(blocks[n], mappings, table);
      if filled.Err? {
        assert FaultAt(blocks, mappings, n, filled.error);
        return Err(filled.error);
      }
      forall s: nat | s < |table|
        ensures Holds(blocks, n + 1, mappings, s, filled.value[s])
      {
        NextBlock(blocks, n, mappings, s, filled.value[s]);
      }
      table := filled.value;
    }
    r := Ok(table);
  }

  ghost predicate FirstFault(blocks: seq<Block>, mappings: map<string, Mapping>, e: Error) {
    exists n: nat :: FaultAt(blocks, mappings, n, e)
  }

  ghost predicate FaultAt(blocks: seq<Block>, mappings: map<string, Mapping>, n: nat, e: Error) {
    n < |blocks| && Compilable(blocks, n, mappings) && Fault(blocks[n], mappings) == Some(e)
  }

  /** The ranges follow one another without gap or overlap and end with the boxes. */
  ghost predicate Tiles(ranges: seq<(nat, nat)>, total: nat) {
    && (forall i :: 0 < i < |ranges| ==> ranges[i].0 == ranges[i - 1].0 + ranges[i - 1].1)
    && (if ranges == [] then total == 0
        else ranges[0].0 == 0 && ranges[|ranges| - 1].0 + ranges[|ranges| - 1].1 == total)
  }

  ghost predicate Laid(shapes: seq<seq<Row>>, n: nat, ranges: seq<(nat, nat)>, flat: seq<Row>) {
    && n <= |shapes| && |ranges| == n && Tiles(ranges, |flat|)
    && forall i :: 0 <= i < n ==> InRange(ranges[i], flat, shapes[i])
  }

  lemma LaidNext(shapes: seq<seq<Row>>, n: nat, ranges: seq<(nat, nat)>, flat: seq<Row>)
    requires n < |shapes| && Laid(shapes, n, ranges, flat)
    ensures Laid(shapes, n + 1, ranges + [(|flat|, |shapes[n]|)], flat + shapes[n])
  {
    var more := ranges + [(|flat|, |shapes[n]|)];
    TilesNext(ranges, |flat|, |shapes[n]|);
    forall i | 0 <= i < n + 1
      ensures InRange(more[i], flat + shapes[n], shapes[i])
    {
      if i < n {
        StillInRange(ranges[i], flat, shapes[n], shapes[i]);
      } else {
        LastInRange(flat, shapes[n]);
      }
    }
  }

  lemma TilesNext(ranges: seq<(nat, nat)>, total: nat, count: nat)
    requires Tiles(ranges, total)
    ensures Tiles(ranges + [(total, count)], total + count)
  {
  }

  lemma LastInRange(flat: seq<Row>, boxes: seq<Row>)
    ensures InRange((|flat|, |boxes|), flat + boxes, boxes)
  {
  }

  /** Laying the shapes end to end: the ranges tile the boxes and give back each shape. */
  method Flatten(shapes: seq<seq<Row>>) returns (ranges: seq<(nat, nat)>, flat: seq<Row>)
    ensures |ranges| == |shapes| && Tiles(ranges, |flat|)
    ensures forall i :: 0 <= i < |shapes| ==> InRange(ranges[i], flat, shapes[i])
  {
    ranges, flat := [], [];
    for n := 0 to |shapes|
      invariant Laid(shapes, n, ranges, flat)
    {
      LaidNext(shapes, n, ranges, flat);
      var start := |flat|;
      flat := flat + shapes[n];
      ranges := ranges + [(start, |shapes[n]|)];
    }
  }

  lemma StillInRange(range: (nat, nat), flat: seq<Row>, more: seq<Row>, boxes: seq<Row>)
    requires InRange(range, flat, boxes)
    ensures InRange(range, flat + more, boxes)
  {
    assert (flat + more)[range.0..range.0 + range.1] == flat[range.0..range.0 + range.1];
  }

  predicate InRange(range: (nat, nat), flat: seq<Row>, boxes: seq<Row>) {
    range.0 + range.1 <= |flat| && flat[range.0..range.0 + range.1] == boxes
  }

  /** The ids are 0, 1, 2 and so on. */
  ghost predicate Dense(shapes: map<nat, Shape>) {
    shapes != map[] && forall i: nat :: i in shapes <==> i < |shapes|
  }

  /** The shapes in the order of their ids. */
  method ListShapes(shapes: map<nat, Shape>) returns (r: Result<seq<seq<Row>>>)
    ensures r.Ok? <==> Dense(shapes)
    ensures r.Err? ==> r.error == if shapes == map[] then NoShapes else NotDense
    ensures r.Ok? ==> |r.value| == |shapes| && forall i :: 0 <= i < |shapes| ==> r.value[i] == Normalised(shapes[i])
  {
    if shapes == map[] {
      return Err(NoShapes);
    }
    if exists i <- shapes.Keys :: i >= |shapes| {
      return Err(NotDense);
    }
    assert |shapes.Keys| == |shapes|;
    EnoughIsAll(shapes.Keys, |shapes|);
    var list := [];
    for n := 0 to |shapes|
      invariant |list| == n && forall i :: 0 <= i < n ==> list[i] == Normalised(shapes[i])
    {
      list := list + [Normalised(shapes[n])];
    }
    r := Ok(list);
  }

  /** No state is left without a shape. */
  method CloseGaps(table: seq<Option<nat>>) returns (r: Result<seq<nat>>)
    ensures r.Err? ==> r.error == Gaps && None in table
    ensures r.Ok? ==> |r.value| == |table| && forall s :: 0 <= s < |table| ==> table[s] == Some(r.value[s])
  {
    var closed := [];
    for n := 0 to |table|
      invariant |closed| == n && forall s :: 0 <= s < n ==> table[s] == Some(closed[s])
    {
      if table[n].None? {
        return Err(Gaps);
      }
      closed := closed + [table[n].value];
    }
    r := Ok(closed);
  }

  /** What a correct set of tables gives for one state. */
  ghost predicate Agrees(t: Tables, shapes: map<nat, Shape>, blocks: seq<Block>, mappings: map<string, Mapping>, state: nat)
    requires Compilable(blocks, |blocks|, mappings)
  {
    exists i: nat ::
      && LastCover(blocks, |blocks|, state, i)
      && CollisionBoxes(t, state) == SourceBoxes(shapes, ShapeOf(blocks[i], mappings, state))
  }

  ghost function SourceBoxes(shapes: map<nat, Shape>, shape: nat): Option<seq<Row>> {
    if shape in shapes then Some(Normalised(shapes[shape])) else None
  }

  /** The compiled tables agree with the source for every state; each refusal has its reason. */
  method Compile(shapes: map<nat, Shape>, blocks: seq<Block>, mappings: map<string, Mapping>) returns (r: Result<Tables>)
    ensures r.Ok? <==> Dense(shapes) && blocks != [] && Compilable(blocks, |blocks|, mappings) && !HasGap(blocks)
    ensures r.Ok? ==> Tiles(r.value.shapeRanges, |r.value.flatBoxes|) && |r.value.shapeRanges| == |shapes|
    ensures r.Ok? ==> forall s: nat :: s < |r.value.stateShapes| ==> Agrees(r.value, shapes, blocks, mappings, s)
    ensures r.Ok? ==> forall i, s: nat :: 0 <= i < |blocks| && Covers(blocks[i], s) ==> s < |r.value.stateShapes|
    ensures !Dense(shapes) ==> r == Err(if shapes == map[] then NoShapes else NotDense)
    ensures Dense(shapes) && blocks == [] ==> r == Err(NoBlocks)
    ensures Dense(shapes) && blocks != [] && !Compilable(blocks, |blocks|, mappings) ==>
              r.Err? && FirstFault(blocks, mappings, r.error)
    ensures Dense(shapes) && blocks != [] && Compilable(blocks, |blocks|, mappings) && HasGap(blocks) ==> r == Err(Gaps)
  {
    var list := ListShapes(shapes);
    if list.Err? {
      return Err(list.error);
    }
    if blocks == [] {
      return Err(NoBlocks);
    }
    var top := MaxState(blocks);
    var table := FillStates(blocks, mappings, top);
    if table.Err? {
      return Err(table.error);
    }
    var states := CloseGaps(table.value);
    if states.Err? {
      GapFound(blocks, mappings, top, table.value);
      return Err(Gaps);
    }
    NoGapLeft(blocks, mappings, top, table.value);
    var ranges, flat := Flatten(list.value);
    var t := Tables(states.value, ranges, flat);
    forall s: nat | s < |states.value|
      ensures Agrees(t, shapes, blocks, mappings, s)
    {
      assert Holds(blocks, |blocks|, mappings, s, table.value[s]);
      LookupAgrees(t, shapes, blocks, mappings, s);
    }
    r := Ok(t);
  }

  /** Some id below the largest is covered by no block. */
  ghost predicate HasGap(blocks: seq<Block>) {
    exists i, s: nat :: 0 <= i < |blocks| && s <= blocks[i].maxState && Uncovered(blocks, s)
  }

  ghost predicate Uncovered(blocks: seq<Block>, s: nat) {
    forall j :: 0 <= j < |blocks| ==> !Covers(blocks[j], s)
  }

  lemma GapFound(blocks: seq<Block>, mappings: map<string, Mapping>, top: nat, table: seq<Option<nat>>)
    requires Compilable(blocks, |blocks|, mappings) && |table| == top + 1 && None in table
    requires exists i :: 0 <= i < |blocks| && blocks[i].maxState == top
    requires forall s: nat :: s < |table| ==> Holds(blocks, |blocks|, mappings, s, table[s])
    ensures HasGap(blocks)
  {
    var i :| 0 <= i < |blocks| && blocks[i].maxState == top;
    var s: nat :| s < |table| && table[s] == None;
    assert Uncovered(blocks, s);
  }

  lemma NoGapLeft(blocks: seq<Block>, mappings: map<string, Mapping>, top: nat, table: seq<Option<nat>>)
    requires Compilable(blocks, |blocks|, mappings) && |table| == top + 1 && None !in table
    requires forall i :: 0 <= i < |blocks| ==> blocks[i].maxState <= top
    requires forall s: nat :: s < |table| ==> Holds(blocks, |blocks|, mappings, s, table[s])
    ensures !HasGap(blocks)
  {
    forall s: nat | s <= top
      ensures !Uncovered(blocks, s)
    {
      assert Holds(blocks, |blocks|, mappings, s, table[s]) && table[s] in table;
    }
  }

  lemma LookupAgrees(t: Tables, shapes: map<nat, Shape>, blocks: seq<Block>, mappings: map<string, Mapping>, s: nat)
    requires Dense(shapes) && |t.shapeRanges| == |shapes| && s < |t.stateShapes|
    requires forall i :: 0 <= i < |shapes| ==> InRange(t.shapeRanges[i], t.flatBoxes, Normalised(shapes[i]))
    requires Compilable(blocks, |blocks|, mappings)
    requires Holds(blocks, |blocks|, mappings, s, Some(t.stateShapes[s]))
    ensures Agrees(t, shapes, blocks, mappings, s)
  {
  }

  /** When no two blocks share a state, every block's states look up to its own shapes. */
  lemma DisjointBlocksKeepTheirShapes(t: Tables, shapes: map<nat, Shape>, blocks: seq<Block>,
                                      mappings: map<string, Mapping>, i: nat, s: nat)
    requires Compilable(blocks, |blocks|, mappings) && Disjoint(blocks)
    requires i < |blocks| && Covers(blocks[i], s)
    requires Agrees(t, shapes, blocks, mappings, s)
    ensures CollisionBoxes(t, s) == SourceBoxes(shapes, ShapeOf(blocks[i], mappings, s))
  {
  }

  /** A shape written as one box is that box, one written as a list is that list, and an empty
      one has no box; a block gives all its states the one shape it names, or state `min + k`
      the one at position `k` of its list. */
  lemma ShapesInPlainWords(numbers: Row, boxes: seq<Row>, b: Block, mappings: map<string, Mapping>, k: nat)
    requires b.name in mappings && b.minState + k <= b.maxState
    ensures Normalised(Many(boxes)) == boxes && Normalised(One([])) == []
    ensures numbers != [] ==> |Normalised(One(numbers))| == 1 && Normalised(One(numbers))[0] == numbers
    ensures mappings[b.name].Same? ==>
              Fault(b, mappings) == None && ShapeOf(b, mappings, b.minState + k) == mappings[b.name].shape
    ensures mappings[b.name].Each? ==>
              (Fault(b, mappings) == None <==> |mappings[b.name].shapes| == b.maxState - b.minState + 1)
    ensures mappings[b.name].Each? && Fault(b, mappings) == None ==>
              ShapeOf(b, mappings, b.minState + k) == mappings[b.name].shapes[k]
  {
  }

  /** A compiled table with one block of two states and one shape for each. */
  method TwoStates() returns (t: Tables)
    ensures CollisionBoxes(t, 0) == Some([[0.0, 1.0]])
    ensures CollisionBoxes(t, 1) == Some([[2.0], [3.0]])
  {
    var shapes := map[0 := Many([[2.0], [3.0]]), 1 := One([0.0, 1.0])];
    var b := Block("b", 0, 1);
    var mappings := map["b" := Each([1, 0])];
    assert shapes.Keys == {0, 1};
    assert |shapes.Keys| == |shapes|;
    ShapesInPlainWords([0.0], [], b, mappings, 0);
    ShapesInPlainWords([0.0], [], b, mappings, 1);
    assert Covers(b, 0) && Covers(b, 1);
    var r := Compile(shapes, [b], mappings);
    assert forall s: nat :: s <= 1 ==> [b][0] == b && !Uncovered([b], s);
    assert !HasGap([b]);
    t := r.value;
    StateLooksUp(t, shapes, b, mappings, 0);
    StateLooksUp(t, shapes, b, mappings, 1);
  }

  lemma StateLooksUp(t: Tables, shapes: map<nat, Shape>, b: Block, mappings: map<string, Mapping>, s: nat)
    requires Fault(b, mappings) == None && Covers(b, s) && s < |t.stateShapes|
    requires Agrees(t, shapes, [b], mappings, s)
    ensures CollisionBoxes(t, s) == SourceBoxes(shapes, ShapeOf(b, mappings, s))
  {
    DisjointBlocksKeepTheirShapes(t, shapes, [b], mappings, 0, s);
  }
}
