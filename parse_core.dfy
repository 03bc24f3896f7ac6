/**
 * What every item parser of the loader shares (MHX2Model::IItem): the result
 * of a parse (did it succeed, the value it leaves behind, the log lines it
 * appended), the lists of child items a parser builds one fresh child at a
 * time, and the three by-reference readers of numbers: ParseColor,
 * ParseVector (and the UV coordinate reader, which works the same way) and
 * ParseMatrix.
 */
module ParseCore {
  import opened Wrappers
  import opened Json
  import opened Logging
  import opened Math3D

  /** The outcome of a parse: success, the state it leaves behind, and the log lines it appended. */
  datatype Parsed<T> = Parsed(ok: bool, value: T, log: seq<string>)
  {
    /** This parse followed by the next one: the next one decides, the log lines add up. */
    function Then(next: Parsed<T>): Parsed<T> {
      Parsed(next.ok, next.value, log + next.log)
    }
  }

  /** A value read without complaint. */
  function Done<T>(v: T): Parsed<T> {
    Parsed(true, v, [])
  }

  /** An unknown key: the item is left as it was, one warning is logged, and parsing goes on. */
  function Warn<T>(v: T, j: Json, message: string): Parsed<T> {
    Parsed(true, v, [JsonLine(Some(j), message)])
  }

  /** A JSON type the item does not handle: one line is logged and the parse fails. */
  function Refuse<T>(v: T, j: Json, message: string): Parsed<T> {
    Parsed(false, v, [JsonLine(Some(j), message)])
  }

  /**
   * A list of child items: each child of the container is parsed into a
   * fresh item and appended once it parsed; the first child that fails
   * stops the list (the children before it stay appended).
   */
  function ParseList<T>(cs: seq<Json>, element: Json -> Parsed<T>): (r: Parsed<seq<T>>)
    decreases |cs|
  {
    if cs == [] then Parsed(true, [], [])
    else
      var e := element(cs[0]);
      if !e.ok then Parsed(false, [], e.log)
      else
        var rest := ParseList(cs[1..], element);
        Parsed(rest.ok, [e.value] + rest.value, e.log + rest.log)
  }

  lemma {:induction false} ParseListFacts<T>(cs: seq<Json>, element: Json -> Parsed<T>)
    ensures var r := ParseList(cs, element);
      && |r.value| <= |cs|
      && (forall k | 0 <= k < |r.value| :: element(cs[k]).ok && r.value[k] == element(cs[k]).value)
      && (r.ok <==> forall k | 0 <= k < |cs| :: element(cs[k]).ok)
      && (r.ok ==> |r.value| == |cs|)
      && (!r.ok ==> |r.value| < |cs| && !element(cs[|r.value|]).ok)
    decreases |cs|
  {
    if cs != [] {
      ParseListFacts(cs[1..], element);
      var r := ParseList(cs, element);
      if element(cs[0]).ok {
        var rest := ParseList(cs[1..], element);
        assert r.value == [element(cs[0]).value] + rest.value;
        forall k | 1 <= k < |cs| ensures cs[1..][k - 1] == cs[k] { }
        if r.ok {
          forall k | 0 <= k < |cs| ensures element(cs[k]).ok {
            if k > 0 { assert element(cs[1..][k - 1]).ok; }
          }
        }
        if !rest.ok {
          assert !element(cs[1..][|rest.value|]).ok;
        }
      }
    }
  }

  /**
   * A marker with no content. A fact guarded by At(k) is only used by the
   * verifier where a proof mentions At(k): loop invariants stated with it
   * stay folded in the methods that carry them and are opened by the lemmas
   * that step them.
   */
  ghost predicate At(k: nat) {
    true
  }

  /**
   * A list walked up to child i: the items got so far and the lines logged
   * so far, followed by the list of the remaining children, make up the
   * whole list.
   */
  ghost predicate ListSoFar<T>(cs: seq<Json>, i: nat, element: Json -> Parsed<T>, got: seq<T>, done: seq<string>) {
    forall k: nat | At(k) && k == i :: ListFrom(cs, k, element, got, done)
  }

  ghost predicate ListFrom<T>(cs: seq<Json>, i: nat, element: Json -> Parsed<T>, got: seq<T>, done: seq<string>) {
    i <= |cs| && var r := ParseList(cs[i..], element); ParseList(cs, element) == Parsed(r.ok, got + r.value, done + r.log)
  }

  lemma ListStart<T>(cs: seq<Json>, element: Json -> Parsed<T>)
    ensures ListSoFar(cs, 0, element, [], [])
  {
    forall k: nat | At(k) && k == 0
      ensures ListFrom(cs, k, element, [], [])
    {
      var r := ParseList(cs, element);
      assert cs[k..] == cs;
      assert [] + r.value == r.value && [] + r.log == r.log;
    }
  }

  /** One more child: appended when it parsed; when it failed, the list is what was got so far. */
  lemma ListStep<T>(cs: seq<Json>, i: nat, element: Json -> Parsed<T>, got: seq<T>, done: seq<string>)
    requires i < |cs| && ListSoFar(cs, i, element, got, done)
    ensures var e := element(cs[i]);
      && (e.ok ==> ListSoFar(cs, i + 1, element, got + [e.value], done + e.log))
      && (!e.ok ==> ParseList(cs, element) == Parsed(false, got, done + e.log))
  {
    assert At(i);
    ListFromStep(cs, i, element, got, done);
    var e := element(cs[i]);
    if e.ok {
      ListFromAt(cs, i + 1, element, got + [e.value], done + e.log);
    }
  }

  lemma ListFromStep<T>(cs: seq<Json>, i: nat, element: Json -> Parsed<T>, got: seq<T>, done: seq<string>)
    requires i < |cs| && ListFrom(cs, i, element, got, done)
    ensures var e := element(cs[i]);
      && (e.ok ==> ListFrom(cs, i + 1, element, got + [e.value], done + e.log))
      && (!e.ok ==> ParseList(cs, element) == Parsed(false, got, done + e.log))
  {
    assert cs[i..][0] == cs[i] && cs[i..][1..] == cs[i + 1..];
    var e := element(cs[i]);
    var r := ParseList(cs[i..], element);
    if e.ok {
      var rest := ParseList(cs[i + 1..], element);
      assert r == Parsed(rest.ok, [e.value] + rest.value, e.log + rest.log);
      ConcatAssoc(got, [e.value], rest.value);
      ConcatAssoc(done, e.log, rest.log);
    } else {
      assert r == Parsed(false, [], e.log);
      assert got + [] == got;
    }
  }

  lemma ConcatAssoc<U>(a: seq<U>, b: seq<U>, c: seq<U>)
    ensures a + (b + c) == (a + b) + c
  {
  }

  lemma ListFromAt<T>(cs: seq<Json>, i: nat, element: Json -> Parsed<T>, got: seq<T>, done: seq<string>)
    requires ListFrom(cs, i, element, got, done)
    ensures ListSoFar(cs, i, element, got, done)
  {
  }

  lemma ListEnd<T>(cs: seq<Json>, element: Json -> Parsed<T>, got: seq<T>, done: seq<string>)
    requires ListSoFar(cs, |cs|, element, got, done)
    ensures ParseList(cs, element) == Parsed(true, got, done)
  {
    assert At(|cs|) && ListFrom(cs, |cs|, element, got, done);
    assert cs[|cs|..] == [];
    assert ParseList(cs[|cs|..], element) == Parsed(true, [], []);
    assert got + [] == got && done + [] == done;
  }

  /**
   * The children of a container walked up to child i, all parsed into one
   * item: starting from start, the lines logged so far followed by the walk
   * of the remaining children from the item's current value v make up the
   * walk of them all.
   */
  ghost predicate WalkSoFar<T>(walk: (seq<Json>, T) -> Parsed<T>, cs: seq<Json>, i: nat, start: T, done: seq<string>, v: T) {
    forall k: nat | At(k) && k == i :: WalkFrom(walk, cs, k, start, done, v)
  }

  ghost predicate WalkFrom<T>(walk: (seq<Json>, T) -> Parsed<T>, cs: seq<Json>, i: nat, start: T, done: seq<string>, v: T) {
    i <= |cs| && var r := walk(cs[i..], v); walk(cs, start) == Parsed(r.ok, r.value, done + r.log)
  }

  lemma WalkStart<T>(walk: (seq<Json>, T) -> Parsed<T>, cs: seq<Json>, v: T)
    ensures WalkSoFar(walk, cs, 0, v, [], v)
  {
    forall k: nat | At(k) && k == 0
      ensures WalkFrom(walk, cs, k, v, [], v)
    {
      assert cs[k..] == cs;
    }
  }

  /**
   * One more child, given how the walk takes a step: the walk goes on from
   * the child's result when it parsed, and stops with that result when it failed.
   */
  lemma WalkStep<T>(walk: (seq<Json>, T) -> Parsed<T>, one: (Json, T) -> Parsed<T>,
                    cs: seq<Json>, i: nat, start: T, done: seq<string>, v: T)
    requires i < |cs| && WalkSoFar(walk, cs, i, start, done, v)
    requires var f := one(cs[i], v); walk(cs[i..], v) == if !f.ok then f else f.Then(walk(cs[i + 1..], f.value))
    ensures var f := one(cs[i], v);
      && (f.ok ==> WalkSoFar(walk, cs, i + 1, start, done + f.log, f.value))
      && (!f.ok ==> walk(cs, start) == Parsed(false, f.value, done + f.log))
  {
    assert At(i) && WalkFrom(walk, cs, i, start, done, v);
    var f := one(cs[i], v);
    if f.ok {
      var rest := walk(cs[i + 1..], f.value);
      assert done + (f.log + rest.log) == (done + f.log) + rest.log;
      assert WalkFrom(walk, cs, i + 1, start, done + f.log, f.value);
      forall k: nat | At(k) && k == i + 1
        ensures WalkFrom(walk, cs, k, start, done + f.log, f.value)
      {
      }
    }
  }

  lemma WalkEnd<T>(walk: (seq<Json>, T) -> Parsed<T>, cs: seq<Json>, start: T, done: seq<string>, v: T)
    requires WalkSoFar(walk, cs, |cs|, start, done, v)
    requires walk([], v) == Parsed(true, v, [])
    ensures walk(cs, start) == Parsed(true, v, done)
  {
    assert At(|cs|) && WalkFrom(walk, cs, |cs|, start, done, v);
    assert cs[|cs|..] == [];
  }

  /**
   * The walk of all the children from start ended with result ok, value v
   * and the lines logged; kept behind At so that a method's proof does not
   * unfold the walk.
   */
  ghost predicate WalkOver<T>(walk: (seq<Json>, T) -> Parsed<T>, cs: seq<Json>, start: T, ok: bool, done: seq<string>, v: T) {
    forall k: nat | At(k) && k == 0 :: walk(cs, start) == Parsed(ok, v, done)
  }

  lemma WalkOverOf<T>(walk: (seq<Json>, T) -> Parsed<T>, cs: seq<Json>, start: T, ok: bool, done: seq<string>, v: T)
    requires walk(cs, start) == Parsed(ok, v, done)
    ensures WalkOver(walk, cs, start, ok, done, v)
  {
  }

  lemma WalkOverResult<T>(walk: (seq<Json>, T) -> Parsed<T>, cs: seq<Json>, start: T, ok: bool, done: seq<string>, v: T)
    requires WalkOver(walk, cs, start, ok, done, v)
    ensures walk(cs, start) == Parsed(ok, v, done)
  {
    assert At(0);
  }

  /** The walk at its last child, given that the walk of no children parses and logs nothing. */
  lemma WalkEndOver<T>(walk: (seq<Json>, T) -> Parsed<T>, cs: seq<Json>, start: T, done: seq<string>, v: T)
    requires WalkSoFar(walk, cs, |cs|, start, done, v)
    requires walk([], v) == Parsed(true, v, [])
    ensures WalkOver(walk, cs, start, true, done, v)
  {
    WalkEnd(walk, cs, start, done, v);
    WalkOverOf(walk, cs, start, true, done, v);
  }

  // ---------------------------------------------------------------------
  // ParseVector, ParseColor and IUVCoordItem::Parse: numbers fill slots

  /** The two messages a slot reader logs. */
  datatype SlotMessages = SlotMessages(outOfBounds: string, unknownType: string)

  const VECTOR_MESSAGES := SlotMessages("Parse vector - index is out of bounds", "Parse vector - unknown type")
  const COLOR_MESSAGES := SlotMessages("Parse color - index is out of bounds", "Parse color - unknown type")
  const UV_MESSAGES := SlotMessages("Parse uv coords - index is out of bounds", "Parse uv coords - unknown type")

  /** The outcome of a slot reader: success, the slots, the shared index and the appended log lines. */
  datatype SlotsResult = SlotsResult(ok: bool, slots: seq<real>, index: nat, log: seq<string>)

  /**
   * Reads the numbers of a document into the slots (X, Y, Z of a vector;
   * R, G, B, A of a color; X, Y of a UV coordinate): a node reached when
   * the index has passed the last slot fails; objects and arrays are walked
   * child by child, stopping at the first failure; a number is stored at
   * the index, which then moves on; any other node fails.
   */
  function ParseSlots(j: Json, slots: seq<real>, index: nat, msgs: SlotMessages): (r: SlotsResult)
    decreases j
    ensures |r.slots| == |slots|
    ensures r.ok ==> r.log == []
    ensures !r.ok ==> |r.log| == 1
  {
    if index >= |slots| then SlotsResult(false, slots, index, [JsonValueLine(Some(j), msgs.outOfBounds, index)])
    else if IsContainer(j) then ParseSlotsSeq(Children(j), slots, index, msgs)
    else if IsNumber(j) then SlotsResult(true, slots[index := NumberValue(j)], index + 1, [])
    else SlotsResult(false, slots, index, [JsonLine(Some(j), msgs.unknownType)])
  }

  function ParseSlotsSeq(cs: seq<Json>, slots: seq<real>, index: nat, msgs: SlotMessages): (r: SlotsResult)
    decreases cs
    ensures |r.slots| == |slots|
    ensures r.ok ==> r.log == []
    ensures !r.ok ==> |r.log| == 1
  {
    if cs == [] then SlotsResult(true, slots, index, [])
    else
      var first := ParseSlots(cs[0], slots, index, msgs);
      if !first.ok then first else ParseSlotsSeq(cs[1..], first.slots, first.index, msgs)
  }

  /**
   * The same reader over the nodes of the document flattened in pre-order:
   * a reference definition without recursion into the tree.
   */
  function RunSlots(nodes: seq<Json>, slots: seq<real>, index: nat, msgs: SlotMessages): (r: SlotsResult)
    decreases |nodes|
  {
    if nodes == [] then SlotsResult(true, slots, index, [])
    else if index >= |slots| then SlotsResult(false, slots, index, [JsonValueLine(Some(nodes[0]), msgs.outOfBounds, index)])
    else if IsContainer(nodes[0]) then RunSlots(nodes[1..], slots, index, msgs)
    else if IsNumber(nodes[0]) then RunSlots(nodes[1..], slots[index := NumberValue(nodes[0])], index + 1, msgs)
    else SlotsResult(false, slots, index, [JsonLine(Some(nodes[0]), msgs.unknownType)])
  }

  /** The numbers among the nodes, in order. */
  function Numbers(nodes: seq<Json>): (ns: seq<real>)
    decreases |nodes|
    ensures |ns| <= |nodes|
  {
    if nodes == [] then []
    else if IsNumber(nodes[0]) then [NumberValue(nodes[0])] + Numbers(nodes[1..])
    else Numbers(nodes[1..])
  }

  /** The numbers of a document in document order, at any depth of nesting. */
  function Leaves(j: Json): seq<real> {
    Numbers(PreOrder(j))
  }

  /** Every node is an object, an array or a number. */
  predicate OnlyNumbers(nodes: seq<Json>) {
    forall k | 0 <= k < |nodes| :: IsContainer(nodes[k]) || IsNumber(nodes[k])
  }

  /** A first node that is a container or a number leaves the question to the rest. */
  lemma OnlyNumbersCons(nodes: seq<Json>)
    requires nodes != []
    ensures OnlyNumbers(nodes) <==> (IsContainer(nodes[0]) || IsNumber(nodes[0])) && OnlyNumbers(nodes[1..])
  {
    if (IsContainer(nodes[0]) || IsNumber(nodes[0])) && OnlyNumbers(nodes[1..]) {
      forall k | 0 <= k < |nodes| ensures IsContainer(nodes[k]) || IsNumber(nodes[k]) {
        if k > 0 { assert nodes[k] == nodes[1..][k - 1]; }
      }
    }
  }

  /**
   * The nodes can be walked while a slot is free: no more numbers than
   * free slots, and once the numbers fill the last slot, no node follows.
   */
  predicate Fits(nodes: seq<Json>, index: nat, bound: nat) {
    var count := |Numbers(nodes)|;
    nodes == [] || index + count < bound || (index + count == bound && IsNumber(nodes[|nodes| - 1]))
  }

  lemma {:induction false} RunSlotsAppend(a: seq<Json>, b: seq<Json>, slots: seq<real>, index: nat, msgs: SlotMessages)
    ensures var r := RunSlots(a, slots, index, msgs);
      RunSlots(a + b, slots, index, msgs) == if r.ok then RunSlots(b, r.slots, r.index, msgs) else r
    decreases |a|
  {
    if a == [] {
      assert a + b == b;
    } else {
      assert (a + b)[0] == a[0];
      assert (a + b)[1..] == a[1..] + b;
      if index < |slots| {
        if IsContainer(a[0]) {
          RunSlotsAppend(a[1..], b, slots, index, msgs);
        } else if IsNumber(a[0]) {
          RunSlotsAppend(a[1..], b, slots[index := NumberValue(a[0])], index + 1, msgs);
        }
      }
    }
  }

  /** The tree reader and the flat reader agree on every document. */
  lemma {:induction false} SlotsFollowPreOrder(j: Json, slots: seq<real>, index: nat, msgs: SlotMessages)
    ensures ParseSlots(j, slots, index, msgs) == RunSlots(PreOrder(j), slots, index, msgs)
    decreases j
  {
    var nodes := PreOrder(j);
    if index < |slots| && IsContainer(j) {
      assert nodes[1..] == PreOrderSeq(Children(j));
      SlotsSeqFollowPreOrder(Children(j), slots, index, msgs);
    } else if index < |slots| && IsNumber(j) {
      assert nodes[1..] == [];
    }
  }

  lemma {:induction false} SlotsSeqFollowPreOrder(cs: seq<Json>, slots: seq<real>, index: nat, msgs: SlotMessages)
    ensures ParseSlotsSeq(cs, slots, index, msgs) == RunSlots(PreOrderSeq(cs), slots, index, msgs)
    decreases cs
  {
    if cs != [] {
      SlotsFollowPreOrder(cs[0], slots, index, msgs);
      RunSlotsAppend(PreOrder(cs[0]), PreOrderSeq(cs[1..]), slots, index, msgs);
      var first := ParseSlots(cs[0], slots, index, msgs);
      if first.ok {
        SlotsSeqFollowPreOrder(cs[1..], first.slots, first.index, msgs);
      }
    }
  }

  lemma {:induction false} LastNumberCounts(nodes: seq<Json>)
    requires nodes != [] && IsNumber(nodes[|nodes| - 1])
    ensures |Numbers(nodes)| >= 1
    decreases |nodes|
  {
    if |nodes| > 1 && !IsNumber(nodes[0]) {
      assert nodes[1..][|nodes[1..]| - 1] == nodes[|nodes| - 1];
      LastNumberCounts(nodes[1..]);
    }
  }

  /**
   * The flat reader succeeds exactly when every node is a container or a
   * number and the numbers fit; it then stores the k-th number in slot
   * index + k, leaves every other slot as it was, advances the index by the
   * count of numbers and logs nothing; a failure logs exactly one line.
   */
  lemma {:induction false} RunSlotsResult(nodes: seq<Json>, slots: seq<real>, index: nat, msgs: SlotMessages)
    ensures var r := RunSlots(nodes, slots, index, msgs);
      var ns := Numbers(nodes);
      && |r.slots| == |slots|
      && (r.ok <==> OnlyNumbers(nodes) && Fits(nodes, index, |slots|))
      && (r.ok ==> r.index == index + |ns| && r.log == [])
      && (r.ok ==> forall k | 0 <= k < |slots| :: r.slots[k] == if index <= k < index + |ns| then ns[k - index] else slots[k])
      && (!r.ok ==> |r.log| == 1)
    decreases |nodes|
  {
    if nodes != [] {
      var n, rest := nodes[0], nodes[1..];
      assert nodes == [n] + rest;
      if rest != [] { assert nodes[|nodes| - 1] == rest[|rest| - 1]; }
      if index >= |slots| {
        if Fits(nodes, index, |slots|) {
          LastNumberCounts(nodes);
          assert false;
        }
      } else if IsContainer(n) {
        RunSlotsResult(rest, slots, index, msgs);
        assert OnlyNumbers(nodes) <==> OnlyNumbers(rest) by {
          if OnlyNumbers(rest) {
            forall k | 0 <= k < |nodes| ensures IsContainer(nodes[k]) || IsNumber(nodes[k]) {
              if k > 0 { assert nodes[k] == rest[k - 1]; }
            }
          }
          if OnlyNumbers(nodes) {
            forall k | 0 <= k < |rest| ensures IsContainer(rest[k]) || IsNumber(rest[k]) {
              assert rest[k] == nodes[k + 1];
            }
          }
        }
      } else if IsNumber(n) {
        var v := NumberValue(n);
        RunSlotsResult(rest, slots[index := v], index + 1, msgs);
        assert Numbers(nodes) == [v] + Numbers(rest);
        assert OnlyNumbers(nodes) <==> OnlyNumbers(rest) by {
          if OnlyNumbers(rest) {
            forall k | 0 <= k < |nodes| ensures IsContainer(nodes[k]) || IsNumber(nodes[k]) {
              if k > 0 { assert nodes[k] == rest[k - 1]; }
            }
          }
          if OnlyNumbers(nodes) {
            forall k | 0 <= k < |rest| ensures IsContainer(rest[k]) || IsNumber(rest[k]) {
              assert rest[k] == nodes[k + 1];
            }
          }
        }
      } else {
        assert !OnlyNumbers(nodes) by { assert !(IsContainer(nodes[0]) || IsNumber(nodes[0])); }
      }
    }
  }

  /**
   * ParseVector / ParseColor / IUVCoordItem::Parse: the numbers of the
   * document, in document order and across any nesting, fill the slots from
   * the index on; the slots not reached keep their values; the parse
   * succeeds exactly when only containers and numbers occur and they fit.
   */
  lemma SlotsFill(j: Json, slots: seq<real>, index: nat, msgs: SlotMessages)
    ensures var r := ParseSlots(j, slots, index, msgs);
      var ns := Leaves(j);
      && (r.ok <==> OnlyNumbers(PreOrder(j)) && Fits(PreOrder(j), index, |slots|))
      && (r.ok ==> r.index == index + |ns| && r.log == [])
      && (r.ok ==> forall k | 0 <= k < |slots| :: r.slots[k] == if index <= k < index + |ns| then ns[k - index] else slots[k])
      && (!r.ok ==> |r.log| == 1)
  {
    SlotsFollowPreOrder(j, slots, index, msgs);
    RunSlotsResult(PreOrder(j), slots, index, msgs);
  }

  /** One number more than there are free slots makes the reader fail. */
  lemma ExtraNumberFails(j: Json, slots: seq<real>, index: nat, msgs: SlotMessages)
    requires index + |Leaves(j)| > |slots|
    ensures !ParseSlots(j, slots, index, msgs).ok
  {
    SlotsFill(j, slots, index, msgs);
  }

  /** A reader entered with the index past the last slot fails, logging the bound message. */
  lemma IndexOutOfBoundsFails(j: Json, slots: seq<real>, index: nat, msgs: SlotMessages)
    requires index >= |slots|
    ensures ParseSlots(j, slots, index, msgs) == SlotsResult(false, slots, index, [JsonValueLine(Some(j), msgs.outOfBounds, index)])
  {
  }

  /** ParseVector from index 0 into one vector field. */
  function VectorField(j: Json, v: Vector3): (r: Parsed<Vector3>) {
    var s := ParseSlots(j, v, 0, VECTOR_MESSAGES);
    Parsed(s.ok, s.slots, s.log)
  }

  /** ParseColor from index 0 into one color field. */
  function ColorField(j: Json, c: Color): (r: Parsed<Color>) {
    var s := ParseSlots(j, c, 0, COLOR_MESSAGES);
    Parsed(s.ok, s.slots, s.log)
  }

  // ---------------------------------------------------------------------
  // ParseMatrix: numbers fill the table row by row

  datatype MatrixResult = MatrixResult(ok: bool, matrix: Matrix4x4, x: nat, y: nat, log: seq<string>)

  /**
   * A node reached with x or y past the table fails; an object or array is
   * walked child by child and, when all children parsed, moves to the start
   * of the next row; a number is stored at [y][x] and x moves on; any other
   * node fails.
   */
  function ParseMatrixSpec(j: Json, m: Matrix4x4, x: nat, y: nat): (r: MatrixResult)
    decreases j
    ensures r.ok ==> r.log == []
    ensures !r.ok ==> |r.log| == 1
  {
    if x >= 4 then MatrixResult(false, m, x, y, [JsonValueLine(Some(j), "Parse matrix - x index is out of bounds", x)])
    else if y >= 4 then MatrixResult(false, m, x, y, [JsonValueLine(Some(j), "Parse matrix - y index is out of bounds", y)])
    else if IsContainer(j) then
      var r := ParseMatrixSeq(Children(j), m, x, y);
      if r.ok then r.(x := 0, y := r.y + 1) else r
    else if IsNumber(j) then MatrixResult(true, SetCell(m, y, x, NumberValue(j)), x + 1, y, [])
    else MatrixResult(false, m, x, y, [JsonLine(Some(j), "Parse matrix - unknown type")])
  }

  function ParseMatrixSeq(cs: seq<Json>, m: Matrix4x4, x: nat, y: nat): (r: MatrixResult)
    decreases cs
    ensures r.ok ==> r.log == []
    ensures !r.ok ==> |r.log| == 1
  {
    if cs == [] then MatrixResult(true, m, x, y, [])
    else
      var first := ParseMatrixSpec(cs[0], m, x, y);
      if !first.ok then first else ParseMatrixSeq(cs[1..], first.matrix, first.x, first.y)
  }

  /** ParseMatrix from (0, 0) into one matrix field. */
  function MatrixField(j: Json, m: Matrix4x4): (r: Parsed<Matrix4x4>) {
    var t := ParseMatrixSpec(j, m, 0, 0);
    Parsed(t.ok, t.matrix, t.log)
  }

  predicate AllNumbers(cs: seq<Json>) {
    forall k | 0 <= k < |cs| :: IsNumber(cs[k])
  }

  /**
   * A row of numbers read from column x of row y: it fills the columns
   * x .. x+|cs|-1 of that row when they fit, and fails when they do not.
   */
  lemma {:induction false} RowOfNumbers(cs: seq<Json>, m: Matrix4x4, x: nat, y: nat)
    requires AllNumbers(cs) && x <= 4 && y < 4
    ensures var r := ParseMatrixSeq(cs, m, x, y);
      && (r.ok <==> x + |cs| <= 4)
      && (r.ok ==> r.x == x + |cs| && r.y == y && r.log == [])
      && (r.ok ==> forall i, k | 0 <= i < 4 && 0 <= k < 4 ::
            r.matrix[i][k] == if i == y && x <= k < x + |cs| then NumberValue(cs[k - x]) else m[i][k])
    decreases |cs|
  {
    if cs != [] {
      if x < 4 {
        assert IsNumber(cs[0]);
        var m1 := SetCell(m, y, x, NumberValue(cs[0]));
        assert AllNumbers(cs[1..]) by {
          forall k | 0 <= k < |cs[1..]| ensures IsNumber(cs[1..][k]) { assert cs[1..][k] == cs[k + 1]; }
        }
        RowOfNumbers(cs[1..], m1, x + 1, y);
        var r := ParseMatrixSeq(cs, m, x, y);
        if r.ok {
          forall i, k | 0 <= i < 4 && 0 <= k < 4
            ensures r.matrix[i][k] == if i == y && x <= k < x + |cs| then NumberValue(cs[k - x]) else m[i][k]
          {
            if i == y && x + 1 <= k < x + |cs| { assert cs[1..][k - (x + 1)] == cs[k - x]; }
          }
        }
      }
    }
  }

  /** A matrix row written as an array (or object) of four numbers. */
  predicate IsRow(row: Json) {
    IsContainer(row) && |Children(row)| == 4 && AllNumbers(Children(row))
  }

  /** The number in column c of a row. */
  function RowCell(row: Json, c: nat): real
    requires IsRow(row) && c < 4
  {
    assert IsNumber(Children(row)[c]);
    NumberValue(Children(row)[c])
  }

  /** A bone matrix written as four rows of four numbers. */
  predicate IsGrid(j: Json) {
    IsContainer(j) && |Children(j)| == 4 && forall r | 0 <= r < 4 :: IsRow(Children(j)[r])
  }

  /** The number in row r, column c of a grid. */
  function GridCell(j: Json, r: nat, c: nat): real
    requires IsGrid(j) && r < 4 && c < 4
  {
    RowCell(Children(j)[r], c)
  }

  lemma {:induction false} GridRows(rows: seq<Json>, m: Matrix4x4, y: nat)
    requires y + |rows| <= 4
    requires forall r | 0 <= r < |rows| :: IsRow(rows[r])
    ensures var res := ParseMatrixSeq(rows, m, 0, y);
      && res.ok && res.x == 0 && res.y == y + |rows| && res.log == []
      && forall i, k | 0 <= i < 4 && 0 <= k < 4 ::
           res.matrix[i][k] == if y <= i < y + |rows| then RowCell(rows[i - y], k) else m[i][k]
    decreases |rows|
  {
    if rows != [] {
      var row := rows[0];
      RowOfNumbers(Children(row), m, 0, y);
      var first := ParseMatrixSpec(row, m, 0, y);
      forall r | 0 <= r < |rows[1..]| ensures IsRow(rows[1..][r]) {
        assert rows[1..][r] == rows[r + 1];
      }
      GridRows(rows[1..], first.matrix, y + 1);
      var res := ParseMatrixSeq(rows, m, 0, y);
      forall i, k | 0 <= i < 4 && 0 <= k < 4
        ensures res.matrix[i][k] == if y <= i < y + |rows| then RowCell(rows[i - y], k) else m[i][k]
      {
        if y + 1 <= i < y + |rows| { assert rows[1..][i - (y + 1)] == rows[i - y]; }
      }
    }
  }

  /**
   * A bone matrix given as four rows of four numbers, read from (0, 0):
   * every cell of the table is set from its row and column, and the reader
   * ends past the last row.
   */
  lemma GridFillsTable(j: Json, m: Matrix4x4)
    requires IsGrid(j)
    ensures var r := ParseMatrixSpec(j, m, 0, 0);
      && r.ok && r.log == [] && r.x == 0 && r.y == 5
      && forall i, k | 0 <= i < 4 && 0 <= k < 4 :: r.matrix[i][k] == GridCell(j, i, k)
  {
    GridRows(Children(j), m, 0);
  }

  /** Sixteen numbers in one flat array overflow the first row. */
  lemma FlatSixteenFails(j: Json, m: Matrix4x4)
    requires IsContainer(j) && |Children(j)| == 16 && AllNumbers(Children(j))
    ensures !ParseMatrixSpec(j, m, 0, 0).ok
  {
    RowOfNumbers(Children(j), m, 0, 0);
  }

  /** A row of five numbers overflows. */
  lemma LongRowFails(j: Json, m: Matrix4x4, y: nat)
    requires y < 4 && IsContainer(j) && |Children(j)| == 5 && AllNumbers(Children(j))
    ensures !ParseMatrixSpec(j, m, 0, y).ok
  {
    RowOfNumbers(Children(j), m, 0, y);
  }

  /** A fifth row after four full rows is refused. */
  lemma FifthRowFails(j: Json, m: Matrix4x4)
    requires IsContainer(j) && |Children(j)| == 5
    requires forall r | 0 <= r < 4 :: IsRow(Children(j)[r])
    ensures !ParseMatrixSpec(j, m, 0, 0).ok
  {
    var cs := Children(j);
    GridRows(cs[..4], m, 0);
    ParseMatrixSeqAppend(cs[..4], cs[4..], m, 0, 0);
    assert cs == cs[..4] + cs[4..];
    var r4 := ParseMatrixSeq(cs[..4], m, 0, 0);
    assert cs[4..] == [cs[4]];
  }

  lemma {:induction false} ParseMatrixSeqAppend(a: seq<Json>, b: seq<Json>, m: Matrix4x4, x: nat, y: nat)
    ensures var r := ParseMatrixSeq(a, m, x, y);
      ParseMatrixSeq(a + b, m, x, y) == if r.ok then ParseMatrixSeq(b, r.matrix, r.x, r.y) else r
    decreases |a|
  {
    if a == [] {
      assert a + b == b;
    } else {
      assert (a + b)[0] == a[0];
      assert (a + b)[1..] == a[1..] + b;
      var first := ParseMatrixSpec(a[0], m, x, y);
      if first.ok {
        ParseMatrixSeqAppend(a[1..], b, first.matrix, first.x, first.y);
      }
    }
  }
}
