/**
 * The rules of the house-building game that do not depend on the screen:
 * which slot takes which shape, colour combinations and their keys, the
 * bound of nine distinct houses, and the list edits of the playground.
 */
module HouseRules {
  import opened Optional
  import opened Shapes
  import Decimal

  /** The two house drop zones, `house-body` and `house-roof`. */
  datatype Slot = HouseBody | HouseRoof

  /** The shape a slot accepts: the body is a square, the roof a triangle. */
  function SlotShape(slot: Slot): ShapeType {
    match slot
    case HouseBody => Square
    case HouseRoof => Triangle
  }

  /** The side length of a shape on the playground, in pixels. */
  const ShapeSize: int := 64

  /** The number of distinct (body colour, roof colour) houses: 3 x 3. */
  const CompleteCount: nat := 9

  // ---------------------------------------------------------------------
  // Colour combinations
  // ---------------------------------------------------------------------

  /** A house's combination: its body colour and its roof colour. */
  function Combo(h: House): (ShapeColor, ShapeColor) {
    (h.body.color, h.roof.color)
  }

  /** The string `${body}|${roof}` that records a combination. */
  function ComboKey(body: ShapeColor, roof: ShapeColor): string {
    ColorName(body) + "|" + ColorName(roof)
  }

  /** A key splits back at the bar that follows the body's colour name into
      the body's and the roof's colour names. */
  lemma ComboKeySplit(body: ShapeColor, roof: ShapeColor)
    ensures var k, n := ComboKey(body, roof), |ColorName(body)|;
      && |k| > n && k[..n] == ColorName(body) && k[n] == '|' && k[n + 1..] == ColorName(roof)
  {
  }

  /** The three colour names start with different letters. */
  lemma ColorNameInitial(c1: ShapeColor, c2: ShapeColor)
    requires ColorName(c1)[0] == ColorName(c2)[0]
    ensures c1 == c2
  {
  }

  /** A key names exactly one combination. */
  lemma ComboKeyInjective(b1: ShapeColor, r1: ShapeColor, b2: ShapeColor, r2: ShapeColor)
    requires ComboKey(b1, r1) == ComboKey(b2, r2)
    ensures b1 == b2 && r1 == r2
  {
    var k1, k2 := ComboKey(b1, r1), ComboKey(b2, r2);
    assert ColorName(b1)[0] == k1[0] == k2[0] == ColorName(b2)[0];
    ColorNameInitial(b1, b2);
    var n := |ColorName(b1)|;
    assert ColorName(r1) == k1[n + 1..] == k2[n + 1..] == ColorName(r2);
  }

  /** `history.some(h => h.body.color === body && h.roof.color === roof)`. */
  function HasCombo(history: seq<House>, body: ShapeColor, roof: ShapeColor): (r: bool)
    ensures r <==> exists i :: 0 <= i < |history| && Combo(history[i]) == (body, roof)
  {
    if history == [] then false
    else Combo(history[0]) == (body, roof) || HasCombo(history[1..], body, roof)
  }

  /** No two houses of the history share a combination. */
  ghost predicate DistinctCombos(history: seq<House>) {
    forall i, j :: 0 <= i < j < |history| ==> Combo(history[i]) != Combo(history[j])
  }

  /** Appending a house whose combination is new keeps the combinations distinct. */
  lemma AppendNewCombo(history: seq<House>, h: House)
    requires DistinctCombos(history)
    requires !HasCombo(history, h.body.color, h.roof.color)
    ensures DistinctCombos(history + [h])
  {
  }

  /** The key recorded for a house: `${body.color}|${roof.color}`. */
  function Key(h: House): string {
    ComboKey(h.body.color, h.roof.color)
  }

  /** The keys recorded for a history: one per house. */
  function Keys(history: seq<House>): set<string> {
    if history == [] then {}
    else Keys(history[..|history| - 1]) + {Key(history[|history| - 1])}
  }

  /** Recording the key of an appended house extends the record by it. */
  lemma KeysAppend(history: seq<House>, h: House)
    ensures Keys(history + [h]) == Keys(history) + {Key(h)}
  {
  }

  /** A key is recorded exactly when some house of the history has it. */
  lemma {:induction false} KeysHold(history: seq<House>, k: string)
    ensures k in Keys(history) <==> exists i :: 0 <= i < |history| && Key(history[i]) == k
  {
    if history != [] {
      var init := history[..|history| - 1];
      KeysHold(init, k);
      if exists i :: 0 <= i < |init| && Key(init[i]) == k {
        var i :| 0 <= i < |init| && Key(init[i]) == k;
        assert Key(history[i]) == k;
      }
      if exists i :: 0 <= i < |history| && Key(history[i]) == k {
        var i :| 0 <= i < |history| && Key(history[i]) == k;
        if i < |init| {
          assert Key(init[i]) == k;
        }
      }
    }
  }

  /** A combination's key is recorded exactly when a house of the history
      has that combination, so the record of keys and the history agree. */
  lemma KeyRecordedIffBuilt(history: seq<House>, body: ShapeColor, roof: ShapeColor)
    ensures ComboKey(body, roof) in Keys(history) <==> HasCombo(history, body, roof)
  {
    KeysHold(history, ComboKey(body, roof));
    if ComboKey(body, roof) in Keys(history) {
      var i :| 0 <= i < |history| && Key(history[i]) == ComboKey(body, roof);
      ComboKeyInjective(history[i].body.color, history[i].roof.color, body, roof);
    }
  }

  // ---------------------------------------------------------------------
  // At most nine distinct houses
  // ---------------------------------------------------------------------

  /** Every combination of the three colours. */
  const AllCombos: set<(ShapeColor, ShapeColor)> := {
    (Red, Red), (Red, Blue), (Red, Yellow),
    (Blue, Red), (Blue, Blue), (Blue, Yellow),
    (Yellow, Red), (Yellow, Blue), (Yellow, Yellow)
  }

  lemma AllCombosCount()
    ensures |AllCombos| == CompleteCount
  {
  }

  lemma InAllCombos(body: ShapeColor, roof: ShapeColor)
    ensures (body, roof) in AllCombos
  {
  }

  /** The set of combinations a history holds. */
  function Combos(history: seq<House>): (cs: set<(ShapeColor, ShapeColor)>)
    ensures forall c :: c in cs <==> exists i :: 0 <= i < |history| && Combo(history[i]) == c
  {
    if history == [] then {}
    else
      var init := history[..|history| - 1];
      assert forall i :: 0 <= i < |init| ==> init[i] == history[i];
      Combos(init) + {Combo(history[|history| - 1])}
  }

  lemma {:induction false} DistinctCombosCount(history: seq<House>)
    requires DistinctCombos(history)
    ensures |Combos(history)| == |history|
  {
    if history != [] {
      var init := history[..|history| - 1];
      assert DistinctCombos(init) by {
        forall i, j | 0 <= i < j < |init| ensures Combo(init[i]) != Combo(init[j]) {
          assert init[i] == history[i] && init[j] == history[j];
        }
      }
      DistinctCombosCount(init);
    }
  }

  lemma SubsetCount<T>(a: set<T>, b: set<T>)
    requires a <= b
    ensures |a| <= |b|
    ensures |a| == |b| ==> a == b
  {
    assert b == a + (b - a);
    assert |b| == |a| + |b - a|;
    if |a| == |b| {
      assert |b - a| == 0;
      assert b - a == {};
    }
  }

  /** A history whose combinations are pairwise distinct has at most nine
      houses, since there are only nine combinations. */
  lemma HistoryBound(history: seq<House>)
    requires DistinctCombos(history)
    ensures |history| <= CompleteCount
  {
    DistinctCombosCount(history);
    AllCombosCount();
    forall c | c in Combos(history) ensures c in AllCombos {
      InAllCombos(c.0, c.1);
    }
    SubsetCount(Combos(history), AllCombos);
  }

  /** Once nine distinct houses are built every combination is taken: any
      further house is a duplicate. */
  lemma FullHistoryHasEveryCombo(history: seq<House>, body: ShapeColor, roof: ShapeColor)
    requires DistinctCombos(history) && |history| == CompleteCount
    ensures HasCombo(history, body, roof)
  {
    DistinctCombosCount(history);
    AllCombosCount();
    forall c | c in Combos(history) ensures c in AllCombos {
      InAllCombos(c.0, c.1);
    }
    SubsetCount(Combos(history), AllCombos);
    InAllCombos(body, roof);
  }

  // ---------------------------------------------------------------------
  // Shapes lying on the playground
  // ---------------------------------------------------------------------

  /** `Math.max(0, Math.min(v, extent - 64))`: a coordinate kept inside the
      playground along an axis of length `extent`. */
  function Clamp(v: int, extent: int): (r: int)
    ensures r >= 0
    ensures extent >= ShapeSize ==> r <= extent - ShapeSize
    ensures 0 <= v <= extent - ShapeSize ==> r == v
    ensures 0 <= extent - ShapeSize < v ==> r == extent - ShapeSize
    ensures v < 0 || extent < ShapeSize ==> r == 0
  {
    var upper := if v < extent - ShapeSize then v else extent - ShapeSize;
    if upper > 0 then upper else 0
  }

  /** The id under which a shape dropped from the palette is added:
      `shape-${Date.now()}`. */
  function NewShapeId(now: nat): (id: string)
    ensures |id| > 6 && id[..6] == "shape-"
    ensures Decimal.AllDigits(id[6..]) && Decimal.ToNat(id[6..]) == now
    ensures id[6] != '0' || id == "shape-0"
  {
    var id := "shape-" + Decimal.FromNat(now);
    assert id[6..] == Decimal.FromNat(now);
    Decimal.RoundTrip(now);
    id
  }

  /** Shapes added at different instants get different ids. */
  lemma NewShapeIdsDiffer(t1: nat, t2: nat)
    requires t1 != t2
    ensures NewShapeId(t1) != NewShapeId(t2)
  {
  }

  /** `shapes.filter(s => s.id !== id)`: every shape with that id leaves the
      playground, every other shape stays, in its order. */
  function Without(shapes: seq<PlacedShape>, id: string): (r: seq<PlacedShape>)
    ensures forall s :: s in r <==> s in shapes && s.id != id
    ensures |r| <= |shapes|
    ensures (forall i :: 0 <= i < |shapes| ==> shapes[i].id != id) ==> r == shapes
    ensures |shapes| == 1 ==> r == if shapes[0].id == id then [] else shapes
  {
    if shapes == [] then []
    else if shapes[0].id == id then Without(shapes[1..], id)
    else [shapes[0]] + Without(shapes[1..], id)
  }

  /** The filter works piece by piece: what is kept of a concatenation is
      what is kept of each part, in order. With the one-shape case of
      `Without` this fixes the order and the multiplicity of the kept
      shapes. */
  lemma {:induction false} WithoutConcat(p: seq<PlacedShape>, q: seq<PlacedShape>, id: string)
    ensures Without(p + q, id) == Without(p, id) + Without(q, id)
  {
    if p == [] {
      assert p + q == q;
    } else {
      assert (p + q)[0] == p[0] && (p + q)[1..] == p[1..] + q;
      WithoutConcat(p[1..], q, id);
    }
  }

  /** The shapes after a drag of shape `id` by (dx, dy) inside a playground
      of the given size: only the shapes with that id move, each clamped
      into the playground; kind, colour and id never change. */
  function Moved(shapes: seq<PlacedShape>, id: string, dx: int, dy: int, width: int, height: int): (r: seq<PlacedShape>)
    ensures |r| == |shapes|
    ensures forall i :: 0 <= i < |shapes| && shapes[i].id != id ==> r[i] == shapes[i]
    ensures forall i :: 0 <= i < |shapes| && shapes[i].id == id ==>
      r[i] == shapes[i].(left := Clamp(shapes[i].left + dx, width), top := Clamp(shapes[i].top + dy, height))
  {
    if shapes == [] then []
    else
      var s := shapes[0];
      var s' := if s.id == id then s.(left := Clamp(s.left + dx, width), top := Clamp(s.top + dy, height)) else s;
      [s'] + Moved(shapes[1..], id, dx, dy, width, height)
  }
}
