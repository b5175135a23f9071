/**
 * Classroom persistence: a list of classrooms kept as one JSON string in the
 * browser's localStorage under a single versioned key. Every mutator reloads
 * a fresh list from that entry, edits it and writes the whole list back; a
 * lookup that finds nothing is a silent outcome (no result, no write).
 *
 * JSON text is not modelled: a stored string is abstracted to whether it is
 * empty and to what JSON.parse makes of it.
 */
module Storage {
  import opened Optional
  import opened Shapes
  import Decimal

  /** The localStorage key that holds the classroom list (versioned). */
  const LocalKey: string := "atelier:classrooms:v1"

  datatype Child = Child(id: string, name: string, history: seq<House>)

  datatype Classroom = Classroom(id: string, name: string, children: seq<Child>)

  /** What JSON.parse makes of a non-empty string: an array (whose elements
      are taken to be classrooms), some other JSON value, or an exception. */
  datatype Parsed = ArrayValue(items: seq<Classroom>) | OtherValue | SyntaxError

  /** A string held in localStorage. */
  datatype Raw = EmptyText | Text(parsed: Parsed)

  // ---------------------------------------------------------------------
  // Reading and writing the entry
  // ---------------------------------------------------------------------

  /** Turns the stored string (None when the key is absent) into a list of
      classrooms without ever failing: anything but a parsed array is []. */
  function SafeParse(raw: Option<Raw>): (cs: seq<Classroom>)
    ensures cs != [] ==> raw == Some(Text(ArrayValue(cs)))
    ensures raw.Some? && raw.value.Text? && raw.value.parsed.ArrayValue? ==> cs == raw.value.parsed.items
  {
    match raw
    case None => []
    case Some(EmptyText) => []
    case Some(Text(ArrayValue(items))) => items
    case Some(Text(_)) => []
  }

  /** JSON.stringify of a classroom list, described by what JSON.parse
      recovers from it: a non-empty text that parses to the same array. */
  function Stringify(cs: seq<Classroom>): (raw: Raw)
    ensures SafeParse(Some(raw)) == cs
  {
    Text(ArrayValue(cs))
  }

  // ---------------------------------------------------------------------
  // Finding by id (Array.prototype.find on the id field)
  // ---------------------------------------------------------------------

  function ClassroomIds(cs: seq<Classroom>): (ids: seq<string>)
    ensures |ids| == |cs|
    ensures forall k :: 0 <= k < |cs| ==> ids[k] == cs[k].id
  {
    seq(|cs|, k requires 0 <= k < |cs| => cs[k].id)
  }

  /** The same projection as `ClassroomIds`, on the children of one
      classroom: `find` runs once over each kind of list. */
  function ChildIds(children: seq<Child>): (ids: seq<string>)
    ensures |ids| == |children|
    ensures forall k :: 0 <= k < |children| ==> ids[k] == children[k].id
  {
    seq(|children|, k requires 0 <= k < |children| => children[k].id)
  }

  /** `i` is the first position holding `id`. */
  predicate FirstAt(ids: seq<string>, id: string, i: nat) {
    i < |ids| && ids[i] == id && id !in ids[..i]
  }

  lemma FirstAtUnique(ids: seq<string>, id: string, i: nat, j: nat)
    requires FirstAt(ids, id, i) && FirstAt(ids, id, j)
    ensures i == j
  {
  }

  /** The position `find` stops at: the first occurrence of `id`, if any. */
  function IndexOf(ids: seq<string>, id: string): (r: Option<nat>)
    ensures r.None? <==> id !in ids
    ensures r.Some? ==> FirstAt(ids, id, r.value)
  {
    if ids == [] then None
    else if ids[0] == id then Some(0)
    else
      match IndexOf(ids[1..], id)
      case None => None
      case Some(k) =>
        assert ids[..k + 1] == [ids[0]] + ids[1..][..k];
        Some(k + 1)
  }

  /** Where the child `childId` of classroom `classroomId` sits: the first
      classroom with that id, then the first child with that id in it. */
  function ChildPosition(cs: seq<Classroom>, classroomId: string, childId: string): (r: Option<(nat, nat)>)
    ensures r.Some? ==>
      && FirstAt(ClassroomIds(cs), classroomId, r.value.0)
      && FirstAt(ChildIds(cs[r.value.0].children), childId, r.value.1)
    ensures r.None? <==>
      || classroomId !in ClassroomIds(cs)
      || exists i: nat :: FirstAt(ClassroomIds(cs), classroomId, i) && childId !in ChildIds(cs[i].children)
  {
    match IndexOf(ClassroomIds(cs), classroomId)
    case None => None
    case Some(i) =>
      assert forall i' :: FirstAt(ClassroomIds(cs), classroomId, i') ==> i' == i by {
        forall i' | FirstAt(ClassroomIds(cs), classroomId, i') {
          FirstAtUnique(ClassroomIds(cs), classroomId, i, i');
        }
      }
      match IndexOf(ChildIds(cs[i].children), childId)
      case None => None
      case Some(j) => Some((i, j))
  }

  /** getChild on a loaded list: the first matching child of the first
      matching classroom, or nothing. */
  function LookupChild(cs: seq<Classroom>, classroomId: string, childId: string): (r: Option<Child>)
    ensures r.None? <==>
      || classroomId !in ClassroomIds(cs)
      || exists i: nat :: FirstAt(ClassroomIds(cs), classroomId, i) && childId !in ChildIds(cs[i].children)
    ensures r.Some? ==> r.value.id == childId
    ensures r.Some? ==> exists i: nat, j: nat ::
      && FirstAt(ClassroomIds(cs), classroomId, i)
      && FirstAt(ChildIds(cs[i].children), childId, j)
      && r.value == cs[i].children[j]
  {
    match ChildPosition(cs, classroomId, childId)
    case None => None
    case Some((i, j)) => Some(cs[i].children[j])
  }

  /** Positions depend only on the ids: two lists with the same classroom
      ids and the same child ids per classroom locate children alike. */
  lemma PositionsFollowIds(a: seq<Classroom>, b: seq<Classroom>, classroomId: string, childId: string)
    requires ClassroomIds(a) == ClassroomIds(b)
    requires forall k :: 0 <= k < |a| ==> ChildIds(a[k].children) == ChildIds(b[k].children)
    ensures ChildPosition(a, classroomId, childId) == ChildPosition(b, classroomId, childId)
  {
  }

  // ---------------------------------------------------------------------
  // The edits the mutators make to the freshly loaded list
  // ---------------------------------------------------------------------

  /** `name || prefix + (count + 1)`: an empty name falls back to the prefix
      followed by the decimal text of count + 1. */
  function DefaultName(name: string, prefix: string, count: nat): (r: string)
    ensures r != []
    ensures name != [] ==> r == name
    ensures name == [] ==>
      && |r| > |prefix| && r[..|prefix|] == prefix
      && Decimal.AllDigits(r[|prefix|..]) && Decimal.ToNat(r[|prefix|..]) == count + 1
      && r[|prefix|] != '0'
  {
    if name != [] then name
    else
      var r := prefix + Decimal.FromNat(count + 1);
      assert r[|prefix|..] == Decimal.FromNat(count + 1);
      Decimal.RoundTrip(count + 1);
      r
  }

  /** `cls.children.push(child)` on the classroom at position `i`. */
  function ChildAdded(cs: seq<Classroom>, i: nat, child: Child): (r: seq<Classroom>)
    requires i < |cs|
    ensures |r| == |cs| && ClassroomIds(r) == ClassroomIds(cs)
    ensures r[i].name == cs[i].name && r[i].children == cs[i].children + [child]
    ensures forall k :: 0 <= k < |cs| && k != i ==> r[k] == cs[k]
  {
    cs[i := cs[i].(children := cs[i].children + [child])]
  }

  /** `child.history = history` on child `j` of the classroom at position `i`. */
  function HistoryReplaced(cs: seq<Classroom>, i: nat, j: nat, history: seq<House>): (r: seq<Classroom>)
    requires i < |cs| && j < |cs[i].children|
    ensures |r| == |cs| && ClassroomIds(r) == ClassroomIds(cs)
    ensures forall k :: 0 <= k < |cs| ==> ChildIds(r[k].children) == ChildIds(cs[k].children)
    ensures r[i].name == cs[i].name && |r[i].children| == |cs[i].children|
    ensures r[i].children[j] == cs[i].children[j].(history := history)
    ensures forall m :: 0 <= m < |cs[i].children| && m != j ==> r[i].children[m] == cs[i].children[m]
    ensures forall k :: 0 <= k < |cs| && k != i ==> r[k] == cs[k]
  {
    var cls := cs[i];
    var updated := cls.(children := cls.children[j := cls.children[j].(history := history)]);
    assert ChildIds(updated.children) == ChildIds(cls.children);
    cs[i := updated]
  }

  /** After a history update, looking the same child up finds it with the
      new history, and every other lookup gives what it gave before. */
  lemma {:induction false} LookupAfterHistoryReplaced(
    cs: seq<Classroom>, classroomId: string, childId: string, history: seq<House>,
    otherClassroomId: string, otherChildId: string)
    requires ChildPosition(cs, classroomId, childId).Some?
    ensures var (i, j) := ChildPosition(cs, classroomId, childId).value;
      var r := HistoryReplaced(cs, i, j, history);
      && LookupChild(r, classroomId, childId) == Some(cs[i].children[j].(history := history))
      && LookupChild(r, otherClassroomId, otherChildId) ==
           if ChildPosition(cs, otherClassroomId, otherChildId) == Some((i, j))
           then Some(cs[i].children[j].(history := history))
           else LookupChild(cs, otherClassroomId, otherChildId)
  {
    var (i, j) := ChildPosition(cs, classroomId, childId).value;
    var r := HistoryReplaced(cs, i, j, history);
    PositionsFollowIds(r, cs, classroomId, childId);
    PositionsFollowIds(r, cs, otherClassroomId, otherChildId);
  }

  /** After a child is appended to the first classroom with `classroomId`,
      the new child is found by its id when that id was not yet used in the
      classroom, and every child found before is still found, unchanged. */
  lemma {:induction false} LookupAfterChildAdded(
    cs: seq<Classroom>, classroomId: string, child: Child,
    otherClassroomId: string, otherChildId: string)
    requires classroomId in ClassroomIds(cs)
    ensures var i := IndexOf(ClassroomIds(cs), classroomId).value;
      var r := ChildAdded(cs, i, child);
      && (child.id !in ChildIds(cs[i].children) ==> LookupChild(r, classroomId, child.id) == Some(child))
      && (LookupChild(cs, otherClassroomId, otherChildId).Some? ==>
            LookupChild(r, otherClassroomId, otherChildId) == LookupChild(cs, otherClassroomId, otherChildId))
  {
    var i := IndexOf(ClassroomIds(cs), classroomId).value;
    var r := ChildAdded(cs, i, child);
    assert ChildIds(r[i].children) == ChildIds(cs[i].children) + [child.id];
    if child.id !in ChildIds(cs[i].children) {
      var ids := ChildIds(r[i].children);
      assert ids[..|ids| - 1] == ChildIds(cs[i].children);
      assert FirstAt(ids, child.id, |ids| - 1);
      FirstAtUnique(ClassroomIds(r), classroomId, i, ChildPosition(r, classroomId, child.id).value.0);
      FirstAtUnique(ids, child.id, |ids| - 1, ChildPosition(r, classroomId, child.id).value.1);
    }
    if LookupChild(cs, otherClassroomId, otherChildId).Some? {
      var (k, m) := ChildPosition(cs, otherClassroomId, otherChildId).value;
      var ids := ChildIds(r[k].children);
      assert ids[..m] == ChildIds(cs[k].children)[..m];
      assert FirstAt(ids, otherChildId, m);
      var (k', m') := ChildPosition(r, otherClassroomId, otherChildId).value;
      FirstAtUnique(ClassroomIds(r), otherClassroomId, k, k');
      FirstAtUnique(ids, otherChildId, m, m');
    }
  }

  // ---------------------------------------------------------------------
  // The localStorage entry and the operations on it
  // ---------------------------------------------------------------------

  /** localStorage as this module sees it: strings by key. Only the entry
      under LocalKey is ever read or written. */
  class LocalStore {
    var items: map<string, Raw>

    constructor (initial: map<string, Raw>)
      ensures items == initial
    {
      items := initial;
    }

    /** localStorage.getItem(LocalKey). */
    function Stored(): Option<Raw>
      reads this
    {
      if LocalKey in items then Some(items[LocalKey]) else None
    }

    /** loadClassrooms: a fresh list parsed from the entry. */
    function Load(): (r: seq<Classroom>)
      reads this
      ensures LocalKey !in items ==> r == []
      ensures r != [] ==> LocalKey in items && items[LocalKey] == Stringify(r)
      ensures LocalKey in items && items[LocalKey].Text? && items[LocalKey].parsed.ArrayValue? ==>
        r == items[LocalKey].parsed.items
    {
      SafeParse(Stored())
    }

    /** saveClassrooms: overwrites the entry; loading afterwards gives the
        saved list back, and no other key changes. */
    method Save(classrooms: seq<Classroom>)
      modifies this
      ensures items == old(items)[LocalKey := Stringify(classrooms)]
      ensures Load() == classrooms
    {
      items := items[LocalKey := Stringify(classrooms)];
    }

    /** addClassroom: appends one empty classroom with the given fresh id at
        the end of the freshly loaded list and writes the list back. */
    method AddClassroom(name: string, id: string) returns (c: Classroom)
      modifies this
      ensures c.id == id && c.children == []
      ensures c.name == DefaultName(name, "Classe ", |old(Load())|)
      ensures items == old(items)[LocalKey := Stringify(old(Load()) + [c])]
      ensures Load() == old(Load()) + [c]
    {
      var classes := Load();
      c := Classroom(id, DefaultName(name, "Classe ", |classes|), []);
      classes := classes + [c];
      Save(classes);
    }

    /** addChildToClassroom: with an unknown classroom nothing is written
        and no child is returned; otherwise one child with an empty history
        is appended to the first classroom with that id. */
    method AddChildToClassroom(classroomId: string, childName: string, id: string) returns (r: Option<Child>)
      modifies this
      ensures r.None? <==> classroomId !in ClassroomIds(old(Load()))
      ensures r.None? ==> items == old(items)
      ensures r.Some? ==>
        var i := IndexOf(ClassroomIds(old(Load())), classroomId).value;
        && r.value == Child(id, DefaultName(childName, "Enfant ", |old(Load())[i].children|), [])
        && items == old(items)[LocalKey := Stringify(ChildAdded(old(Load()), i, r.value))]
        && Load() == ChildAdded(old(Load()), i, r.value)
    {
      var classes := Load();
      var found := IndexOf(ClassroomIds(classes), classroomId);
      if found.None? {
        return None;
      }
      var i := found.value;
      var child := Child(id, DefaultName(childName, "Enfant ", |classes[i].children|), []);
      classes := ChildAdded(classes, i, child);
      Save(classes);
      r := Some(child);
    }

    /** updateChildHistory: a silent no-op without a write when the classroom
        or the child is missing; otherwise only that child's history changes. */
    method UpdateChildHistory(classroomId: string, childId: string, history: seq<House>)
      modifies this
      ensures ChildPosition(old(Load()), classroomId, childId).None? ==> items == old(items)
      ensures ChildPosition(old(Load()), classroomId, childId).Some? ==>
        var (i, j) := ChildPosition(old(Load()), classroomId, childId).value;
        && items == old(items)[LocalKey := Stringify(HistoryReplaced(old(Load()), i, j, history))]
        && LookupChild(Load(), classroomId, childId) == Some(old(Load())[i].children[j].(history := history))
    {
      var classes := Load();
      var position := ChildPosition(classes, classroomId, childId);
      if position.None? {
        return;
      }
      var (i, j) := position.value;
      LookupAfterHistoryReplaced(classes, classroomId, childId, history, classroomId, childId);
      Save(HistoryReplaced(classes, i, j, history));
    }

    /** getChild: reads the entry and writes nothing. */
    method GetChild(classroomId: string, childId: string) returns (r: Option<Child>)
      ensures r == LookupChild(Load(), classroomId, childId)
    {
      var classes := Load();
      r := LookupChild(classes, classroomId, childId);
    }
  }
}
