/** The conversion as it runs: maps are rebuilt, lists are rewritten in place (utils/utils.go). */
module YamlValues {
  import opened KeyConversion

  /** A Go interface value of a decoded document. */
  datatype Value =
    | Scalar(scalar: string)
    | AGenericMap(generic: GenericMap)
    | AStringMap(strings: StringMap)
    | ASlice(slice: array<Value>)

  class GenericMap {
    var entries: map<string, Value>
    constructor (entries: map<string, Value>)
      ensures this.entries == entries
    {
      this.entries := entries;
    }
  }

  class StringMap {
    var entries: map<string, Value>
    constructor ()
      ensures entries == map[]
    {
      entries := map[];
    }
  }

  type Lists = set<array<Value>>

  /** Which objects a document is made of. Every map and list notes the objects below it, and which
      of them are lists the conversion gets to: it does not look below string-keyed maps. */
  datatype Shape =
    | LeafAt(scalar: string)
    | GenericAt(generic: GenericMap, kids: map<string, Shape>, below: set<object>, lists: Lists)
    | StringsAt(strings: StringMap, kids: map<string, Shape>, below: set<object>)
    | SliceAt(slice: array<Value>, elems: seq<Shape>, below: set<object>, lists: Lists)

  ghost function Footprint(s: Shape): set<object> {
    match s
    case LeafAt(_) => {}
    case GenericAt(g, _, below, _) => {g} + below
    case StringsAt(m, _, below) => {m} + below
    case SliceAt(a, _, below, _) => {a} + below
  }

  ghost function ListsOf(s: Shape): Lists {
    match s
    case LeafAt(_) => {}
    case GenericAt(_, _, _, lists) => lists
    case StringsAt(_, _, _) => {}
    case SliceAt(a, _, _, lists) => {a} + lists
  }

  /** The notes cover what is below, and no object is met twice on the way the conversion takes. */
  ghost predicate Unshared(s: Shape) {
    match s
    case LeafAt(_) => true
    case StringsAt(_, _, _) => true
    case GenericAt(g, kids, below, lists) =>
      && g !in below && lists <= below
      && (forall k :: k in kids ==> Unshared(kids[k]) && Footprint(kids[k]) <= below && ListsOf(kids[k]) <= lists)
      && (forall k, l :: k in kids && l in kids && k != l ==> Footprint(kids[k]) !! Footprint(kids[l]))
    case SliceAt(a, elems, below, lists) =>
      && a !in below && lists <= below
      && (forall i :: 0 <= i < |elems| ==> Unshared(elems[i]) && Footprint(elems[i]) <= below && ListsOf(elems[i]) <= lists)
      && (forall i, j :: 0 <= i < j < |elems| ==> Footprint(elems[i]) !! Footprint(elems[j]))
  }

  /** The heap holds v with that shape. */
  ghost predicate Matches(v: Value, s: Shape)
    reads Footprint(s)
    decreases s
  {
    match s
    case LeafAt(x) => v == Scalar(x)
    case GenericAt(g, kids, below, _) =>
      && v == AGenericMap(g) && g.entries.Keys == kids.Keys
      && forall k :: k in kids ==> Footprint(kids[k]) <= below && Matches(g.entries[k], kids[k])
    case StringsAt(m, kids, below) =>
      && v == AStringMap(m) && m.entries.Keys == kids.Keys
      && forall k :: k in kids ==> Footprint(kids[k]) <= below && Matches(m.entries[k], kids[k])
    case SliceAt(a, elems, below, _) =>
      && v == ASlice(a) && a.Length == |elems|
      && forall i :: 0 <= i < |elems| ==> Footprint(elems[i]) <= below && Matches(a[i], elems[i])
  }

  ghost function TreeOf(s: Shape): Tree {
    match s
    case LeafAt(x) => Leaf(x)
    case GenericAt(_, kids, _, _) => Generic(map k | k in kids :: TreeOf(kids[k]))
    case StringsAt(_, kids, _) => Strings(map k | k in kids :: TreeOf(kids[k]))
    case SliceAt(_, elems, _, _) => List(seq(|elems|, i requires 0 <= i < |elems| => TreeOf(elems[i])))
  }

  /** t is s with string-keyed maps in the place of its generic ones, the same lists, and the same
      string-keyed maps as they were. */
  ghost predicate Turned(s: Shape, t: Shape) {
    match s
    case LeafAt(_) => t == s
    case StringsAt(_, _, _) => t == s
    case GenericAt(_, kids, _, _) => t.StringsAt? && t.kids.Keys == kids.Keys && forall k :: k in kids ==> Turned(kids[k], t.kids[k])
    case SliceAt(a, elems, _, _) =>
      t.SliceAt? && t.slice == a && |t.elems| == |elems| && forall i :: 0 <= i < |elems| ==> Turned(elems[i], t.elems[i])
  }

  lemma {:induction false} TurnedIsConverted(s: Shape, t: Shape)
    requires Turned(s, t)
    ensures TreeOf(t) == Converted(TreeOf(s))
    decreases s
  {
    match s
    case LeafAt(_) =>
    case StringsAt(_, _, _) =>
    case GenericAt(_, kids, _, _) =>
      forall k | k in kids ensures TreeOf(t.kids[k]) == Converted(TreeOf(kids[k])) {
        TurnedIsConverted(kids[k], t.kids[k]);
      }
    case SliceAt(_, elems, _, _) =>
      forall i | 0 <= i < |elems| ensures TreeOf(t.elems[i]) == Converted(TreeOf(elems[i])) {
        TurnedIsConverted(elems[i], t.elems[i]);
      }
      assert TreeOf(t).elems == Converted(TreeOf(s)).elems;
  }

  /** The conversion of one value. Its result is the converted tree, made with the very lists and
      string-keyed maps of the argument. Nothing but the lists changes, and what is new in the result
      is none of the objects in `taken`. */
  method ConvertKeysToString(v: Value, ghost s: Shape, ghost taken: set<object>) returns (r: Value, ghost t: Shape)
    requires Matches(v, s) && Unshared(s) && Footprint(s) <= taken
    modifies ListsOf(s)
    ensures Matches(r, t) && Turned(s, t) && (Footprint(t) - Footprint(s)) !! taken
    decreases s, 3
  {
    match v
    case Scalar(_) => r, t := v, s;
    case AStringMap(_) => r, t := v, s;
    case AGenericMap(g) => r, t := ConvertMap(g, s, taken);
    case ASlice(a) => t := ConvertSlice(a, s, taken); r := v;
  }

  // ---- Lists ----

  /** The first elements of a list are turned, with objects they had or that were made for them. */
  ghost predicate ListTurned(elems: seq<Shape>, done: seq<Shape>, made: set<object>) {
    && |done| <= |elems|
    && forall j :: 0 <= j < |done| ==> Turned(elems[j], done[j]) && Footprint(done[j]) <= Footprint(elems[j]) + made
  }

  method StoreElement(a: array<Value>, i: nat, c: Value, ghost elems: seq<Shape>, ghost done: seq<Shape>, ghost d: Shape)
    requires a.Length == |elems| && i < a.Length && |done| == i && Matches(c, d) && a !in Footprint(d)
    requires forall j :: 0 <= j < i ==> a !in Footprint(done[j]) && Matches(a[j], done[j])
    requires forall j :: i < j < a.Length ==> a !in Footprint(elems[j]) && Matches(a[j], elems[j])
    modifies a
    ensures forall j :: 0 <= j < i ==> Matches(a[j], done[j])
    ensures Matches(a[i], d)
    ensures forall j :: i < j < a.Length ==> Matches(a[j], elems[j])
  {
    a[i] := c;
  }

  method ConvertElement(a: array<Value>, i: nat, ghost s: Shape, ghost done: seq<Shape>, ghost taken: set<object>, ghost made: set<object>)
    returns (ghost d: Shape)
    requires s.SliceAt? && s.slice == a && a.Length == |s.elems| && i < a.Length && |done| == i
    requires Unshared(s) && Footprint(s) <= taken && made !! taken && ListTurned(s.elems, done, made)
    requires forall j :: 0 <= j < i ==> Matches(a[j], done[j])
    requires forall j :: i <= j < a.Length ==> Matches(a[j], s.elems[j])
    modifies ListsOf(s)
    ensures forall j :: 0 <= j < i ==> Matches(a[j], done[j])
    ensures Matches(a[i], d) && Turned(s.elems[i], d) && (Footprint(d) - Footprint(s.elems[i])) !! (taken + made)
    ensures forall j :: i < j < a.Length ==> Matches(a[j], s.elems[j])
    decreases s, 0
  {
    var c;
    c, d := ConvertKeysToString(a[i], s.elems[i], taken + made);
    assert forall j :: 0 <= j < i ==> Matches(a[j], done[j]);
    assert forall j :: i < j < a.Length ==> Matches(a[j], s.elems[j]);
    StoreElement(a, i, c, s.elems, done, d);
  }

  method ConvertSlice(a: array<Value>, ghost s: Shape, ghost taken: set<object>) returns (ghost t: Shape)
    requires Matches(ASlice(a), s) && Unshared(s) && Footprint(s) <= taken
    modifies ListsOf(s)
    ensures Matches(ASlice(a), t) && Turned(s, t) && (Footprint(t) - Footprint(s)) !! taken
    decreases s, 1
  {
    ghost var done: seq<Shape>, made: set<object> := [], {};
    var i := 0;
    while i < a.Length
      invariant 0 <= i <= a.Length == |s.elems| && |done| == i && made !! taken && ListTurned(s.elems, done, made)
      invariant forall j :: 0 <= j < i ==> Matches(a[j], done[j])
      invariant forall j :: i <= j < a.Length ==> Matches(a[j], s.elems[j])
    {
      ghost var d := ConvertElement(a, i, s, done, taken, made);
      made := made + (Footprint(d) - Footprint(s.elems[i]));
      done := done + [d];
      i := i + 1;
    }
    t := SliceAt(a, done, s.below + made, s.lists);
  }

  // ---- Maps ----

  /** An entry is turned, with objects it had or that were made for it. */
  ghost predicate EntryTurned(kid: Shape, d: Shape, made: set<object>) {
    Turned(kid, d) && Footprint(d) <= Footprint(kid) + made
  }

  ghost predicate MapTurned(kids: map<string, Shape>, done: map<string, Shape>, made: set<object>) {
    done.Keys <= kids.Keys && forall k :: k in done ==> EntryTurned(kids[k], done[k], made)
  }

  lemma MapTurnedNext(kids: map<string, Shape>, done: map<string, Shape>, k: string, d: Shape, made: set<object>, more: set<object>)
    requires MapTurned(kids, done, made) && k in kids && made <= more && EntryTurned(kids[k], d, more)
    ensures MapTurned(kids, done[k := d], more) && done[k := d].Keys == done.Keys + {k}
  {
  }

  method StoreEntry(g: GenericMap, m: StringMap, k: string, c: Value, ghost kids: map<string, Shape>,
                    ghost done: map<string, Shape>, ghost d: Shape)
    requires m.entries.Keys == done.Keys && k !in done && Matches(c, d) && m !in Footprint(d)
    requires forall l :: l in done ==> m !in Footprint(done[l]) && Matches(m.entries[l], done[l])
    requires g.entries.Keys == kids.Keys
    requires forall l :: l in kids && l !in done && l != k ==> m !in Footprint(kids[l]) && Matches(g.entries[l], kids[l])
    modifies m
    ensures m.entries.Keys == done.Keys + {k} && Matches(m.entries[k], d)
    ensures forall l :: l in done ==> Matches(m.entries[l], done[l])
    ensures forall l :: l in kids && l !in done && l != k ==> Matches(g.entries[l], kids[l])
  {
    m.entries := m.entries[k := c];
  }

  method ConvertEntry(g: GenericMap, m: StringMap, k: string, ghost s: Shape, ghost done: map<string, Shape>,
                      ghost taken: set<object>, ghost made: set<object>)
    returns (c: Value, ghost d: Shape)
    requires s.GenericAt? && s.generic == g && g.entries.Keys == s.kids.Keys && k in s.kids && k !in done
    requires Unshared(s) && Footprint(s) <= taken && made !! taken && m !in taken + made && MapTurned(s.kids, done, made)
    requires m.entries.Keys == done.Keys && forall l :: l in done ==> Matches(m.entries[l], done[l])
    requires forall l :: l in s.kids && l !in done ==> Matches(g.entries[l], s.kids[l])
    modifies ListsOf(s)
    ensures g.entries == old(g.entries) && m.entries == old(m.entries) && Matches(c, d)
    ensures forall l :: l in done ==> Matches(m.entries[l], done[l])
    ensures Turned(s.kids[k], d) && (Footprint(d) - Footprint(s.kids[k])) !! (taken + made + {m})
    ensures forall l :: l in s.kids && l !in done && l != k ==> Matches(g.entries[l], s.kids[l])
    decreases s, 0
  {
    c, d := ConvertKeysToString(g.entries[k], s.kids[k], taken + made + {m});
  }

  lemma NewMapApart(m: StringMap, s: Shape, done: map<string, Shape>, taken: set<object>, made: set<object>)
    requires s.GenericAt? && Unshared(s) && Footprint(s) <= taken && m !in taken + made && MapTurned(s.kids, done, made)
    ensures forall l :: l in done ==> m !in Footprint(done[l])
    ensures forall l :: l in s.kids ==> m !in Footprint(s.kids[l])
  {
  }

  lemma EntriesNext(m: StringMap, done: map<string, Shape>, k: string, d: Shape)
    requires k in m.entries && Matches(m.entries[k], d) && m.entries.Keys == done.Keys + {k}
    requires forall l :: l in done && l in m.entries ==> Matches(m.entries[l], done[l])
    ensures forall l :: l in done[k := d] ==> l in m.entries && Matches(m.entries[l], done[k := d][l])
  {
  }

  lemma RestNext(g: GenericMap, kids: map<string, Shape>, done: map<string, Shape>, k: string, d: Shape)
    requires g.entries.Keys == kids.Keys && forall l :: l in kids && l !in done && l != k ==> Matches(g.entries[l], kids[l])
    ensures forall l :: l in kids && l !in done[k := d] ==> Matches(g.entries[l], kids[l])
  {
  }

  method ConvertNext(g: GenericMap, m: StringMap, k: string, ghost s: Shape, ghost done: map<string, Shape>,
                     ghost taken: set<object>, ghost made: set<object>)
    returns (ghost next: map<string, Shape>, ghost more: set<object>)
    requires s.GenericAt? && s.generic == g && g.entries.Keys == s.kids.Keys && k in s.kids && k !in done
    requires Unshared(s) && Footprint(s) <= taken && made !! taken && m !in taken + made && MapTurned(s.kids, done, made)
    requires m.entries.Keys == done.Keys && forall l :: l in done ==> Matches(m.entries[l], done[l])
    requires forall l :: l in s.kids && l !in done ==> Matches(g.entries[l], s.kids[l])
    modifies ListsOf(s), m
    ensures g.entries.Keys == s.kids.Keys && m.entries.Keys == next.Keys == done.Keys + {k}
    ensures more !! taken && m !in taken + more && MapTurned(s.kids, next, more)
    ensures forall l :: l in next ==> Matches(m.entries[l], next[l])
    ensures forall l :: l in s.kids && l !in next ==> Matches(g.entries[l], s.kids[l])
    decreases s, 1
  {
    var c;
    ghost var d;
    c, d := ConvertEntry(g, m, k, s, done, taken, made);
    NewMapApart(m, s, done, taken, made);
    StoreEntry(g, m, k, c, s.kids, done, d);
    next, more := done[k := d], made + (Footprint(d) - Footprint(s.kids[k]));
    MapTurnedNext(s.kids, done, k, d, made, more);
    EntriesNext(m, done, k, d);
    RestNext(g, s.kids, done, k, d);
  }

  method ConvertMap(g: GenericMap, ghost s: Shape, ghost taken: set<object>) returns (r: Value, ghost t: Shape)
    requires Matches(AGenericMap(g), s) && Unshared(s) && Footprint(s) <= taken
    modifies ListsOf(s)
    ensures Matches(r, t) && Turned(s, t) && (Footprint(t) - Footprint(s)) !! taken
    decreases s, 2
  {
    var m := new StringMap();
    ghost var done: map<string, Shape>, made: set<object> := map[], {};
    while m.entries.Keys != g.entries.Keys
      invariant done.Keys == m.entries.Keys <= s.kids.Keys == g.entries.Keys
      invariant made !! taken && m !in taken + made && MapTurned(s.kids, done, made)
      invariant forall l :: l in done ==> Matches(m.entries[l], done[l])
      invariant forall l :: l in s.kids && l !in done ==> Matches(g.entries[l], s.kids[l])
      decreases g.entries.Keys - m.entries.Keys
    {
      var k :| k in g.entries.Keys && k !in m.entries.Keys;
      done, made := ConvertNext(g, m, k, s, done, taken, made);
    }
    r, t := AStringMap(m), StringsAt(m, done, s.below + made);
  }

  // ---- The whole document ----

  /** What a caller gets for a document no object of which is met twice: the converted tree, made with
      the document's own lists and string-keyed maps, with nothing but those lists changed. */
  method ConvertDocument(v: Value, ghost s: Shape) returns (r: Value, ghost t: Shape)
    requires Matches(v, s) && Unshared(s)
    modifies ListsOf(s)
    ensures Matches(r, t) && TreeOf(t) == Converted(TreeOf(s))
    ensures Turned(s, t) && (!v.AGenericMap? ==> r == v)
  {
    r, t := ConvertKeysToString(v, s, Footprint(s));
    TurnedIsConverted(s, t);
  }
}
