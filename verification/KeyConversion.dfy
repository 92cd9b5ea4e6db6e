/** What the conversion of YAML keys does to a decoded document, as a tree (utils/utils.go). */
module KeyConversion {

  /** A decoded document: the decoder's generic maps, maps that are keyed by strings already, lists
      and scalars. */
  datatype Tree =
    | Leaf(scalar: string)
    | Generic(kids: map<string, Tree>)
    | Strings(kids: map<string, Tree>)
    | List(elems: seq<Tree>)

  /** Generic maps become string-keyed ones; below a map that is string-keyed already nothing is
      looked at. */
  function Converted(t: Tree): Tree {
    match t
    case Leaf(_) => t
    case Strings(_) => t
    case Generic(kids) => Strings(map k | k in kids :: Converted(kids[k]))
    case List(elems) => List(seq(|elems|, i requires 0 <= i < |elems| => Converted(elems[i])))
  }

  // ---- What a reader finds by following a path ----

  datatype Step = Key(key: string) | Index(index: nat)

  datatype View = Nothing | Holds(scalar: string) | KeyedBy(keys: set<string>) | Long(length: nat)

  function ViewAt(t: Tree, path: seq<Step>): View
    decreases |path|
  {
    if path == [] then
      match t
      case Leaf(x) => Holds(x)
      case Generic(kids) => KeyedBy(kids.Keys)
      case Strings(kids) => KeyedBy(kids.Keys)
      case List(elems) => Long(|elems|)
    else
      match (t, path[0])
      case (Generic(kids), Key(k)) => if k in kids then ViewAt(kids[k], path[1..]) else Nothing
      case (Strings(kids), Key(k)) => if k in kids then ViewAt(kids[k], path[1..]) else Nothing
      case (List(elems), Index(i)) => if i < |elems| then ViewAt(elems[i], path[1..]) else Nothing
      case _ => Nothing
  }

  ghost predicate GenericFree(t: Tree) {
    match t
    case Leaf(_) => true
    case Generic(_) => false
    case Strings(kids) => forall k :: k in kids ==> GenericFree(kids[k])
    case List(elems) => forall i :: 0 <= i < |elems| ==> GenericFree(elems[i])
  }

  /** Every string-keyed map that no other string-keyed map is above is free of generic ones. */
  ghost predicate StringMapsClean(t: Tree) {
    match t
    case Leaf(_) => true
    case Generic(kids) => forall k :: k in kids ==> StringMapsClean(kids[k])
    case Strings(_) => GenericFree(t)
    case List(elems) => forall i :: 0 <= i < |elems| ==> StringMapsClean(elems[i])
  }

  // ---- The conversion keeps the meaning ----

  /** Every path leads to the same scalar, the same set of keys or the same length as before, and no
      path leads anywhere new. */
  lemma {:induction false} ConversionKeepsViews(t: Tree, path: seq<Step>)
    ensures ViewAt(Converted(t), path) == ViewAt(t, path)
    decreases |path|
  {
    if path == [] {
      if t.Generic? {
        assert Converted(t).kids.Keys == t.kids.Keys;
      }
    } else if t.Generic? && path[0].Key? && path[0].key in t.kids {
      ConversionKeepsViews(t.kids[path[0].key], path[1..]);
    } else if t.List? && path[0].Index? && path[0].index < |t.elems| {
      ConversionKeepsViews(t.elems[path[0].index], path[1..]);
    }
  }

  lemma {:induction false} ConversionIsIdempotent(t: Tree)
    ensures Converted(Converted(t)) == Converted(t)
  {
    if t.List? {
      forall i | 0 <= i < |t.elems| ensures Converted(Converted(t.elems[i])) == Converted(t.elems[i]) {
        ConversionIsIdempotent(t.elems[i]);
      }
      assert Converted(Converted(t)).elems == Converted(t).elems;
    }
  }

  lemma {:induction false} CleanConverts(t: Tree)
    requires StringMapsClean(t)
    ensures GenericFree(Converted(t))
  {
    match t
    case Leaf(_) =>
    case Strings(_) =>
    case Generic(kids) =>
      forall k | k in kids ensures GenericFree(Converted(kids[k])) {
        CleanConverts(kids[k]);
      }
    case List(elems) =>
      forall i | 0 <= i < |elems| ensures GenericFree(Converted(elems[i])) {
        CleanConverts(elems[i]);
      }
  }

  lemma {:induction false} OnlyCleanConverts(t: Tree)
    requires GenericFree(Converted(t))
    ensures StringMapsClean(t)
  {
    match t
    case Leaf(_) =>
    case Strings(_) =>
    case Generic(kids) =>
      forall k | k in kids ensures StringMapsClean(kids[k]) {
        assert GenericFree(Converted(t).kids[k]);
        OnlyCleanConverts(kids[k]);
      }
    case List(elems) =>
      forall i | 0 <= i < |elems| ensures StringMapsClean(elems[i]) {
        assert GenericFree(Converted(t).elems[i]);
        OnlyCleanConverts(elems[i]);
      }
  }

  /** No generic map is left, exactly when none was hidden below a string-keyed one. */
  lemma GenericFreeExactly(t: Tree)
    ensures GenericFree(Converted(t)) <==> StringMapsClean(t)
  {
    if StringMapsClean(t) {
      CleanConverts(t);
    }
    if GenericFree(Converted(t)) {
      OnlyCleanConverts(t);
    }
  }

  /** A document without generic maps comes back as it is. */
  lemma {:induction false} NothingToConvert(t: Tree)
    requires GenericFree(t)
    ensures Converted(t) == t
  {
    if t.List? {
      forall i | 0 <= i < |t.elems| ensures Converted(t.elems[i]) == t.elems[i] {
        NothingToConvert(t.elems[i]);
      }
    }
  }
}
