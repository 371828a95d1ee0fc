/**
 * A value model of the part of Python's xml.etree.ElementTree that the converter uses:
 * elements with a qualified tag, an attribute dictionary, optional text and an ordered
 * list of children; the lookup `find('.//T')`; and the element methods `set`,
 * `attrib.pop`, `attrib.clear`, `text =`, `insert`, `remove` and `append`.
 *
 * An element reference is modelled as a path of child indexes from the root. The
 * class `Document` holds the one tree that every step edits in place.
 */
module ElementTree {

  datatype Option<T> = None | Some(value: T)

  /** A qualified name `{ns}local`; two names are equal only if both parts are. */
  datatype QName = QName(ns: string, local: string)

  /** An element. `tail` text and namespace prefixes are not modelled. */
  datatype Node = Node(tag: QName, attrib: map<string, string>, text: Option<string>, children: seq<Node>)

  /** `ET.Element(tag)`: no attributes, no text, no children. */
  function Element(tag: QName): Node
  {
    Node(tag, map[], None, [])
  }

  /** An element whose `text` has been assigned. */
  function TextElement(tag: QName, text: Option<string>): Node
  {
    Node(tag, map[], text, [])
  }

  // ---------------------------------------------------------------------------
  // Shapes: the tags and the structure of a tree, without attributes and text.
  // Lookups and path validity are defined on shapes, so editing attributes or
  // text never moves an element or changes what a lookup finds.
  // ---------------------------------------------------------------------------

  datatype Shape = Shape(tag: QName, kids: seq<Shape>)

  function ShapeOf(n: Node): Shape
  {
    Shape(n.tag, ShapesOf(n.children))
  }

  function ShapesOf(cs: seq<Node>): (r: seq<Shape>)
    ensures |r| == |cs|
    ensures forall i {:trigger r[i]} :: 0 <= i < |cs| ==> r[i] == ShapeOf(cs[i])
  {
    if cs == [] then [] else [ShapeOf(cs[0])] + ShapesOf(cs[1..])
  }

  /** A path is a sequence of child indexes, read from the root downwards. */
  type Path = seq<nat>

  predicate Reaches(s: Shape, p: Path)
    decreases p
  {
    p == [] || (p[0] < |s.kids| && Reaches(s.kids[p[0]], p[1..]))
  }

  function ShapeAt(s: Shape, p: Path): Shape
    requires Reaches(s, p)
    decreases p
  {
    if p == [] then s else ShapeAt(s.kids[p[0]], p[1..])
  }

  /** `p` leads from `n` to an element of the tree. */
  predicate ValidPath(n: Node, p: Path)
  {
    Reaches(ShapeOf(n), p)
  }

  /** The element that path `p` leads to. */
  function At(n: Node, p: Path): (r: Node)
    requires ValidPath(n, p)
    ensures ShapeOf(r) == ShapeAt(ShapeOf(n), p)
    decreases p
  {
    if p == [] then n else At(n.children[p[0]], p[1..])
  }

  /** The tree `n` with the element at `p` replaced by `s`. */
  function Put(n: Node, p: Path, s: Node): (r: Node)
    requires ValidPath(n, p)
    ensures ValidPath(r, p) && At(r, p) == s
    ensures ShapeOf(s) == ShapeOf(At(n, p)) ==> ShapeOf(r) == ShapeOf(n)
    decreases p
  {
    if p == [] then s
    else
      var c := Put(n.children[p[0]], p[1..], s);
      var r := n.(children := n.children[p[0] := c]);
      assert ShapesOf(r.children)[p[0]] == ShapeOf(c);
      r
  }

  // ---------------------------------------------------------------------------
  // find('.//T'): the first proper descendant with tag T in document order.
  // ---------------------------------------------------------------------------

  /** Path `p` comes strictly before path `q` in document (pre-)order. */
  predicate Precedes(p: Path, q: Path)
    decreases p
  {
    q != [] && (p == [] || p[0] < q[0] || (p[0] == q[0] && Precedes(p[1..], q[1..])))
  }

  /** The first element with tag `t`, in document order, inside the subtrees of kids `i..` of `s`. */
  function FirstIn(s: Shape, t: QName, i: nat): (r: Option<Path>)
    ensures r.Some? ==> r.value != [] && i <= r.value[0] && Reaches(s, r.value) && ShapeAt(s, r.value).tag == t
    decreases s, |s.kids| - i
  {
    if i >= |s.kids| then None
    else if s.kids[i].tag == t then Some([i])
    else match FirstIn(s.kids[i], t, 0)
      case Some(p) => Some([i] + p)
      case None => FirstIn(s, t, i + 1)
  }

  /** ElementTree's `n.find('.//' + t)`: never `n` itself. */
  function Find(n: Node, t: QName): (r: Option<Path>)
    ensures r.Some? ==> r.value != [] && ValidPath(n, r.value) && At(n, r.value).tag == t
  {
    FirstIn(ShapeOf(n), t, 0)
  }

  /** `find('.//' + t)` on the element at `base`, answered as a path from the root `n`. */
  function FindBelow(n: Node, base: Path, t: QName): (r: Option<Path>)
    requires ValidPath(n, base)
    ensures r.Some? <==> Find(At(n, base), t).Some?
    ensures r.Some? ==> r.value == base + Find(At(n, base), t).value
    ensures r.Some? ==> ValidPath(n, r.value) && At(n, r.value).tag == t
  {
    match Find(At(n, base), t)
    case Some(q) => AtConcat(n, base, q); Some(base + q)
    case None => None
  }

  // ---------------------------------------------------------------------------
  // Edits of one element (Python's list semantics for `insert`).
  // ---------------------------------------------------------------------------

  /** The position at which `insert(i, x)` places `x` into a list of `len` children. */
  function InsertIndex(i: int, len: nat): (k: nat)
    ensures k <= len
    ensures 0 <= i <= len ==> k == i
    ensures i > len ==> k == len
    ensures i < 0 ==> k == if i + len < 0 then 0 else i + len
  {
    if i < 0 then (if i + len < 0 then 0 else i + len)
    else if i > len then len
    else i
  }

  function SetAttr(n: Node, key: string, value: string): Node
  {
    n.(attrib := n.attrib[key := value])
  }

  function PopAttr(n: Node, key: string): Node
  {
    n.(attrib := n.attrib - {key})
  }

  function ClearAttrs(n: Node): Node
  {
    n.(attrib := map[])
  }

  function WithText(n: Node, text: Option<string>): Node
  {
    n.(text := text)
  }

  function InsertChild(n: Node, i: int, x: Node): Node
  {
    var k := InsertIndex(i, |n.children|);
    n.(children := n.children[..k] + [x] + n.children[k..])
  }

  function RemoveChild(n: Node, i: nat): Node
    requires i < |n.children|
  {
    n.(children := n.children[..i] + n.children[i + 1..])
  }

  function AppendChild(n: Node, x: Node): Node
  {
    n.(children := n.children + [x])
  }

  // ---------------------------------------------------------------------------
  // Lemmas about paths, lookups and replacement.
  // ---------------------------------------------------------------------------

  lemma {:induction false} FirstInIsFirst(s: Shape, t: QName, i: nat, q: Path)
    requires Reaches(s, q) && q != [] && i <= q[0] && ShapeAt(s, q).tag == t
    ensures FirstIn(s, t, i).Some?
    ensures FirstIn(s, t, i).value == q || Precedes(FirstIn(s, t, i).value, q)
    decreases s, |s.kids| - i
  {
    if s.kids[i].tag == t {
    } else {
      match FirstIn(s.kids[i], t, 0)
      case Some(p) =>
        if q[0] == i {
          assert q[1..] != [];
          FirstInIsFirst(s.kids[i], t, 0, q[1..]);
          assert ([i] + p)[1..] == p;
        }
      case None =>
        if q[0] == i {
          assert q[1..] != [];
          FirstInIsFirst(s.kids[i], t, 0, q[1..]);
        } else {
          FirstInIsFirst(s, t, i + 1, q);
        }
    }
  }

  /**
   * `find` returns the first proper descendant with the tag in document order:
   * it fails only when there is none, and whatever it returns comes no later
   * than any other proper descendant with that tag.
   */
  lemma FindIsFirst(n: Node, t: QName, q: Path)
    requires ValidPath(n, q) && q != [] && At(n, q).tag == t
    ensures Find(n, t).Some?
    ensures Find(n, t).value == q || Precedes(Find(n, t).value, q)
  {
    FirstInIsFirst(ShapeOf(n), t, 0, q);
  }

  /** `find` returns nothing exactly when no proper descendant has the tag. */
  lemma FindNone(n: Node, t: QName)
    ensures Find(n, t).None? <==> forall q :: ValidPath(n, q) && q != [] ==> At(n, q).tag != t
  {
    if Find(n, t).None? {
      forall q | ValidPath(n, q) && q != []
        ensures At(n, q).tag != t
      {
        if At(n, q).tag == t {
          FindIsFirst(n, t, q);
        }
      }
    }
  }

  /** Both halves of `find`'s promise, for every path at once. */
  lemma FindFirst(n: Node, t: QName)
    ensures Find(n, t).None? <==> forall q :: ValidPath(n, q) && q != [] ==> At(n, q).tag != t
    ensures Find(n, t).Some? ==> forall q :: ValidPath(n, q) && q != [] && At(n, q).tag == t ==>
                                          q == Find(n, t).value || Precedes(Find(n, t).value, q)
  {
    FindNone(n, t);
    forall q | ValidPath(n, q) && q != [] && At(n, q).tag == t
      ensures q == Find(n, t).value || Precedes(Find(n, t).value, q)
    {
      FindIsFirst(n, t, q);
    }
  }

  /** Stepping along `p` and then along `q` is stepping along `p + q`. */
  lemma {:induction false} AtConcat(n: Node, p: Path, q: Path)
    requires ValidPath(n, p)
    ensures ValidPath(n, p + q) <==> ValidPath(At(n, p), q)
    ensures ValidPath(n, p + q) ==> At(n, p + q) == At(At(n, p), q)
    decreases p
  {
    if p != [] {
      assert (p + q)[0] == p[0] && (p + q)[1..] == p[1..] + q;
      AtConcat(n.children[p[0]], p[1..], q);
    } else {
      assert p + q == q;
    }
  }

  /** Replacing at `p + q` is replacing, inside the element at `p`, at `q`. */
  lemma {:induction false} PutConcat(n: Node, p: Path, q: Path, s: Node)
    requires ValidPath(n, p) && ValidPath(At(n, p), q)
    ensures ValidPath(n, p + q)
    ensures Put(n, p + q, s) == Put(n, p, Put(At(n, p), q, s))
    decreases p
  {
    AtConcat(n, p, q);
    if p != [] {
      assert (p + q)[0] == p[0] && (p + q)[1..] == p[1..] + q;
      PutConcat(n.children[p[0]], p[1..], q, s);
    } else {
      assert p + q == q;
    }
  }

  /** Putting back what is there changes nothing. */
  lemma {:induction false} PutAt(n: Node, p: Path)
    requires ValidPath(n, p)
    ensures Put(n, p, At(n, p)) == n
    decreases p
  {
    if p != [] {
      PutAt(n.children[p[0]], p[1..]);
    }
  }

  /** A second replacement at the same place overrides the first. */
  lemma {:induction false} PutPut(n: Node, p: Path, a: Node, b: Node)
    requires ValidPath(n, p)
    ensures ValidPath(Put(n, p, a), p)
    ensures Put(Put(n, p, a), p, b) == Put(n, p, b)
    decreases p
  {
    if p != [] {
      PutPut(n.children[p[0]], p[1..], a, b);
    }
  }

  /**
   * Inside `Put(n, base, e)`, the element at `base + q` is the element of `e` at `q`,
   * and replacing it is replacing inside `e`.
   */
  lemma EditWithin(n: Node, base: Path, e: Node, q: Path, x: Node)
    requires ValidPath(n, base) && ValidPath(e, q)
    ensures ValidPath(Put(n, base, e), base + q)
    ensures At(Put(n, base, e), base + q) == At(e, q)
    ensures Put(Put(n, base, e), base + q, x) == Put(n, base, Put(e, q, x))
  {
    var r := Put(n, base, e);
    AtConcat(r, base, q);
    PutConcat(r, base, q, x);
    PutPut(n, base, e, Put(e, q, x));
  }

  /** After `insert(i, x)`, replacing the inserted child by `y` is inserting `y` instead. */
  lemma PutInserted(n: Node, i: int, x: Node, y: Node)
    ensures var k := InsertIndex(i, |n.children|);
      ValidPath(InsertChild(n, i, x), [k]) && At(InsertChild(n, i, x), [k]) == x &&
      Put(InsertChild(n, i, x), [k], y) == InsertChild(n, i, y)
  {
    var k := InsertIndex(i, |n.children|);
    var m := InsertChild(n, i, x);
    assert m.children[k] == x;
    assert ShapeOf(m).kids[k] == ShapeOf(x);
    assert m.children[k := y] == n.children[..k] + [y] + n.children[k..];
  }

  /** A replacement below the root leaves the root's label and its other children alone. */
  lemma PutBelowRoot(n: Node, p: Path, s: Node)
    requires ValidPath(n, p) && p != []
    ensures p[0] < |n.children|
    ensures var r := Put(n, p, s);
      r.tag == n.tag && r.attrib == n.attrib && r.text == n.text &&
      |r.children| == |n.children| &&
      r.children[p[0]] == Put(n.children[p[0]], p[1..], s) &&
      forall k :: 0 <= k < |n.children| && k != p[0] ==> r.children[k] == n.children[k]
  {
  }

  /**
   * A replacement at `p` changes the label of no element outside the subtree at `p`,
   * and no element at all outside the path to `p` and that subtree.
   */
  lemma {:induction false} PutElsewhere(n: Node, p: Path, s: Node, q: Path)
    requires ValidPath(n, p) && ValidPath(n, q) && !(p <= q)
    ensures ValidPath(Put(n, p, s), q)
    ensures var a, b := At(Put(n, p, s), q), At(n, q);
      a.tag == b.tag && a.attrib == b.attrib && a.text == b.text
    ensures !(q <= p) ==> At(Put(n, p, s), q) == At(n, q)
    decreases q
  {
    PutBelowRoot(n, p, s);
    var r := Put(n, p, s);
    if q != [] {
      var k := q[0];
      assert ShapeOf(r).kids[k] == ShapeOf(r.children[k]);
      if k == p[0] {
        assert !(p[1..] <= q[1..]);
        PutElsewhere(n.children[k], p[1..], s, q[1..]);
        assert !(q <= p) ==> !(q[1..] <= p[1..]);
      } else {
        assert r.children[k] == n.children[k];
      }
    }
  }

  /**
   * Replacing the element that `find` returns by another with the same tag does not
   * change what `find` returns: nothing before it in document order moves.
   */
  lemma {:induction false} FirstInPut(n: Node, t: QName, i: nat, p: Path, x: Node)
    requires FirstIn(ShapeOf(n), t, i) == Some(p) && x.tag == t
    ensures ValidPath(n, p)
    ensures FirstIn(ShapeOf(Put(n, p, x)), t, i) == Some(p)
    decreases ShapeOf(n), |n.children| - i
  {
    var s := ShapeOf(n);
    var r := Put(n, p, x);
    PutBelowRoot(n, p, x);
    assert ShapeOf(r).kids[i] == ShapeOf(r.children[i]);
    assert s.kids[i] == ShapeOf(n.children[i]);
    if s.kids[i].tag == t {
      assert p == [i];
    } else {
      match FirstIn(s.kids[i], t, 0)
      case Some(q) =>
        assert p == [i] + q && p[1..] == q;
        FirstInPut(n.children[i], t, 0, q, x);
        var c := Put(n.children[i], q, x);
        assert r.children[i] == c;
        PutBelowRoot(n.children[i], q, x);
      case None =>
        assert p[0] != i;
        FirstInPut(n, t, i + 1, p, x);
    }
  }

  /** `find` after `Put` at the found element, when the new element keeps the tag. */
  lemma FindPut(n: Node, t: QName, p: Path, x: Node)
    requires Find(n, t) == Some(p) && x.tag == t
    ensures ValidPath(n, p) && Find(Put(n, p, x), t) == Some(p)
  {
    FirstInPut(n, t, 0, p, x);
  }

  /** A path of length one names a direct child. */
  lemma ChildAt(n: Node, p: Path)
    requires ValidPath(n, p) && |p| == 1
    ensures p == [p[0]] && p[0] < |n.children| && At(n, p) == n.children[p[0]]
  {
    PutBelowRoot(n, p, n);
    assert p[1..] == [];
  }

  /** A lookup from the root is a plain `find`. */
  lemma FindBelowRoot(n: Node, t: QName)
    ensures FindBelow(n, [], t) == Find(n, t)
  {
    if Find(n, t).Some? {
      assert [] + Find(n, t).value == Find(n, t).value;
    }
  }

  /** Trees with the same shape answer every lookup alike. */
  lemma SameShapeFind(n: Node, m: Node, base: Path, t: QName)
    requires ShapeOf(n) == ShapeOf(m) && ValidPath(n, base)
    ensures ValidPath(m, base)
    ensures FindBelow(n, base, t) == FindBelow(m, base, t)
  {
  }

  /** Two elements carry the same tag, attributes and text. */
  predicate SameLabel(a: Node, b: Node)
  {
    a.tag == b.tag && a.attrib == b.attrib && a.text == b.text
  }

  /**
   * `r` has the shape of `n`, and only elements tagged `t` may differ from `n` in
   * their attributes or text.
   */
  ghost predicate RelabelsOnly(n: Node, r: Node, t: QName)
  {
    ShapeOf(r) == ShapeOf(n) &&
    forall q :: ValidPath(n, q) && At(n, q).tag != t ==> SameLabel(At(r, q), At(n, q))
  }

  /** Changing the attributes or text of the element at `p` leaves every other element's label alone. */
  lemma RelabelElsewhere(n: Node, p: Path, x: Node, q: Path)
    requires ValidPath(n, p) && x.tag == At(n, p).tag && x.children == At(n, p).children
    requires ValidPath(n, q) && q != p
    ensures ShapeOf(Put(n, p, x)) == ShapeOf(n)
    ensures SameLabel(At(Put(n, p, x), q), At(n, q))
  {
    var r := Put(n, p, x);
    assert ShapeOf(x) == ShapeOf(At(n, p));
    if !(p <= q) {
      PutElsewhere(n, p, x, q);
    } else {
      var d := q[|p|..];
      assert q == p + d;
      AtConcat(n, p, d);
      AtConcat(r, p, d);
      assert d != [];
    }
  }

  /** `r` has the shape of `n`, and every element other than the one at `p` keeps its label. */
  ghost predicate ChangesOnlyAt(n: Node, r: Node, p: Path)
  {
    ShapeOf(r) == ShapeOf(n) &&
    forall q :: ValidPath(n, q) && q != p ==> SameLabel(At(r, q), At(n, q))
  }

  /** Changing the attributes or text of the element at `p` changes nothing else. */
  lemma ChangedOnlyAt(n: Node, p: Path, x: Node)
    requires ValidPath(n, p) && x.tag == At(n, p).tag && x.children == At(n, p).children
    ensures ChangesOnlyAt(n, Put(n, p, x), p)
  {
    assert ShapeOf(x) == ShapeOf(At(n, p));
    forall q | ValidPath(n, q) && q != p
      ensures SameLabel(At(Put(n, p, x), q), At(n, q))
    {
      RelabelElsewhere(n, p, x, q);
    }
  }

  lemma ChangesOnlyAtTrans(a: Node, b: Node, c: Node, p: Path)
    requires ChangesOnlyAt(a, b, p) && ChangesOnlyAt(b, c, p)
    ensures ChangesOnlyAt(a, c, p)
  {
    forall q | ValidPath(a, q) && q != p
      ensures SameLabel(At(c, q), At(a, q))
    {
      assert ValidPath(b, q);
    }
  }

  /** Changing the attributes or text of one element relabels that element only. */
  lemma RelabelAt(n: Node, p: Path, x: Node)
    requires ValidPath(n, p) && x.tag == At(n, p).tag && x.children == At(n, p).children
    ensures RelabelsOnly(n, Put(n, p, x), x.tag)
  {
    assert ShapeOf(x) == ShapeOf(At(n, p));
    forall q | ValidPath(n, q) && At(n, q).tag != x.tag
      ensures SameLabel(At(Put(n, p, x), q), At(n, q))
    {
      RelabelElsewhere(n, p, x, q);
    }
  }

  lemma RelabelsOnlyTrans(a: Node, b: Node, c: Node, t: QName)
    requires RelabelsOnly(a, b, t) && RelabelsOnly(b, c, t)
    ensures RelabelsOnly(a, c, t)
  {
    forall q | ValidPath(a, q) && At(a, q).tag != t
      ensures SameLabel(At(c, q), At(a, q))
    {
      assert ShapeOf(At(b, q)) == ShapeAt(ShapeOf(a), q);
      assert At(b, q).tag == At(a, q).tag;
    }
  }

  /** Trees with the same shape have children with the same tags. */
  lemma SameShapeChildren(a: Node, b: Node)
    requires ShapeOf(a) == ShapeOf(b)
    ensures a.tag == b.tag && |a.children| == |b.children|
    ensures forall j :: 0 <= j < |a.children| ==>
      a.children[j].tag == b.children[j].tag && |a.children[j].children| == |b.children[j].children|
  {
    forall j | 0 <= j < |a.children|
      ensures a.children[j].tag == b.children[j].tag && |a.children[j].children| == |b.children[j].children|
    {
      assert ShapeOf(a).kids[j] == ShapeOf(a.children[j]);
      assert ShapeOf(b).kids[j] == ShapeOf(b.children[j]);
    }
  }

  /** A path into a childless child of the root stops at that child. */
  lemma IntoLeaf(n: Node, p: Path)
    requires ValidPath(n, p) && p != [] && n.children[p[0]].children == []
    ensures p == [p[0]] && At(n, p) == n.children[p[0]]
  {
    assert ShapeOf(n).kids[p[0]] == ShapeOf(n.children[p[0]]);
    assert Reaches(ShapeOf(n.children[p[0]]), p[1..]);
    assert |ShapeOf(n.children[p[0]]).kids| == 0;
    assert p[1..] == [];
    assert p == [p[0]] + p[1..];
  }

  // ---------------------------------------------------------------------------
  // The document: one tree, edited in place through the element API.
  // ---------------------------------------------------------------------------

  class Document {
    var root: Node

    constructor (root: Node)
      ensures this.root == root
    {
      this.root := root;
    }

    /** `e.set(key, value)` on the element at `p`. */
    method Set(p: Path, key: string, value: string)
      requires ValidPath(root, p)
      modifies this
      ensures root == Put(old(root), p, SetAttr(old(At(root, p)), key, value))
    {
      root := Put(root, p, SetAttr(At(root, p), key, value));
    }

    /** `e.attrib.pop(key)`; `ok` is false where Python raises KeyError, and then nothing changes. */
    method Pop(p: Path, key: string) returns (ok: bool)
      requires ValidPath(root, p)
      modifies this
      ensures ok == (key in old(At(root, p)).attrib)
      ensures root == if ok then Put(old(root), p, PopAttr(old(At(root, p)), key)) else old(root)
    {
      ok := key in At(root, p).attrib;
      if ok {
        root := Put(root, p, PopAttr(At(root, p), key));
      }
    }

    /** `e.attrib.clear()`. */
    method Clear(p: Path)
      requires ValidPath(root, p)
      modifies this
      ensures root == Put(old(root), p, ClearAttrs(old(At(root, p))))
    {
      root := Put(root, p, ClearAttrs(At(root, p)));
    }

    /** `e.text = text`. */
    method SetText(p: Path, text: Option<string>)
      requires ValidPath(root, p)
      modifies this
      ensures root == Put(old(root), p, WithText(old(At(root, p)), text))
    {
      root := Put(root, p, WithText(At(root, p), text));
    }

    /** `e.insert(i, x)`. */
    method Insert(p: Path, i: int, x: Node)
      requires ValidPath(root, p)
      modifies this
      ensures root == Put(old(root), p, InsertChild(old(At(root, p)), i, x))
    {
      root := Put(root, p, InsertChild(At(root, p), i, x));
    }

    /** `e.remove(c)` where `c` is the child at index `i`. */
    method Remove(p: Path, i: nat)
      requires ValidPath(root, p) && i < |At(root, p).children|
      modifies this
      ensures root == Put(old(root), p, RemoveChild(old(At(root, p)), i))
    {
      root := Put(root, p, RemoveChild(At(root, p), i));
    }

    /** `e.append(x)`. */
    method Append(p: Path, x: Node)
      requires ValidPath(root, p)
      modifies this
      ensures root == Put(old(root), p, AppendChild(old(At(root, p)), x))
    {
      root := Put(root, p, AppendChild(At(root, p), x));
    }
  }
}
