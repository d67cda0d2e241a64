/** The doubly linked list: a ring of elements through a sentinel, refining a sequence of element handles. */
module LinkedList {

  class Element<V> {
    var next: Element?<V>
    var prev: Element?<V>
    var list: List?<V>
    var Value: V

    // The list whose root this is: the source embeds the root in its List.
    ghost var rootOf: List?<V>

    constructor (v: V)
      ensures next == null && prev == null && list == null && Value == v && rootOf == null
    {
      next, prev, list, Value := null, null, null, v;
      rootOf := null;
    }

    /** The next element of the list, or null at its end. */
    method Next() returns (p: Element?<V>)
      ensures p == if list != null && next != list.root then next else null
      ensures list != null && list.Valid() && this in list.Elems ==>
                var i := IndexOf(list.Elems, this);
                p == if i + 1 < |list.Elems| then list.Elems[i + 1] else null
    {
      ghost var l := list;
      if l != null && l.Valid() && this in l.Elems {
        l.NextOf(IndexOf(l.Elems, this));
      }
      p := next;
      if list != null && p != list.root {
        return;
      }
      return null;
    }

    method Prev() returns (p: Element?<V>)
      ensures p == if list != null && prev != list.root then prev else null
      ensures list != null && list.Valid() && this in list.Elems ==>
                var i := IndexOf(list.Elems, this);
                p == if 0 < i then list.Elems[i - 1] else null
    {
      ghost var l := list;
      if l != null && l.Valid() && this in l.Elems {
        l.NextOf(IndexOf(l.Elems, this));
      }
      p := prev;
      if list != null && p != list.root {
        return;
      }
      return null;
    }
  }

  /** `s` without the element at `i`. */
  function Without<T>(s: seq<T>, i: nat): seq<T>
    requires i < |s|
  {
    s[..i] + s[i + 1..]
  }

  /** `s` with `x` inserted at `i`. */
  function With<T>(s: seq<T>, i: nat, x: T): seq<T>
    requires i <= |s|
  {
    s[..i] + [x] + s[i..]
  }

  ghost predicate Distinct<T>(s: seq<T>) {
    forall i, j :: 0 <= i < j < |s| ==> s[i] != s[j]
  }

  /** Each element points to the next one of the sequence, and back. */
  ghost predicate Chained<V>(s: seq<Element<V>>)
    reads s
  {
    && (forall i {:trigger s[i].next} :: 0 <= i < |s| - 1 ==> s[i].next == s[i + 1])
    && (forall i {:trigger s[i].prev} :: 1 <= i < |s| ==> s[i].prev == s[i - 1])
  }

  /** The place of `x` in `s`. */
  ghost function IndexOf<T>(s: seq<T>, x: T): (i: nat)
    requires x in s
    ensures i < |s| && s[i] == x
  {
    var i: nat :| i < |s| && s[i] == x;
    i
  }

  /** Where an element lies once another one is taken out. */
  lemma PlaceInRest<T>(s: seq<T>, i: nat, j: nat)
    requires Distinct(s) && i < |s| && j < |s| && i != j
    ensures s[j] in Without(s, i) && IndexOf(Without(s, i), s[j]) == if j < i then j else j - 1
  {
    var t, k := Without(s, i), if j < i then j else j - 1;
    assert t[k] == s[j];
    assert forall m :: 0 <= m < |t| ==> t[m] == s[if m < i then m else m + 1];
  }

  /** Where the element at `m` was before the one at `i` was moved to `k`. */
  function Source(i: nat, k: nat, m: nat): nat {
    if m == k then i
    else
      var j := if m < k then m else m - 1;
      if j < i then j else j + 1
  }

  lemma MovedFrom<T>(s: seq<T>, i: nat, k: nat, m: nat)
    requires i < |s| && k < |s| && m < |s|
    ensures |With(Without(s, i), k, s[i])| == |s| && Source(i, k, m) < |s|
    ensures With(Without(s, i), k, s[i])[m] == s[Source(i, k, m)]
  {
  }

  /** Taking out and putting in keep the elements. */
  lemma SameElements<T>(s: seq<T>, i: nat, k: nat)
    requires i < |s| && k < |s|
    ensures forall x :: x in With(Without(s, i), k, s[i]) <==> x in s
    ensures Distinct(s) ==> Distinct(With(Without(s, i), k, s[i]))
  {
    var t := With(Without(s, i), k, s[i]);
    forall m | 0 <= m < |t| ensures Source(i, k, m) < |s| && t[m] == s[Source(i, k, m)] {
      MovedFrom(s, i, k, m);
    }
    forall x | x in s ensures x in t {
      var j :| 0 <= j < |s| && s[j] == x;
      MovedFrom(s, i, k, Source(k, i, j));
      assert Source(i, k, Source(k, i, j)) == j;
    }
    forall a, b | 0 <= a < b < |t| && Distinct(s) ensures t[a] != t[b] {
      assert Source(i, k, a) != Source(i, k, b);
    }
  }

  lemma PrependedTo<T>(x: T, a: seq<T>, b: seq<T>)
    ensures [x] + (a + b) == ([x] + a) + b
  {
  }

  lemma AppendedAt<T>(a: seq<T>, b: seq<T>, i: nat)
    requires i < |b|
    ensures (a + b)[|a| + i] == b[i]
  {
  }

  /** The ring through sentinel `r`, before and after a move. */
  lemma RingAfterMove<T>(r: T, s: seq<T>, i: nat, k: nat, x: T)
    requires i < |s| && k < |s|
    ensures [r] + With(Without(s, i), k, x) + [r] == With(Without([r] + s + [r], i + 1), k + 1, x)
  {
    assert Without([r] + s + [r], i + 1) == [r] + Without(s, i) + [r];
  }

  /** Only the two ends of a ring are the same element. */
  ghost predicate RingShaped<V>(s: seq<Element<V>>) {
    && 2 <= |s| && s[0] == s[|s| - 1]
    && forall i, j :: 0 <= i < j < |s| && s[i] == s[j] ==> i == 0 && j == |s| - 1
  }

  /** The four pointer writes that put `e` after position `i` of a ring. */
  method Splice<V>(e: Element<V>, at: Element<V>, ghost succ: Element<V>, ghost s: seq<Element<V>>, ghost i: nat)
    requires Chained(s) && RingShaped(s) && i < |s| - 1 && s[i] == at && s[i + 1] == succ && e !in s
    modifies at`next, succ`prev, e`next, e`prev
    ensures Chained(With(s, i + 1, e)) && RingShaped(With(s, i + 1, e))
  {
    assert s[i].next == succ;
    e.prev := at;
    e.next := at.next;
    e.prev.next := e;
    e.next.prev := e;
    ghost var t := With(s, i + 1, e);
    assert forall j :: 0 <= j <= i ==> t[j] == s[j];
    assert forall j :: i + 2 <= j < |t| ==> t[j] == s[j - 1];
    forall j | 0 <= j < |t| - 1 ensures t[j].next == t[j + 1] {
      if j < i { assert s[j].next == s[j + 1]; }
      else if j > i + 1 { assert s[j - 1].next == s[j]; }
    }
    forall j | 1 <= j < |t| ensures t[j].prev == t[j - 1] {
      if j <= i { assert s[j].prev == s[j - 1]; }
      else if j > i + 2 { assert s[j - 1].prev == s[j - 2]; }
    }
  }

  /** The two pointer writes that take position `i` out of a ring. */
  method Unsplice<V>(e: Element<V>, ghost pred: Element<V>, ghost succ: Element<V>, ghost s: seq<Element<V>>,
                     ghost i: nat)
    requires Chained(s) && RingShaped(s) && 1 <= i < |s| - 1
    requires s[i] == e && s[i - 1] == pred && s[i + 1] == succ
    modifies pred`next, succ`prev
    ensures Chained(Without(s, i)) && RingShaped(Without(s, i)) && e !in Without(s, i)
  {
    assert s[i].prev == pred && s[i].next == succ;
    e.prev.next := e.next;
    e.next.prev := e.prev;
    ghost var t := Without(s, i);
    assert forall j :: 0 <= j < i ==> t[j] == s[j];
    assert forall j :: i <= j < |t| ==> t[j] == s[j + 1];
    forall j | 0 <= j < |t| - 1 ensures t[j].next == t[j + 1] {
      if j < i - 1 { assert s[j].next == s[j + 1]; }
      else if j >= i { assert s[j + 1].next == s[j + 2]; }
    }
    forall j | 1 <= j < |t| ensures t[j].prev == t[j - 1] {
      if j < i { assert s[j].prev == s[j - 1]; }
      else if j > i { assert s[j + 1].prev == s[j]; }
    }
  }

  class List<V> {
    const root: Element<V>     // the sentinel; it belongs to no list
    var len: nat
    ghost var Elems: seq<Element<V>>

    /** Once round the ring, from the sentinel to the sentinel. */
    ghost function Ring(): seq<Element<V>>
      reads this
    {
      [root] + Elems + [root]
    }

    /** The zero List, which lazyInit has still to initialize. */
    ghost predicate Zero()
      reads this, root
    {
      root.next == null && root.prev == null && Elems == []
    }

    ghost predicate Valid()
      reads this, root, Elems
    {
      && len == |Elems|
      && Distinct(Elems)
      && root.rootOf == this && root.list == null
      && (forall e :: e in Elems ==> e.list == this && e.rootOf == null)
      && (Zero() || Chained(Ring()))
    }

    /** The elements as a set, for framing: the operations write only their links, and `list` where one leaves. */
    ghost function Nodes(): set<Element<V>>
      reads this
    {
      set e | e in Elems
    }

    /** An element that says it is in this list is in it.  True of a new element, and every operation below keeps
        it for every element, since it says what becomes of each `list` field. */
    ghost predicate Genuine(e: Element<V>)
      reads this, e
    {
      e.list == this ==> e in Elems
    }

    /** The values, front to back. */
    ghost function Values(): seq<V>
      reads this, Elems
    {
      seq(|Elems|, i requires 0 <= i < |Elems| reads this, Elems => Elems[i].Value)
    }

    /** The zero List is an empty list ready to use; its root holds an arbitrary value. */
    constructor (v: V)
      ensures Valid() && Zero() && fresh(root)
    {
      root := new Element(v);
      len, Elems := 0, [];
      new;
      root.rootOf := this;
    }

    method LazyInit()
      requires Valid()
      modifies root`next, root`prev
      ensures Valid() && Chained(Ring())
    {
      assert Zero() || Ring()[0].next == Ring()[1];
      if root.next == null {
        root.next := root;
        root.prev := root;
      }
    }

    method Front() returns (e: Element?<V>)
      requires Valid()
      ensures e == if Elems == [] then null else Elems[0]
    {
      if len == 0 {
        return null;
      }
      assert Ring()[0].next == Ring()[1];
      return root.next;
    }

    method Back() returns (e: Element?<V>)
      requires Valid()
      ensures e == if Elems == [] then null else Elems[|Elems| - 1]
    {
      if len == 0 {
        return null;
      }
      assert Ring()[|Elems| + 1].prev == Ring()[|Elems|];
      return root.prev;
    }

    lemma RingIsShaped()
      requires Valid()
      ensures RingShaped(Ring())
    {
    }

    /** insert: `e` goes after the element at ring position `i`. */
    method InsertAt(e: Element<V>, at: Element<V>, ghost i: nat)
      requires Valid() && Chained(Ring()) && i <= |Elems| && Ring()[i] == at
      requires e.list == null && e.rootOf == null
      modifies this, root`next, root`prev, Nodes()`next, Nodes()`prev, e`next, e`prev, e`list
      ensures Valid() && Chained(Ring()) && Elems == With(old(Elems), i, e)
    {
      ghost var s := Ring();
      RingIsShaped();
      Splice(e, at, s[i + 1], s, i);
      e.list := this;
      len := len + 1;
      Elems := With(Elems, i, e);
      assert Ring() == With(s, i + 1, e);
    }

    /** remove: takes out the element at index `i`. */
    method RemoveAt(e: Element<V>, ghost i: nat)
      requires Valid() && i < |Elems| && Elems[i] == e
      modifies this, root`next, root`prev, Nodes()`next, Nodes()`prev, Nodes()`list
      ensures Valid() && Elems == Without(old(Elems), i)
      ensures e.list == null && e.next == null && e.prev == null
    {
      ghost var s := Ring();
      RingIsShaped();
      assert s[i + 1] == e;
      assert Chained(s) by { assert Zero() ==> false; }
      Unsplice(e, s[i], s[i + 2], s, i + 1);
      e.next := null;
      e.prev := null;
      e.list := null;
      len := len - 1;
      Elems := Without(Elems, i);
      assert Ring() == Without(s, i + 1);
    }

    /** move: takes the element at index `i` and puts it after the element at ring position `j`. */
    method MoveAt(e: Element<V>, at: Element<V>, ghost i: nat, ghost j: nat)
      requires Valid() && i < |Elems| && Elems[i] == e && j <= |Elems| && Ring()[j] == at
      modifies this`Elems, root`next, root`prev, Nodes()`next, Nodes()`prev
      ensures Valid()
      ensures Elems == if j <= i then With(Without(old(Elems), i), j, e)
                       else if j == i + 1 then old(Elems) else With(Without(old(Elems), i), j - 1, e)
    {
      ghost var s := Ring();
      RingIsShaped();
      assert s[i + 1] == e;
      if e == at {
        return;
      }
      assert Chained(s) by { assert Zero() ==> false; }
      Unsplice(e, s[i], s[i + 2], s, i + 1);
      ghost var t, k := Without(s, i + 1), if j <= i then j else j - 1;
      assert t[k] == at;
      Splice(e, at, t[k + 1], t, k);
      Reorder(i, k, e, With(t, k + 1, e));
    }

    /** The ghost side of a move whose pointer writes are done: the elements in their new order. */
    ghost method Reorder(i: nat, k: nat, e: Element<V>, ring: seq<Element<V>>)
      requires i < |Elems| && k < |Elems| && Elems[i] == e && ring == With(Without(Ring(), i + 1), k + 1, e)
      requires len == |Elems| && Distinct(Elems) && root.rootOf == this && root.list == null && Chained(ring)
      requires forall x :: x in Elems ==> x.list == this && x.rootOf == null
      modifies this`Elems
      ensures Elems == With(Without(old(Elems), i), k, e) && Valid()
    {
      SameElements(Elems, i, k);
      RingAfterMove(root, Elems, i, k, e);
      Elems := With(Without(Elems, i), k, e);
    }

    /** insertValue: a new element with value `v` after the element at ring position `i`. */
    method InsertValue(v: V, at: Element<V>, ghost i: nat) returns (e: Element<V>)
      requires Valid() && Chained(Ring()) && i <= |Elems| && Ring()[i] == at
      modifies this, root`next, root`prev, Nodes()`next, Nodes()`prev
      ensures Valid() && Chained(Ring()) && fresh(e) && e.Value == v && Elems == With(old(Elems), i, e)
    {
      e := new Element(v);
      InsertAt(e, at, i);
      assert forall x :: x in old(Elems) ==> x in Elems;
    }

    // ----- the operations

    /** Removes `e` if it is in this list; an element of another list, or of none, changes nothing. */
    method Remove(e: Element<V>) returns (v: V)
      requires Valid() && Genuine(e)
      modifies this, root`next, root`prev, Nodes()`next, Nodes()`prev, Nodes()`list
      ensures Valid()
      ensures v == e.Value == old(e.Value)
      ensures if old(e.list) == this then
                && Elems == Without(old(Elems), IndexOf(old(Elems), e)) && e !in Elems
                && e.list == null && e.next == null && e.prev == null
              else Elems == old(Elems)
      ensures old(e.list) != this ==> unchanged(this) && unchanged(root) && unchanged(old(Elems))
    {
      if e.list == this {
        RemoveAt(e, IndexOf(Elems, e));
      }
      return e.Value;
    }

    method PushFront(v: V) returns (e: Element<V>)
      requires Valid()
      modifies this, root`next, root`prev, Nodes()`next, Nodes()`prev
      ensures Valid()
      ensures fresh(e) && e.Value == v && Elems == [e] + old(Elems)
    {
      LazyInit();
      e := InsertValue(v, root, 0);
    }

    method PushBack(v: V) returns (e: Element<V>)
      requires Valid()
      modifies this, root`next, root`prev, Nodes()`next, Nodes()`prev
      ensures Valid()
      ensures fresh(e) && e.Value == v && Elems == old(Elems) + [e]
    {
      LazyInit();
      assert Ring()[|Elems| + 1].prev == Ring()[|Elems|];
      e := InsertValue(v, root.prev, |Elems|);
    }

    method InsertBefore(v: V, mark: Element<V>) returns (e: Element?<V>)
      requires Valid() && Genuine(mark)
      modifies this, root`next, root`prev, Nodes()`next, Nodes()`prev
      ensures Valid()
      ensures if old(mark.list) == this then
                e != null && fresh(e) && e.Value == v && Elems == With(old(Elems), IndexOf(old(Elems), mark), e)
              else e == null && Elems == old(Elems)
      ensures old(mark.list) != this ==> unchanged(this) && unchanged(root) && unchanged(old(Elems))
    {
      if mark.list != this {
        return null;
      }
      ghost var i := IndexOf(Elems, mark);
      assert Ring()[i + 1] == mark && !Zero();
      assert Ring()[i + 1].prev == Ring()[i];
      e := InsertValue(v, mark.prev, i);
    }

    method InsertAfter(v: V, mark: Element<V>) returns (e: Element?<V>)
      requires Valid() && Genuine(mark)
      modifies this, root`next, root`prev, Nodes()`next, Nodes()`prev
      ensures Valid()
      ensures if old(mark.list) == this then
                e != null && fresh(e) && e.Value == v && Elems == With(old(Elems), IndexOf(old(Elems), mark) + 1, e)
              else e == null && Elems == old(Elems)
      ensures old(mark.list) != this ==> unchanged(this) && unchanged(root) && unchanged(old(Elems))
    {
      if mark.list != this {
        return null;
      }
      ghost var i := IndexOf(Elems, mark);
      assert Ring()[i + 1] == mark && !Zero();
      e := InsertValue(v, mark, i + 1);
    }

    method MoveToFront(e: Element<V>)
      requires Valid() && Genuine(e)
      modifies this`Elems, root`next, root`prev, Nodes()`next, Nodes()`prev
      ensures Valid()
      ensures Elems == if e.list == this then [e] + Without(old(Elems), IndexOf(old(Elems), e)) else old(Elems)
      ensures old(e.list) != this ==> unchanged(this) && unchanged(root) && unchanged(old(Elems))
    {
      if e.list != this {
        return;
      }
      ghost var i := IndexOf(Elems, e);
      assert Ring()[i + 1] == e && !Zero();
      assert Ring()[0].next == Ring()[1];
      if root.next == e {
        return;
      }
      MoveAt(e, root, i, 0);
    }

    method MoveToBack(e: Element<V>)
      requires Valid() && Genuine(e)
      modifies this`Elems, root`next, root`prev, Nodes()`next, Nodes()`prev
      ensures Valid()
      ensures Elems == if e.list == this then Without(old(Elems), IndexOf(old(Elems), e)) + [e] else old(Elems)
      ensures old(e.list) != this ==> unchanged(this) && unchanged(root) && unchanged(old(Elems))
    {
      if e.list != this {
        return;
      }
      ghost var i := IndexOf(Elems, e);
      assert Ring()[i + 1] == e && !Zero();
      assert Ring()[|Elems| + 1].prev == Ring()[|Elems|];
      if root.prev == e {
        return;
      }
      MoveAt(e, root.prev, i, |Elems|);
    }

    method MoveBefore(e: Element<V>, mark: Element<V>)
      requires Valid() && Genuine(e) && Genuine(mark)
      modifies this`Elems, root`next, root`prev, Nodes()`next, Nodes()`prev
      ensures Valid()
      ensures if e.list == this && mark.list == this && e != mark then
                var rest := Without(old(Elems), IndexOf(old(Elems), e));
                mark in rest && Elems == With(rest, IndexOf(rest, mark), e)
              else Elems == old(Elems) && unchanged(this) && unchanged(root) && unchanged(old(Elems))
    {
      if e.list != this || e == mark || mark.list != this {
        return;
      }
      ghost var i, j := IndexOf(Elems, e), IndexOf(Elems, mark);
      assert Ring()[j + 1] == mark && !Zero();
      assert Ring()[j + 1].prev == Ring()[j];
      PlaceInRest(Elems, i, j);
      MoveAt(e, mark.prev, i, j);
    }

    method MoveAfter(e: Element<V>, mark: Element<V>)
      requires Valid() && Genuine(e) && Genuine(mark)
      modifies this`Elems, root`next, root`prev, Nodes()`next, Nodes()`prev
      ensures Valid()
      ensures if e.list == this && mark.list == this && e != mark then
                var rest := Without(old(Elems), IndexOf(old(Elems), e));
                mark in rest && Elems == With(rest, IndexOf(rest, mark) + 1, e)
              else Elems == old(Elems) && unchanged(this) && unchanged(root) && unchanged(old(Elems))
    {
      if e.list != this || e == mark || mark.list != this {
        return;
      }
      ghost var i, j := IndexOf(Elems, e), IndexOf(Elems, mark);
      assert Ring()[j + 1] == mark;
      PlaceInRest(Elems, i, j);
      MoveAt(e, mark, i, j + 1);
    }

    /** The element after the one at index `k`, as Next finds it. */
    lemma NextOf(k: nat)
      requires Valid() && k < |Elems|
      ensures Elems[k].list == this
      ensures if k + 1 < |Elems| then Elems[k].next == Elems[k + 1] && Elems[k + 1] != root else Elems[k].next == root
      ensures if 0 < k then Elems[k].prev == Elems[k - 1] && Elems[k - 1] != root else Elems[k].prev == root
    {
      assert Ring()[k + 1] == Elems[k] && !Zero();
      assert Ring()[k + 1].next == Ring()[k + 2];
      assert Ring()[k + 1].prev == Ring()[k];
    }

    /** Inserting into this list leaves another list as it is. */
    method InsertCopy(v: V, at: Element<V>, ghost i: nat, ghost other: List<V>) returns (e: Element<V>)
      requires Valid() && Chained(Ring()) && i <= |Elems| && Ring()[i] == at && other.Valid()
      modifies this, root`next, root`prev, Nodes()`next, Nodes()`prev
      ensures Valid() && Chained(Ring()) && other.Valid()
      ensures fresh(e) && e.Value == v && Elems == With(old(Elems), i, e)
      ensures other != this ==> other.Elems == old(other.Elems)
    {
      ghost var theirs := other.Ring();
      assert other != this ==> forall k :: 0 <= k < |theirs| ==> theirs[k] != root && theirs[k] !in Elems;
      e := InsertValue(v, at, i);
      assert other != this ==> other.Ring() == theirs;
    }

    /** One round of PushBackList: copies `e`, the element of `other` at index `j`, and steps to the next one. */
    method AppendCopy(other: List<V>, e: Element<V>, ghost j: nat) returns (x: Element<V>, e': Element?<V>)
      requires Valid() && Chained(Ring()) && other.Valid() && j < |other.Elems| && other.Elems[j] == e
      modifies this, root`next, root`prev, Nodes()`next, Nodes()`prev
      ensures Valid() && Chained(Ring()) && other.Valid()
      ensures fresh(x) && x.Value == old(e.Value) && Elems == old(Elems) + [x]
      ensures other.Elems == if other == this then old(Elems) + [x] else old(other.Elems)
      ensures j + 1 < |old(other.Elems)| ==> e' == old(other.Elems)[j + 1]
    {
      assert Ring()[|Elems| + 1].prev == Ring()[|Elems|];
      x := InsertCopy(e.Value, root.prev, |Elems|, other);
      other.NextOf(j);
      e' := e.Next();
    }

    /** One round of PushFrontList. */
    method PrependCopy(other: List<V>, e: Element<V>, ghost j: nat) returns (x: Element<V>, e': Element?<V>)
      requires Valid() && Chained(Ring()) && other.Valid() && j < |other.Elems| && other.Elems[j] == e
      modifies this, root`next, root`prev, Nodes()`next, Nodes()`prev
      ensures Valid() && Chained(Ring()) && other.Valid()
      ensures fresh(x) && x.Value == old(e.Value) && Elems == [x] + old(Elems)
      ensures other.Elems == if other == this then [x] + old(Elems) else old(other.Elems)
      ensures 0 < j ==> e' == old(other.Elems)[j - 1]
    {
      x := InsertCopy(e.Value, root, 0, other);
      other.NextOf(if other == this then j + 1 else j);
      e' := e.Prev();
    }

    /** The loop of PushBackList: `added` are the new elements. */
    method AppendAll(other: List<V>) returns (ghost added: seq<Element<V>>)
      requires Valid() && Chained(Ring()) && other.Valid()
      modifies this, root`next, root`prev, Nodes()`next, Nodes()`prev
      ensures Valid() && other.Valid() && Elems == old(Elems) + added
      ensures other != this ==> other.Elems == old(other.Elems)
      ensures |added| == |old(other.Elems)|
      ensures forall k :: 0 <= k < |added| ==> fresh(added[k]) && added[k].Value == old(other.Elems[k].Value)
    {
      ghost var mine, src, values := Elems, other.Elems, other.Values();
      added := [];
      ghost var news: set<Element<V>> := {};
      var i := other.len;
      var e := other.Front();
      while i > 0
        invariant Valid() && Chained(Ring()) && other.Valid()
        invariant Backing(other, mine, src, values, added, i, e)
        invariant fresh(news) && forall k :: 0 <= k < |added| ==> added[k] in news
      {
        ghost var x;
        e, added, x := AppendRound(other, mine, src, values, added, i, e);
        news := news + {x};
        i := i - 1;
      }
    }

    /** The invariant of that loop: the new elements `added` lie behind `mine`, and `e` is the first element of `src`
        still to be copied. */
    ghost predicate Backing(other: List<V>, mine: seq<Element<V>>, src: seq<Element<V>>, values: seq<V>,
                            added: seq<Element<V>>, i: nat, e: Element?<V>)
      reads this, other, added, src
    {
      && i <= |src| == |values| && |added| == |src| - i
      && Elems == mine + added
      && other.Elems == (if other == this then src + added else src)
      && (forall k :: 0 <= k < |src| ==> src[k].Value == values[k])
      && (forall k :: 0 <= k < |added| ==> added[k].Value == values[k])
      && (i > 0 ==> e == src[|src| - i])
    }

    /** One round of it. */
    method AppendRound(other: List<V>, ghost mine: seq<Element<V>>, ghost src: seq<Element<V>>, ghost values: seq<V>,
                       ghost added: seq<Element<V>>, ghost i: nat, e: Element<V>)
      returns (e': Element?<V>, ghost added': seq<Element<V>>, ghost x: Element<V>)
      requires Valid() && Chained(Ring()) && other.Valid() && 0 < i
      requires Backing(other, mine, src, values, added, i, e)
      modifies this, root`next, root`prev, Nodes()`next, Nodes()`prev
      ensures Valid() && Chained(Ring()) && other.Valid()
      ensures fresh(x) && forall k :: 0 <= k < |added'| ==> added'[k] == x || added'[k] in added
      ensures Backing(other, mine, src, values, added', i - 1, e')
    {
      var y;
      y, e' := AppendCopy(other, e, |src| - i);
      x, added' := y, added + [y];
    }

    /** New elements with exactly these values. */
    ghost predicate Carries(added: seq<Element<V>>, values: seq<V>)
      reads added
    {
      |added| == |values| && forall k :: 0 <= k < |added| ==> added[k].Value == values[k]
    }

    /** The invariant of the loop of PushFrontList: the new elements `added` lie in front of `mine`, and `e` is the
        element of `src` before those already copied. */
    ghost predicate Fronting(other: List<V>, mine: seq<Element<V>>, src: seq<Element<V>>, values: seq<V>,
                             added: seq<Element<V>>, i: nat, e: Element?<V>)
      reads this, other, added, src
    {
      && i <= |src| == |values| && |added| == |src| - i
      && Elems == added + mine
      && other.Elems == (if other == this then added + src else src)
      && (forall k :: 0 <= k < |src| ==> src[k].Value == values[k])
      && Carries(added, values[i..])
      && (i > 0 ==> e == src[i - 1])
    }

    /** One round of that loop. */
    method PrependRound(other: List<V>, ghost mine: seq<Element<V>>, ghost src: seq<Element<V>>, ghost values: seq<V>,
                        ghost added: seq<Element<V>>, ghost i: nat, e: Element<V>)
      returns (e': Element?<V>, ghost added': seq<Element<V>>, ghost x: Element<V>)
      requires Valid() && Chained(Ring()) && other.Valid() && 0 < i
      requires Fronting(other, mine, src, values, added, i, e)
      modifies this, root`next, root`prev, Nodes()`next, Nodes()`prev
      ensures Valid() && Chained(Ring()) && other.Valid()
      ensures fresh(x) && forall k :: 0 <= k < |added'| ==> added'[k] == x || added'[k] in added
      ensures Fronting(other, mine, src, values, added', i - 1, e')
    {
      AppendedAt(added, src, i - 1);
      if i > 1 { AppendedAt(added, src, i - 2); }
      var y;
      y, e' := PrependCopy(other, e, if other == this then |src| - 1 else i - 1);
      x, added' := y, [y] + added;
      assert Carries(added, values[i..]);
      FrontingMoves(other, mine, src, values, added, i, x, e');
    }

    /** The invariant after a round, from what the round did. */
    lemma FrontingMoves(other: List<V>, mine: seq<Element<V>>, src: seq<Element<V>>, values: seq<V>,
                        added: seq<Element<V>>, i: nat, x: Element<V>, e': Element?<V>)
      requires 0 < i <= |src| == |values| && |added| == |src| - i
      requires Elems == [x] + (added + mine)
      requires other.Elems == if other == this then [x] + (added + src) else src
      requires forall k :: 0 <= k < |src| ==> src[k].Value == values[k]
      requires Carries(added, values[i..]) && x.Value == values[i - 1]
      requires i > 1 ==> e' == src[i - 2]
      ensures Fronting(other, mine, src, values, [x] + added, i - 1, e')
    {
      CarriesOne(x, added, values, i);
      PrependedTo(x, added, mine);
      PrependedTo(x, added, src);
    }

    /** The loop of PushFrontList: `added` are the new elements. */
    method PrependAll(other: List<V>) returns (ghost added: seq<Element<V>>, ghost news: set<Element<V>>)
      requires Valid() && Chained(Ring()) && other.Valid()
      modifies this, root`next, root`prev, Nodes()`next, Nodes()`prev
      ensures Valid() && other.Valid() && Elems == added + old(Elems)
      ensures other != this ==> other.Elems == old(other.Elems)
      ensures fresh(news) && AllIn(added, news)
      ensures Carries(added, old(other.Values()))
    {
      ghost var mine, src, values := Elems, other.Elems, other.Values();
      added, news := [], {};
      var i := other.len;
      var e := other.Back();
      while i > 0
        invariant Valid() && Chained(Ring()) && other.Valid()
        invariant Fronting(other, mine, src, values, added, i, e)
        invariant fresh(news) && AllIn(added, news)
      {
        ghost var before, x := added, e;
        e, added, x := PrependRound(other, mine, src, values, added, i, e);
        MoreIn(before, added, x, news);
        news := news + {x};
        i := i - 1;
      }
      CarriesAll(added, values);
    }

    ghost predicate AllIn(added: seq<Element<V>>, news: set<Element<V>>) {
      forall k :: 0 <= k < |added| ==> added[k] in news
    }

    lemma MoreIn(before: seq<Element<V>>, added: seq<Element<V>>, x: Element<V>, news: set<Element<V>>)
      requires AllIn(before, news) && forall k :: 0 <= k < |added| ==> added[k] == x || added[k] in before
      ensures AllIn(added, news + {x})
    {
    }

    lemma CarriesAll(added: seq<Element<V>>, values: seq<V>)
      requires Carries(added, values[0..])
      ensures Carries(added, values)
    {
    }

    lemma CarriesOne(x: Element<V>, added: seq<Element<V>>, values: seq<V>, i: nat)
      requires 0 < i <= |values| && x.Value == values[i - 1] && Carries(added, values[i..])
      ensures Carries([x] + added, values[i - 1..])
    {
    }

    /** Appends the values of `other`, also when `other` is this list and grows under the traversal. */
    method PushBackList(other: List<V>)
      requires Valid() && other.Valid()
      modifies this, root`next, root`prev, Nodes()`next, Nodes()`prev
      ensures Valid() && Values() == old(Values()) + old(other.Values())
      ensures old(Elems) <= Elems && forall i :: |old(Elems)| <= i < |Elems| ==> fresh(Elems[i])
      ensures other != this ==>
                other.Valid() && other.Elems == old(other.Elems) && other.Values() == old(other.Values())
    {
      LazyInit();
      ghost var added := AppendAll(other);
    }

    /** Prepends the values of `other`, in order, also when `other` is this list. */
    method PushFrontList(other: List<V>)
      requires Valid() && other.Valid()
      modifies this, root`next, root`prev, Nodes()`next, Nodes()`prev
      ensures Valid() && Values() == old(other.Values()) + old(Values())
      ensures var n := |old(other.Elems)|; |Elems| == n + |old(Elems)| && Elems[n..] == old(Elems)
                                           && forall i :: 0 <= i < n ==> fresh(Elems[i])
      ensures other != this ==>
                other.Valid() && other.Elems == old(other.Elems) && other.Values() == old(other.Values())
    {
      LazyInit();
      ghost var added, news := PrependAll(other);
    }
  }
}
