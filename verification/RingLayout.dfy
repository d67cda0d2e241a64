/** How the unread bytes lie in the circular array: straight, wrapped, full or empty. */
module RingLayout {
  import opened RingSpec

  /** Is (r, w, full) a layout of an array of this size? */
  predicate Layout(size: nat, r: nat, w: nat, full: bool) {
    r < size && w < size && (full ==> r == w)
  }

  /** The unread bytes, oldest first. */
  function Unread(b: seq<Byte>, r: nat, w: nat, full: bool): seq<Byte>
    requires Layout(|b|, r, w, full)
  {
    if r == w && !full then []
    else if r < w then b[r..w]
    else b[r..] + b[..w]
  }

  /** The circular position `n` places after `at`. */
  function Forward(size: nat, at: nat, n: nat): nat
    requires at < size && n <= size
  {
    if at + n < size then at + n else at + n - size
  }

  lemma ForwardIsModulo(size: nat, at: nat, n: nat)
    requires at < size && n <= size
    ensures (at + n) % size == Forward(size, at, n)
  {
    if at + n >= size {
      assert (at + n) / size == 1;
    }
  }

  /** The unread byte at index `i` lies `i` places after the read position. */
  lemma UnreadAt(b: seq<Byte>, r: nat, w: nat, full: bool, i: nat)
    requires Layout(|b|, r, w, full) && i < |Unread(b, r, w, full)|
    ensures Unread(b, r, w, full)[i] == b[Forward(|b|, r, i)]
  {
  }

  /** How many unread bytes there are, in each layout. */
  function Count(size: nat, r: nat, w: nat, full: bool): nat
    requires Layout(size, r, w, full)
  {
    if r == w then (if full then size else 0) else if r < w then w - r else size - r + w
  }

  lemma UnreadLength(b: seq<Byte>, r: nat, w: nat, full: bool)
    requires Layout(|b|, r, w, full)
    ensures |Unread(b, r, w, full)| == Count(|b|, r, w, full)
  {
  }

  /** How many places after `at` position `j` lies. */
  function Distance(size: nat, at: nat, j: nat): nat
    requires at < size && j < size
  {
    if at <= j then j - at else j + size - at
  }

  /** An unread byte does not lie where `n` bytes of free space are written. */
  lemma UnreadIsNotFree(size: nat, r: nat, w: nat, full: bool, i: nat, n: nat)
    requires Layout(size, r, w, full) && i < Count(size, r, w, full) && Count(size, r, w, full) + n <= size
    ensures n <= Distance(size, w, Forward(size, r, i))
  {
  }

  /** Free space begins where the unread bytes end, and a write that ends there fills the buffer. */
  lemma FreeFollowsUnread(size: nat, r: nat, w: nat, full: bool, k: nat)
    requires Layout(size, r, w, full) && Count(size, r, w, full) + k <= size
    ensures Count(size, r, w, full) + k < size ==>
              Forward(size, r, Count(size, r, w, full) + k) == Forward(size, w, k)
    ensures 0 < k ==> var w' := Forward(size, w, k);
              Layout(size, r, w', w' == r) && Count(size, r, w', w' == r) == Count(size, r, w, full) + k
  {
  }

  /** Moving the read position forward by `n` drops the first `n` unread bytes. */
  lemma ReadDrops(b: seq<Byte>, r: nat, w: nat, full: bool, n: nat)
    requires Layout(|b|, r, w, full) && 0 < n <= |Unread(b, r, w, full)|
    ensures Unread(b, Forward(|b|, r, n), w, false) == Unread(b, r, w, full)[n..]
  {
    var u, r' := Unread(b, r, w, full), Forward(|b|, r, n);
    var u' := Unread(b, r', w, false);
    assert |u'| == |u| - n;
    forall i | 0 <= i < |u'| ensures u'[i] == u[n..][i] {
      UnreadAt(b, r', w, false, i);
      UnreadAt(b, r, w, full, n + i);
    }
  }

  /** The oldest unread byte lies at the read position. */
  lemma FirstByte(b: seq<Byte>, r: nat, w: nat, full: bool)
    requires Layout(|b|, r, w, full) && Unread(b, r, w, full) != []
    ensures var u := Unread(b, r, w, full);
            u == [b[r]] + Unread(b, if r + 1 == |b| then 0 else r + 1, w, false)
  {
    var u := Unread(b, r, w, full);
    UnreadAt(b, r, w, full, 0);
    ReadDrops(b, r, w, full, 1);
    assert u[0] == b[r] && u == [u[0]] + u[1..];
  }

  /** Array `b2` is `b` with `p` written circularly from position `w` on. */
  ghost predicate WrittenAt(b: seq<Byte>, b2: seq<Byte>, w: nat, p: seq<Byte>) {
    && |b2| == |b| && w < |b| && |p| <= |b|
    && (forall i :: 0 <= i < |p| ==> b2[Forward(|b|, w, i)] == p[i])
    && (forall j :: 0 <= j < |b| && |p| <= Distance(|b|, w, j) ==> b2[j] == b[j])
  }

  /** Byte `i` after a write: an unread byte, or a byte of `p`. */
  lemma WrittenByte(b: seq<Byte>, b2: seq<Byte>, r: nat, w: nat, full: bool, p: seq<Byte>, i: nat)
    requires Layout(|b|, r, w, full) && Count(|b|, r, w, full) + |p| <= |b|
    requires WrittenAt(b, b2, w, p) && i < Count(|b|, r, w, full) + |p|
    ensures b2[Forward(|b|, r, i)] == (Unread(b, r, w, full) + p)[i]
  {
    var n := Count(|b|, r, w, full);
    UnreadLength(b, r, w, full);
    if i < n {
      UnreadAt(b, r, w, full, i);
      UnreadIsNotFree(|b|, r, w, full, i, |p|);
    } else {
      FreeFollowsUnread(|b|, r, w, full, i - n);
    }
  }

  /** Writing `p` into the free part and moving the write position appends `p` to the unread bytes. */
  lemma WriteAppends(b: seq<Byte>, b2: seq<Byte>, r: nat, w: nat, full: bool, p: seq<Byte>)
    requires Layout(|b|, r, w, full) && 0 < |p| && |Unread(b, r, w, full)| + |p| <= |b|
    requires WrittenAt(b, b2, w, p)
    ensures var w' := Forward(|b|, w, |p|);
            Unread(b2, r, w', w' == r) == Unread(b, r, w, full) + p
  {
    var w' := Forward(|b|, w, |p|);
    var u' := Unread(b2, r, w', w' == r);
    UnreadLength(b, r, w, full);
    FreeFollowsUnread(|b|, r, w, full, |p|);
    UnreadLength(b2, r, w', w' == r);
    forall i | 0 <= i < |u'| ensures u'[i] == (Unread(b, r, w, full) + p)[i] {
      UnreadAt(b2, r, w', w' == r, i);
      WrittenByte(b, b2, r, w, full, p, i);
    }
  }
}
