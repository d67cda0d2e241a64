/** The concurrent map as one goroutine uses it: an object with two tables that share heap-allocated entries,
    refining a plain map.  Without interference every compare-and-swap succeeds, so the retry loops of the entry
    methods run once; their interleavings are the subject of MapMachine. */
module SyncMap {
  import opened Basics
  import opened MapSpec

  datatype Ptr = Nil | Expunged | Live(v: Val)

  class Entry {
    var p: Ptr

    constructor (v: Val)
      ensures p == Live(v)
    {
      p := Live(v);
    }

    function Value(): Option<Val>
      reads this
    {
      if p.Live? then Some(p.v) else None
    }
  }

  type Tab = map<Key, Entry>

  function Find(t: map<Key, Val>, k: Key): Option<Val> {
    if k in t then Some(t[k]) else None
  }

  /** What the documentation of CompareAndSwap promises: the outcome and the table after it. */
  function ComparedSwap(t: map<Key, Val>, k: Key, expected: Val, value: Val): (bool, map<Key, Val>) {
    if k in t && t[k] == expected then (true, t[k := value]) else (false, t)
  }

  /** What the documentation of CompareAndDelete promises. */
  function ComparedDelete(t: map<Key, Val>, k: Key, expected: Val): (bool, map<Key, Val>) {
    if k in t && t[k] == expected then (true, t - {k}) else (false, t)
  }

  class Map {
    var m: Tab               // read.m
    var amended: bool        // read.amended
    var dirty: Option<Tab>   // None is the nil map
    var misses: nat

    ghost var Repr: set<Entry>

    function Dirty(): Tab
      reads this
    {
      if dirty.Some? then dirty.value else map[]
    }

    /** Different keys have different entries, within and across the tables. */
    ghost predicate Separate()
      reads this
    {
      && (forall k, j :: k in m && j in m && m[k] == m[j] ==> k == j)
      && (forall k, j :: k in Dirty() && j in Dirty() && Dirty()[k] == Dirty()[j] ==> k == j)
      && (forall k, j :: k in m && j in Dirty() && m[k] == Dirty()[j] ==> k == j)
    }

    /** Each entry of `read` not in `busy` is expunged and absent from `dirty`, or live or nil and the same there. */
    ghost predicate Shared(busy: set<Key>)
      reads this, Repr
      requires forall k :: k in m ==> m[k] in Repr
    {
      dirty.Some? ==>
        forall k :: k in m ==>
          if k in busy then !m[k].p.Expunged? && k !in dirty.value
          else if m[k].p.Expunged? then k !in dirty.value
          else k in dirty.value && dirty.value[k] == m[k]
    }

    ghost predicate InRepr()
      reads this
    {
      && (forall k :: k in m ==> m[k] in Repr)
      && (forall k :: k in Dirty() ==> Dirty()[k] in Repr)
    }

    ghost predicate ValidTables()
      reads this, Repr
    {
      && InRepr() && Separate() && Shared({})
      && (amended <==> dirty.Some?)
      && (dirty.None? ==> forall k :: k in m ==> !m[k].p.Expunged?)
      && (forall k :: k in Dirty() && k !in m ==> !Dirty()[k].p.Expunged?)
    }

    ghost predicate Valid()
      reads this, Repr
    {
      && ValidTables()
      && (if dirty.Some? then misses < |dirty.value| else misses == 0)
    }

    /** The value a lookup is entitled to. */
    function At(k: Key): Option<Val>
      reads this, Repr
      requires InRepr()
    {
      if k in m then m[k].Value()
      else if amended && k in Dirty() then Dirty()[k].Value()
      else None
    }

    ghost function Contents(): map<Key, Val>
      reads this, Repr
      requires InRepr()
    {
      map k | k in m.Keys + Dirty().Keys && At(k).Some? :: At(k).value
    }

    lemma AtContents()
      requires InRepr()
      ensures forall k :: Find(Contents(), k) == At(k)
    {
    }

    /** The contents are what lookups give, key by key. */
    lemma ContentsFrom(u: map<Key, Val>)
      requires InRepr()
      requires forall k :: At(k) == Find(u, k)
      ensures Contents() == u
    {
      AtContents();
      forall k ensures k in Contents() <==> k in u {
        assert Find(Contents(), k) == At(k) == Find(u, k);
      }
      forall k | k in u ensures Contents()[k] == u[k] {
        assert Find(Contents(), k) == At(k) == Find(u, k);
      }
    }

    /** How many more misses there can be before `dirty` is promoted. */
    function Slack(): int
      reads this
    {
      if dirty.Some? then |dirty.value| - misses else 0
    }

    constructor ()
      ensures Valid() && Contents() == map[] && fresh(Repr)
    {
      m, amended, dirty, misses := map[], false, None, 0;
      Repr := {};
    }

    /** `dirty` takes the place of `read.m`: in missLocked and in Range. */
    method Promote()
      requires ValidTables() && amended
      modifies this`m, this`amended, this`dirty, this`misses
      ensures Valid() && m == old(dirty.value) && !amended
      ensures Contents() == old(Contents())
    {
      ghost var u := Contents();
      AtContents();
      m, amended := dirty.value, false;
      dirty := None;
      misses := 0;
      forall k ensures At(k) == Find(u, k) {
        assert At(k) == old(At(k));
      }
      ContentsFrom(u);
    }

    /** A miss is counted; the miss that reaches the size of `dirty` promotes it. */
    method MissLocked()
      requires ValidTables() && amended && misses <= |dirty.value|
      modifies this`m, this`amended, this`dirty, this`misses
      ensures Valid() && Repr == old(Repr) && Contents() == old(Contents())
      ensures Slack() == if old(Slack()) <= 1 then 0 else old(Slack()) - 1
      ensures if old(Slack()) > 1 then m == old(m) && amended && dirty == old(dirty)
              else m == old(dirty.value) && !amended
    {
      CountMiss();
      if misses < |dirty.value| {
        return;
      }
      Promote();
    }

    method CountMiss()
      requires ValidTables()
      modifies this`misses
      ensures ValidTables() && misses == old(misses) + 1 && Contents() == old(Contents())
    {
      ghost var u := Contents();
      AtContents();
      misses := misses + 1;
      assert forall k :: At(k) == old(At(k));
      ContentsFrom(u);
    }

    method Load(key: Key) returns (value: Option<Val>)
      requires Valid()
      modifies this
      ensures Valid() && Repr == old(Repr)
      ensures value == Find(Contents(), key) && Contents() == old(Contents())
      ensures old(amended && key !in m) ==> Slack() == old(Slack()) - 1 && (amended <==> Slack() > 0)
      ensures amended ==> m == old(m)
    {
      var e: Option<Entry> := if key in m then Some(m[key]) else None;
      if e.None? && amended {
        e := if key in dirty.value then Some(dirty.value[key]) else None;
        MissLocked();
      }
      AtContents();
      if e.None? {
        return None;
      }
      return e.value.Value();
    }

    /** Entry `e` is what a lookup of `k` finds. */
    ghost predicate Current(k: Key, e: Entry)
      reads this
    {
      (k in m && m[k] == e) || (k !in m && amended && k in Dirty() && Dirty()[k] == e)
    }

    /** Writing the pointer of a current entry that is not expunged. */
    method Write(k: Key, e: Entry, q: Ptr)
      requires Valid() && Current(k, e) && !e.p.Expunged? && !q.Expunged?
      modifies e
      ensures e.p == q && Valid()
      ensures Contents() == if q.Live? then old(Contents())[k := q.v] else old(Contents()) - {k}
    {
      ghost var u := Contents();
      AtContents();
      e.p := q;
      ghost var w := if q.Live? then u[k := q.v] else u - {k};
      forall j ensures At(j) == Find(w, j) {
        assert j != k ==> At(j) == old(At(j));
      }
      ContentsFrom(w);
    }

    /** unexpungeLocked, and filing the entry in `dirty` again. */
    method Unexpunge(k: Key)
      requires Valid() && k in m && m[k].p.Expunged?
      modifies this`dirty, m[k]
      ensures Valid() && m[k].p.Nil?
      ensures Contents() == old(Contents())
    {
      ghost var u := Contents();
      AtContents();
      m[k].p := Nil;
      dirty := Some(dirty.value[k := m[k]]);
      forall j ensures At(j) == Find(u, j) {
        assert At(j) == old(At(j));
      }
      ContentsFrom(u);
    }

    /** dirtyLocked: makes `dirty` a copy of `read.m` and expunges the empty entries, which it leaves out. */
    method DirtyLocked()
      requires Valid()
      modifies this`dirty, Repr
      ensures InRepr() && Separate() && Shared({}) && dirty.Some?
      ensures forall k :: k in m ==> m[k].Value() == old(m[k].Value())
      ensures if old(dirty.Some?) then dirty == old(dirty) && (forall e :: e in Repr ==> e.p == old(e.p))
              else forall k :: k in dirty.value ==> k in m
    {
      if dirty.Some? {
        return;
      }
      dirty := Some(map[]);
      var todo := m.Keys;
      while todo != {}
        invariant todo <= m.Keys
        invariant InRepr() && Separate() && Shared(todo) && dirty.Some?
        invariant forall k :: k in dirty.value ==> k in m
        invariant forall k :: k in m ==> m[k].Value() == old(m[k].Value())
        decreases |todo|
      {
        var k :| k in todo;
        ScanOne(todo, k);
        todo := todo - {k};
      }
    }

    /** tryExpungeLocked on one entry, and filing it in `dirty` when it is not empty. */
    method ScanOne(ghost todo: set<Key>, k: Key)
      requires InRepr() && Separate() && Shared(todo) && dirty.Some? && k in todo && k in m
      requires forall j :: j in dirty.value ==> j in m
      modifies this`dirty, m[k]
      ensures InRepr() && Separate() && Shared(todo - {k}) && dirty.Some?
      ensures forall j :: j in dirty.value ==> j in m
      ensures m[k].Value() == old(m[k].Value())
    {
      if m[k].p.Nil? {
        m[k].p := Expunged;
      } else {
        dirty := Some(dirty.value[k := m[k]]);
      }
    }

    /** The first new key: `dirty` is made and `read` marked as incomplete. */
    method Amend()
      requires Valid() && !amended
      modifies this`dirty, this`amended, Repr
      ensures ValidTables() && amended && forall k :: k in dirty.value ==> k in m
      ensures Contents() == old(Contents())
    {
      ghost var u := Contents();
      AtContents();
      DirtyLocked();
      amended := true;
      forall k ensures At(k) == Find(u, k) {
        assert At(k) == old(At(k));
      }
      ContentsFrom(u);
    }

    /** Filing a new entry under a key that neither table has. */
    method FileNew(key: Key, e: Entry)
      requires ValidTables() && amended && key !in m && key !in Dirty() && misses <= |Dirty()|
      requires e !in Repr && e.p.Live?
      modifies this`dirty, this`Repr
      ensures Valid() && Repr == old(Repr) + {e}
      ensures At(key) == Some(e.p.v) && forall k :: k != key ==> At(k) == old(At(k))
    {
      dirty := Some(dirty.value[key := e]);
      Repr := Repr + {e};
    }

    /** m.dirty[key] = newEntry(value), for a key that neither table has. */
    method InsertNew(key: Key, value: Val)
      requires ValidTables() && amended && key !in m && key !in Dirty() && misses <= |Dirty()|
      modifies this`dirty, this`Repr
      ensures Valid() && fresh(Repr - old(Repr))
      ensures Contents() == old(Contents())[key := value]
    {
      ghost var u := Contents();
      AtContents();
      var e := new Entry(value);
      FileNew(key, e);
      ContentsFrom(u[key := value]);
    }

    method Insert(key: Key, value: Val)
      requires Valid() && key !in m && key !in Dirty()
      modifies this, Repr
      ensures Valid() && fresh(Repr - old(Repr))
      ensures Contents() == old(Contents())[key := value]
    {
      if !amended {
        Amend();
        assert key !in Dirty();
      }
      InsertNew(key, value);
    }

    // ----- the operations

    method Swap(key: Key, value: Val) returns (previous: Option<Val>)
      requires Valid()
      modifies this, Repr
      ensures Valid() && fresh(Repr - old(Repr))
      ensures previous == Find(old(Contents()), key)
      ensures Contents() == old(Contents())[key := value]
    {
      AtContents();
      previous := None;
      if key in m {
        if m[key].p.Expunged? {
          Unexpunge(key);
        } else {
          previous := m[key].Value();
        }
        Write(key, m[key], Live(value));
      } else if key in Dirty() {
        previous := dirty.value[key].Value();
        Write(key, dirty.value[key], Live(value));
      } else {
        Insert(key, value);
      }
    }

    /** `loaded` tells a value that was found from the given value, now stored. */
    method LoadOrStore(key: Key, value: Val) returns (actual: Val, loaded: bool)
      requires Valid()
      modifies this, Repr
      ensures Valid() && fresh(Repr - old(Repr))
      ensures loaded <==> key in old(Contents())
      ensures actual == if loaded then old(Contents())[key] else value
      ensures Contents() == if loaded then old(Contents()) else old(Contents())[key := value]
    {
      AtContents();
      assert Find(Contents(), key) == At(key);
      actual, loaded := value, false;
      if key in m {
        if m[key].p.Live? {
          return m[key].p.v, true;
        }
        if m[key].p.Expunged? {
          Unexpunge(key);
        }
        Write(key, m[key], Live(value));
      } else if key in Dirty() {
        if dirty.value[key].p.Live? {
          actual, loaded := dirty.value[key].p.v, true;
        } else {
          Write(key, dirty.value[key], Live(value));
        }
        MissLocked();
      } else {
        Insert(key, value);
      }
    }

    /** delete(m.dirty, key), for a key that `read` does not have. */
    method Unlink(key: Key)
      requires Valid() && amended && key !in m && key in dirty.value
      modifies this`dirty
      ensures ValidTables() && amended && misses <= |dirty.value| && dirty.value == old(dirty.value) - {key}
      ensures Repr == old(Repr)
      ensures forall k :: At(k) == if k == key then None else old(At(k))
      ensures Unlinked(old(dirty.value)[key])
    {
      ghost var d := dirty.value;
      dirty := Some(dirty.value - {key});
      assert |d - {key}| == |d| - 1 by { assert (d - {key}).Keys == d.Keys - {key}; }
    }

    /** No key leads to this entry. */
    ghost predicate Unlinked(e: Entry)
      reads this
    {
      (forall k :: k in m ==> m[k] != e) && (forall k :: k in Dirty() ==> Dirty()[k] != e)
    }

    /** Emptying an entry that no key leads to. */
    method Empty(e: Entry)
      requires Valid() && Unlinked(e)
      modifies e
      ensures Valid() && Repr == old(Repr) && Contents() == old(Contents())
    {
      ghost var u := Contents();
      AtContents();
      e.p := Nil;
      forall k ensures At(k) == Find(u, k) {
        assert At(k) == old(At(k));
      }
      ContentsFrom(u);
    }

    method LoadAndDelete(key: Key) returns (value: Option<Val>)
      requires Valid()
      modifies this, Repr
      ensures Valid() && Repr == old(Repr)
      ensures value == Find(old(Contents()), key)
      ensures Contents() == old(Contents()) - {key}
    {
      AtContents();
      assert Find(Contents(), key) == At(key);
      value := None;
      if key in m {
        value := m[key].Value();
        if value.Some? {
          Write(key, m[key], Nil);
        }
      } else if amended && key in dirty.value {
        value := DeleteDirty(key);
      } else if amended {
        MissLocked();
      }
    }

    /** The slow path of LoadAndDelete for a key that `dirty` has: unlink, count the miss, empty the entry. */
    method DeleteDirty(key: Key) returns (value: Option<Val>)
      requires Valid() && key !in m && amended && key in dirty.value
      modifies this, Repr
      ensures Valid() && Repr == old(Repr)
      ensures value == Find(old(Contents()), key)
      ensures Contents() == old(Contents()) - {key}
    {
      ghost var u := Contents();
      AtContents();
      assert Find(u, key) == At(key);
      var e := dirty.value[key];
      Unlink(key);
      ContentsFrom(u - {key});
      MissLocked();
      value := e.Value();
      Empty(e);
    }

    /** CompareAndSwap never looks at the expected value: it replaces whatever value is present, and so does what
        is documented exactly when the expected value is there or none is. */
    method CompareAndSwap(key: Key, expected: Val, value: Val) returns (swapped: bool)
      requires Valid()
      modifies this, Repr
      ensures Valid() && Repr == old(Repr)
      ensures swapped <==> key in old(Contents())
      ensures Contents() == if swapped then old(Contents())[key := value] else old(Contents())
      ensures (swapped, Contents()) == ComparedSwap(old(Contents()), key, expected, value)
              <==> key !in old(Contents()) || old(Contents())[key] == expected
    {
      AtContents();
      assert Find(Contents(), key) == At(key);
      swapped := false;
      if key in m {
        if m[key].p.Live? {
          Write(key, m[key], Live(value));
          swapped := true;
        }
      } else if key in Dirty() {
        if dirty.value[key].p.Live? {
          Write(key, dirty.value[key], Live(value));
          swapped := true;
        }
        MissLocked();
      }
    }

    /** CompareAndDelete never looks at the expected value: it deletes whatever value is present. */
    method CompareAndDelete(key: Key, expected: Val) returns (deleted: bool)
      requires Valid()
      modifies this, Repr
      ensures Valid() && Repr == old(Repr)
      ensures deleted <==> key in old(Contents())
      ensures Contents() == old(Contents()) - {key}
      ensures (deleted, Contents()) == ComparedDelete(old(Contents()), key, expected)
              <==> key !in old(Contents()) || old(Contents())[key] == expected
    {
      AtContents();
      assert Find(Contents(), key) == At(key);
      deleted := false;
      var e: Option<Entry> := if key in m then Some(m[key]) else None;
      if e.None? && amended {
        e := if key in dirty.value then Some(dirty.value[key]) else None;
        MissLocked();
      }
      if e.Some? && e.value.p.Live? {
        Write(key, e.value, Nil);
        deleted := true;
      }
    }

    /** The keys of the pairs passed to the callback. */
    static ghost function Visited(out: seq<(Key, Val)>): set<Key> {
      set i | 0 <= i < |out| :: out[i].0
    }

    /** No key twice, and only pairs of the map. */
    ghost predicate Reports(out: seq<(Key, Val)>)
      reads this, Repr
      requires InRepr()
    {
      && (forall i, j :: 0 <= i < j < |out| ==> out[i].0 != out[j].0)
      && (forall i :: 0 <= i < |out| ==> At(out[i].0) == Some(out[i].1))
    }

    lemma VisitOne(out: seq<(Key, Val)>, k: Key, v: Val)
      requires InRepr() && Reports(out) && k !in Visited(out) && At(k) == Some(v)
      ensures Reports(out + [(k, v)]) && Visited(out + [(k, v)]) == Visited(out) + {k}
    {
      var more := out + [(k, v)];
      assert more[|out|].0 == k;
      forall j | j in Visited(out) ensures j in Visited(more) {
        var i :| 0 <= i < |out| && out[i].0 == j;
        assert more[i].0 == j;
      }
      forall i | 0 <= i < |out| ensures out[i].0 != k {
        assert out[i].0 in Visited(out);
      }
    }

    /** Range over a map whose keys are all in `read`.  `out` is what the callback was given, in order; it stops
        the iteration at the `limit`-th call. */
    method Visit(limit: nat) returns (out: seq<(Key, Val)>)
      requires Valid() && !amended && limit > 0
      ensures Reports(out) && |out| <= limit
      ensures |out| < limit ==> forall k :: k in Visited(out) <==> At(k).Some?
    {
      out := [];
      var todo := m.Keys;
      while todo != {}
        invariant todo <= m.Keys && |out| < limit && Reports(out)
        invariant forall k :: k in Visited(out) <==> k !in todo && At(k).Some?
        decreases |todo|
      {
        var k :| k in todo;
        var v := m[k].Value();
        if v.Some? {
          VisitOne(out, k, v.value);
          out := out + [(k, v.value)];
          if |out| == limit {
            return;
          }
        }
        todo := todo - {k};
      }
    }

    method Range(limit: nat) returns (out: seq<(Key, Val)>)
      requires Valid() && limit > 0
      modifies this
      ensures Valid() && Repr == old(Repr) && Contents() == old(Contents()) && !amended
      ensures Reports(out) && |out| <= limit
      ensures |out| < limit ==> Visited(out) == Contents().Keys
    {
      if amended {
        Promote();
      }
      out := Visit(limit);
      AtContents();
      if |out| < limit {
        forall k ensures k in Visited(out) <==> k in Contents() {
          assert Find(Contents(), k) == At(k);
        }
      }
    }
  }

  // ----- clients

  /** A value is replaced although another one was expected. */
  method SwapsUnexpected(m: Map, k: Key, v: Val, expected: Val, value: Val) returns (swapped: bool)
    requires m.Valid() && v != expected
    modifies m, m.Repr
    ensures m.Valid() && swapped && m.Contents() == old(m.Contents())[k := value]
    ensures (swapped, m.Contents()) != ComparedSwap(old(m.Contents())[k := v], k, expected, value)
  {
    var _ := m.Swap(k, v);
    swapped := m.CompareAndSwap(k, expected, value);
    assert old(m.Contents())[k := v][k := value] == old(m.Contents())[k := value];
  }

  /** A value is deleted although another one was expected. */
  method DeletesUnexpected(m: Map, k: Key, v: Val, expected: Val) returns (deleted: bool)
    requires m.Valid() && v != expected
    modifies m, m.Repr
    ensures m.Valid() && deleted && k !in m.Contents()
    ensures (deleted, m.Contents()) != ComparedDelete(old(m.Contents())[k := v], k, expected)
  {
    var _ := m.Swap(k, v);
    deleted := m.CompareAndDelete(k, expected);
  }

  /** As many Loads that miss `read` as `dirty` has entries promote `dirty`; the rest are never made. */
  method LoadUntilPromoted(m: Map, keys: seq<Key>) returns (loads: nat)
    requires m.Valid() && m.amended && |m.Dirty()| <= |keys|
    requires forall i :: 0 <= i < |keys| ==> keys[i] !in m.m
    modifies m
    ensures m.Valid() && !m.amended && m.Contents() == old(m.Contents())
    ensures loads == old(m.Slack()) <= |old(m.Dirty())|
  {
    loads := 0;
    while m.amended
      invariant m.Valid() && m.Repr == old(m.Repr) && m.Contents() == old(m.Contents())
      invariant m.Slack() == old(m.Slack()) - loads && (m.amended <==> m.Slack() > 0)
      invariant m.amended ==> m.m == old(m.m)
      decreases m.Slack()
    {
      var _ := m.Load(keys[loads]);
      loads := loads + 1;
    }
  }
}
