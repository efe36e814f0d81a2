/** Intrusive doubly linked lists as C code keeps them: a record points at the
    next one, and back at the pointer that points at it, which is a list's head
    or the record before's next.  So a record leaves its list without knowing
    which one it is on.  A family of such lists is proved to act as one
    sequence of records for each key. */
module Lists {

  datatype Option<+T> = None | Some(value: T)

  /** The address of a pointer to a record. */
  datatype Location = Head(key: int) | NextOf(id: int)

  datatype Links = Links(head: map<int, Option<int>>, next: map<int, Option<int>>, prev: map<int, Location>) {

    function At(l: Location): Option<int> {
      match l
      case Head(key) => if key in head then head[key] else None
      case NextOf(id) => if id in next then next[id] else None
    }

    function Store(l: Location, p: Option<int>): Links {
      match l
      case Head(key) => this.(head := head[key := p])
      case NextOf(id) => this.(next := next[id := p])
    }
  }

  /** Takes p out of its list. */
  function Unlink(l: Links, p: int): Links
    requires p in l.next && p in l.prev
  {
    var cut := l.Store(l.prev[p], l.next[p]);
    if l.next[p].Some? then cut.(prev := cut.prev[l.next[p].value := l.prev[p]]) else cut
  }

  /** Puts p in front of key's list. */
  function PushFront(l: Links, key: int, p: int): Links {
    var first := l.At(Head(key));
    var back := if first.Some? then l.prev[first.value := NextOf(p)] else l.prev;
    Links(l.head[key := Some(p)], l.next[p := first], back[p := Head(key)])
  }

  // ---------------------------------------------------------------------
  // Lists as sequences
  // ---------------------------------------------------------------------

  // The pointer that points at the i-th record of key's list.
  function Before(key: int, ids: seq<int>, i: int): Location
    requires 0 <= i <= |ids|
  {
    if i == 0 then Head(key) else NextOf(ids[i - 1])
  }

  function Entry(ids: seq<int>, i: int): Option<int>
    requires 0 <= i <= |ids|
  {
    if i == |ids| then None else Some(ids[i])
  }

  // The pointer before the i-th record points at it; after the last, at none.
  ghost predicate Forward(l: Links, key: int, ids: seq<int>, i: int)
    requires 0 <= i <= |ids|
  {
    l.At(Before(key, ids, i)) == Entry(ids, i)
  }

  ghost predicate Backward(l: Links, key: int, ids: seq<int>, i: int)
    requires 0 <= i < |ids|
  {
    ids[i] in l.next && ids[i] in l.prev && l.prev[ids[i]] == Before(key, ids, i)
  }

  ghost predicate Chain(l: Links, key: int, ids: seq<int>) {
    && (forall i | 0 <= i <= |ids| :: Forward(l, key, ids, i))
    && (forall i | 0 <= i < |ids| :: Backward(l, key, ids, i))
  }

  function ListOf(lists: map<int, seq<int>>, key: int): seq<int> {
    if key in lists then lists[key] else []
  }

  // A record is on one list, once.
  ghost predicate Separate(lists: map<int, seq<int>>) {
    forall j, a, k, b | 0 <= a < |ListOf(lists, j)| && 0 <= b < |ListOf(lists, k)|
      && ListOf(lists, j)[a] == ListOf(lists, k)[b] :: j == k && a == b
  }

  ghost predicate Forest(l: Links, lists: map<int, seq<int>>) {
    Separate(lists) && forall key :: Chain(l, key, ListOf(lists, key))
  }

  function Without(ids: seq<int>, i: int): seq<int>
    requires 0 <= i < |ids|
  {
    ids[..i] + ids[i + 1..]
  }

  ghost predicate SameRecord(l: Links, l': Links, x: int) {
    && x in l'.next && x in l'.prev && x in l.prev
    && l'.At(NextOf(x)) == l.At(NextOf(x)) && l'.prev[x] == l.prev[x]
  }

  // A list the change does not touch.
  lemma SameChain(l: Links, l': Links, key: int, ids: seq<int>)
    requires Chain(l, key, ids) && l'.At(Head(key)) == l.At(Head(key))
    requires forall i | 0 <= i < |ids| :: SameRecord(l, l', ids[i])
    ensures Chain(l', key, ids)
  {
    forall i | 0 <= i <= |ids|
      ensures Forward(l', key, ids, i)
    {
      assert Forward(l, key, ids, i);
      if i > 0 { assert SameRecord(l, l', ids[i - 1]); }
    }
    forall i | 0 <= i < |ids|
      ensures Backward(l', key, ids, i)
    {
      assert Backward(l, key, ids, i);
      assert SameRecord(l, l', ids[i]);
    }
  }

  // What the record at i of a list knows.
  lemma RecordOf(l: Links, key: int, ids: seq<int>, i: int)
    requires Chain(l, key, ids) && 0 <= i < |ids|
    ensures ids[i] in l.next && ids[i] in l.prev && l.prev[ids[i]] == Before(key, ids, i)
    ensures l.next[ids[i]] == Entry(ids, i + 1)
  {
    assert Backward(l, key, ids, i) && Forward(l, key, ids, i + 1);
  }

  ghost predicate NoRepeats(ids: seq<int>) {
    forall a, b | 0 <= a < |ids| && 0 <= b < |ids| && ids[a] == ids[b] :: a == b
  }

  lemma UnlinkForward(l: Links, key: int, ids: seq<int>, i: int, j: int)
    requires Chain(l, key, ids) && NoRepeats(ids) && 0 <= i < |ids| && 0 <= j < |ids|
    ensures ids[i] in l.next && ids[i] in l.prev && Forward(Unlink(l, ids[i]), key, Without(ids, i), j)
  {
    RecordOf(l, key, ids, i);
    var o := if j < i then j else j + 1;
    assert Forward(l, key, ids, o);
    var left := Without(ids, i);
    assert Entry(left, j) == Entry(ids, o);
    if j > i {
      assert Before(key, left, j) == NextOf(ids[j]) == Before(key, ids, o);
    } else {
      assert Before(key, left, j) == Before(key, ids, j);
    }
  }

  lemma UnlinkBackward(l: Links, key: int, ids: seq<int>, i: int, j: int)
    requires Chain(l, key, ids) && NoRepeats(ids) && 0 <= i < |ids| && 0 <= j < |ids| - 1
    ensures ids[i] in l.next && ids[i] in l.prev && Backward(Unlink(l, ids[i]), key, Without(ids, i), j)
  {
    RecordOf(l, key, ids, i);
    var o := if j < i then j else j + 1;
    RecordOf(l, key, ids, o);
    var left := Without(ids, i);
    assert left[j] == ids[o];
    assert i + 1 < |ids| ==> ids[o] == ids[i + 1] ==> o == i + 1;
  }

  // A list the unlinked record was not on.
  lemma UnlinkOther(l: Links, lists: map<int, seq<int>>, key: int, i: int, other: int)
    requires Forest(l, lists) && 0 <= i < |ListOf(lists, key)| && other != key
    ensures var p := ListOf(lists, key)[i];
      p in l.next && p in l.prev && Chain(Unlink(l, p), other, ListOf(lists, other))
  {
    var ids, them := ListOf(lists, key), ListOf(lists, other);
    assert Chain(l, key, ids) && Chain(l, other, them);
    RecordOf(l, key, ids, i);
    var l' := Unlink(l, ids[i]);
    forall b | 0 <= b < |them|
      ensures SameRecord(l, l', them[b])
    {
      var x := them[b];
      RecordOf(l, other, them, b);
      assert i > 0 ==> ids[i - 1] != x;
      assert i + 1 < |ids| ==> ids[i + 1] != x;
    }
    SameChain(l, l', other, them);
  }

  lemma SeparateWithout(lists: map<int, seq<int>>, key: int, i: int)
    requires Separate(lists) && 0 <= i < |ListOf(lists, key)|
    ensures Separate(lists[key := Without(ListOf(lists, key), i)])
  {
    var ids := ListOf(lists, key);
    var after := lists[key := Without(ids, i)];
    forall j, a, k, b | 0 <= a < |ListOf(after, j)| && 0 <= b < |ListOf(after, k)|
      && ListOf(after, j)[a] == ListOf(after, k)[b]
      ensures j == k && a == b
    {
      var a' := if j == key && a >= i then a + 1 else a;
      var b' := if k == key && b >= i then b + 1 else b;
      assert ListOf(lists, j)[a'] == ListOf(lists, k)[b'];
    }
  }

  /** Unlinking a record removes it from its sequence and no other. */
  lemma UnlinkRefines(l: Links, lists: map<int, seq<int>>, key: int, i: int)
    requires Forest(l, lists) && 0 <= i < |ListOf(lists, key)|
    ensures var p := ListOf(lists, key)[i];
      p in l.next && p in l.prev && Forest(Unlink(l, p), lists[key := Without(ListOf(lists, key), i)])
  {
    hide Unlink;
    var ids := ListOf(lists, key);
    var left := Without(ids, i);
    var after := lists[key := left];
    assert Chain(l, key, ids) && NoRepeats(ids);
    SeparateWithout(lists, key, i);
    RecordOf(l, key, ids, i);
    var l' := Unlink(l, ids[i]);
    forall other
      ensures Chain(l', other, ListOf(after, other))
    {
      if other != key {
        UnlinkOther(l, lists, key, i, other);
      } else {
        forall j | 0 <= j <= |left| ensures Forward(l', key, left, j) { UnlinkForward(l, key, ids, i, j); }
        forall j | 0 <= j < |left| ensures Backward(l', key, left, j) { UnlinkBackward(l, key, ids, i, j); }
      }
    }
  }

  ghost predicate Unlisted(lists: map<int, seq<int>>, p: int) {
    forall key :: p !in ListOf(lists, key)
  }

  lemma SeparateWith(lists: map<int, seq<int>>, key: int, p: int)
    requires Separate(lists) && Unlisted(lists, p)
    ensures Separate(lists[key := [p] + ListOf(lists, key)])
  {
    var after := lists[key := [p] + ListOf(lists, key)];
    forall j, a, k, b | 0 <= a < |ListOf(after, j)| && 0 <= b < |ListOf(after, k)|
      && ListOf(after, j)[a] == ListOf(after, k)[b]
      ensures j == k && a == b
    {
      assert p !in ListOf(lists, j) && p !in ListOf(lists, k);
      var a' := if j == key then a - 1 else a;
      var b' := if k == key then b - 1 else b;
      if a' >= 0 && b' >= 0 {
        assert ListOf(lists, j)[a'] == ListOf(lists, k)[b'];
      }
    }
  }

  /** A record put in front of a list is put in front of its sequence. */
  lemma PushRefines(l: Links, lists: map<int, seq<int>>, key: int, p: int)
    requires Forest(l, lists) && Unlisted(lists, p)
    ensures Forest(PushFront(l, key, p), lists[key := [p] + ListOf(lists, key)])
  {
    var ids := ListOf(lists, key);
    var more := [p] + ids;
    var after, l' := lists[key := more], PushFront(l, key, p);
    SeparateWith(lists, key, p);
    assert Chain(l, key, ids);
    assert l.At(Head(key)) == Entry(ids, 0) by { assert Forward(l, key, ids, 0); }
    forall other
      ensures Chain(l', other, ListOf(after, other))
    {
      if other != key {
        PushOther(l, lists, key, p, other);
      } else {
        forall j | 0 <= j <= |more| ensures Forward(l', key, more, j) { PushForward(l, lists, key, p, j); }
        forall j | 0 <= j < |more| ensures Backward(l', key, more, j) { PushBackward(l, lists, key, p, j); }
      }
    }
  }

  lemma PushForward(l: Links, lists: map<int, seq<int>>, key: int, p: int, j: int)
    requires Forest(l, lists) && Unlisted(lists, p) && 0 <= j <= |ListOf(lists, key)| + 1
    ensures Forward(PushFront(l, key, p), key, [p] + ListOf(lists, key), j)
  {
    var ids := ListOf(lists, key);
    assert Chain(l, key, ids);
    assert Forward(l, key, ids, 0);
    if j > 1 {
      assert Forward(l, key, ids, j - 1);
      assert ids[j - 2] in ids;
    }
  }

  lemma PushBackward(l: Links, lists: map<int, seq<int>>, key: int, p: int, j: int)
    requires Forest(l, lists) && Unlisted(lists, p) && 0 <= j <= |ListOf(lists, key)|
    ensures Backward(PushFront(l, key, p), key, [p] + ListOf(lists, key), j)
  {
    var ids := ListOf(lists, key);
    assert Chain(l, key, ids);
    assert Forward(l, key, ids, 0);
    if j > 0 {
      RecordOf(l, key, ids, j - 1);
      assert ids[j - 1] in ids;
    }
  }

  lemma PushOther(l: Links, lists: map<int, seq<int>>, key: int, p: int, other: int)
    requires Forest(l, lists) && Unlisted(lists, p) && other != key
    ensures Chain(PushFront(l, key, p), other, ListOf(lists, other))
  {
    var ids, them := ListOf(lists, key), ListOf(lists, other);
    assert Chain(l, key, ids) && Chain(l, other, them);
    assert Forward(l, key, ids, 0);
    var l' := PushFront(l, key, p);
    forall b | 0 <= b < |them|
      ensures SameRecord(l, l', them[b])
    {
      var x := them[b];
      RecordOf(l, other, them, b);
      assert |ids| > 0 ==> ids[0] != x;
      assert p !in them;
    }
    SameChain(l, l', other, them);
  }
}
