/**
 * The three device orders the balancer sorts by, and the stable sort it
 * relies on (a stream's `sorted` and `List.sort` keep equal elements in
 * their original order). The sort is an insertion sort: each element goes
 * in front of the first element it does not come after, so an element that
 * ties with a later one stays ahead of it.
 */
module DeviceOrder {
  import opened Types

  datatype Order =
    | PriorityAscending          // comparing(getPriority): 0, 1, 2, ...
    | PriorityDescending         // comparing(getPriority, reverseOrder()): 10, 9, 8, ...
    | PriorityDescendingThenId   // comparing(priority).reversed().thenComparing(id)

  /** `a` may come before `b` in order `o`. */
  predicate Le(o: Order, a: Device, b: Device)
  {
    match o
    case PriorityAscending => a.priority <= b.priority
    case PriorityDescending => a.priority >= b.priority
    case PriorityDescendingThenId => a.priority > b.priority || (a.priority == b.priority && a.id <= b.id)
  }

  /** Every order is total and transitive. */
  lemma LeTotalPreorder(o: Order, a: Device, b: Device, c: Device)
    ensures Le(o, a, b) || Le(o, b, a)
    ensures Le(o, a, b) && Le(o, b, c) ==> Le(o, a, c)
  {
  }

  predicate Sorted(o: Order, s: seq<Device>)
  {
    forall i, j :: 0 <= i < j < |s| ==> Le(o, s[i], s[j])
  }

  /** `x` placed in front of the first element of `r` it may precede. */
  function Insert(o: Order, x: Device, r: seq<Device>): (q: seq<Device>)
    ensures |q| == |r| + 1
    ensures q[0] == x || (r != [] && q[0] == r[0])
  {
    if r == [] || Le(o, x, r[0]) then [x] + r
    else
      assert r == [r[0]] + r[1..];
      [r[0]] + Insert(o, x, r[1..])
  }

  /** Inserting adds exactly `x`. */
  lemma {:induction false} InsertPermutes(o: Order, x: Device, r: seq<Device>)
    ensures multiset(Insert(o, x, r)) == multiset(r) + multiset{x}
  {
    if r != [] && !Le(o, x, r[0]) {
      assert r == [r[0]] + r[1..];
      InsertPermutes(o, x, r[1..]);
    }
  }

  lemma {:induction false} InsertSorted(o: Order, x: Device, r: seq<Device>)
    requires Sorted(o, r)
    ensures Sorted(o, Insert(o, x, r))
  {
    if r == [] || Le(o, x, r[0]) {
      LeadSorted(o, x, r);
    } else {
      var tail := Insert(o, x, r[1..]);
      assert r == [r[0]] + r[1..];
      InsertSorted(o, x, r[1..]);
      LeTotalPreorder(o, x, r[0], r[0]);
      LeadSorted(o, r[0], tail);
    }
  }

  /** A sorted sequence stays sorted with an element in front that precedes all of it. */
  lemma LeadSorted(o: Order, x: Device, r: seq<Device>)
    requires Sorted(o, r)
    requires r == [] || Le(o, x, r[0])
    ensures Sorted(o, [x] + r)
  {
    var q := [x] + r;
    forall i, j | 0 <= i < j < |q| ensures Le(o, q[i], q[j]) {
      if i == 0 && j > 1 {
        LeTotalPreorder(o, x, r[0], r[j - 1]);
      }
    }
  }

  /** The stable sort of `s` by `o`. */
  function SortBy(o: Order, s: seq<Device>): (r: seq<Device>)
    ensures |r| == |s|
  {
    if s == [] then [] else Insert(o, s[0], SortBy(o, s[1..]))
  }

  /** The sort returns its input, rearranged into order `o`. */
  lemma {:induction false} SortBySorted(o: Order, s: seq<Device>)
    ensures Sorted(o, SortBy(o, s))
    ensures multiset(SortBy(o, s)) == multiset(s)
  {
    if s != [] {
      assert s == [s[0]] + s[1..];
      SortBySorted(o, s[1..]);
      InsertSorted(o, s[0], SortBy(o, s[1..]));
      InsertPermutes(o, s[0], SortBy(o, s[1..]));
    }
  }

  /** Where `Insert` puts `x`: in front of the first element of `r` it may precede, or at the end. */
  function InsertAt(o: Order, x: Device, r: seq<Device>): (k: nat)
    ensures k <= |r|
  {
    if r == [] || Le(o, x, r[0]) then 0 else 1 + InsertAt(o, x, r[1..])
  }

  /** `Insert` keeps `r` in order around `x`, and `x` may precede none of the elements it is put after. */
  lemma {:induction false} InsertSplits(o: Order, x: Device, r: seq<Device>)
    ensures var k := InsertAt(o, x, r);
            && Insert(o, x, r) == r[..k] + [x] + r[k..]
            && forall t :: 0 <= t < k ==> !Le(o, x, r[t])
  {
    if r != [] && !Le(o, x, r[0]) {
      var rest := r[1..];
      InsertSplits(o, x, rest);
      var k := InsertAt(o, x, rest);
      assert InsertAt(o, x, r) == k + 1;
      assert Insert(o, x, r) == [r[0]] + Insert(o, x, rest);
      assert Insert(o, x, rest) == rest[..k] + [x] + rest[k..];
      assert r[..k + 1] == [r[0]] + rest[..k];
      assert r[k + 1..] == rest[k..];
      forall t | 0 <= t < k + 1 ensures !Le(o, x, r[t]) {
        if t > 0 {
          assert r[t] == rest[t - 1];
        }
      }
    }
  }

  /** Where the elements of `r` land once `x` is put at position `k`. */
  lemma SplitIndex(r: seq<Device>, x: Device, k: nat, p: nat)
    requires k <= |r| && p < |r|
    ensures var q := r[..k] + [x] + r[k..];
            |q| == |r| + 1 && q[k] == x && q[if p < k then p else p + 1] == r[p]
  {
  }

  /** `a` stands somewhere before `b` in `r`. */
  predicate Precedes(r: seq<Device>, a: Device, b: Device)
  {
    exists p, q :: 0 <= p < q < |r| && r[p] == a && r[q] == b
  }

  /**
   * The sort is stable: a device that stands before another in the input
   * and may precede it (in particular one that ties with it) still stands
   * before it in the result. For devices that occur once, that fixes the
   * order of their only positions.
   */
  lemma {:induction false} SortByStable(o: Order, s: seq<Device>, i: nat, j: nat)
    requires i < j < |s| && Le(o, s[i], s[j])
    ensures Precedes(SortBy(o, s), s[i], s[j])
  {
    var tail := SortBy(o, s[1..]);
    var k := InsertAt(o, s[0], tail);
    InsertSplits(o, s[0], tail);
    var r := SortBy(o, s);
    assert r == tail[..k] + [s[0]] + tail[k..];
    if i == 0 {
      SortByMembers(o, s[1..], s[j]);
      assert s[j] == s[1..][j - 1];
      var q :| 0 <= q < |tail| && tail[q] == s[j];
      assert q >= k;
      SplitIndex(tail, s[0], k, q);
    } else {
      assert s[i] == s[1..][i - 1] && s[j] == s[1..][j - 1];
      SortByStable(o, s[1..], i - 1, j - 1);
      var p, q :| 0 <= p < q < |tail| && tail[p] == s[i] && tail[q] == s[j];
      SplitIndex(tail, s[0], k, p);
      SplitIndex(tail, s[0], k, q);
    }
  }

  /** Sorting keeps exactly the elements it was given. */
  lemma SortByMembers(o: Order, s: seq<Device>, d: Device)
    ensures d in SortBy(o, s) <==> d in s
  {
    SortBySorted(o, s);
    assert d in SortBy(o, s) <==> d in multiset(SortBy(o, s));
  }
}
