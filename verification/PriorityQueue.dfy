/** The binary heap of buffered messages, ordered by (view, sequence)
    (consensus/pbft/basicstructs/pq.go over Go's container/heap). */
module PriorityQueues {
  import opened ViewSeqs

  function Parent(j: int): int
  {
    (j - 1) / 2
  }

  /** None of the first `n` items comes before its parent. */
  ghost predicate HeapUpTo<T>(s: seq<T>, key: T -> ViewSeq, n: nat)
    requires n <= |s|
  {
    forall j {:trigger Parent(j)} :: 0 < j < n ==> !key(s[j]).Before(key(s[Parent(j)]))
  }

  lemma {:induction false} RootIsLeast<T>(s: seq<T>, key: T -> ViewSeq, j: nat)
    requires j < |s| && HeapUpTo(s, key, |s|)
    ensures !key(s[j]).Before(key(s[0]))
  {
    if j > 0 {
      RootIsLeast(s, key, Parent(j));
      CompareIsTotalOrder(key(s[0]), key(s[Parent(j)]), key(s[j]));
    }
  }

  lemma RootIsLeastOfAll<T>(s: seq<T>, key: T -> ViewSeq)
    requires s != [] && HeapUpTo(s, key, |s|)
    ensures forall y :: y in s ==> !key(y).Before(key(s[0]))
  {
    forall y | y in s
      ensures !key(y).Before(key(s[0]))
    {
      var j :| 0 <= j < |s| && s[j] == y;
      RootIsLeast(s, key, j);
    }
  }

  function Swapped<T>(s: seq<T>, i: nat, j: nat): seq<T>
    requires i < |s| && j < |s|
  {
    s[i := s[j]][j := s[i]]
  }

  lemma SwapPermutes<T>(s: seq<T>, i: nat, j: nat)
    requires i < |s| && j < |s|
    ensures multiset(Swapped(s, i, j)) == multiset(s)
  {
  }

  lemma SwapBelow<T>(s: seq<T>, i: nat, j: nat, n: nat)
    requires i < n <= |s| && j < n
    ensures Swapped(s, i, j)[n..] == s[n..]
  {
  }

  /** Everything is in heap order except that item `j` may come before its parent. */
  ghost predicate RisesAt<T>(s: seq<T>, key: T -> ViewSeq, j: nat)
    requires j < |s|
  {
    && (forall k {:trigger Parent(k)} :: 0 < k < |s| && k != j ==> !key(s[k]).Before(key(s[Parent(k)])))
    && (forall k {:trigger Parent(k)} :: 0 < k < |s| && Parent(k) == j && j > 0 ==>
      !key(s[k]).Before(key(s[Parent(j)])))
  }

  lemma RisesOne<T>(s: seq<T>, key: T -> ViewSeq, j: nat)
    requires 0 < j < |s| && RisesAt(s, key, j) && key(s[j]).Before(key(s[Parent(j)]))
    ensures RisesAt(Swapped(s, Parent(j), j), key, Parent(j))
  {
    var i := Parent(j);
    var t := Swapped(s, i, j);
    forall k | 0 < k < |t| && k != i
      ensures !key(t[k]).Before(key(t[Parent(k)]))
    {
      if Parent(k) == i {
        CompareIsTotalOrder(key(s[k]), key(s[i]), key(s[j]));
      }
    }
    forall k | 0 < k < |t| && Parent(k) == i && i > 0
      ensures !key(t[k]).Before(key(t[Parent(i)]))
    {
      CompareIsTotalOrder(key(s[Parent(i)]), key(s[i]), key(s[k]));
    }
  }

  /** The first `n` items are in heap order except that item `i` may come after its children. */
  ghost predicate SinksAt<T>(s: seq<T>, key: T -> ViewSeq, i: nat, n: nat)
    requires n <= |s|
  {
    && (forall k {:trigger Parent(k)} :: 0 < k < n && Parent(k) != i ==> !key(s[k]).Before(key(s[Parent(k)])))
    && (forall k {:trigger Parent(k)} :: 0 < k < n && Parent(k) == i && i > 0 ==> !key(s[k]).Before(key(s[Parent(i)])))
  }

  lemma StopsAt<T>(s: seq<T>, key: T -> ViewSeq, i: nat, j: nat, n: nat)
    requires n <= |s| && SinksAt(s, key, i, n)
    requires 2 * i + 1 <= j <= 2 * i + 2 && j < n
    requires forall k :: 2 * i + 1 <= k <= 2 * i + 2 && k < n ==> !key(s[k]).Before(key(s[j]))
    requires !key(s[j]).Before(key(s[i]))
    ensures HeapUpTo(s, key, n)
  {
    forall k | 0 < k < n && Parent(k) == i
      ensures !key(s[k]).Before(key(s[i]))
    {
      CompareIsTotalOrder(key(s[i]), key(s[j]), key(s[k]));
    }
  }

  lemma SinksOne<T>(s: seq<T>, key: T -> ViewSeq, i: nat, j: nat, n: nat)
    requires n <= |s| && SinksAt(s, key, i, n)
    requires 2 * i + 1 <= j <= 2 * i + 2 && j < n
    requires forall k :: 2 * i + 1 <= k <= 2 * i + 2 && k < n ==> !key(s[k]).Before(key(s[j]))
    requires key(s[j]).Before(key(s[i]))
    ensures SinksAt(Swapped(s, i, j), key, j, n)
  {
    var t := Swapped(s, i, j);
    forall k | 0 < k < n && Parent(k) != j
      ensures !key(t[k]).Before(key(t[Parent(k)]))
    {
      if k == j {
        CompareIsTotalOrder(key(s[j]), key(s[i]), key(s[j]));
      } else if k == i {
        assert Parent(j) == i;
      }
    }
    forall k | 0 < k < n && Parent(k) == j
      ensures !key(t[k]).Before(key(t[i]))
    {
    }
  }

  class PriorityQueue<T> {
    var items: seq<T>
    const key: T -> ViewSeq

    ghost predicate Valid()
      reads this
    {
      HeapUpTo(items, key, |items|)
    }

    constructor (key: T -> ViewSeq)
      ensures Valid() && items == [] && this.key == key
    {
      items := [];
      this.key := key;
    }

    function Len(): nat
      reads this
    {
      |items|
    }

    predicate Less(i: nat, j: nat)
      requires i < |items| && j < |items|
      reads this
    {
      key(items[i]).Before(key(items[j]))
    }

    method Swap(i: nat, j: nat)
      requires i < |items| && j < |items|
      modifies this
      ensures items == Swapped(old(items), i, j)
    {
      items := items[i := items[j]][j := items[i]];
    }

    method Up(start: nat)
      requires start < |items| && RisesAt(items, key, start)
      modifies this
      ensures Valid() && multiset(items) == multiset(old(items))
    {
      var j: nat := start;
      while true
        invariant j < |items| && RisesAt(items, key, j)
        invariant multiset(items) == multiset(old(items))
        decreases j
      {
        if j == 0 || !Less(j, Parent(j)) {
          break;
        }
        var i := Parent(j);
        SwapPermutes(items, i, j);
        RisesOne(items, key, j);
        Swap(i, j);
        j := i;
      }
    }

    method Down(start: nat, n: nat)
      requires n <= |items| && SinksAt(items, key, start, n)
      modifies this
      ensures |items| == |old(items)| && HeapUpTo(items, key, n)
      ensures multiset(items) == multiset(old(items))
      ensures items[n..] == old(items)[n..]
    {
      var i := start;
      while true
        invariant |items| == |old(items)| && SinksAt(items, key, i, n)
        invariant multiset(items) == multiset(old(items))
        invariant items[n..] == old(items)[n..]
        decreases n - i
      {
        var j := 2 * i + 1;
        if j >= n {
          break;
        }
        if j + 1 < n && Less(j + 1, j) {
          j := j + 1;
        }
        if !Less(j, i) {
          StopsAt(items, key, i, j, n);
          break;
        }
        SwapPermutes(items, i, j);
        SwapBelow(items, i, j, n);
        SinksOne(items, key, i, j, n);
        Swap(i, j);
        i := j;
      }
    }

    method PushItem(x: T)
      requires Valid()
      modifies this
      ensures Valid() && multiset(items) == multiset(old(items)) + multiset{x}
    {
      items := items + [x];
      Up(|items| - 1);
    }

    /** Takes out an item that no other comes before. */
    method PopItem() returns (x: T)
      requires Valid() && items != []
      modifies this
      ensures Valid() && multiset(items) + multiset{x} == multiset(old(items))
      ensures forall y :: y in old(items) ==> !key(y).Before(key(x))
    {
      RootIsLeastOfAll(items, key);
      ghost var top := items[0];
      var n := |items| - 1;
      SwapPermutes(items, 0, n);
      Swap(0, n);
      Down(0, n);
      x := items[n];
      assert items[n] == items[n..][0];
      assert items == items[..n] + [x];
      items := items[..n];
    }
  }
}
