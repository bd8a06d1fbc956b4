/** The list model behind the account list (src/com/_17od/upm/gui/SortedListModel.java):
    a set without duplicates, kept in the order of a comparator on the
    elements' `toString()`. The `TreeSet` is a strictly ascending sequence. */
module SortedList {
  import opened Wrappers

  /** `toString()` and the locale collator the comparator is built from. */
  datatype Order<!T> = Order(show: T -> string, cmp: (string, string) -> int) {
    /** The `TreeSet` comparator: the collator on the two strings. */
    function Compare(x: T, y: T): int {
      cmp(show(x), show(y))
    }
  }

  /** The comparator contract a collator keeps: the sign flips with the
      arguments, and "at most" is transitive. */
  ghost predicate ValidOrder<T>(o: Order<T>) {
    && (forall a: string, b: string :: o.cmp(a, b) < 0 <==> o.cmp(b, a) > 0)
    && (forall a: string, b: string, c: string :: o.cmp(a, b) <= 0 && o.cmp(b, c) <= 0 ==> o.cmp(a, c) <= 0)
  }

  /** Strictly ascending: no two elements compare equal. */
  ghost predicate Sorted<T>(o: Order<T>, s: seq<T>) {
    forall i, j :: 0 <= i < j < |s| ==> o.Compare(s[i], s[j]) < 0
  }

  /** Membership as the `TreeSet` sees it: an element comparing equal. */
  predicate Has<T>(o: Order<T>, s: seq<T>, x: T) {
    exists i :: 0 <= i < |s| && o.Compare(s[i], x) == 0
  }

  lemma EqualIsSymmetric<T>(o: Order<T>, x: T, y: T)
    requires ValidOrder(o)
    ensures o.Compare(x, y) == 0 <==> o.Compare(y, x) == 0
  {
  }

  /** Comparing equal is an equivalence: `contains` does not tell apart two
      elements whose strings collate equal. */
  lemma HasUsesComparator<T>(o: Order<T>, s: seq<T>, x: T, y: T)
    requires ValidOrder(o) && o.Compare(x, y) == 0
    ensures Has(o, s, x) <==> Has(o, s, y)
  {
    if Has(o, s, x) {
      var i :| 0 <= i < |s| && o.Compare(s[i], x) == 0;
      Equivalent(o, s[i], x, y);
    }
    if Has(o, s, y) {
      var i :| 0 <= i < |s| && o.Compare(s[i], y) == 0;
      EqualIsSymmetric(o, x, y);
      Equivalent(o, s[i], y, x);
    }
  }

  lemma Equivalent<T>(o: Order<T>, x: T, y: T, z: T)
    requires ValidOrder(o) && o.Compare(x, y) == 0 && o.Compare(y, z) == 0
    ensures o.Compare(x, z) == 0
  {
    EqualIsSymmetric(o, x, y);
    EqualIsSymmetric(o, y, z);
  }

  /** In a strictly ascending sequence at most one element compares equal
      to a given one: every other element differs from it. */
  lemma OnlyOneEqual<T>(o: Order<T>, s: seq<T>, x: T, i: int, j: int)
    requires ValidOrder(o) && Sorted(o, s)
    requires 0 <= i < |s| && 0 <= j < |s| && i != j
    requires o.Compare(s[i], x) == 0
    ensures o.Compare(s[j], x) != 0
  {
    EqualIsSymmetric(o, s[i], x);
    if i < j {
      assert o.Compare(s[i], s[j]) < 0;
    } else {
      assert o.Compare(s[j], s[i]) < 0;
    }
  }

  /** The index an element is found at is its rank: exactly the elements
      before it compare below it. */
  lemma RankIsIndex<T>(o: Order<T>, s: seq<T>, i: int)
    requires ValidOrder(o) && Sorted(o, s) && 0 <= i < |s|
    ensures forall j :: 0 <= j < |s| ==> (o.Compare(s[j], s[i]) < 0 <==> j < i)
  {
    forall j | 0 <= j < |s|
      ensures o.Compare(s[j], s[i]) < 0 <==> j < i
    {
      if i < j {
        assert o.Compare(s[i], s[j]) < 0;
      }
    }
  }

  /** An element below every element of a strictly ascending sequence can
      go in front of it. */
  lemma ConsSorted<T>(o: Order<T>, h: T, t: seq<T>)
    requires Sorted(o, t)
    requires forall y :: y in t ==> o.Compare(h, y) < 0
    ensures Sorted(o, [h] + t)
  {
    var r := [h] + t;
    forall i, j | 0 <= i < j < |r|
      ensures o.Compare(r[i], r[j]) < 0
    {
      assert r[j] == t[j - 1];
      if 0 < i {
        assert r[i] == t[i - 1];
      }
    }
  }

  lemma TailSorted<T>(o: Order<T>, s: seq<T>)
    requires Sorted(o, s) && s != []
    ensures Sorted(o, s[1..])
    ensures forall y :: y in s[1..] ==> o.Compare(s[0], y) < 0
  {
    forall y | y in s[1..]
      ensures o.Compare(s[0], y) < 0
    {
      var k :| 0 <= k < |s[1..]| && s[1..][k] == y;
      assert s[k + 1] == y;
    }
  }

  lemma HasInTail<T>(o: Order<T>, s: seq<T>, x: T)
    requires s != []
    ensures Has(o, s, x) <==> o.Compare(s[0], x) == 0 || Has(o, s[1..], x)
  {
    if Has(o, s, x) {
      var k :| 0 <= k < |s| && o.Compare(s[k], x) == 0;
      if k > 0 {
        assert s[1..][k - 1] == s[k];
      }
    }
    if Has(o, s[1..], x) {
      var k :| 0 <= k < |s[1..]| && o.Compare(s[1..][k], x) == 0;
      assert s[k + 1] == s[1..][k];
    }
  }

  /** `TreeSet.add`: the element put in its place in the ascending order,
      unless an equal one is already there. */
  function Insert<T>(o: Order<T>, s: seq<T>, x: T): seq<T> {
    if s == [] then [x]
    else if o.Compare(x, s[0]) < 0 then [x] + s
    else if o.Compare(x, s[0]) == 0 then s
    else [s[0]] + Insert(o, s[1..], x)
  }

  /** Insertion adds the element and nothing else. */
  lemma {:induction false} InsertElements<T>(o: Order<T>, s: seq<T>, x: T)
    ensures forall y :: y in Insert(o, s, x) ==> y == x || y in s
  {
    if s != [] && o.Compare(x, s[0]) > 0 {
      InsertElements(o, s[1..], x);
      assert Insert(o, s, x) == [s[0]] + Insert(o, s[1..], x);
    }
  }

  /** Insertion keeps the sequence strictly ascending. */
  lemma {:induction false} InsertSorted<T>(o: Order<T>, s: seq<T>, x: T)
    requires ValidOrder(o) && Sorted(o, s)
    ensures Sorted(o, Insert(o, s, x))
  {
    if s == [] {
    } else if o.Compare(x, s[0]) < 0 {
      TailSorted(o, s);
      assert s == [s[0]] + s[1..];
      forall y | y in s
        ensures o.Compare(x, y) < 0
      {
        if y != s[0] {
          assert y in s[1..];
        }
      }
      ConsSorted(o, x, s);
    } else if o.Compare(x, s[0]) > 0 {
      TailSorted(o, s);
      InsertSorted(o, s[1..], x);
      InsertElements(o, s[1..], x);
      ConsSorted(o, s[0], Insert(o, s[1..], x));
    }
  }

  /** After insertion the element is there. */
  lemma {:induction false} InsertHas<T>(o: Order<T>, s: seq<T>, x: T)
    requires ValidOrder(o)
    ensures Has(o, Insert(o, s, x), x)
  {
    var r := Insert(o, s, x);
    if s == [] || o.Compare(x, s[0]) < 0 {
      assert r[0] == x;
    } else if o.Compare(x, s[0]) == 0 {
      EqualIsSymmetric(o, x, s[0]);
    } else {
      InsertHas(o, s[1..], x);
      HasInTail(o, r, x);
      assert r[1..] == Insert(o, s[1..], x);
    }
  }

  /** Adding an element already there (by the comparator) changes nothing. */
  lemma {:induction false} InsertPresent<T>(o: Order<T>, s: seq<T>, x: T)
    requires ValidOrder(o) && Sorted(o, s) && Has(o, s, x)
    ensures Insert(o, s, x) == s
  {
    HasInTail(o, s, x);
    if o.Compare(x, s[0]) > 0 {
      EqualIsSymmetric(o, x, s[0]);
      TailSorted(o, s);
      InsertPresent(o, s[1..], x);
      assert s == [s[0]] + s[1..];
    } else {
      var k :| 0 <= k < |s| && o.Compare(s[k], x) == 0;
      EqualIsSymmetric(o, s[k], x);
      assert k == 0 || o.Compare(s[0], s[k]) < 0;
    }
  }

  /** Adding an absent element adds exactly that element. */
  lemma {:induction false} InsertAbsent<T>(o: Order<T>, s: seq<T>, x: T)
    requires ValidOrder(o) && !Has(o, s, x)
    ensures |Insert(o, s, x)| == |s| + 1
    ensures multiset(Insert(o, s, x)) == multiset(s) + multiset{x}
  {
    if s != [] {
      HasInTail(o, s, x);
      EqualIsSymmetric(o, x, s[0]);
      if o.Compare(x, s[0]) > 0 {
        InsertAbsent(o, s[1..], x);
        assert s == [s[0]] + s[1..];
      }
    }
  }

  /** `TreeSet.remove`: the sequence without the element comparing equal,
      if there is one. */
  function Remove<T>(o: Order<T>, s: seq<T>, x: T): seq<T> {
    if s == [] then []
    else if o.Compare(s[0], x) == 0 then s[1..]
    else [s[0]] + Remove(o, s[1..], x)
  }

  /** Removing an absent element changes nothing. */
  lemma {:induction false} RemoveAbsent<T>(o: Order<T>, s: seq<T>, x: T)
    requires !Has(o, s, x)
    ensures Remove(o, s, x) == s
  {
    if s != [] {
      HasInTail(o, s, x);
      RemoveAbsent(o, s[1..], x);
      assert s == [s[0]] + s[1..];
    }
  }

  /** Removing a present element deletes one element comparing equal to it
      and keeps the rest in order. */
  lemma {:induction false} RemovePresent<T>(o: Order<T>, s: seq<T>, x: T)
    requires Has(o, s, x)
    ensures exists i :: 0 <= i < |s| && o.Compare(s[i], x) == 0 && Remove(o, s, x) == s[..i] + s[i + 1..]
  {
    HasInTail(o, s, x);
    if o.Compare(s[0], x) == 0 {
      assert Remove(o, s, x) == s[..0] + s[0 + 1..];
    } else {
      RemovePresent(o, s[1..], x);
      var i :| 0 <= i < |s[1..]| && o.Compare(s[1..][i], x) == 0
        && Remove(o, s[1..], x) == s[1..][..i] + s[1..][i + 1..];
      assert s[i + 1] == s[1..][i];
      assert [s[0]] + (s[1..][..i] + s[1..][i + 1..]) == s[..i + 1] + s[i + 2..];
    }
  }

  /** Deleting one element keeps a sequence strictly ascending. */
  lemma DeleteKeepsSorted<T>(o: Order<T>, s: seq<T>, i: int)
    requires Sorted(o, s) && 0 <= i < |s|
    ensures Sorted(o, s[..i] + s[i + 1..])
  {
    var r := s[..i] + s[i + 1..];
    forall p, q | 0 <= p < q < |r|
      ensures o.Compare(r[p], r[q]) < 0
    {
      var p' := if p < i then p else p + 1;
      var q' := if q < i then q else q + 1;
      assert r[p] == s[p'] && r[q] == s[q'];
    }
  }

  /** Removal keeps the sequence strictly ascending and leaves no element
      comparing equal to the removed one. */
  lemma RemoveSorted<T>(o: Order<T>, s: seq<T>, x: T)
    requires ValidOrder(o) && Sorted(o, s)
    ensures Sorted(o, Remove(o, s, x)) && !Has(o, Remove(o, s, x), x)
  {
    if Has(o, s, x) {
      RemovePresent(o, s, x);
      var i :| 0 <= i < |s| && o.Compare(s[i], x) == 0 && Remove(o, s, x) == s[..i] + s[i + 1..];
      DeleteKeepsSorted(o, s, i);
      var r := s[..i] + s[i + 1..];
      forall k | 0 <= k < |r|
        ensures o.Compare(r[k], x) != 0
      {
        var k' := if k < i then k else k + 1;
        assert r[k] == s[k'];
        OnlyOneEqual(o, s, x, i, k');
      }
    } else {
      RemoveAbsent(o, s, x);
    }
  }

  /** Removing what was just added gives back the original sequence. */
  lemma {:induction false} RemoveInsert<T>(o: Order<T>, s: seq<T>, x: T)
    requires ValidOrder(o) && Sorted(o, s) && !Has(o, s, x)
    ensures Remove(o, Insert(o, s, x), x) == s
  {
    EqualIsSymmetric(o, x, x);
    if s != [] {
      HasInTail(o, s, x);
      EqualIsSymmetric(o, x, s[0]);
      if o.Compare(x, s[0]) > 0 {
        TailSorted(o, s);
        RemoveInsert(o, s[1..], x);
        assert s == [s[0]] + s[1..];
      }
    }
  }

  /** The exception `getElementAt` throws, with the index and the size it
      reports. */
  datatype IndexError = ArrayIndexOutOfBounds(index: int, size: nat)

  /** A `fireContentsChanged(this, index0, index1)` notification. */
  datatype ContentsChanged = ContentsChanged(index0: int, index1: int)

  class SortedListModel<T> {
    const order: Order<T>
    /** The `TreeSet`, as its elements in ascending order. */
    var model: seq<T>
    /** The notifications fired so far. */
    var changes: seq<ContentsChanged>

    ghost predicate Valid()
      reads this
    {
      ValidOrder(order) && Sorted(order, model)
    }

    constructor (order: Order<T>)
      requires ValidOrder(order)
      ensures Valid() && this.order == order && model == [] && changes == []
    {
      this.order := order;
      model := [];
      changes := [];
    }

    method GetSize() returns (size: nat)
      ensures size == |model|
    {
      size := |model|;
    }

    /** The element at `index` in ascending order: exactly `index` stored
        elements compare below it. */
    method GetElementAt(index: int) returns (r: Result<T, IndexError>)
      requires Valid()
      ensures r.Err? <==> index < 0 || index >= |model|
      ensures r.Err? ==> r.error == ArrayIndexOutOfBounds(index, |model|)
      ensures r.Ok? ==> r.value == model[index]
      ensures r.Ok? ==> forall j :: 0 <= j < |model| ==> (order.Compare(model[j], r.value) < 0 <==> j < index)
    {
      if index < 0 || index >= |model| {
        r := Err(ArrayIndexOutOfBounds(index, |model|));
      } else {
        RankIsIndex(order, model, index);
        r := Ok(model[index]);
      }
    }

    /** Adds the element unless one comparing equal is stored; a change is
        notified only when it was added. */
    method AddElement(element: T)
      requires Valid()
      modifies this
      ensures Valid() && model == Insert(order, old(model), element) && Has(order, model, element)
      ensures old(Has(order, model, element)) ==> model == old(model) && changes == old(changes)
      ensures !old(Has(order, model, element)) ==>
        && |model| == old(|model|) + 1 && multiset(model) == old(multiset(model)) + multiset{element}
        && changes == old(changes) + [ContentsChanged(0, |model|)]
    {
      InsertSorted(order, model, element);
      InsertHas(order, model, element);
      if Has(order, model, element) {
        InsertPresent(order, model, element);
      } else {
        InsertAbsent(order, model, element);
      }
      var before := |model|;
      model := Insert(order, model, element);
      if |model| != before {
        var size := GetSize();
        changes := changes + [ContentsChanged(0, size)];
      }
    }

    method Clear()
      requires Valid()
      modifies this
      ensures Valid() && model == [] && changes == old(changes) + [ContentsChanged(0, 0)]
    {
      model := [];
      var size := GetSize();
      changes := changes + [ContentsChanged(0, size)];
    }

    /** Membership by the comparator, not by identity. */
    method Contains(element: T) returns (found: bool)
      ensures found <==> Has(order, model, element)
    {
      found := Has(order, model, element);
    }

    /** Removes the element comparing equal, if any, and says whether there
        was one; afterwards none is stored. */
    method RemoveElement(element: T) returns (removed: bool)
      requires Valid()
      modifies this
      ensures Valid() && model == Remove(order, old(model), element) && !Has(order, model, element)
      ensures removed <==> old(Has(order, model, element))
      ensures removed ==>
        && |model| == old(|model|) - 1
        && (exists i :: 0 <= i < old(|model|) && order.Compare(old(model)[i], element) == 0
                       && model == old(model)[..i] + old(model)[i + 1..])
        && changes == old(changes) + [ContentsChanged(0, |model|)]
      ensures !removed ==> model == old(model) && changes == old(changes)
    {
      RemoveSorted(order, model, element);
      if Has(order, model, element) {
        RemovePresent(order, model, element);
      } else {
        RemoveAbsent(order, model, element);
      }
      var before := |model|;
      model := Remove(order, model, element);
      removed := |model| != before;
      if removed {
        var size := GetSize();
        changes := changes + [ContentsChanged(0, size)];
      }
    }
  }
}
