/** The bounded, deduplicating collector of source names (apps/resticpal-service/src/executor.rs,
    `BackupFailureDetails`), and what merging two of them preserves. */
module FailureDetails {
  import opened Common
  import opened Status

  datatype Details = Details(items: seq<Item>, omitted: nat)

  const NO_DETAILS := Details([], 0)

  function Omit(d: Details): Details {
    d.(omitted := SaturatingAdd(d.omitted, 1))
  }

  function Push(d: Details, item: Item): Details {
    if item in d.items then d
    else if !IsSafe(item) || |d.items| >= MAX_BACKUP_FAILED_ITEMS then Omit(d)
    else d.(items := d.items + [item])
  }

  function PushAll(d: Details, items: seq<Item>): Details {
    if items == [] then d else Push(PushAll(d, items[..|items| - 1]), items[|items| - 1])
  }

  function Merge(d: Details, other: Details): Details {
    var pushed := PushAll(d, other.items);
    pushed.(omitted := SaturatingAdd(pushed.omitted, other.omitted))
  }

  /** What one output line contributes. */
  datatype Event = Listed(item: Item) | Unlisted

  function Collect(d: Details, events: seq<Event>): Details {
    if events == [] then d
    else
      var front := Collect(d, events[..|events| - 1]);
      match events[|events| - 1]
      case Listed(item) => Push(front, item)
      case Unlisted => Omit(front)
  }

  // ---------------------------------------------------------------- an unbounded reference

  /** `base` followed by the safe items not seen before, in order of first appearance. */
  function AddNew(base: seq<Item>, items: seq<Item>): seq<Item> {
    if items == [] then base
    else
      var front := AddNew(base, items[..|items| - 1]);
      var last := items[|items| - 1];
      if IsSafe(last) && last !in front then front + [last] else front
  }

  function ItemsOf(events: seq<Event>): seq<Item> {
    if events == [] then []
    else
      var front := ItemsOf(events[..|events| - 1]);
      match events[|events| - 1] case Listed(item) => front + [item] case Unlisted => front
  }

  function Take(s: seq<Item>): seq<Item> {
    s[..Min(|s|, MAX_BACKUP_FAILED_ITEMS)]
  }

  predicate NoneUnlisted(events: seq<Event>) {
    forall i :: 0 <= i < |events| ==> events[i].Listed?
  }

  lemma {:induction false} AddNewExtends(base: seq<Item>, items: seq<Item>)
    ensures base <= AddNew(base, items)
    ensures Distinct(base) ==> Distinct(AddNew(base, items))
    ensures AllSafe(base) ==> AllSafe(AddNew(base, items))
    ensures forall x :: x in AddNew(base, items) <==> x in base || (x in items && IsSafe(x))
  {
    if items != [] {
      var front, last := items[..|items| - 1], items[|items| - 1];
      AddNewExtends(base, front);
      assert items == front + [last];
    }
  }

  lemma {:induction false} AddNewConcat(base: seq<Item>, xs: seq<Item>, ys: seq<Item>)
    ensures AddNew(base, xs + ys) == AddNew(AddNew(base, xs), ys)
  {
    if ys == [] {
      assert xs + ys == xs;
    } else {
      AddNewConcat(base, xs, ys[..|ys| - 1]);
      assert (xs + ys)[..|xs + ys| - 1] == xs + ys[..|ys| - 1];
    }
  }

  lemma {:induction false} AddNewDeduplicated(base: seq<Item>, xs: seq<Item>)
    ensures AddNew(base, AddNew([], xs)) == AddNew(base, xs)
  {
    if xs != [] {
      var front, last := xs[..|xs| - 1], xs[|xs| - 1];
      AddNewDeduplicated(base, front);
      AddNewExtends([], front);
      AddNewExtends(base, AddNew([], front));
      if IsSafe(last) && last !in AddNew([], front) {
        AddNewConcat(base, AddNew([], front), [last]);
        assert AddNew(AddNew(base, front), [last]) == AddNew(base, xs) by {
          assert [last][..0] == [];
        }
      }
    }
  }

  lemma {:induction false} ItemsOfConcat(a: seq<Event>, b: seq<Event>)
    ensures ItemsOf(a + b) == ItemsOf(a) + ItemsOf(b)
  {
    if b == [] {
      assert a + b == a;
    } else {
      ItemsOfConcat(a, b[..|b| - 1]);
      assert (a + b)[..|a + b| - 1] == a + b[..|b| - 1];
    }
  }

  // ---------------------------------------------------------------- the bounded collector refines it

  predicate Bounded(d: Details) {
    |d.items| <= MAX_BACKUP_FAILED_ITEMS && Distinct(d.items) && AllSafe(d.items) && d.omitted <= U64_MAX
  }

  /** One push, against the unbounded reference `full`. */
  lemma PushStep(d: Details, full: seq<Item>, x: Item)
    requires Bounded(d) && d.items == Take(full) && AllSafe(full)
             && (d.omitted == 0 ==> |full| <= MAX_BACKUP_FAILED_ITEMS)
    ensures
      var full' := if IsSafe(x) && x !in full then full + [x] else full;
      && Push(d, x).items == Take(full')
      && Bounded(Push(d, x))
      && (Push(d, x).omitted == 0 <==> d.omitted == 0 && IsSafe(x) && |full'| <= MAX_BACKUP_FAILED_ITEMS)
  {
    if |full| <= MAX_BACKUP_FAILED_ITEMS {
      assert Take(full) == full;
    } else {
      assert Take(full + [x]) == Take(full);
    }
  }

  /** Pushing keeps the first hundred distinct safe items, and counts an omission exactly when
      some item was unsafe or did not fit. */
  lemma {:induction false} PushAllKeepsFirst(d: Details, items: seq<Item>)
    requires Bounded(d)
    ensures PushAll(d, items).items == Take(AddNew(d.items, items))
    ensures Bounded(PushAll(d, items))
    ensures PushAll(d, items).omitted == 0 <==>
            d.omitted == 0 && AllSafe(items) && |AddNew(d.items, items)| <= MAX_BACKUP_FAILED_ITEMS
  {
    if items != [] {
      var front, last := items[..|items| - 1], items[|items| - 1];
      PushAllKeepsFirst(d, front);
      AddNewExtends(d.items, front);
      PushStep(PushAll(d, front), AddNew(d.items, front), last);
      AllSafeSnoc(front, last);
      assert items == front + [last];
    }
  }

  lemma AllSafeSnoc(front: seq<Item>, last: Item)
    ensures AllSafe(front + [last]) <==> AllSafe(front) && IsSafe(last)
  {
    assert forall i :: 0 <= i < |front| ==> (front + [last])[i] == front[i];
    assert (front + [last])[|front|] == last;
  }

  lemma NoneUnlistedSnoc(front: seq<Event>, last: Event)
    ensures NoneUnlisted(front + [last]) <==> NoneUnlisted(front) && last.Listed?
  {
    assert forall i :: 0 <= i < |front| ==> (front + [last])[i] == front[i];
    assert (front + [last])[|front|] == last;
  }

  lemma AddNewSnoc(base: seq<Item>, items: seq<Item>, x: Item)
    ensures AddNew(base, items + [x]) ==
            (var front := AddNew(base, items); if IsSafe(x) && x !in front then front + [x] else front)
  {
    assert (items + [x])[..|items|] == items;
  }

  lemma {:induction false} CollectKeepsFirst(events: seq<Event>)
    ensures Collect(NO_DETAILS, events).items == Take(AddNew([], ItemsOf(events)))
    ensures Bounded(Collect(NO_DETAILS, events))
    ensures Collect(NO_DETAILS, events).omitted == 0 <==>
            NoneUnlisted(events) && AllSafe(ItemsOf(events)) && |AddNew([], ItemsOf(events))| <= MAX_BACKUP_FAILED_ITEMS
  {
    if events != [] {
      var front, last := events[..|events| - 1], events[|events| - 1];
      assert events == front + [last];
      CollectKeepsFirst(front);
      NoneUnlistedSnoc(front, last);
      if last.Listed? {
        var items := ItemsOf(front);
        AddNewExtends([], items);
        PushStep(Collect(NO_DETAILS, front), AddNew([], items), last.item);
        AllSafeSnoc(items, last.item);
        AddNewSnoc([], items, last.item);
      }
    }
  }

  // ---------------------------------------------------------------- merging two streams

  lemma {:induction false} DistinctFits(s: seq<Item>, t: seq<Item>)
    requires Distinct(s) && forall x :: x in s ==> x in t
    ensures |s| <= |t|
  {
    if s != [] {
      var front, last := s[..|s| - 1], s[|s| - 1];
      assert last in s;
      var k :| 0 <= k < |t| && t[k] == last;
      var rest := t[..k] + t[k + 1..];
      forall x | x in front
        ensures x in rest
      {
        var i :| 0 <= i < |front| && front[i] == x;
        assert x == s[i] && x in t && x != last;
        var j :| 0 <= j < |t| && t[j] == x;
        assert if j < k then rest[j] == x else rest[j - 1] == x;
      }
      DistinctFits(front, rest);
    }
  }

  /** A hundred distinct safe names already fill the collector, whatever they are added to. */
  lemma CutFills(base: seq<Item>, b: seq<Item>)
    requires Distinct(base) && Distinct(b) && AllSafe(b) && |b| > MAX_BACKUP_FAILED_ITEMS
    ensures |AddNew(base, b[..MAX_BACKUP_FAILED_ITEMS])| >= MAX_BACKUP_FAILED_ITEMS
    ensures AddNew(base, b[..MAX_BACKUP_FAILED_ITEMS]) <= AddNew(base, b)
  {
    var cut, rest := b[..MAX_BACKUP_FAILED_ITEMS], b[MAX_BACKUP_FAILED_ITEMS..];
    assert forall x :: x in cut ==> x in AddNew(base, cut) by {
      AddNewExtends(base, cut);
    }
    DistinctFits(cut, AddNew(base, cut));
    assert b == cut + rest;
    AddNewConcat(base, cut, rest);
    AddNewExtends(AddNew(base, cut), rest);
  }

  /** Cutting the second stream's items to a hundred first cannot change which hundred survive,
      nor whether all of them fit. */
  lemma TakeBeforeMerging(base: seq<Item>, b: seq<Item>)
    requires Distinct(base) && Distinct(b) && AllSafe(b)
    ensures Take(AddNew(base, Take(b))) == Take(AddNew(base, b))
    ensures |AddNew(base, b)| <= MAX_BACKUP_FAILED_ITEMS <==>
            |AddNew(base, Take(b))| <= MAX_BACKUP_FAILED_ITEMS && |b| <= MAX_BACKUP_FAILED_ITEMS
  {
    if |b| > MAX_BACKUP_FAILED_ITEMS {
      CutFills(base, b);
      assert forall x :: x in b ==> x in AddNew(base, b) by {
        AddNewExtends(base, b);
      }
      DistinctFits(b, AddNew(base, b));
    } else {
      assert Take(b) == b;
    }
  }

  lemma TakeOfTake(base: seq<Item>, items: seq<Item>)
    requires Distinct(base)
    ensures Take(AddNew(Take(base), items)) == Take(AddNew(base, items))
    ensures |base| <= MAX_BACKUP_FAILED_ITEMS ==> AddNew(Take(base), items) == AddNew(base, items)
  {
    AddNewExtends(base, items);
    AddNewExtends(Take(base), items);
    if |base| <= MAX_BACKUP_FAILED_ITEMS {
      assert Take(base) == base;
    }
  }

  lemma ConcatFlags(a: seq<Event>, b: seq<Event>)
    ensures NoneUnlisted(a + b) <==> NoneUnlisted(a) && NoneUnlisted(b)
    ensures AllSafe(ItemsOf(a + b)) <==> AllSafe(ItemsOf(a)) && AllSafe(ItemsOf(b))
  {
    ItemsOfConcat(a, b);
    var xs, ys := ItemsOf(a), ItemsOf(b);
    assert forall i :: 0 <= i < |xs| ==> (xs + ys)[i] == xs[i];
    assert forall i :: 0 <= i < |ys| ==> (xs + ys)[|xs| + i] == ys[i];
    assert forall i :: 0 <= i < |a| ==> (a + b)[i] == a[i];
    assert forall i :: 0 <= i < |b| ==> (a + b)[|a| + i] == b[i];
  }

  /** The unbounded reference for both streams, in terms of the two separate references. */
  lemma ReferenceOfBoth(a: seq<Event>, b: seq<Event>)
    ensures AddNew([], ItemsOf(a + b)) == AddNew(AddNew([], ItemsOf(a)), AddNew([], ItemsOf(b)))
  {
    ItemsOfConcat(a, b);
    AddNewConcat([], ItemsOf(a), ItemsOf(b));
    AddNewDeduplicated(AddNew([], ItemsOf(a)), ItemsOf(b));
  }

  /** Merging, in terms of the two separate references. */
  lemma MergeKeepsFirst(a: seq<Event>, b: seq<Event>)
    ensures
      var as', bs := AddNew([], ItemsOf(a)), AddNew([], ItemsOf(b));
      var merged := Merge(Collect(NO_DETAILS, a), Collect(NO_DETAILS, b));
      && merged.items == Take(AddNew(as', bs))
      && Bounded(merged)
      && (merged.omitted == 0 <==>
            && Collect(NO_DETAILS, a).omitted == 0 && Collect(NO_DETAILS, b).omitted == 0
            && |AddNew(as', bs)| <= MAX_BACKUP_FAILED_ITEMS)
  {
    var as', bs := AddNew([], ItemsOf(a)), AddNew([], ItemsOf(b));
    CollectKeepsFirst(a);
    CollectKeepsFirst(b);
    AddNewExtends([], ItemsOf(a));
    AddNewExtends([], ItemsOf(b));
    PushAllKeepsFirst(Collect(NO_DETAILS, a), Take(bs));
    TakeOfTake(as', Take(bs));
    TakeBeforeMerging(as', bs);
    AddNewExtends(as', bs);
  }

  /** Merging the details of standard output and standard error retains exactly the items, in the
      same order, that one collector over both streams would have retained, and both agree on
      whether anything was omitted. */
  lemma MergeIsConcatenation(a: seq<Event>, b: seq<Event>)
    ensures
      var merged := Merge(Collect(NO_DETAILS, a), Collect(NO_DETAILS, b));
      var whole := Collect(NO_DETAILS, a + b);
      && merged.items == whole.items
      && (merged.omitted == 0 <==> whole.omitted == 0)
      && Bounded(merged)
  {
    MergeKeepsFirst(a, b);
    ReferenceOfBoth(a, b);
    ConcatFlags(a, b);
    CollectKeepsFirst(a);
    CollectKeepsFirst(b);
    CollectKeepsFirst(a + b);
    var as', bs := AddNew([], ItemsOf(a)), AddNew([], ItemsOf(b));
    AddNewExtends([], ItemsOf(a));
    AddNewExtends([], ItemsOf(b));
    AddNewExtends(as', bs);
    DistinctFits(as', AddNew(as', bs));
    DistinctFits(bs, AddNew(as', bs));
  }

  // ---------------------------------------------------------------- pushing distinct names

  lemma PushOneTooMany(d: Details, items: seq<Item>, x: Item)
    requires Distinct(d.items + items) && AllSafe(items) && |d.items| + |items| == MAX_BACKUP_FAILED_ITEMS
    requires x !in d.items + items
    ensures PushAll(d, items + [x]) == Details(d.items + items, SaturatingAdd(d.omitted, 1))
  {
    PushAllDistinct(d, items);
    assert (items + [x])[..|items|] == items;
  }

  lemma {:induction false} PushAllDistinct(d: Details, items: seq<Item>)
    requires Distinct(d.items + items) && AllSafe(items) && |d.items| + |items| <= MAX_BACKUP_FAILED_ITEMS
    ensures PushAll(d, items) == Details(d.items + items, d.omitted)
  {
    if items == [] {
      assert d.items + items == d.items;
    } else {
      var front, last := items[..|items| - 1], items[|items| - 1];
      var all := d.items + items;
      assert forall i :: 0 <= i < |all| - 1 ==> (d.items + front)[i] == all[i];
      assert last == all[|all| - 1];
      PushAllDistinct(d, front);
      assert d.items + front + [last] == all;
    }
  }

  // ---------------------------------------------------------------- the object itself

  class BackupFailureDetails {
    var items: seq<Item>
    var omitted: nat

    function View(): Details
      reads this
    {
      Details(items, omitted)
    }

    constructor ()
      ensures View() == NO_DETAILS
    {
      items, omitted := [], 0;
    }

    method PushItem(item: Item)
      modifies this
      ensures View() == Push(old(View()), item)
    {
      if item in items {
        return;
      }
      if !IsSafe(item) || |items| >= MAX_BACKUP_FAILED_ITEMS {
        omitted := SaturatingAdd(omitted, 1);
        return;
      }
      items := items + [item];
    }

    method MergeWith(other: Details)
      modifies this
      ensures View() == Merge(old(View()), other)
    {
      for i := 0 to |other.items|
        invariant View() == PushAll(old(View()), other.items[..i])
      {
        assert other.items[..i + 1][..i] == other.items[..i];
        PushItem(other.items[i]);
      }
      assert other.items[..|other.items|] == other.items;
      omitted := SaturatingAdd(omitted, other.omitted);
    }
  }
}
