/** How the omission count of merged failure details (apps/resticpal-service/src/executor.rs,
    `BackupFailureDetails::merge`) relates to the count one collector over both streams would have kept. */
module MergedCount {
  import opened Common
  import opened Status
  import opened FailureDetails

  /** The names a collector over these events keeps: the first hundred distinct safe ones. */
  function Retained(events: seq<Event>): seq<Item> {
    Take(AddNew([], ItemsOf(events)))
  }

  /** How many events do not name one of `kept`. */
  function Lost(events: seq<Event>, kept: seq<Item>): nat {
    if events == [] then 0
    else
      var last := events[|events| - 1];
      Lost(events[..|events| - 1], kept) + if last.Listed? && last.item in kept then 0 else 1
  }

  /** How many events name one of `names` that is not among `others`. */
  function Naming(events: seq<Event>, names: seq<Item>, others: seq<Item>): nat {
    if events == [] then 0
    else
      var last := events[|events| - 1];
      Naming(events[..|events| - 1], names, others)
      + if last.Listed? && last.item in names && last.item !in others then 1 else 0
  }

  /** How many of those name it again, after an earlier event already did. */
  function NamingAgain(events: seq<Event>, names: seq<Item>, others: seq<Item>): nat {
    if events == [] then 0
    else
      var front, last := events[..|events| - 1], events[|events| - 1];
      NamingAgain(front, names, others)
      + if last.Listed? && last.item in names && last.item !in others && last in front then 1 else 0
  }

  /** What merging counts too often: events of the second stream whose name is retained overall, but which
      that stream alone had no room for. */
  function Excess(a: seq<Event>, b: seq<Event>): nat {
    Naming(b, Retained(a + b), Retained(b))
  }

  /** What merging forgets to count: repeats in the second stream of a name that it retained alone, but for
      which there is no room overall. */
  function Shortfall(a: seq<Event>, b: seq<Event>): nat {
    NamingAgain(b, Retained(b), Retained(a + b))
  }

  function Listings(items: seq<Item>): seq<Event> {
    seq(|items|, i requires 0 <= i < |items| => Listed(items[i]))
  }

  /** What one collector over both streams leaves out, before its counter saturates. */
  function TrulyLost(a: seq<Event>, b: seq<Event>): nat {
    Lost(a, Retained(a)) + Lost(b, Retained(a + b))
  }

  // ---------------------------------------------------------------- one collector counts what it lost

  lemma {:induction false} LostWithOneMore(events: seq<Event>, kept: seq<Item>, x: Item)
    requires Listed(x) !in events
    ensures Lost(events, kept + [x]) == Lost(events, kept)
  {
    if events != [] {
      assert events[|events| - 1] in events;
      LostWithOneMore(events[..|events| - 1], kept, x);
    }
  }

  /** While there is room, every safe name that was listed is retained. */
  lemma {:induction false} RoomMeansRetained(d: Details, events: seq<Event>, x: Item)
    requires |Collect(d, events).items| < MAX_BACKUP_FAILED_ITEMS && IsSafe(x) && Listed(x) in events
    ensures x in Collect(d, events).items
  {
    var front, last := events[..|events| - 1], events[|events| - 1];
    if last != Listed(x) {
      assert events == front + [last];
      RoomMeansRetained(d, front, x);
    }
  }

  lemma {:induction false} CollectCounts(d: Details, events: seq<Event>)
    requires d.omitted <= U64_MAX
    ensures Collect(d, events).omitted == Min(d.omitted + Lost(events, Collect(d, events).items), U64_MAX)
  {
    if events != [] {
      var front, last := events[..|events| - 1], events[|events| - 1];
      CollectCounts(d, front);
      var before := Collect(d, front);
      if last.Listed? && last.item !in before.items && IsSafe(last.item) && |before.items| < MAX_BACKUP_FAILED_ITEMS {
        if Listed(last.item) in front {
          RoomMeansRetained(d, front, last.item);
        }
        LostWithOneMore(front, before.items, last.item);
      }
    }
  }

  lemma {:induction false} CollectConcat(d: Details, a: seq<Event>, b: seq<Event>)
    ensures Collect(d, a + b) == Collect(Collect(d, a), b)
  {
    if b == [] {
      assert a + b == a;
    } else {
      CollectConcat(d, a, b[..|b| - 1]);
      assert (a + b)[..|a + b| - 1] == a + b[..|b| - 1];
    }
  }

  lemma {:induction false} PushAllCollects(d: Details, items: seq<Item>)
    ensures PushAll(d, items) == Collect(d, Listings(items))
  {
    if items != [] {
      PushAllCollects(d, items[..|items| - 1]);
      assert Listings(items)[..|items| - 1] == Listings(items[..|items| - 1]);
    }
  }

  // ---------------------------------------------------------------- comparing the two counts

  /** Event by event: lost to `kept`, against lost to `all`. */
  lemma {:induction false} LostToEither(events: seq<Event>, kept: seq<Item>, all: seq<Item>)
    ensures Lost(events, kept) + Naming(events, kept, all) == Lost(events, all) + Naming(events, all, kept)
  {
    if events != [] {
      LostToEither(events[..|events| - 1], kept, all);
    }
  }

  /** The names of `names`, not among `others`, that the events list. */
  ghost function Named(events: seq<Event>, names: seq<Item>, others: seq<Item>): set<Item> {
    set x | x in names && x !in others && Listed(x) in events
  }

  /** Of the events that name something, all but the first of each name are repeats. */
  lemma {:induction false} RepeatsAndFirsts(events: seq<Event>, names: seq<Item>, others: seq<Item>)
    ensures Naming(events, names, others) == NamingAgain(events, names, others) + |Named(events, names, others)|
  {
    if events != [] {
      var front, last := events[..|events| - 1], events[|events| - 1];
      RepeatsAndFirsts(front, names, others);
      assert events == front + [last];
      if last.Listed? && last.item in names && last.item !in others && last !in front {
        assert Named(events, names, others) == Named(front, names, others) + {last.item};
      } else {
        assert Named(events, names, others) == Named(front, names, others);
      }
    } else {
      assert Named(events, names, others) == {};
    }
  }

  ghost function Missing(names: seq<Item>, others: seq<Item>): set<Item> {
    set x | x in names && x !in others
  }

  /** Pushing distinct names loses one for each that is not kept. */
  lemma {:induction false} DistinctAreLostOnce(names: seq<Item>, kept: seq<Item>)
    requires Distinct(names)
    ensures Lost(Listings(names), kept) == |Missing(names, kept)|
  {
    if names != [] {
      var front, last := names[..|names| - 1], names[|names| - 1];
      assert Listings(names)[..|names| - 1] == Listings(front);
      DistinctAreLostOnce(front, kept);
      assert names == front + [last] && last !in front;
      if last in kept {
        assert Missing(names, kept) == Missing(front, kept);
      } else {
        assert Missing(names, kept) == Missing(front, kept) + {last};
      }
    } else {
      assert Missing(names, kept) == {};
    }
  }

  lemma {:induction false} ListedInItems(events: seq<Event>, x: Item)
    ensures x in ItemsOf(events) <==> Listed(x) in events
  {
    if events != [] {
      var front, last := events[..|events| - 1], events[|events| - 1];
      assert events == front + [last];
      ListedInItems(front, x);
    }
  }

  /** What a collector retained was listed. */
  lemma RetainedIsListed(events: seq<Event>, others: seq<Item>)
    ensures Distinct(Retained(events))
    ensures Named(events, Retained(events), others) == Missing(Retained(events), others)
  {
    var all := AddNew([], ItemsOf(events));
    AddNewExtends([], ItemsOf(events));
    forall x | x in Retained(events)
      ensures Listed(x) in events
    {
      assert x in all;
      ListedInItems(events, x);
    }
  }

  /** The second stream, counted by its own collector and then merged, against counted by the whole. */
  lemma SecondStream(b: seq<Event>, all: seq<Item>)
    ensures Lost(b, Retained(b)) + |Missing(Retained(b), all)| + NamingAgain(b, Retained(b), all) ==
            Lost(b, all) + Naming(b, all, Retained(b))
  {
    RetainedIsListed(b, all);
    LostToEither(b, Retained(b), all);
    RepeatsAndFirsts(b, Retained(b), all);
  }

  lemma Balance(first: nat, pushed: nat, second: nat, whole: nat, excess: nat, shortfall: nat)
    requires second + pushed + shortfall == whole + excess
    ensures shortfall <= first + whole + excess
    ensures Min(first + pushed + second, U64_MAX) == Min(first + whole + excess - shortfall, U64_MAX)
  {
  }

  lemma SaturatingOnce(x: nat, y: nat, z: nat)
    ensures SaturatingAdd(Min(Min(x, U64_MAX) + y, U64_MAX), Min(z, U64_MAX)) == Min(x + y + z, U64_MAX)
  {
  }

  /** Collecting goes on counting from where it was. */
  lemma GoesOnCounting(d: Details, events: seq<Event>, lost: nat, all: seq<Item>)
    requires d.omitted == Min(lost, U64_MAX) && Collect(d, events).items == all
    ensures Collect(d, events).omitted == Min(lost + Lost(events, all), U64_MAX)
  {
    CollectCounts(d, events);
  }

  lemma WholeCount(a: seq<Event>, b: seq<Event>)
    ensures Collect(NO_DETAILS, a + b).omitted == Min(TrulyLost(a, b), U64_MAX)
  {
    hide Retained, Lost, Collect;
    OwnCount(a);
    OwnCount(a + b);
    CollectConcat(NO_DETAILS, a, b);
    GoesOnCounting(Collect(NO_DETAILS, a), b, Lost(a, Retained(a)), Retained(a + b));
  }

  /** A merge pushes the other's names, losing those not kept, and then adds the other's count. */
  lemma MergeCounts(d: Details, other: Details, merged: Details, lost: nat, otherLost: nat)
    requires d.omitted == Min(lost, U64_MAX) && other.omitted == Min(otherLost, U64_MAX)
    requires Distinct(other.items) && merged == Merge(d, other)
    ensures merged.omitted == Min(lost + |Missing(other.items, merged.items)| + otherLost, U64_MAX)
  {
    PushAllCollects(d, other.items);
    CollectCounts(d, Listings(other.items));
    DistinctAreLostOnce(other.items, merged.items);
    SaturatingOnce(lost, |Missing(other.items, merged.items)|, otherLost);
  }

  /** One stream alone. */
  lemma OwnCount(events: seq<Event>)
    ensures Collect(NO_DETAILS, events).items == Retained(events)
    ensures Collect(NO_DETAILS, events).omitted == Min(Lost(events, Retained(events)), U64_MAX)
  {
    CollectKeepsFirst(events);
    CollectCounts(NO_DETAILS, events);
  }

  lemma MergedItems(a: seq<Event>, b: seq<Event>)
    ensures Merge(Collect(NO_DETAILS, a), Collect(NO_DETAILS, b)).items == Retained(a + b)
  {
    MergeIsConcatenation(a, b);
    OwnCount(a + b);
  }

  lemma SeparateCount(a: seq<Event>, b: seq<Event>, merged: Details)
    requires merged == Merge(Collect(NO_DETAILS, a), Collect(NO_DETAILS, b))
    ensures merged.omitted ==
            Min(Lost(a, Retained(a)) + |Missing(Retained(b), Retained(a + b))| + Lost(b, Retained(b)), U64_MAX)
  {
    hide *;
    OwnCount(a);
    OwnCount(b);
    MergedItems(a, b);
    RetainedIsListed(b, []);
    MergeCounts(Collect(NO_DETAILS, a), Collect(NO_DETAILS, b), merged, Lost(a, Retained(a)), Lost(b, Retained(b)));
  }

  /** The whole collector counts what it lost; the merged one counts that much, plus the excess, less the
      shortfall; both saturate. */
  lemma MergedCountIs(a: seq<Event>, b: seq<Event>)
    ensures Collect(NO_DETAILS, a + b).omitted == Min(TrulyLost(a, b), U64_MAX)
    ensures Shortfall(a, b) <= TrulyLost(a, b) + Excess(a, b)
    ensures Merge(Collect(NO_DETAILS, a), Collect(NO_DETAILS, b)).omitted ==
            Min(TrulyLost(a, b) + Excess(a, b) - Shortfall(a, b), U64_MAX)
  {
    hide Retained, Lost, Naming, NamingAgain, Missing, Collect, Merge;
    WholeCount(a, b);
    SeparateCount(a, b, Merge(Collect(NO_DETAILS, a), Collect(NO_DETAILS, b)));
    SecondStream(b, Retained(a + b));
    Balance(Lost(a, Retained(a)), |Missing(Retained(b), Retained(a + b))|, Lost(b, Retained(b)),
            Lost(b, Retained(a + b)), Excess(a, b), Shortfall(a, b));
  }

  /** Below saturation the counts differ by exactly the excess and the shortfall, so they agree exactly when
      those two are the same. */
  lemma MergedCountDiffers(a: seq<Event>, b: seq<Event>)
    ensures
      var merged := Merge(Collect(NO_DETAILS, a), Collect(NO_DETAILS, b)).omitted;
      var whole := Collect(NO_DETAILS, a + b).omitted;
      && (merged < U64_MAX && whole < U64_MAX ==> merged + Shortfall(a, b) == whole + Excess(a, b))
      && (TrulyLost(a, b) < U64_MAX ==> (merged == whole <==> Excess(a, b) == Shortfall(a, b)))
  {
    hide Excess, Shortfall, TrulyLost, Collect, Merge;
    MergedCountIs(a, b);
  }

  lemma {:induction false} NothingNamed(events: seq<Event>, names: seq<Item>, others: seq<Item>)
    requires forall x :: x in names && Listed(x) in events ==> x in others
    ensures Naming(events, names, others) == 0 && NamingAgain(events, names, others) == 0
  {
    if events != [] {
      var front, last := events[..|events| - 1], events[|events| - 1];
      assert events == front + [last];
      NothingNamed(front, names, others);
    }
  }

  /** With room for both streams, each retains all its own safe names. */
  lemma RoomForBoth(a: seq<Event>, b: seq<Event>)
    requires |AddNew([], ItemsOf(a + b))| <= MAX_BACKUP_FAILED_ITEMS
    ensures Retained(a + b) == AddNew([], ItemsOf(a + b)) && Retained(b) == AddNew([], ItemsOf(b))
    ensures forall x :: x in Retained(b) ==> x in Retained(a + b)
  {
    var bs, all := AddNew([], ItemsOf(b)), AddNew([], ItemsOf(a + b));
    assert forall x :: x in bs ==> x in all by {
      ItemsOfConcat(a, b);
      AddNewExtends([], ItemsOf(b));
      AddNewExtends([], ItemsOf(a + b));
    }
    assert Distinct(bs) by {
      AddNewExtends([], ItemsOf(b));
    }
    DistinctFits(bs, all);
  }

  lemma NothingToCorrect(a: seq<Event>, b: seq<Event>)
    requires |AddNew([], ItemsOf(a + b))| <= MAX_BACKUP_FAILED_ITEMS
    ensures Excess(a, b) == 0 && Shortfall(a, b) == 0
  {
    RoomForBoth(a, b);
    AddNewExtends([], ItemsOf(b));
    AddNewExtends([], ItemsOf(a + b));
    forall x | x in Retained(a + b) && Listed(x) in b
      ensures x in Retained(b)
    {
      ListedInItems(b, x);
    }
    NothingNamed(b, Retained(a + b), Retained(b));
    NothingNamed(b, Retained(b), Retained(a + b));
  }

  /** Up to a hundred distinct safe names on both streams together, merging is collecting. */
  lemma FittingStreamsMergeExactly(a: seq<Event>, b: seq<Event>)
    requires |AddNew([], ItemsOf(a + b))| <= MAX_BACKUP_FAILED_ITEMS
    ensures Merge(Collect(NO_DETAILS, a), Collect(NO_DETAILS, b)) == Collect(NO_DETAILS, a + b)
  {
    hide *;
    NothingToCorrect(a, b);
    MergedCountIs(a, b);
    MergedItems(a, b);
    OwnCount(a + b);
  }

  // ---------------------------------------------------------------- both directions happen

  /** Too many: a name retained on one stream arrives on the other behind a hundred others. */
  lemma MergedCountCanExceed(y: Item, front: seq<Item>, last: Item)
    requires |front| == MAX_BACKUP_FAILED_ITEMS - 1 && AllSafe([y] + front) && IsSafe(last)
    requires Distinct([y] + front) && last !in [y] + front
    ensures Merge(PushAll(NO_DETAILS, [y]), PushAll(NO_DETAILS, front + [last] + [y])).omitted == 2
    ensures PushAll(NO_DETAILS, [y] + front + [last] + [y]).omitted == 1
  {
    CountedTwice(y, front, last);
    CountedOnce(y, front, last);
  }

  /** Too few: a name arrives twice on the second stream after a hundred others on the first. */
  lemma MergedCountCanFallShort(full: seq<Item>, x: Item)
    requires |full| == MAX_BACKUP_FAILED_ITEMS && AllSafe(full) && Distinct(full) && IsSafe(x) && x !in full
    ensures Merge(PushAll(NO_DETAILS, full), PushAll(NO_DETAILS, [x, x])).omitted == 1
    ensures PushAll(NO_DETAILS, full + [x, x]).omitted == 2
  {
    PushAllDistinct(NO_DETAILS, full);
    assert [] + full == full;
    PushAllConcat(NO_DETAILS, [x], [x]);
    PushAllConcat(Details(full, 0), [x], [x]);
    assert [x, x] == [x] + [x];
    PushOne(NO_DETAILS, x);
    PushOne(Details([x], 0), x);
    PushOne(Details(full, 0), x);
    PushOne(Details(full, 1), x);
    PushAllConcat(NO_DETAILS, full, [x, x]);
  }

  lemma PushOne(d: Details, x: Item)
    ensures PushAll(d, [x]) == Push(d, x)
  {
    assert [x][..0] == [];
  }

  lemma {:induction false} PushAllConcat(d: Details, xs: seq<Item>, ys: seq<Item>)
    ensures PushAll(d, xs + ys) == PushAll(PushAll(d, xs), ys)
  {
    if ys == [] {
      assert xs + ys == xs;
    } else {
      PushAllConcat(d, xs, ys[..|ys| - 1]);
      assert (xs + ys)[..|xs + ys| - 1] == xs + ys[..|ys| - 1];
    }
  }

  lemma CountedTwice(y: Item, front: seq<Item>, last: Item)
    requires |front| == MAX_BACKUP_FAILED_ITEMS - 1 && AllSafe([y] + front) && IsSafe(last)
    requires Distinct([y] + front) && last !in [y] + front
    ensures Merge(PushAll(NO_DETAILS, [y]), PushAll(NO_DETAILS, front + [last] + [y])).omitted == 2
  {
    DistinctSwap(y, front, last);
    var xs := front + [last];
    assert PushAll(NO_DETAILS, xs + [y]) == Details(xs, 1) by {
      assert [] + xs == xs;
      PushOneTooMany(NO_DETAILS, xs, y);
    }
    assert PushAll(NO_DETAILS, [y]) == Details([y], 0) by {
      PushOne(NO_DETAILS, y);
    }
    PushOneTooMany(Details([y], 0), front, last);
  }

  lemma CountedOnce(y: Item, front: seq<Item>, last: Item)
    requires |front| == MAX_BACKUP_FAILED_ITEMS - 1 && AllSafe([y] + front)
    requires Distinct([y] + front) && last !in [y] + front
    ensures PushAll(NO_DETAILS, [y] + front + [last] + [y]).omitted == 1
  {
    var all := [y] + front + [last];
    assert [] + ([y] + front) == [y] + front && y == ([y] + front)[0];
    PushOneTooMany(NO_DETAILS, [y] + front, last);
    assert (all + [y])[..|all|] == all;
  }

  lemma DistinctSwap(y: Item, front: seq<Item>, last: Item)
    requires Distinct([y] + front) && AllSafe([y] + front) && IsSafe(last) && last !in [y] + front
    ensures Distinct(front + [last]) && AllSafe(front + [last]) && AllSafe(front) && AllSafe([y])
    ensures y !in front + [last]
  {
    assert forall i :: 0 <= i < |front| ==> front[i] == ([y] + front)[1 + i];
    assert y == ([y] + front)[0];
  }
}
