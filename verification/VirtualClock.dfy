/** The simulator's deterministic event queue. */
module VirtualClock {
  import opened Outcomes

  datatype Item<T> = Item(at: int, sequence: nat, kind: string, payload: T)

  datatype ClockError = VirtualPast

  /** Time first, then the order of scheduling. */
  predicate Before<T>(a: Item<T>, b: Item<T>) {
    a.at < b.at || (a.at == b.at && a.sequence < b.sequence)
  }

  predicate Ordered<T(==)>(items: seq<Item<T>>) {
    forall i, j | 0 <= i < j < |items| :: Before(items[i], items[j])
  }

  // ---- The reference: insertion into a sorted list ----

  function Insert<T>(x: Item<T>, sorted: seq<Item<T>>): seq<Item<T>> {
    if sorted == [] || Before(x, sorted[0]) then [x] + sorted else [sorted[0]] + Insert(x, sorted[1..])
  }

  /** The items in time order; items at one time keep the order they were scheduled in. */
  function StableSort<T>(items: seq<Item<T>>): seq<Item<T>> {
    if items == [] then [] else Insert(items[0], StableSort(items[1..]))
  }

  /** Distinct sequence numbers. */
  predicate Numbered<T>(items: seq<Item<T>>) {
    forall i, j | 0 <= i < j < |items| :: items[i].sequence != items[j].sequence
  }

  lemma {:induction false} InsertItems<T>(x: Item<T>, sorted: seq<Item<T>>)
    ensures multiset(Insert(x, sorted)) == multiset(sorted) + multiset{x}
  {
    hide Before;
    if sorted != [] && !Before(x, sorted[0]) {
      InsertItems(x, sorted[1..]);
      assert sorted == [sorted[0]] + sorted[1..];
    }
  }

  /** Every item is after `x`. */
  predicate AllAfter<T>(x: Item<T>, items: seq<Item<T>>) {
    forall k | 0 <= k < |items| :: Before(x, items[k])
  }

  lemma OrderedCons<T>(x: Item<T>, rest: seq<Item<T>>)
    ensures Ordered([x] + rest) <==> AllAfter(x, rest) && Ordered(rest)
  {
    hide Before;
    var out := [x] + rest;
    if Ordered(out) {
      forall k | 0 <= k < |rest| ensures Before(x, rest[k]) { assert Before(out[0], out[k + 1]); }
      forall i, j | 0 <= i < j < |rest| ensures Before(rest[i], rest[j]) { assert Before(out[i + 1], out[j + 1]); }
    }
  }

  lemma AllAfterThrough<T>(x: Item<T>, y: Item<T>, items: seq<Item<T>>)
    requires Before(x, y) && AllAfter(y, items)
    ensures AllAfter(x, [y] + items)
  {}

  lemma AllAfterInsert<T>(h: Item<T>, x: Item<T>, rest: seq<Item<T>>)
    requires Before(h, x) && AllAfter(h, rest)
    ensures AllAfter(h, Insert(x, rest))
  {
    hide Before;
    InsertItems(x, rest);
    var out := Insert(x, rest);
    forall k | 0 <= k < |out| ensures Before(h, out[k]) {
      assert out[k] in multiset(out);
      if out[k] != x { assert out[k] in rest; }
    }
  }

  lemma {:induction false} InsertOrders<T>(x: Item<T>, sorted: seq<Item<T>>)
    requires Ordered(sorted) && forall y | y in sorted :: y.sequence != x.sequence
    ensures Ordered(Insert(x, sorted))
  {
    hide Ordered, AllAfter;
    if sorted == [] {
      OrderedCons(x, []);
      assert [x] + [] == [x];
      NoneAfter(x);
    } else {
      var head, rest := sorted[0], sorted[1..];
      assert sorted == [head] + rest;
      OrderedCons(head, rest);
      if Before(x, head) {
        AllAfterThrough(x, head, rest);
        OrderedCons(x, sorted);
      } else {
        InsertOrders(x, rest);
        AllAfterInsert(head, x, rest);
        OrderedCons(head, Insert(x, rest));
      }
    }
  }

  lemma NoneAfter<T>(x: Item<T>)
    ensures AllAfter(x, []) && Ordered<T>([])
  {}

  lemma {:induction false} StableSortOrders<T>(items: seq<Item<T>>)
    requires Numbered(items)
    ensures Ordered(StableSort(items)) && multiset(StableSort(items)) == multiset(items)
  {
    hide Before, Ordered;
    if items == [] {
      OrderedNil<T>();
    } else {
      var first, rest := items[0], items[1..];
      assert items == [first] + rest;
      StableSortOrders(rest);
      InsertItems(first, StableSort(rest));
      forall y | y in StableSort(rest) ensures y.sequence != first.sequence {
        assert y in multiset(rest);
        var m :| 0 <= m < |rest| && rest[m] == y;
        assert items[0].sequence != items[m + 1].sequence;
      }
      InsertOrders(first, StableSort(rest));
    }
  }

  lemma OrderedNil<T>()
    ensures Ordered<T>([])
  {}

  lemma HeadsAgree<T>(a: seq<Item<T>>, b: seq<Item<T>>)
    requires Ordered(a) && Ordered(b) && a != [] && b != [] && a[0] in b && b[0] in a
    ensures a[0] == b[0]
  {
    var i :| 0 <= i < |b| && b[i] == a[0];
    var j :| 0 <= j < |a| && a[j] == b[0];
    assert i > 0 ==> Before(b[0], b[i]);
    assert j > 0 ==> Before(a[0], a[j]);
  }

  /** A strictly ordered list is determined by its items. */
  lemma {:induction false} OrderedIsUnique<T>(a: seq<Item<T>>, b: seq<Item<T>>)
    requires Ordered(a) && Ordered(b) && multiset(a) == multiset(b)
    ensures a == b
  {
    hide Before, Ordered;
    assert |multiset(a)| == |a| && |multiset(b)| == |b|;
    if a != [] {
      assert a[0] in multiset(b) && b[0] in multiset(a);
      HeadsAgree(a, b);
      assert a == [a[0]] + a[1..] && b == [b[0]] + b[1..];
      OrderedCons(a[0], a[1..]);
      OrderedCons(b[0], b[1..]);
      assert multiset(a[1..]) == multiset(a) - multiset{a[0]};
      assert multiset(b[1..]) == multiset(b) - multiset{b[0]};
      OrderedIsUnique(a[1..], b[1..]);
    }
  }

  // ---- The clock ----

  class Clock<T(==)> {
    var now: int
    var sequence: nat
    var queue: seq<Item<T>>
    ghost var scheduled: seq<Item<T>>
    ghost var emitted: seq<Item<T>>

    ghost predicate Valid()
      reads this
    {
      Consistent(now, sequence, queue, scheduled, emitted)
    }

    constructor ()
      ensures Valid() && now == 0 && queue == [] && scheduled == [] && emitted == []
    {
      now, sequence, queue, scheduled, emitted := 0, 0, [], [], [];
    }

    method Schedule(at: int, kind: string, payload: T) returns (r: Result<(), ClockError>)
      requires Valid()
      modifies this
      ensures Valid() && now == old(now) && emitted == old(emitted)
      ensures r.Err? <==> at < old(now)
      ensures if r.Err? then scheduled == old(scheduled) && queue == old(queue)
              else scheduled == old(scheduled) + [Item(at, old(sequence) + 1, kind, payload)]
                   && queue == old(queue) + [Item(at, old(sequence) + 1, kind, payload)]
    {
      if at < now { return Err(VirtualPast); }
      var item := Item(at, sequence + 1, kind, payload);
      ScheduleKeeps(now, sequence, queue, scheduled, emitted, item);
      sequence := sequence + 1;
      queue := queue + [item];
      scheduled := scheduled + [item];
      return Ok(());
    }

    /** The queue's least item, as heappop takes it. */
    method PopLeast() returns (item: Item<T>)
      requires Valid() && queue != []
      modifies this`queue
      ensures Popped(old(queue), queue, item)
    {
      var m := FindLeast(queue);
      item := queue[m];
      RemoveAt(queue, m);
      queue := queue[..m] + queue[m + 1..];
    }

    /** One turn of the loop: the least item is emitted and the clock moves to it. */
    method EmitLeast(target: int) returns (item: Item<T>)
      requires Valid() && Due(queue, target)
      modifies this
      ensures Valid() && scheduled == old(scheduled) && emitted == old(emitted) + [item]
      ensures item.at <= target && now == item.at && |queue| < |old(queue)|
    {
      hide Consistent;
      DueMeansSome(queue, target);
      item := PopLeast();
      PopKeeps(now, sequence, old(queue), queue, scheduled, emitted, item);
      LeastIsDue(old(queue), queue, item, target);
      now := item.at;
      emitted := emitted + [item];
    }

    method RunUntil(target: int) returns (r: Result<seq<Item<T>>, ClockError>)
      requires Valid()
      modifies this
      ensures Valid() && scheduled == old(scheduled)
      ensures r.Err? <==> target < old(now)
      ensures r.Err? ==> now == old(now) && queue == old(queue) && emitted == old(emitted)
      ensures r.Ok? ==>
        && now == target && emitted == old(emitted) + r.value
        && (forall x | x in r.value :: x.at <= target) && (forall x | x in queue :: x.at > target)
    {
      hide Consistent, Due;
      if target < now { return Err(VirtualPast); }
      var out: seq<Item<T>> := [];
      var more := HasDue(queue, target);
      while more
        invariant Valid() && scheduled == old(scheduled) && now <= target
        invariant emitted == old(emitted) + out && forall x | x in out :: x.at <= target
        invariant more <==> Due(queue, target)
        decreases |queue|
      {
        var item := EmitLeast(target);
        out := out + [item];
        more := HasDue(queue, target);
      }
      NoneDue(queue, target);
      AdvanceKeeps(now, sequence, queue, scheduled, emitted, target);
      now := target;
      return Ok(out);
    }

    /** Emits everything that is left. */
    method Drain() returns (out: seq<Item<T>>)
      requires Valid()
      modifies this
      ensures Valid() && queue == [] && scheduled == old(scheduled) && emitted == old(emitted) + out
      ensures now >= old(now)
      ensures emitted == StableSort(scheduled)
    {
      if queue == [] {
        out := [];
      } else {
        var latest := queue[0].at;
        for i := 1 to |queue|
          invariant forall k | 0 <= k < i :: queue[k].at <= latest
          invariant exists k :: 0 <= k < i && queue[k].at == latest
        {
          if queue[i].at > latest { latest := queue[i].at; }
        }
        assert latest >= now by {
          var k :| 0 <= k < |queue| && queue[k].at == latest;
          assert queue[k] in queue;
        }
        var r := RunUntil(latest);
        out := r.value;
        StillQueued(old(queue), scheduled, old(emitted), queue, emitted);
        NoneLater(old(queue), queue, latest);
      }
      EmittedIsSorted(now, sequence, queue, scheduled, emitted);
      assert StableSort(queue) == [] && emitted + [] == emitted;
    }
  }

  // ---- The invariant ----

  /** Everything scheduled is either emitted, in order, or queued, after everything emitted. */
  ghost predicate Consistent<T>(now: int, sequence: nat, queue: seq<Item<T>>, scheduled: seq<Item<T>>,
                                emitted: seq<Item<T>>) {
    && |scheduled| == sequence
    && (forall i | 0 <= i < |scheduled| :: scheduled[i].sequence == i + 1)
    && multiset(scheduled) == multiset(emitted) + multiset(queue)
    && Ordered(emitted)
    && (forall x | x in emitted :: x.at <= now)
    && (forall x | x in queue :: x.at >= now)
    && (forall x, y | x in emitted && y in queue :: Before(x, y))
  }

  /** `item` is the least of `before`, and `after` is the rest. */
  ghost predicate Popped<T>(before: seq<Item<T>>, after: seq<Item<T>>, item: Item<T>) {
    && multiset(before) == multiset(after) + multiset{item}
    && |before| == |after| + 1
    && forall x | x in after :: x.at > item.at || (x.at == item.at && x.sequence >= item.sequence)
  }

  method FindLeast<T>(items: seq<Item<T>>) returns (m: nat)
    requires items != []
    ensures m < |items|
    ensures forall k | 0 <= k < |items| ::
              items[k].at > items[m].at || (items[k].at == items[m].at && items[k].sequence >= items[m].sequence)
  {
    m := 0;
    for i := 1 to |items|
      invariant m < i
      invariant forall k | 0 <= k < i ::
                  items[k].at > items[m].at || (items[k].at == items[m].at && items[k].sequence >= items[m].sequence)
    {
      if Before(items[i], items[m]) { m := i; }
    }
  }

  predicate Due<T>(items: seq<Item<T>>, target: int) {
    exists i :: 0 <= i < |items| && items[i].at <= target
  }

  lemma DueMeansSome<T>(items: seq<Item<T>>, target: int)
    requires Due(items, target)
    ensures items != []
  {}

  lemma NoneDue<T>(items: seq<Item<T>>, target: int)
    requires !Due(items, target)
    ensures forall x | x in items :: x.at > target
  {
    forall x | x in items ensures x.at > target {
      var i :| 0 <= i < |items| && items[i] == x;
    }
  }

  method HasDue<T>(items: seq<Item<T>>, target: int) returns (due: bool)
    ensures due <==> Due(items, target)
  {
    due := false;
    for i := 0 to |items|
      invariant due <==> exists k :: 0 <= k < i && items[k].at <= target
    {
      if items[i].at <= target { due := true; }
    }
  }

  lemma RemoveAt<T>(items: seq<Item<T>>, m: nat)
    requires m < |items|
    ensures multiset(items) == multiset(items[..m] + items[m + 1..]) + multiset{items[m]}
    ensures forall x | x in items[..m] + items[m + 1..] :: x in items
  {
    assert items == items[..m] + [items[m]] + items[m + 1..];
  }

  lemma ScheduleKeeps<T>(now: int, sequence: nat, queue: seq<Item<T>>, scheduled: seq<Item<T>>, emitted: seq<Item<T>>,
                         item: Item<T>)
    requires Consistent(now, sequence, queue, scheduled, emitted)
    requires item.at >= now && item.sequence == sequence + 1
    ensures Consistent(now, sequence + 1, queue + [item], scheduled + [item], emitted)
  {
    forall x, y | x in emitted && y in queue + [item] ensures Before(x, y) {
      if y !in queue {
        ScheduledEarlier(now, sequence, queue, scheduled, emitted, x);
      }
    }
  }

  lemma ScheduledEarlier<T>(now: int, sequence: nat, queue: seq<Item<T>>, scheduled: seq<Item<T>>,
                            emitted: seq<Item<T>>, x: Item<T>)
    requires Consistent(now, sequence, queue, scheduled, emitted) && (x in emitted || x in queue)
    ensures 1 <= x.sequence <= sequence && x in scheduled
  {
    assert x in multiset(emitted) + multiset(queue);
    assert x in multiset(scheduled);
    var i :| 0 <= i < |scheduled| && scheduled[i] == x;
  }

  /** Sequence numbers tell scheduled items apart, so each is emitted or queued only once. */
  lemma OnceEach<T>(now: int, sequence: nat, queue: seq<Item<T>>, scheduled: seq<Item<T>>, emitted: seq<Item<T>>)
    requires Consistent(now, sequence, queue, scheduled, emitted)
    ensures Numbered(queue) && Numbered(scheduled)
  {
    forall i, j | 0 <= i < j < |queue| ensures queue[i].sequence != queue[j].sequence {
      if queue[i].sequence == queue[j].sequence {
        ScheduledEarlier(now, sequence, queue, scheduled, emitted, queue[i]);
        ScheduledEarlier(now, sequence, queue, scheduled, emitted, queue[j]);
        var a :| 0 <= a < |scheduled| && scheduled[a] == queue[i];
        var b :| 0 <= b < |scheduled| && scheduled[b] == queue[j];
        assert a == b;
        assert multiset(scheduled)[queue[i]] >= multiset(queue)[queue[i]];
        TwiceIn(queue, i, j);
        OnceIn(scheduled, queue[i]);
      }
    }
  }

  lemma TwiceIn<T>(items: seq<Item<T>>, i: nat, j: nat)
    requires i < j < |items| && items[i] == items[j]
    ensures multiset(items)[items[i]] >= 2
  {
    assert items == items[..j] + [items[j]] + items[j + 1..];
    assert items[i] in items[..j];
  }

  lemma {:induction false} OnceIn<T>(scheduled: seq<Item<T>>, x: Item<T>)
    requires forall i | 0 <= i < |scheduled| :: scheduled[i].sequence == i + 1
    ensures multiset(scheduled)[x] <= 1
  {
    if scheduled != [] {
      var init, last := scheduled[..|scheduled| - 1], scheduled[|scheduled| - 1];
      assert scheduled == init + [last];
      OnceIn(init, x);
      assert x == last ==> x !in init;
    }
  }

  lemma PopKeeps<T>(now: int, sequence: nat, before: seq<Item<T>>, after: seq<Item<T>>, scheduled: seq<Item<T>>,
                    emitted: seq<Item<T>>, item: Item<T>)
    requires Consistent(now, sequence, before, scheduled, emitted) && Popped(before, after, item)
    ensures Consistent(item.at, sequence, after, scheduled, emitted + [item]) && item.at >= now
  {
    assert item in multiset(before);
    assert item in before;
    forall x | x in after ensures x in before && Before(item, x) {
      assert x in multiset(before);
      if x.sequence == item.sequence { NeverTwice(now, sequence, before, after, scheduled, emitted, item, x); }
    }
    var out := emitted + [item];
    forall i, j | 0 <= i < j < |out| ensures Before(out[i], out[j]) {
      if j == |emitted| { assert out[i] in emitted; }
    }
  }

  lemma NeverTwice<T>(now: int, sequence: nat, before: seq<Item<T>>, after: seq<Item<T>>, scheduled: seq<Item<T>>,
                      emitted: seq<Item<T>>, item: Item<T>, x: Item<T>)
    requires Consistent(now, sequence, before, scheduled, emitted) && Popped(before, after, item) && x in after
    ensures x.sequence != item.sequence
  {
    if x.sequence == item.sequence {
      assert x in multiset(after) && x in multiset(before) && item in multiset(before);
      assert x in before && item in before;
      ScheduledEarlier(now, sequence, before, scheduled, emitted, x);
      ScheduledEarlier(now, sequence, before, scheduled, emitted, item);
      var a :| 0 <= a < |scheduled| && scheduled[a] == x;
      var b :| 0 <= b < |scheduled| && scheduled[b] == item;
      assert a == b && x == item;
      assert multiset(before)[item] >= 2;
      assert multiset(scheduled)[item] >= multiset(before)[item];
      OnceIn(scheduled, item);
    }
  }

  lemma LeastIsDue<T>(before: seq<Item<T>>, after: seq<Item<T>>, item: Item<T>, target: int)
    requires Popped(before, after, item) && Due(before, target)
    ensures item.at <= target
  {
    var i :| 0 <= i < |before| && before[i].at <= target;
    assert before[i] in multiset(before);
    if before[i] != item { assert before[i] in multiset(after); }
  }

  lemma AdvanceKeeps<T>(now: int, sequence: nat, queue: seq<Item<T>>, scheduled: seq<Item<T>>, emitted: seq<Item<T>>,
                        target: int)
    requires Consistent(now, sequence, queue, scheduled, emitted) && now <= target
    requires forall x | x in queue :: x.at > target
    ensures Consistent(target, sequence, queue, scheduled, emitted)
  {}

  lemma StillQueued<T>(before: seq<Item<T>>, scheduled: seq<Item<T>>, emittedBefore: seq<Item<T>>,
                       after: seq<Item<T>>, emitted: seq<Item<T>>)
    requires multiset(scheduled) == multiset(emittedBefore) + multiset(before)
    requires multiset(scheduled) == multiset(emitted) + multiset(after) && emittedBefore <= emitted
    ensures forall x | x in after :: x in before
  {
    assert emitted == emittedBefore + emitted[|emittedBefore|..];
    assert multiset(emitted) == multiset(emittedBefore) + multiset(emitted[|emittedBefore|..]);
    assert multiset(before) == multiset(scheduled) - multiset(emittedBefore);
    assert multiset(before) == multiset(emitted[|emittedBefore|..]) + multiset(after);
    forall x | x in after ensures x in before {
      assert x in multiset(before);
    }
  }

  lemma NoneLater<T>(before: seq<Item<T>>, after: seq<Item<T>>, latest: int)
    ensures (forall x | x in after :: x in before && x.at > latest) && (forall x | x in before :: x.at <= latest)
            ==> after == []
  {
    if after != [] { assert after[0] in after; }
  }

  /** At every moment the emitted items, followed by the queue in order, are the stable sort of all that was scheduled. */
  lemma EmittedIsSorted<T>(now: int, sequence: nat, queue: seq<Item<T>>, scheduled: seq<Item<T>>, emitted: seq<Item<T>>)
    requires Consistent(now, sequence, queue, scheduled, emitted)
    ensures emitted + StableSort(queue) == StableSort(scheduled)
  {
    OnceEach(now, sequence, queue, scheduled, emitted);
    StableSortOrders(queue);
    StableSortOrders(scheduled);
    var all := emitted + StableSort(queue);
    hide Before;
    forall i, j | 0 <= i < j < |all| ensures Before(all[i], all[j]) {
      if i < |emitted| <= j {
        assert all[j] in multiset(queue);
        assert all[i] in emitted;
      }
    }
    OrderedIsUnique(all, StableSort(scheduled));
  }
}
