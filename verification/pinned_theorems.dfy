/** Pinned rows do not move (src/resource-monitor/App.tsx, `sortedGroups`). */
module PinnedTheorems {
  import opened Wrappers
  import opened GroupOrder
  import opened PinnedRows

  ghost predicate DistinctPins(pins: seq<Pin>) {
    forall i, j | 0 <= i < j < |pins| :: pins[i].id != pins[j].id
  }

  ghost predicate DistinctIndexes(pins: seq<Pin>) {
    forall i, j | 0 <= i < j < |pins| :: pins[i].index != pins[j].index
  }

  ghost predicate Ascending(pins: seq<Pin>) {
    forall i, j | 0 <= i < j < |pins| :: pins[i].index < pins[j].index
  }

  ghost predicate AllFound(pins: seq<Pin>, rows: seq<Group>) {
    forall p | p in pins :: Find(rows, p.id).Some?
  }

  /** What the memo keeps over all polls. */
  ghost predicate MemoInv(m: Memo) {
    && DistinctPins(m.pins)
    && (m.sortKey.Some? && m.sortKey.value.field != Default ==> DistinctIndexes(m.pins))
  }

  // ----- sorting and pruning the entries -------------------------------------------------

  lemma {:induction false} InsertPinKeeps(p: Pin, pins: seq<Pin>)
    ensures multiset(InsertPin(p, pins)) == multiset{p} + multiset(pins)
  {
    if pins != [] {
      InsertPinKeeps(p, pins[1..]);
      assert pins == [pins[0]] + pins[1..];
    }
  }

  lemma {:induction false} SortPinsKeeps(pins: seq<Pin>)
    ensures multiset(SortPins(pins)) == multiset(pins)
  {
    if pins != [] {
      SortPinsKeeps(pins[1..]);
      InsertPinKeeps(pins[0], SortPins(pins[1..]));
      assert pins == [pins[0]] + pins[1..];
    }
  }

  lemma {:induction false} InsertPinAscends(p: Pin, pins: seq<Pin>)
    requires Ascending(pins) && forall q | q in pins :: q.index != p.index
    ensures Ascending(InsertPin(p, pins))
  {
    if pins != [] && pins[0].index < p.index {
      var rest := InsertPin(p, pins[1..]);
      InsertPinAscends(p, pins[1..]);
      InsertPinKeeps(p, pins[1..]);
      forall j | 0 <= j < |rest| ensures pins[0].index < rest[j].index {
        assert rest[j] in multiset(rest);
        assert rest[j] == p || rest[j] in pins[1..];
      }
    }
  }

  lemma {:induction false} SortPinsAscends(pins: seq<Pin>)
    requires DistinctIndexes(pins)
    ensures Ascending(SortPins(pins))
  {
    if pins != [] {
      var rest := SortPins(pins[1..]);
      SortPinsAscends(pins[1..]);
      SortPinsKeeps(pins[1..]);
      forall q | q in rest ensures q.index != pins[0].index {
        assert q in multiset(rest);
        assert q in pins[1..];
      }
      InsertPinAscends(pins[0], rest);
    }
  }

  lemma SortPinsMembers(pins: seq<Pin>)
    ensures forall p :: p in SortPins(pins) <==> p in pins
    ensures Ids(SortPins(pins)) == Ids(pins) && |SortPins(pins)| == |pins|
  {
    SortPinsKeeps(pins);
    forall p ensures p in SortPins(pins) <==> p in pins {
      assert p in multiset(pins) <==> p in multiset(SortPins(pins));
    }
    assert |multiset(SortPins(pins))| == |multiset(pins)|;
  }

  lemma {:induction false} SortPinsDistinct(pins: seq<Pin>)
    requires DistinctPins(pins)
    ensures DistinctPins(SortPins(pins))
  {
    if pins != [] {
      SortPinsDistinct(pins[1..]);
      SortPinsMembers(pins[1..]);
      InsertPinDistinct(pins[0], SortPins(pins[1..]));
    }
  }

  lemma {:induction false} InsertPinDistinct(p: Pin, pins: seq<Pin>)
    requires DistinctPins(pins) && forall q | q in pins :: q.id != p.id
    ensures DistinctPins(InsertPin(p, pins))
  {
    if pins != [] && pins[0].index < p.index {
      var rest := InsertPin(p, pins[1..]);
      InsertPinDistinct(p, pins[1..]);
      InsertPinKeeps(p, pins[1..]);
      forall j | 0 <= j < |rest| ensures pins[0].id != rest[j].id {
        assert rest[j] in multiset(rest);
        assert rest[j] == p || rest[j] in pins[1..];
      }
    }
  }

  lemma {:induction false} PruneMembers(pins: seq<Pin>, present: set<Text>, expanded: set<Text>)
    ensures forall p :: p in Prune(pins, present, expanded) <==> p in pins && p.id in present && p.id in expanded
  {
    if pins != [] {
      PruneMembers(pins[1..], present, expanded);
      assert pins == [pins[0]] + pins[1..];
    }
  }

  lemma {:induction false} PruneDistinct(pins: seq<Pin>, present: set<Text>, expanded: set<Text>)
    ensures DistinctPins(pins) ==> DistinctPins(Prune(pins, present, expanded))
    ensures DistinctIndexes(pins) ==> DistinctIndexes(Prune(pins, present, expanded))
  {
    if pins != [] {
      PruneDistinct(pins[1..], present, expanded);
      PruneMembers(pins[1..], present, expanded);
    }
  }

  // ----- putting the rows back -------------------------------------------------------------

  lemma {:induction false} FindFinds(rows: seq<Group>, id: Text)
    ensures Find(rows, id).Some? <==> id in SessionIds(rows)
    ensures Find(rows, id).Some? ==> Find(rows, id).value.sessionId == id && Find(rows, id).value in rows
  {
    if rows != [] {
      FindFinds(rows[1..], id);
      assert rows == [rows[0]] + rows[1..];
    }
  }

  /** Rows in front of the first insertion stay where they are. */
  lemma {:induction false} PrefixKept(result: seq<Group>, pins: seq<Pin>, rows: seq<Group>, j: nat)
    requires Ascending(pins) && AllFound(pins, rows) && j < |result|
    requires pins != [] ==> j < Min(pins[0].index, |result|)
    ensures |Reinsert(result, pins, rows)| == |result| + |pins|
    ensures Reinsert(result, pins, rows)[j] == result[j]
    decreases |pins|
  {
    if pins != [] {
      assert pins[0] in pins;
      var next := Splice(result, Min(pins[0].index, |result|), Find(rows, pins[0].id).value);
      PrefixKept(next, pins[1..], rows, j);
    }
  }

  /** The k-th entry lands on its index, or at the end if the list is too short. */
  lemma {:induction false} Landing(result: seq<Group>, pins: seq<Pin>, rows: seq<Group>, k: nat)
    requires Ascending(pins) && AllFound(pins, rows) && k < |pins|
    ensures |Reinsert(result, pins, rows)| == |result| + |pins|
    ensures Reinsert(result, pins, rows)[Min(pins[k].index, |result| + k)] == Find(rows, pins[k].id).value
    decreases |pins|
  {
    assert pins[0] in pins;
    var next := Splice(result, Min(pins[0].index, |result|), Find(rows, pins[0].id).value);
    if k == 0 {
      PrefixKept(next, pins[1..], rows, Min(pins[0].index, |result|));
    } else {
      Landing(next, pins[1..], rows, k - 1);
    }
  }

  lemma {:induction false} WithoutConcat(a: seq<Group>, b: seq<Group>, ids: set<Text>)
    ensures Without(a + b, ids) == Without(a, ids) + Without(b, ids)
  {
    if a == [] {
      assert a + b == b;
    } else {
      WithoutConcat(a[1..], b, ids);
      assert (a + b)[1..] == a[1..] + b;
    }
  }

  /** Pinned rows come and go between the others without reordering them. */
  lemma {:induction false} ReinsertKeepsOthers(result: seq<Group>, pins: seq<Pin>, rows: seq<Group>, ids: set<Text>)
    requires AllFound(pins, rows) && Ids(pins) <= ids
    ensures Without(Reinsert(result, pins, rows), ids) == Without(result, ids)
    decreases |pins|
  {
    if pins != [] {
      assert pins[0] in pins;
      FindFinds(rows, pins[0].id);
      var at, g := Min(pins[0].index, |result|), Find(rows, pins[0].id).value;
      assert g.sessionId in ids;
      assert Without([g], ids) == [];
      WithoutConcat(result[..at] + [g], result[at..], ids);
      WithoutConcat(result[..at], [g], ids);
      WithoutConcat(result[..at], result[at..], ids);
      assert result[..at] + result[at..] == result;
      ReinsertKeepsOthers(Splice(result, at, g), pins[1..], rows, ids);
    }
  }

  lemma {:induction false} WithoutTwice(s: seq<Group>, ids: set<Text>)
    ensures Without(Without(s, ids), ids) == Without(s, ids)
  {
    if s != [] { WithoutTwice(s[1..], ids); }
  }

  function RowsOf(pins: seq<Pin>, rows: seq<Group>): seq<Group>
    requires AllFound(pins, rows)
  {
    if pins == [] then []
    else
      assert pins[0] in pins;
      [Find(rows, pins[0].id).value] + RowsOf(pins[1..], rows)
  }

  lemma {:induction false} ReinsertAdds(result: seq<Group>, pins: seq<Pin>, rows: seq<Group>)
    requires AllFound(pins, rows)
    ensures multiset(Reinsert(result, pins, rows)) == multiset(result) + multiset(RowsOf(pins, rows))
    decreases |pins|
  {
    if pins != [] {
      assert pins[0] in pins;
      var at, g := Min(pins[0].index, |result|), Find(rows, pins[0].id).value;
      assert result == result[..at] + result[at..];
      ReinsertAdds(Splice(result, at, g), pins[1..], rows);
    }
  }

  /** Taking one more row out of the list takes out exactly that row. */
  lemma {:induction false} WithoutOne(rows: seq<Group>, ids: set<Text>, id: Text)
    requires DistinctIds(rows) && id !in ids
    ensures match Find(rows, id)
            case Some(g) => multiset(Without(rows, ids)) == multiset(Without(rows, ids + {id})) + multiset{g}
            case None => Without(rows, ids) == Without(rows, ids + {id})
  {
    if rows != [] {
      WithoutOne(rows[1..], ids, id);
      if rows[0].sessionId == id {
        FindFinds(rows[1..], id);
      }
    }
  }

  /** The list is its unpinned rows and its pinned rows. */
  lemma {:induction false} Partition(rows: seq<Group>, pins: seq<Pin>)
    requires DistinctIds(rows) && DistinctPins(pins) && AllFound(pins, rows)
    ensures multiset(rows) == multiset(Without(rows, Ids(pins))) + multiset(RowsOf(pins, rows))
  {
    if pins == [] {
      WithoutNone(rows);
      assert Ids(pins) == {} && RowsOf(pins, rows) == [];
    } else {
      var rest := pins[1..];
      FirstPin(rows, pins);
      hide DistinctIds, DistinctPins, AllFound, Without, Find, Ids, RowsOf;
      Partition(rows, rest);
      WithoutOne(rows, Ids(rest), pins[0].id);
      MoveOne(multiset(Without(rows, Ids(rest))), multiset(Without(rows, Ids(pins))),
              RowsOf(rest, rows), Find(rows, pins[0].id).value);
    }
  }

  lemma MoveOne(before: multiset<Group>, after: multiset<Group>, taken: seq<Group>, g: Group)
    requires before == after + multiset{g}
    ensures before + multiset(taken) == after + multiset([g] + taken)
  {
  }

  lemma FirstPin(rows: seq<Group>, pins: seq<Pin>)
    requires pins != [] && DistinctPins(pins) && AllFound(pins, rows)
    ensures DistinctPins(pins[1..]) && AllFound(pins[1..], rows) && Find(rows, pins[0].id).Some?
    ensures pins[0].id !in Ids(pins[1..]) && Ids(pins) == Ids(pins[1..]) + {pins[0].id}
    ensures RowsOf(pins, rows) == [Find(rows, pins[0].id).value] + RowsOf(pins[1..], rows)
  {
    assert pins == [pins[0]] + pins[1..];
    assert pins[0] in pins;
  }

  lemma {:induction false} WithoutNone(rows: seq<Group>)
    ensures Without(rows, {}) == rows
  {
    if rows != [] { WithoutNone(rows[1..]); }
  }

  // ----- one poll ------------------------------------------------------------------------------

  lemma OrderedFacts(poll: Poll)
    requires DistinctIds(poll.filtered)
    ensures multiset(Ordered(poll)) == multiset(poll.filtered) && DistinctIds(Ordered(poll))
    ensures |Ordered(poll)| == |poll.filtered| && SessionIds(Ordered(poll)) == SessionIds(poll.filtered)
    ensures poll.key.field != Default ==> Sorted(Ordered(poll), poll.key.field, poll.key.direction)
  {
    if poll.key.field != Default {
      SortSorts(poll.filtered, poll.key.field, poll.key.direction);
    }
    assert |multiset(Ordered(poll))| == |multiset(poll.filtered)|;
    forall g ensures g in Ordered(poll) <==> g in poll.filtered {
      assert g in multiset(poll.filtered) <==> g in multiset(Ordered(poll));
    }
  }

  /** The entries in force are distinct, and all their rows are in the list. */
  lemma ActiveFacts(m: Memo, poll: Poll)
    requires MemoInv(m) && DistinctIds(poll.filtered)
    ensures var pins := ActivePins(m, poll);
            && DistinctPins(pins) && AllFound(pins, Ordered(poll))
            && (poll.key.field != Default ==> DistinctIndexes(pins))
  {
    var pins := ActivePins(m, poll);
    if !KeysChanged(m, poll) {
      PruneDistinct(m.pins, SessionIds(Ordered(poll)), poll.expanded);
      PruneMembers(m.pins, SessionIds(Ordered(poll)), poll.expanded);
      forall p | p in pins ensures Find(Ordered(poll), p.id).Some? {
        FindFinds(Ordered(poll), p.id);
      }
    }
  }

  /** What is shown is always a permutation of what passed the filters. */
  lemma RowsPermute(m: Memo, poll: Poll)
    requires MemoInv(m) && DistinctIds(poll.filtered)
    ensures multiset(Rows(m, poll)) == multiset(poll.filtered) && |Rows(m, poll)| == |poll.filtered|
    ensures DistinctIds(Rows(m, poll))
  {
    var pins, rows := ActivePins(m, poll), Ordered(poll);
    OrderedFacts(poll);
    ActiveFacts(m, poll);
    if poll.key.field != Default && pins != [] {
      SortPinsMembers(pins);
      SortPinsDistinct(pins);
      ReinsertAdds(Without(rows, Ids(pins)), SortPins(pins), rows);
      Partition(rows, SortPins(pins));
    }
    assert |multiset(Rows(m, poll))| == |multiset(poll.filtered)|;
    DistinctByMembers(poll.filtered, Rows(m, poll));
  }

  /** Whatever is pinned, the other rows are shown in comparator order. */
  lemma UnpinnedInOrder(m: Memo, poll: Poll)
    requires MemoInv(m) && DistinctIds(poll.filtered) && poll.key.field != Default
    ensures Without(Rows(m, poll), Ids(ActivePins(m, poll))) == Without(Ordered(poll), Ids(ActivePins(m, poll)))
    ensures Sorted(Ordered(poll), poll.key.field, poll.key.direction)
    ensures multiset(Ordered(poll)) == multiset(poll.filtered)
  {
    var pins, rows := ActivePins(m, poll), Ordered(poll);
    OrderedFacts(poll);
    ActiveFacts(m, poll);
    if pins != [] {
      SortPinsMembers(pins);
      ReinsertKeepsOthers(Without(rows, Ids(pins)), SortPins(pins), rows, Ids(pins));
      WithoutTwice(rows, Ids(pins));
    }
  }

  /** Where the entries of one poll land: the k-th by index at its recorded index,
      or as the k-th row behind the unpinned ones if those are too few. */
  lemma PinsLand(m: Memo, poll: Poll, k: nat)
    requires MemoInv(m) && DistinctIds(poll.filtered) && poll.key.field != Default
    requires k < |ActivePins(m, poll)|
    ensures var order := SortPins(ActivePins(m, poll));
            && |order| == |ActivePins(m, poll)| <= |poll.filtered| == |Rows(m, poll)|
            && Ascending(order)
            && Rows(m, poll)[Min(order[k].index, |poll.filtered| - |order| + k)].sessionId == order[k].id
  {
    hide MemoInv, DistinctIds, DistinctPins, DistinctIndexes, AllFound;
    hide ActivePins, Ordered, Reinsert, Without, Find, SortPins;
    var pins, rows := ActivePins(m, poll), Ordered(poll);
    ActiveFacts(m, poll);
    RowsPermute(m, poll);
    SortPinsMembers(pins);
    SortPinsAscends(pins);
    Landing(Without(rows, Ids(pins)), SortPins(pins), rows, k);
    FindFinds(rows, SortPins(pins)[k].id);
  }

  /** An entry lands on its recorded index if and only if there are enough rows
      in front of it. */
  lemma PinLandsIff(m: Memo, poll: Poll, k: nat)
    requires MemoInv(m) && DistinctIds(poll.filtered) && poll.key.field != Default
    requires k < |ActivePins(m, poll)|
    ensures var order, n := SortPins(ActivePins(m, poll)), |poll.filtered|;
            k < |order| <= n == |Rows(m, poll)| &&
            (order[k].index <= n - |order| + k <==>
             order[k].index < n && Rows(m, poll)[order[k].index].sessionId == order[k].id)
  {
    PinsLand(m, poll, k);
    RowsPermute(m, poll);
  }

  /** Every pinned row is at its recorded index if and only if all recorded
      indexes are within the list. */
  lemma AllLandIff(m: Memo, poll: Poll)
    requires MemoInv(m) && DistinctIds(poll.filtered) && poll.key.field != Default
    ensures |Rows(m, poll)| == |poll.filtered|
    ensures (forall p | p in ActivePins(m, poll) :: p.index < |poll.filtered|) <==>
            (forall p | p in ActivePins(m, poll) ::
               p.index < |poll.filtered| && Rows(m, poll)[p.index].sessionId == p.id)
  {
    var pins := ActivePins(m, poll);
    var order, n := SortPins(pins), |poll.filtered|;
    RowsPermute(m, poll);
    SortPinsMembers(pins);
    if forall p | p in pins :: p.index < n {
      forall p | p in pins ensures Rows(m, poll)[p.index].sessionId == p.id {
        assert p in order;
        var k: nat :| k < |order| && order[k] == p;
        PinLandsIff(m, poll, k);
        PinsLand(m, poll, k);
        assert forall q | q in order :: q.index < n;
        RoomBehind(order, n, k);
      }
    }
  }

  /** Distinct indexes below `n` leave room for the later ones behind each. */
  lemma {:induction false} RoomBehind(order: seq<Pin>, n: nat, k: nat)
    requires Ascending(order) && k < |order| && forall p | p in order :: p.index < n
    ensures order[k].index + (|order| - k) <= n
    decreases |order| - k
  {
    assert order[k] in order;
    if k + 1 < |order| { RoomBehind(order, n, k + 1); }
  }

  // ----- all polls -------------------------------------------------------------------------------

  /** No unpinned row sits on an index that is recorded for a pinned one, even
      when the list has shrunk below it. */
  lemma UnpinnedOffRecords(m: Memo, poll: Poll, j: nat, p: Pin)
    requires MemoInv(m) && DistinctIds(poll.filtered) && poll.key.field != Default
    requires p in ActivePins(m, poll) && j < |Rows(m, poll)|
    requires Rows(m, poll)[j].sessionId !in Ids(ActivePins(m, poll))
    ensures p.index != j
  {
    hide MemoInv, DistinctIds, Rows, ActivePins, SortPins;
    var pins := ActivePins(m, poll);
    var order, rows := SortPins(pins), Rows(m, poll);
    RowsPermute(m, poll);
    SortPinsMembers(pins);
    assert p in order;
    var k: nat :| k < |order| && order[k] == p;
    PinsLand(m, poll, k);
    var front := |poll.filtered| - |order|;
    if p.index == j {
      if p.index > front + k {
        assert j < front + |order|;
        var l: nat := j - front;
        AscendingGap(order, k, l);
        PinsLand(m, poll, l);
      }
      assert false;
    }
  }

  lemma {:induction false} AscendingGap(order: seq<Pin>, a: nat, b: nat)
    requires Ascending(order) && a <= b < |order|
    ensures order[b].index >= order[a].index + (b - a)
    decreases b - a
  {
    if a < b { AscendingGap(order, a, b - 1); }
  }

  /** Recording open rows adds entries with ids and indexes of their own. */
  lemma {:induction false} RecordDistinct(rows: seq<Group>, from: nat, expanded: set<Text>, pins: seq<Pin>)
    requires from <= |rows| && DistinctPins(pins)
    ensures DistinctPins(Record(rows, from, expanded, pins))
    ensures pins <= Record(rows, from, expanded, pins)
    ensures (DistinctIndexes(pins) &&
             forall p, j | p in pins && from <= j < |rows| && rows[j].sessionId !in Ids(pins) :: p.index != j) ==>
              DistinctIndexes(Record(rows, from, expanded, pins))
    decreases |rows| - from
  {
    if from < |rows| {
      var id := rows[from].sessionId;
      if id in expanded && id !in Ids(pins) {
        var more := pins + [Pin(id, from)];
        assert forall p | p in pins :: p.id != id;
        assert Ids(more) == Ids(pins) + {id};
        RecordDistinct(rows, from + 1, expanded, more);
      } else {
        RecordDistinct(rows, from + 1, expanded, pins);
      }
    }
  }

  /** One poll keeps recorded indexes pairwise distinct. */
  lemma NextInv(m: Memo, poll: Poll)
    requires MemoInv(m) && DistinctIds(poll.filtered)
    ensures MemoInv(Next(m, poll))
  {
    var pins, rows := ActivePins(m, poll), Rows(m, poll);
    ActiveFacts(m, poll);
    if poll.key.field != Default {
      forall p, j: nat | p in pins && j < |rows| && rows[j].sessionId !in Ids(pins) ensures p.index != j {
        UnpinnedOffRecords(m, poll, j, p);
      }
    }
    RecordDistinct(rows, 0, poll.expanded, pins);
  }

  function After(m: Memo, polls: seq<Poll>): Memo
    decreases |polls|
  {
    if polls == [] then m else After(Next(m, polls[0]), polls[1..])
  }

  /** Over any sequence of polls, with any sort and filter changes between them,
      no two recorded rows of a sorted list claim one index. */
  lemma {:induction false} PinsStayDistinct(m: Memo, polls: seq<Poll>)
    requires MemoInv(m) && forall poll | poll in polls :: DistinctIds(poll.filtered)
    ensures MemoInv(After(m, polls))
    decreases |polls|
  {
    if polls != [] {
      assert polls[0] in polls;
      NextInv(m, polls[0]);
      PinsStayDistinct(Next(m, polls[0]), polls[1..]);
    }
  }

  /** Every open row is recorded, at its position if it was not recorded before. */
  lemma {:induction false} RecordCovers(rows: seq<Group>, from: nat, expanded: set<Text>, pins: seq<Pin>, i: nat)
    requires from <= i < |rows| && rows[i].sessionId in expanded && DistinctIds(rows)
    ensures var id, all := rows[i].sessionId, Record(rows, from, expanded, pins);
            if id in Ids(pins) then forall p | p in pins :: p in all
            else Pin(id, i) in all
    decreases |rows| - from
  {
    var id := rows[from].sessionId;
    var pins' := if id in expanded && id !in Ids(pins) then pins + [Pin(id, from)] else pins;
    RecordGrows(rows, from + 1, expanded, pins');
    var all := Record(rows, from, expanded, pins);
    assert forall p | p in pins' :: p in all by {
      forall p | p in pins' ensures p in all {
        var k :| 0 <= k < |pins'| && pins'[k] == p;
        assert all[k] == p;
      }
    }
    if from < i {
      RecordCovers(rows, from + 1, expanded, pins', i);
    } else if id !in Ids(pins) {
      assert pins'[|pins|] == Pin(id, i);
    }
  }

  lemma {:induction false} RecordGrows(rows: seq<Group>, from: nat, expanded: set<Text>, pins: seq<Pin>)
    requires from <= |rows|
    ensures pins <= Record(rows, from, expanded, pins)
    decreases |rows| - from
  {
    if from < |rows| {
      var id := rows[from].sessionId;
      if id in expanded && id !in Ids(pins) {
        RecordGrows(rows, from + 1, expanded, pins + [Pin(id, from)]);
      } else {
        RecordGrows(rows, from + 1, expanded, pins);
      }
    }
  }

  /** After a poll that shows the open row `id` at `i`, the row is recorded there. */
  lemma OpenRowRecorded(m: Memo, poll: Poll, i: nat)
    requires MemoInv(m) && DistinctIds(poll.filtered) && poll.key.field != Default && Fits(m, poll)
    requires i < |Rows(m, poll)| && Rows(m, poll)[i].sessionId in poll.expanded
    ensures Pin(Rows(m, poll)[i].sessionId, i) in Next(m, poll).pins
  {
    var id, pins, rows := Rows(m, poll)[i].sessionId, ActivePins(m, poll), Rows(m, poll);
    RowsPermute(m, poll);
    AllLandIff(m, poll);
    RecordCovers(rows, 0, poll.expanded, pins, i);
    if id in Ids(pins) {
      var p :| p in pins && p.id == id;
      assert rows[p.index].sessionId == rows[i].sessionId;
      assert p.index == i;
      assert p == Pin(id, i);
    }
  }

  /** The list is not shorter than an index that is recorded. */
  ghost predicate Fits(m: Memo, poll: Poll) {
    forall p | p in ActivePins(m, poll) :: p.index < |poll.filtered|
  }

  /** A recorded row is shown at its index, and stays recorded there. */
  lemma RecordedRowStays(m: Memo, poll: Poll, id: Text, i: nat)
    requires MemoInv(m) && DistinctIds(poll.filtered) && poll.key.field != Default && Fits(m, poll)
    requires !KeysChanged(m, poll) && Pin(id, i) in m.pins
    requires id in poll.expanded && id in SessionIds(poll.filtered)
    ensures i < |Rows(m, poll)| && Rows(m, poll)[i].sessionId == id
    ensures Pin(id, i) in Next(m, poll).pins
  {
    OrderedFacts(poll);
    PruneMembers(m.pins, SessionIds(Ordered(poll)), poll.expanded);
    assert Pin(id, i) in ActivePins(m, poll);
    RowsPermute(m, poll);
    AllLandIff(m, poll);
    OpenRowRecorded(m, poll, i);
  }

  /** The sort and the filters stay, the row `id` stays open and in the list, and
      the list never gets shorter than a recorded index; all else may change. */
  ghost predicate Undisturbed(m: Memo, polls: seq<Poll>, key: SortKey, filterKey: Text, id: Text)
    decreases |polls|
  {
    polls == [] ||
    (&& polls[0].key == key && polls[0].filterKey == filterKey && Fits(m, polls[0])
     && DistinctIds(polls[0].filtered) && id in polls[0].expanded && id in SessionIds(polls[0].filtered)
     && Undisturbed(Next(m, polls[0]), polls[1..], key, filterKey, id))
  }

  lemma {:induction false} RecordedRowStaysOn(m: Memo, polls: seq<Poll>, key: SortKey, filterKey: Text, id: Text, i: nat, k: nat)
    requires MemoInv(m) && key.field != Default && m.sortKey == Some(key) && m.filterKey == filterKey
    requires Pin(id, i) in m.pins && Undisturbed(m, polls, key, filterKey, id) && k < |polls|
    ensures i < |Rows(After(m, polls[..k]), polls[k])|
    ensures Rows(After(m, polls[..k]), polls[k])[i].sessionId == id
    decreases |polls|
  {
    hide MemoInv, DistinctIds, Rows, Fits;
    RecordedRowStays(m, polls[0], id, i);
    if k > 0 {
      NextInv(m, polls[0]);
      RecordedRowStaysOn(Next(m, polls[0]), polls[1..], key, filterKey, id, i, k - 1);
      assert polls[1..][..k - 1] == polls[..k][1..];
    }
  }

  /** Whatever happened before: an open row that is shown at `i` is shown at `i`
      in every later poll, as long as it is undisturbed. */
  lemma OpenRowStays(earlier: seq<Poll>, polls: seq<Poll>, i: nat, k: nat)
    requires forall poll | poll in earlier :: DistinctIds(poll.filtered)
    requires k < |polls| && polls[0].key.field != Default
    requires var m := After(FRESH_MEMO, earlier);
             i < |Rows(m, polls[0])| &&
             Undisturbed(m, polls, polls[0].key, polls[0].filterKey, Rows(m, polls[0])[i].sessionId)
    ensures var m := After(FRESH_MEMO, earlier);
            && i < |Rows(After(m, polls[..k]), polls[k])|
            && Rows(After(m, polls[..k]), polls[k])[i].sessionId == Rows(m, polls[0])[i].sessionId
  {
    PinsStayDistinct(FRESH_MEMO, earlier);
    hide MemoInv, DistinctIds, Rows, Fits, Undisturbed;
    OpenRowStaysFrom(After(FRESH_MEMO, earlier), polls, i, k);
  }

  lemma OpenRowStaysFrom(m: Memo, polls: seq<Poll>, i: nat, k: nat)
    requires MemoInv(m) && k < |polls| && polls[0].key.field != Default && i < |Rows(m, polls[0])|
    requires Undisturbed(m, polls, polls[0].key, polls[0].filterKey, Rows(m, polls[0])[i].sessionId)
    ensures i < |Rows(After(m, polls[..k]), polls[k])|
    ensures Rows(After(m, polls[..k]), polls[k])[i].sessionId == Rows(m, polls[0])[i].sessionId
  {
    hide MemoInv, DistinctIds, Rows, Fits, Record, ActivePins;
    var first := polls[0];
    if k > 0 {
      OpenRowRecorded(m, first, i);
      NextInv(m, first);
      RecordedRowStaysOn(Next(m, first), polls[1..], first.key, first.filterKey, Rows(m, first)[i].sessionId, i, k - 1);
      assert polls[1..][..k - 1] == polls[..k][1..];
    } else {
      assert polls[..0] == [];
    }
  }

  // ----- what a change of keys forgets, and what a poll records --------------------------------

  /** After a change of the sort or of a filter the list is simply sorted; in the
      default order it is always shown as it came. */
  lemma KeyChangeResets(m: Memo, poll: Poll)
    requires MemoInv(m) && DistinctIds(poll.filtered)
    ensures poll.key.field == Default ==> Rows(m, poll) == poll.filtered
    ensures poll.key.field != Default && (m.sortKey != Some(poll.key) || m.filterKey != poll.filterKey) ==>
              && multiset(Rows(m, poll)) == multiset(poll.filtered)
              && Sorted(Rows(m, poll), poll.key.field, poll.key.direction)
  {
    OrderedFacts(poll);
  }

  /** A poll records exactly the rows that are listed and open: those recorded
      before keep their index, the others are recorded where they are shown. */
  lemma RecordsOpenRows(m: Memo, poll: Poll, id: Text)
    requires MemoInv(m) && DistinctIds(poll.filtered)
    ensures id in Ids(Next(m, poll).pins) <==> id in SessionIds(poll.filtered) && id in poll.expanded
    ensures forall p | p in Next(m, poll).pins ::
              p in ActivePins(m, poll) || (p.index < |Rows(m, poll)| && Rows(m, poll)[p.index].sessionId == p.id)
    ensures m.sortKey == Some(poll.key) && m.filterKey == poll.filterKey ==>
              forall p | p in m.pins && p.id in SessionIds(poll.filtered) && p.id in poll.expanded :: p in Next(m, poll).pins
  {
    var pins, rows := ActivePins(m, poll), Rows(m, poll);
    RowsPermute(m, poll);
    OrderedFacts(poll);
    SameIds(rows, poll.filtered);
    SameIds(Ordered(poll), poll.filtered);
    if !KeysChanged(m, poll) { PruneMembers(m.pins, SessionIds(Ordered(poll)), poll.expanded); }
    RecordOnlyOpen(rows, 0, poll.expanded, pins);
    RecordGrows(rows, 0, poll.expanded, pins);
    if id in SessionIds(rows) && id in poll.expanded {
      var i :| 0 <= i < |rows| && rows[i].sessionId == id;
      RecordCovers(rows, 0, poll.expanded, pins, i);
    }
  }

  lemma SameIds(s: seq<Group>, t: seq<Group>)
    requires multiset(s) == multiset(t)
    ensures SessionIds(s) == SessionIds(t)
  {
    assert forall g :: g in s <==> g in multiset(s);
    assert forall g :: g in t <==> g in multiset(t);
  }

  lemma {:induction false} RecordOnlyOpen(rows: seq<Group>, from: nat, expanded: set<Text>, pins: seq<Pin>)
    requires from <= |rows|
    ensures forall p | p in Record(rows, from, expanded, pins) ::
              p in pins || (p.id in expanded && p.index < |rows| && rows[p.index].sessionId == p.id)
    decreases |rows| - from
  {
    if from < |rows| {
      var id := rows[from].sessionId;
      RecordOnlyOpen(rows, from + 1, expanded, if id in expanded && id !in Ids(pins) then pins + [Pin(id, from)] else pins);
    }
  }

  // ----- a pin that misses -------------------------------------------------------------------------

  const ALPHA := Group([1], [1], Unknown, Unknown, Unknown)
  const BETA := Group([2], [2], Unknown, Unknown, Unknown)
  const BY_NAME := SortKey(Name, Asc)
  const LONG_POLL := Poll([ALPHA, BETA], {[2]}, BY_NAME, [])
  const SHORT_POLL := Poll([BETA], {[2]}, BY_NAME, [])
  const PINNED_MEMO := Memo([Pin([2], 1)], Some(BY_NAME), [])

  lemma LongPoll()
    ensures DistinctIds(LONG_POLL.filtered) && Rows(FRESH_MEMO, LONG_POLL) == [ALPHA, BETA]
    ensures Next(FRESH_MEMO, LONG_POLL) == PINNED_MEMO
  {
    assert !Less([2], [1]);
    assert Sort([BETA], Name, Asc) == [BETA] by { assert Sort([], Name, Asc) == []; }
    assert [ALPHA, BETA][1..] == [BETA];
    assert Ordered(LONG_POLL) == [ALPHA, BETA];
    assert Placed([ALPHA, BETA], [], Name) == [ALPHA, BETA];
    Recording();
  }

  lemma Recording()
    ensures Record([ALPHA, BETA], 0, {[2]}, []) == [Pin([2], 1)]
  {
    var rows, pins := [ALPHA, BETA], [Pin([2], 1)];
    assert Record(rows, 2, {[2]}, pins) == pins;
    assert [] + pins == pins;
    assert Record(rows, 1, {[2]}, []) == pins;
  }

  lemma ShortPoll()
    ensures DistinctIds(SHORT_POLL.filtered) && ActivePins(PINNED_MEMO, SHORT_POLL) == [Pin([2], 1)]
    ensures |Rows(PINNED_MEMO, SHORT_POLL)| == 1
  {
    assert Sort([BETA], Name, Asc) == [BETA] by { assert [BETA][1..] == []; }
    assert Ordered(SHORT_POLL) == [BETA];
    assert BETA in [BETA];
    assert [2] in SessionIds([BETA]);
    var pins := [Pin([2], 1)];
    assert pins[1..] == [] && [pins[0]] + [] == pins;
    assert Prune(pins, SessionIds([BETA]), {[2]}) == pins;
    MemoIsFine();
    RowsPermute(PINNED_MEMO, SHORT_POLL);
  }

  lemma MemoIsFine()
    ensures MemoInv(PINNED_MEMO)
  {
  }

  /** After a poll that shows and records the second of two rows, a poll without
      the first row has an index recorded that its list does not even have. */
  lemma PinCanMiss()
    ensures DistinctIds(LONG_POLL.filtered) && DistinctIds(SHORT_POLL.filtered)
    ensures var m := Next(FRESH_MEMO, LONG_POLL);
            && Rows(FRESH_MEMO, LONG_POLL) == [ALPHA, BETA]
            && ActivePins(m, SHORT_POLL) == [Pin(BETA.sessionId, 1)]
            && Rows(m, SHORT_POLL) == [BETA]
  {
    hide Rows, Next, ActivePins;
    LongPoll();
    ShortPoll();
    MemoIsFine();
    PinsLand(PINNED_MEMO, SHORT_POLL, 0);
    RowsPermute(PINNED_MEMO, SHORT_POLL);
    assert BETA in multiset([BETA]);
  }
}
