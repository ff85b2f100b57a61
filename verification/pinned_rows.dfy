/**
Rows that stay put while the list around them changes: the `sortedGroups` memo
of src/resource-monitor/App.tsx. The list is sorted, and the open rows that are
already pinned are put back at the index recorded for them. The map of pins is
a sequence of entries in insertion order, as in JavaScript.
*/
module PinnedRows {
  import opened Wrappers
  import opened GroupOrder

  datatype Pin = Pin(id: Text, index: nat)

  datatype SortKey = SortKey(field: Field, direction: Direction)

  /** What the memo remembers between two polls. */
  datatype Memo = Memo(pins: seq<Pin>, sortKey: Option<SortKey>, filterKey: Text)

  /** What one poll brings. */
  datatype Poll = Poll(filtered: seq<Group>, expanded: set<Text>, key: SortKey, filterKey: Text)

  const FRESH_MEMO := Memo([], None, [])

  function Ids(pins: seq<Pin>): set<Text> {
    set p | p in pins :: p.id
  }

  function SessionIds(s: seq<Group>): set<Text> {
    set g | g in s :: g.sessionId
  }

  function Ordered(poll: Poll): seq<Group> {
    if poll.key.field == Default then poll.filtered
    else Sort(poll.filtered, poll.key.field, poll.key.direction)
  }

  predicate KeysChanged(m: Memo, poll: Poll) {
    m.sortKey != Some(poll.key) || m.filterKey != poll.filterKey
  }

  /** The entries of open rows that are still in the list. */
  function Prune(pins: seq<Pin>, present: set<Text>, expanded: set<Text>): seq<Pin> {
    if pins == [] then []
    else if pins[0].id in present && pins[0].id in expanded
    then [pins[0]] + Prune(pins[1..], present, expanded)
    else Prune(pins[1..], present, expanded)
  }

  function InsertPin(p: Pin, pins: seq<Pin>): seq<Pin> {
    if pins == [] then [p]
    else if p.index <= pins[0].index then [p] + pins
    else [pins[0]] + InsertPin(p, pins[1..])
  }

  /** By ascending index; entries of equal index keep their order. */
  function SortPins(pins: seq<Pin>): seq<Pin> {
    if pins == [] then [] else InsertPin(pins[0], SortPins(pins[1..]))
  }

  function Without(s: seq<Group>, ids: set<Text>): seq<Group> {
    if s == [] then []
    else if s[0].sessionId in ids then Without(s[1..], ids)
    else [s[0]] + Without(s[1..], ids)
  }

  function Find(s: seq<Group>, id: Text): Option<Group> {
    if s == [] then None else if s[0].sessionId == id then Some(s[0]) else Find(s[1..], id)
  }

  function Min(a: nat, b: nat): nat {
    if a < b then a else b
  }

  function Splice(s: seq<Group>, at: nat, g: Group): seq<Group>
    requires at <= |s|
  {
    s[..at] + [g] + s[at..]
  }

  /** Puts the rows of `pins` back, first entry first. */
  function Reinsert(result: seq<Group>, pins: seq<Pin>, rows: seq<Group>): seq<Group>
    decreases |pins|
  {
    if pins == [] then result
    else
      match Find(rows, pins[0].id)
      case None => Reinsert(result, pins[1..], rows)
      case Some(g) => Reinsert(Splice(result, Min(pins[0].index, |result|), g), pins[1..], rows)
  }

  function Placed(rows: seq<Group>, pins: seq<Pin>, field: Field): seq<Group> {
    if field != Default && pins != [] then Reinsert(Without(rows, Ids(pins)), SortPins(pins), rows) else rows
  }

  /** Records every open row from position `from` on that has no entry yet. */
  function Record(rows: seq<Group>, from: nat, expanded: set<Text>, pins: seq<Pin>): seq<Pin>
    requires from <= |rows|
    decreases |rows| - from
  {
    if from == |rows| then pins
    else if rows[from].sessionId in expanded && rows[from].sessionId !in Ids(pins)
    then Record(rows, from + 1, expanded, pins + [Pin(rows[from].sessionId, from)])
    else Record(rows, from + 1, expanded, pins)
  }

  /** The entries that are in force when the rows are put back. */
  function ActivePins(m: Memo, poll: Poll): seq<Pin> {
    if KeysChanged(m, poll) then [] else Prune(m.pins, SessionIds(Ordered(poll)), poll.expanded)
  }

  function Rows(m: Memo, poll: Poll): seq<Group> {
    Placed(Ordered(poll), ActivePins(m, poll), poll.key.field)
  }

  function Next(m: Memo, poll: Poll): Memo {
    Memo(Record(Rows(m, poll), 0, poll.expanded, ActivePins(m, poll)), Some(poll.key), poll.filterKey)
  }

  // ----- the program -----------------------------------------------------------------

  class GroupTable {
    var pins: seq<Pin>
    var previousSortKey: Option<SortKey>
    var previousFilterKey: Text

    function Value(): Memo
      reads this
    {
      Memo(pins, previousSortKey, previousFilterKey)
    }

    constructor ()
      ensures Value() == FRESH_MEMO
    {
      pins, previousSortKey, previousFilterKey := [], None, [];
    }

    method DropStalePins(present: set<Text>, expanded: set<Text>)
      modifies this`pins
      ensures pins == Prune(old(pins), present, expanded)
    {
      var entries := pins;
      pins := [];
      for k := 0 to |entries|
        invariant pins + Prune(entries[k..], present, expanded) == Prune(entries, present, expanded)
      {
        assert entries[k..][1..] == entries[k + 1..];
        if entries[k].id in present && entries[k].id in expanded {
          pins := pins + [entries[k]];
        }
      }
    }

    method SortedGroups(poll: Poll) returns (result: seq<Group>)
      modifies this
      ensures result == Rows(old(Value()), poll) && Value() == Next(old(Value()), poll)
    {
      var field := poll.key.field;
      var sorted := poll.filtered;
      if field != Default {
        sorted := Sort(sorted, field, poll.key.direction);
      }
      if previousSortKey != Some(poll.key) || previousFilterKey != poll.filterKey {
        pins := [];
        previousSortKey := Some(poll.key);
        previousFilterKey := poll.filterKey;
      }
      DropStalePins(SessionIds(sorted), poll.expanded);
      result := sorted;
      if field != Default && pins != [] {
        var order := SortPins(pins);
        result := Without(sorted, Ids(pins));
        for k := 0 to |order|
          invariant Reinsert(result, order[k..], sorted) == Placed(sorted, pins, field)
        {
          assert order[k..][1..] == order[k + 1..];
          var row := Find(sorted, order[k].id);
          if row.Some? {
            result := Splice(result, Min(order[k].index, |result|), row.value);
          }
        }
      }
      ghost var active := pins;
      for i := 0 to |result|
        invariant previousSortKey == Some(poll.key) && previousFilterKey == poll.filterKey
        invariant Record(result, i, poll.expanded, pins) == Record(result, 0, poll.expanded, active)
      {
        var id := result[i].sessionId;
        if id in poll.expanded && id !in Ids(pins) {
          pins := pins + [Pin(id, i)];
        }
      }
    }
  }
}
