/**
The order of the resource monitor's rows (compareGroups and bySessionId in
src/resource-monitor/App.tsx). Texts compare by their UTF-16 code units, as in
JavaScript; a metric that is missing or not finite is `Unknown`.
*/
module GroupOrder {
  newtype CodeUnit = x: int | 0 <= x < 0x1_0000

  /** A JavaScript Text. */
  type Text = seq<CodeUnit>

  datatype Metric = Unknown | Known(value: real)

  datatype Group = Group(
    sessionId: Text,
    name: Text,
    cpuPercent: Metric,
    privateBytes: Metric,
    processCount: Metric)

  datatype Field = Default | Cpu | Private | Processes | Name

  datatype Direction = Asc | Desc

  predicate Less(a: Text, b: Text) {
    b != [] && (a == [] || a[0] < b[0] || (a[0] == b[0] && Less(a[1..], b[1..])))
  }

  function Compare(a: Text, b: Text): int {
    (if Less(b, a) then 1 else 0) - (if Less(a, b) then 1 else 0)
  }

  function BySessionId(a: Group, b: Group): int {
    Compare(a.sessionId, b.sessionId)
  }

  function SortMetric(g: Group, field: Field): Metric {
    match field
    case Cpu => g.cpuPercent
    case Private => g.privateBytes
    case Processes => g.processCount
    case _ => Unknown
  }

  function CompareGroups(a: Group, b: Group, field: Field, direction: Direction): int {
    var flip := if direction == Asc then 1 else -1;
    if field == Name then
      var base := Compare(a.name, b.name);
      if base == 0 then BySessionId(a, b) else base * flip
    else
      var av, bv := SortMetric(a, field), SortMetric(b, field);
      if av.Unknown? && bv.Unknown? then BySessionId(a, b)
      else if av.Unknown? then 1
      else if bv.Unknown? then -1
      else if av.value == bv.value then BySessionId(a, b)
      else (if av.value < bv.value then -1 else 1) * flip
  }

  // ----- a strict total order --------------------------------------------------------

  lemma {:induction false} LessAsymmetric(a: Text, b: Text)
    ensures !(Less(a, b) && Less(b, a))
  {
    if a != [] && b != [] && a[0] == b[0] {
      LessAsymmetric(a[1..], b[1..]);
    }
  }

  lemma {:induction false} LessTotal(a: Text, b: Text)
    ensures Less(a, b) || Less(b, a) || a == b
  {
    if a != [] && b != [] && a[0] == b[0] {
      LessTotal(a[1..], b[1..]);
      if a[1..] == b[1..] { assert a == [a[0]] + a[1..] && b == [b[0]] + b[1..]; }
    }
  }

  lemma {:induction false} LessTransitive(a: Text, b: Text, c: Text)
    requires Less(a, b) && Less(b, c)
    ensures Less(a, c)
  {
    if a != [] && a[0] == b[0] == c[0] {
      LessTransitive(a[1..], b[1..], c[1..]);
    }
  }

  lemma CompareOrders(a: Text, b: Text)
    ensures Compare(a, b) == -Compare(b, a) && (Compare(a, b) == 0 <==> a == b)
    ensures Compare(a, b) < 0 <==> Less(a, b)
  {
    LessAsymmetric(a, b);
    LessTotal(a, b);
  }

  /** Opposite ways round the answer is opposite, and only rows of one session tie. */
  lemma CompareGroupsAntisymmetric(a: Group, b: Group, field: Field, direction: Direction)
    ensures CompareGroups(a, b, field, direction) == -CompareGroups(b, a, field, direction)
    ensures CompareGroups(a, b, field, direction) == 0 ==> a.sessionId == b.sessionId
  {
    CompareOrders(a.name, b.name);
    CompareOrders(a.sessionId, b.sessionId);
  }

  lemma CompareTransitive(a: Text, b: Text, c: Text)
    ensures Compare(a, b) <= 0 && Compare(b, c) <= 0 ==> Compare(a, c) <= 0
    ensures Compare(a, b) < 0 && Compare(b, c) <= 0 ==> Compare(a, c) < 0
    ensures Compare(a, b) <= 0 && Compare(b, c) < 0 ==> Compare(a, c) < 0
  {
    CompareOrders(a, b);
    CompareOrders(b, c);
    CompareOrders(a, c);
    if Less(a, b) && Less(b, c) { LessTransitive(a, b, c); }
  }

  lemma CompareGroupsTransitive(a: Group, b: Group, c: Group, field: Field, direction: Direction)
    requires CompareGroups(a, b, field, direction) < 0 && CompareGroups(b, c, field, direction) < 0
    ensures CompareGroups(a, c, field, direction) < 0
  {
    CompareTransitive(a.sessionId, b.sessionId, c.sessionId);
    if field == Name {
      CompareTransitive(a.name, b.name, c.name);
      CompareTransitive(c.name, b.name, a.name);
      CompareOrders(a.name, b.name);
      CompareOrders(b.name, c.name);
      CompareOrders(a.name, c.name);
    }
  }

  /** Rows with an unknown metric come last in both directions. */
  lemma UnknownLast(a: Group, b: Group, field: Field, direction: Direction)
    requires field != Name && SortMetric(a, field).Known? && SortMetric(b, field).Unknown?
    ensures CompareGroups(a, b, field, direction) < 0 < CompareGroups(b, a, field, direction)
  {
  }

  // ----- which order it is ---------------------------------------------------------------

  /** One text is below another at their first difference, or as its beginning. */
  lemma {:induction false} LessMeans(a: Text, b: Text)
    ensures Less(a, b) <==> exists k: nat :: k <= |a| && k < |b| && a[..k] == b[..k] && (k == |a| || a[k] < b[k])
  {
    if a != [] && b != [] && a[0] == b[0] {
      LessMeans(a[1..], b[1..]);
      if Less(a, b) {
        var k: nat :| k <= |a| - 1 && k < |b| - 1 && a[1..][..k] == b[1..][..k] && (k == |a| - 1 || a[1..][k] < b[1..][k]);
        assert a[..k + 1] == [a[0]] + a[1..][..k] && b[..k + 1] == [b[0]] + b[1..][..k];
      }
      if k: nat :| k <= |a| && k < |b| && a[..k] == b[..k] && (k == |a| || a[k] < b[k]) {
        FirstDiffers(a, b, k);
      }
    } else if b != [] {
      assert Less(a, b) ==> a[..0] == b[..0];
      if k: nat :| k <= |a| && k < |b| && a[..k] == b[..k] && (k == |a| || a[k] < b[k]) {
        if k > 0 { SameHead(a, b, k); }
      }
    }
  }

  lemma SameHead(a: Text, b: Text, k: nat)
    requires 0 < k <= |a| && k < |b| && a[..k] == b[..k]
    ensures a[0] == b[0]
  {
    assert a[..k][0] == b[..k][0];
  }

  lemma FirstDiffers(a: Text, b: Text, k: nat)
    requires a != [] && b != [] && a[0] == b[0]
    requires k <= |a| && k < |b| && a[..k] == b[..k] && (k == |a| || a[k] < b[k])
    ensures k >= 1 && a[1..][..k - 1] == b[1..][..k - 1] && (k - 1 == |a[1..]| || a[1..][k - 1] < b[1..][k - 1])
  {
    assert a[1..][..k - 1] == a[..k][1..] && b[1..][..k - 1] == b[..k][1..];
  }

  /** A field compares by its own metric: the smaller one first when ascending,
      last when descending, unknown ones last either way; and ties, like two unknown
      metrics, are broken by session id in the same way in both directions. */
  predicate OrdersBy(x: Metric, y: Metric, ids: bool, asc: int, desc: int) {
    match (x, y)
    case (Known(v), Known(w)) =>
      if v < w then asc < 0 < desc else if w < v then desc < 0 < asc else (asc < 0 <==> ids) && (desc < 0 <==> ids)
    case (Known(_), Unknown) => asc < 0 && desc < 0
    case (Unknown, Known(_)) => asc > 0 && desc > 0
    case (Unknown, Unknown) => (asc < 0 <==> ids) && (desc < 0 <==> ids)
  }

  lemma FieldsCompare(a: Group, b: Group)
    ensures var ids := Less(a.sessionId, b.sessionId);
            && OrdersBy(a.cpuPercent, b.cpuPercent, ids, CompareGroups(a, b, Cpu, Asc), CompareGroups(a, b, Cpu, Desc))
            && OrdersBy(a.privateBytes, b.privateBytes, ids,
                        CompareGroups(a, b, Private, Asc), CompareGroups(a, b, Private, Desc))
            && OrdersBy(a.processCount, b.processCount, ids,
                        CompareGroups(a, b, Processes, Asc), CompareGroups(a, b, Processes, Desc))
  {
    CompareOrders(a.sessionId, b.sessionId);
  }

  lemma NamesCompare(a: Group, b: Group)
    ensures Less(a.name, b.name) ==> CompareGroups(a, b, Name, Asc) < 0 < CompareGroups(a, b, Name, Desc)
    ensures a.name == b.name ==>
              && (CompareGroups(a, b, Name, Asc) < 0 <==> Less(a.sessionId, b.sessionId))
              && (CompareGroups(a, b, Name, Desc) < 0 <==> Less(a.sessionId, b.sessionId))
  {
    CompareOrders(a.name, b.name);
    CompareOrders(a.sessionId, b.sessionId);
  }

  // ----- sorting -----------------------------------------------------------------------

  ghost predicate DistinctIds(s: seq<Group>) {
    forall i, j | 0 <= i < j < |s| :: s[i].sessionId != s[j].sessionId
  }

  ghost predicate Sorted(s: seq<Group>, field: Field, direction: Direction) {
    forall i, j | 0 <= i < j < |s| :: CompareGroups(s[i], s[j], field, direction) < 0
  }

  function Insert(g: Group, s: seq<Group>, field: Field, direction: Direction): seq<Group> {
    if s == [] then [g]
    else if CompareGroups(g, s[0], field, direction) < 0 then [g] + s
    else [s[0]] + Insert(g, s[1..], field, direction)
  }

  function Sort(s: seq<Group>, field: Field, direction: Direction): seq<Group> {
    if s == [] then [] else Insert(s[0], Sort(s[1..], field, direction), field, direction)
  }

  lemma SortedCons(g: Group, s: seq<Group>, field: Field, direction: Direction)
    requires Sorted(s, field, direction)
    requires forall j | 0 <= j < |s| :: CompareGroups(g, s[j], field, direction) < 0
    ensures Sorted([g] + s, field, direction)
  {
  }

  lemma SortedTail(s: seq<Group>, field: Field, direction: Direction)
    requires s != [] && Sorted(s, field, direction)
    ensures Sorted(s[1..], field, direction)
    ensures forall j | 0 <= j < |s[1..]| :: CompareGroups(s[0], s[1..][j], field, direction) < 0
  {
  }

  lemma {:induction false} InsertKeeps(g: Group, s: seq<Group>, field: Field, direction: Direction)
    ensures multiset(Insert(g, s, field, direction)) == multiset{g} + multiset(s)
  {
    hide CompareGroups;
    if s != [] {
      InsertKeeps(g, s[1..], field, direction);
      assert s == [s[0]] + s[1..];
    }
  }

  lemma {:induction false} InsertSorts(g: Group, s: seq<Group>, field: Field, direction: Direction)
    requires Sorted(s, field, direction) && forall i | 0 <= i < |s| :: s[i].sessionId != g.sessionId
    ensures Sorted(Insert(g, s, field, direction), field, direction)
  {
    hide CompareGroups, Sorted;
    if s == [] {
      SortedCons(g, s, field, direction);
      assert [g] + s == [g];
    } else {
      SortedTail(s, field, direction);
      CompareGroupsAntisymmetric(g, s[0], field, direction);
      if CompareGroups(g, s[0], field, direction) < 0 {
        forall j | 0 <= j < |s| ensures CompareGroups(g, s[j], field, direction) < 0 {
          if j > 0 {
            assert s[j] == s[1..][j - 1];
            CompareGroupsTransitive(g, s[0], s[j], field, direction);
          }
        }
        SortedCons(g, s, field, direction);
      } else {
        var rest := Insert(g, s[1..], field, direction);
        InsertSorts(g, s[1..], field, direction);
        InsertKeeps(g, s[1..], field, direction);
        forall j | 0 <= j < |rest| ensures CompareGroups(s[0], rest[j], field, direction) < 0 {
          assert rest[j] in multiset(rest);
        }
        SortedCons(s[0], rest, field, direction);
      }
    }
  }

  /** Sorting is a permutation into comparator order. */
  lemma {:induction false} SortSorts(s: seq<Group>, field: Field, direction: Direction)
    requires DistinctIds(s)
    ensures Sorted(Sort(s, field, direction), field, direction)
    ensures multiset(Sort(s, field, direction)) == multiset(s)
    ensures DistinctIds(Sort(s, field, direction))
  {
    if s != [] {
      hide CompareGroups, Sorted, Insert;
      SortSorts(s[1..], field, direction);
      var rest := Sort(s[1..], field, direction);
      forall i | 0 <= i < |rest| ensures rest[i].sessionId != s[0].sessionId {
        assert rest[i] in multiset(rest);
        assert rest[i] in s[1..];
      }
      InsertSorts(s[0], rest, field, direction);
      InsertKeeps(s[0], rest, field, direction);
      assert s == [s[0]] + s[1..];
      DistinctByMembers(s, Sort(s, field, direction));
    }
  }

  /** Distinct ids are a property of the rows, not of their order. */
  lemma DistinctByMembers(s: seq<Group>, t: seq<Group>)
    requires DistinctIds(s) && multiset(s) == multiset(t)
    ensures DistinctIds(t)
  {
    forall i, j | 0 <= i < j < |t| ensures t[i].sessionId != t[j].sessionId {
      if t[i] == t[j] {
        assert t == t[..i] + [t[i]] + t[i + 1..];
        assert t[j] in t[i + 1..];
        assert multiset(t)[t[i]] >= 2;
        OccursOnce(s, t[i]);
      } else {
        assert t[i] in multiset(s) && t[j] in multiset(s);
      }
    }
  }

  lemma {:induction false} OccursOnce(s: seq<Group>, g: Group)
    requires DistinctIds(s)
    ensures multiset(s)[g] <= 1
  {
    if s != [] {
      OccursOnce(s[1..], g);
      assert s == [s[0]] + s[1..];
      if s[0] == g { assert g !in s[1..]; }
    }
  }

  lemma FirstIsLeast(s: seq<Group>, g: Group, field: Field, direction: Direction)
    requires s != [] && Sorted(s, field, direction) && g in multiset(s)
    ensures s[0] == g || CompareGroups(s[0], g, field, direction) < 0
  {
    var i :| 0 <= i < |s| && s[i] == g;
  }

  lemma SameTails(s: seq<Group>, t: seq<Group>)
    requires s != [] && t != [] && s[0] == t[0] && multiset(s) == multiset(t)
    ensures multiset(s[1..]) == multiset(t[1..])
  {
    assert s == [s[0]] + s[1..] && t == [t[0]] + t[1..];
    assert multiset(s[1..]) == multiset(s) - multiset{s[0]} == multiset(t[1..]);
  }

  /** Any sort that puts the rows in comparator order gives the same list. */
  lemma {:induction false} SortedUnique(s: seq<Group>, t: seq<Group>, field: Field, direction: Direction)
    requires Sorted(s, field, direction) && Sorted(t, field, direction) && multiset(s) == multiset(t)
    ensures s == t
  {
    hide CompareGroups, Sorted;
    if s == [] {
      assert |multiset(t)| == 0;
    } else {
      assert |multiset(s)| == |multiset(t)|;
      assert t[0] in multiset(t) && s[0] in multiset(s);
      FirstIsLeast(s, t[0], field, direction);
      FirstIsLeast(t, s[0], field, direction);
      CompareGroupsAntisymmetric(s[0], t[0], field, direction);
      SameTails(s, t);
      SortedTail(s, field, direction);
      SortedTail(t, field, direction);
      SortedUnique(s[1..], t[1..], field, direction);
    }
  }
}
