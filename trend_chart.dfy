/**
 * The registration trend chart (src/components/TrendChart.jsx): inscriptions
 * grouped by registration day, with a count of inscriptions and of attendees
 * per day, ordered by day and cut to the last ten days; and the totals shown
 * beside the chart.
 *
 * The day label (`toLocaleDateString('es-CO', ...)`) and the date each label
 * sorts by (`new Date(label)`) are parameters.
 */
module TrendChart {
  import opened Json

  type DateKey = Json -> string
  type DateRank = string -> int

  /** One day of the chart. */
  datatype Group = Group(fecha: string, inscripciones: nat, asistieron: nat)

  /** The position of the day `k`, or -1. */
  function IndexOfKey(gs: seq<Group>, k: string): (r: int)
    ensures -1 <= r < |gs|
    ensures r == -1 <==> forall j :: 0 <= j < |gs| ==> gs[j].fecha != k
    ensures r >= 0 ==> gs[r].fecha == k && forall j :: 0 <= j < r ==> gs[j].fecha != k
  {
    if |gs| == 0 then -1
    else if gs[|gs| - 1].fecha != k then
      var p := IndexOfKey(gs[..|gs| - 1], k);
      assert forall j :: 0 <= j < |gs| - 1 ==> gs[j] == gs[..|gs| - 1][j];
      p
    else
      var p := IndexOfKey(gs[..|gs| - 1], k);
      assert forall j :: 0 <= j < |gs| - 1 ==> gs[j] == gs[..|gs| - 1][j];
      if p >= 0 then p else |gs| - 1
  }

  /** Lines 23-42 for one inscription: an undated one is skipped; a dated one
      counts in its day, which is added at the end the first time it is seen,
      and counts as attended when `asistencia` is truthy. */
  function AddRecord(gs: seq<Group>, r: Record, dateKey: DateKey): seq<Group> {
    var f := Get(r, "fecha_inscripcion");
    if !Truthy(f) then gs
    else
      var k := dateKey(f.value);
      var att := if Truthy(Get(r, "asistencia")) then 1 else 0;
      var p := IndexOfKey(gs, k);
      if p < 0 then gs + [Group(k, 1, att)]
      else gs[p := Group(k, gs[p].inscripciones + 1, gs[p].asistieron + att)]
  }

  /** `Object.values(groupedByDate)` after the loop of lines 22-43. */
  function Grouped(ins: seq<Record>, dateKey: DateKey): seq<Group> {
    if |ins| == 0 then []
    else AddRecord(Grouped(ins[..|ins| - 1], dateKey), ins[|ins| - 1], dateKey)
  }

  /** Each day appears once. */
  predicate UniqueKeys(gs: seq<Group>) {
    forall i, j :: 0 <= i < j < |gs| ==> gs[i].fecha != gs[j].fecha
  }

  /** `position` gives the place of every day in `groups`, and only those. */
  predicate Positions(position: map<string, nat>, groups: seq<Group>) {
    (forall k :: k in position ==> position[k] < |groups| && groups[position[k]].fecha == k)
    && (forall j :: 0 <= j < |groups| ==> groups[j].fecha in position)
  }

  /** A day not yet in the dictionary is added at the end. */
  lemma AddNewDay(position: map<string, nat>, groups: seq<Group>, r: Record, dateKey: DateKey)
    requires Positions(position, groups)
    requires Truthy(Get(r, "fecha_inscripcion"))
    requires dateKey(Get(r, "fecha_inscripcion").value) !in position
    ensures
      var k := dateKey(Get(r, "fecha_inscripcion").value);
      var g := Group(k, 1, if Truthy(Get(r, "asistencia")) then 1 else 0);
      AddRecord(groups, r, dateKey) == groups + [g]
      && Positions(position[k := |groups|], groups + [g])
  {
    var k := dateKey(Get(r, "fecha_inscripcion").value);
    var g := Group(k, 1, if Truthy(Get(r, "asistencia")) then 1 else 0);
    assert IndexOfKey(groups, k) == -1;
    assert AddRecord(groups, r, dateKey) == groups + [g];
  }

  /** Replacing a day by one of the same date keeps the positions. */
  lemma PositionsUpdate(position: map<string, nat>, groups: seq<Group>, p: nat, g: Group)
    requires Positions(position, groups) && p < |groups| && g.fecha == groups[p].fecha
    ensures Positions(position, groups[p := g])
  {
    forall j | 0 <= j < |groups|
      ensures groups[p := g][j].fecha == groups[j].fecha
    {
    }
  }

  /** With unique days, the dictionary and the search agree on a known day. */
  lemma KnownDayIndex(position: map<string, nat>, groups: seq<Group>, k: string)
    requires Positions(position, groups) && UniqueKeys(groups) && k in position
    ensures IndexOfKey(groups, k) == position[k]
  {
    assert groups[position[k]].fecha == k;
    assert IndexOfKey(groups, k) >= 0;
  }

  /** A day already in the dictionary is counted in place. */
  lemma CountKnownDay(position: map<string, nat>, groups: seq<Group>, r: Record, dateKey: DateKey)
    requires Positions(position, groups) && UniqueKeys(groups)
    requires Truthy(Get(r, "fecha_inscripcion"))
    requires dateKey(Get(r, "fecha_inscripcion").value) in position
    ensures
      var k := dateKey(Get(r, "fecha_inscripcion").value);
      var p := position[k];
      var g := Group(k, groups[p].inscripciones + 1,
                     groups[p].asistieron + if Truthy(Get(r, "asistencia")) then 1 else 0);
      AddRecord(groups, r, dateKey) == groups[p := g] && Positions(position, groups[p := g])
  {
    var k := dateKey(Get(r, "fecha_inscripcion").value);
    var p := position[k];
    KnownDayIndex(position, groups, k);
    var g := Group(k, groups[p].inscripciones + 1,
                   groups[p].asistieron + if Truthy(Get(r, "asistencia")) then 1 else 0);
    assert AddRecord(groups, r, dateKey) == groups[p := g];
    PositionsUpdate(position, groups, p, g);
  }

  lemma GroupedStep(ins: seq<Record>, i: nat, dateKey: DateKey)
    requires i < |ins|
    ensures Grouped(ins[..i + 1], dateKey) == AddRecord(Grouped(ins[..i], dateKey), ins[i], dateKey)
  {
    assert ins[..i + 1][..i] == ins[..i];
  }

  /** Lines 23-42: one inscription counted into the table of days, the
      dictionary of positions kept in step. */
  method CountInto(position: map<string, nat>, groups: seq<Group>, r: Record, dateKey: DateKey)
    returns (position': map<string, nat>, groups': seq<Group>)
    requires Positions(position, groups) && UniqueKeys(groups)
    ensures groups' == AddRecord(groups, r, dateKey) && Positions(position', groups')
  {
    position', groups' := position, groups;
    var f := Get(r, "fecha_inscripcion");
    if Truthy(f) {
      var k := dateKey(f.value);
      var att := if Truthy(Get(r, "asistencia")) then 1 else 0;
      if k !in position {
        AddNewDay(position, groups, r, dateKey);
        position' := position[k := |groups|];
        groups' := groups + [Group(k, 1, att)];
      } else {
        var p := position[k];
        CountKnownDay(position, groups, r, dateKey);
        groups' := groups[p := Group(k, groups[p].inscripciones + 1, groups[p].asistieron + att)];
      }
    }
  }

  /** Lines 20-43, as the loop runs: the table of days kept in insertion
      order, with the position of each day looked up in a dictionary. */
  method GroupByDate(ins: seq<Record>, dateKey: DateKey) returns (groups: seq<Group>)
    ensures groups == Grouped(ins, dateKey)
  {
    var position: map<string, nat> := map[];
    groups := [];
    var i := 0;
    while i < |ins|
      invariant 0 <= i <= |ins|
      invariant groups == Grouped(ins[..i], dateKey)
      invariant Positions(position, groups)
    {
      GroupedStep(ins, i, dateKey);
      GroupedProperties(ins[..i], dateKey);
      position, groups := CountInto(position, groups, ins[i], dateKey);
      i := i + 1;
    }
    assert ins[..i] == ins;
  }

  /** The number of inscriptions with a truthy registration date. */
  function Dated(ins: seq<Record>): nat {
    if |ins| == 0 then 0
    else Dated(ins[..|ins| - 1]) + (if Truthy(Get(ins[|ins| - 1], "fecha_inscripcion")) then 1 else 0)
  }

  /** The number of dated inscriptions with a truthy `asistencia`. */
  function DatedAttended(ins: seq<Record>): nat {
    if |ins| == 0 then 0
    else
      var r := ins[|ins| - 1];
      DatedAttended(ins[..|ins| - 1])
      + (if Truthy(Get(r, "fecha_inscripcion")) && Truthy(Get(r, "asistencia")) then 1 else 0)
  }

  function SumInscripciones(gs: seq<Group>): nat {
    if |gs| == 0 then 0 else gs[0].inscripciones + SumInscripciones(gs[1..])
  }

  function SumAsistieron(gs: seq<Group>): nat {
    if |gs| == 0 then 0 else gs[0].asistieron + SumAsistieron(gs[1..])
  }

  /** Every day counted at least one inscription, and no more attendees than
      inscriptions. */
  predicate WellCounted(gs: seq<Group>) {
    forall i :: 0 <= i < |gs| ==> 1 <= gs[i].inscripciones && gs[i].asistieron <= gs[i].inscripciones
  }

  lemma {:induction false} SumsAppend(gs: seq<Group>, g: Group)
    ensures SumInscripciones(gs + [g]) == SumInscripciones(gs) + g.inscripciones
    ensures SumAsistieron(gs + [g]) == SumAsistieron(gs) + g.asistieron
  {
    if |gs| > 0 {
      assert (gs + [g])[1..] == gs[1..] + [g];
      SumsAppend(gs[1..], g);
    }
  }

  lemma {:induction false} SumsUpdate(gs: seq<Group>, p: nat, g: Group)
    requires p < |gs|
    ensures SumInscripciones(gs[p := g]) == SumInscripciones(gs) - gs[p].inscripciones + g.inscripciones
    ensures SumAsistieron(gs[p := g]) == SumAsistieron(gs) - gs[p].asistieron + g.asistieron
  {
    if p > 0 {
      assert gs[p := g][1..] == gs[1..][p - 1 := g];
      SumsUpdate(gs[1..], p - 1, g);
    } else {
      assert gs[p := g][1..] == gs[1..];
    }
  }

  /** A new day at the end keeps the days unique and well counted. */
  lemma AppendCounts(gs: seq<Group>, g: Group)
    requires UniqueKeys(gs) && WellCounted(gs)
    requires forall j :: 0 <= j < |gs| ==> gs[j].fecha != g.fecha
    requires 1 <= g.inscripciones && g.asistieron <= g.inscripciones
    ensures UniqueKeys(gs + [g]) && WellCounted(gs + [g])
    ensures SumInscripciones(gs + [g]) == SumInscripciones(gs) + g.inscripciones
    ensures SumAsistieron(gs + [g]) == SumAsistieron(gs) + g.asistieron
  {
    SumsAppend(gs, g);
  }

  /** A day counted again in place keeps the days unique and well counted. */
  lemma UpdateCounts(gs: seq<Group>, p: nat, g: Group)
    requires UniqueKeys(gs) && WellCounted(gs) && p < |gs|
    requires g.fecha == gs[p].fecha && 1 <= g.inscripciones && g.asistieron <= g.inscripciones
    ensures UniqueKeys(gs[p := g]) && WellCounted(gs[p := g])
    ensures SumInscripciones(gs[p := g]) == SumInscripciones(gs) - gs[p].inscripciones + g.inscripciones
    ensures SumAsistieron(gs[p := g]) == SumAsistieron(gs) - gs[p].asistieron + g.asistieron
  {
    SumsUpdate(gs, p, g);
  }

  /** Counting one more inscription keeps the days unique and well counted,
      and adds it (and its attendance) to the sums when it is dated. */
  lemma AddRecordCounts(gs: seq<Group>, r: Record, dateKey: DateKey)
    requires UniqueKeys(gs) && WellCounted(gs)
    ensures UniqueKeys(AddRecord(gs, r, dateKey)) && WellCounted(AddRecord(gs, r, dateKey))
    ensures SumInscripciones(AddRecord(gs, r, dateKey)) ==
      SumInscripciones(gs) + (if Truthy(Get(r, "fecha_inscripcion")) then 1 else 0)
    ensures SumAsistieron(AddRecord(gs, r, dateKey)) ==
      SumAsistieron(gs)
      + (if Truthy(Get(r, "fecha_inscripcion")) && Truthy(Get(r, "asistencia")) then 1 else 0)
  {
    var f := Get(r, "fecha_inscripcion");
    if Truthy(f) {
      var k := dateKey(f.value);
      var att := if Truthy(Get(r, "asistencia")) then 1 else 0;
      var p := IndexOfKey(gs, k);
      if p < 0 {
        var g := Group(k, 1, att);
        assert AddRecord(gs, r, dateKey) == gs + [g];
        AppendCounts(gs, g);
      } else {
        var g := Group(k, gs[p].inscripciones + 1, gs[p].asistieron + att);
        assert AddRecord(gs, r, dateKey) == gs[p := g];
        UpdateCounts(gs, p, g);
      }
    } else {
      assert AddRecord(gs, r, dateKey) == gs;
    }
  }

  /** Before truncation each day occurs once, every day counts between its
      attendees and at least one inscription, and the days together count
      every dated inscription, and every dated attendee, exactly once. */
  lemma {:induction false} GroupedProperties(ins: seq<Record>, dateKey: DateKey)
    ensures UniqueKeys(Grouped(ins, dateKey))
    ensures WellCounted(Grouped(ins, dateKey))
    ensures SumInscripciones(Grouped(ins, dateKey)) == Dated(ins)
    ensures SumAsistieron(Grouped(ins, dateKey)) == DatedAttended(ins)
  {
    if |ins| > 0 {
      GroupedProperties(ins[..|ins| - 1], dateKey);
      AddRecordCounts(Grouped(ins[..|ins| - 1], dateKey), ins[|ins| - 1], dateKey);
    }
  }

  /** Inserts a day into a list ordered by rank, after the days of equal rank. */
  function Insert(g: Group, s: seq<Group>, rank: DateRank): (r: seq<Group>)
    ensures |r| == |s| + 1
    ensures multiset(r) == multiset(s) + multiset{g}
  {
    if |s| == 0 then [g]
    else if rank(g.fecha) < rank(s[0].fecha) then [g] + s
    else
      assert s == [s[0]] + s[1..];
      [s[0]] + Insert(g, s[1..], rank)
  }

  /** Lines 46-51: the days in ascending order of their dates, days of the same
      date in their original order. */
  function SortByDate(gs: seq<Group>, rank: DateRank): (r: seq<Group>)
    ensures multiset(r) == multiset(gs)
  {
    if |gs| == 0 then []
    else
      assert gs == gs[..|gs| - 1] + [gs[|gs| - 1]];
      Insert(gs[|gs| - 1], SortByDate(gs[..|gs| - 1], rank), rank)
  }

  predicate Ordered(s: seq<Group>, rank: DateRank) {
    forall i, j :: 0 <= i < j < |s| ==> rank(s[i].fecha) <= rank(s[j].fecha)
  }

  /** A day no later than every day of an ordered list can go in front. */
  lemma OrderedCons(x: Group, t: seq<Group>, rank: DateRank)
    requires Ordered(t, rank)
    requires forall k :: 0 <= k < |t| ==> rank(x.fecha) <= rank(t[k].fecha)
    ensures Ordered([x] + t, rank)
  {
    forall i, j | 0 <= i < j < |t| + 1
      ensures rank(([x] + t)[i].fecha) <= rank(([x] + t)[j].fecha)
    {
      assert ([x] + t)[j] == t[j - 1];
      if i > 0 {
        assert ([x] + t)[i] == t[i - 1];
      }
    }
  }

  lemma {:induction false} InsertOrdered(g: Group, s: seq<Group>, rank: DateRank)
    requires Ordered(s, rank)
    ensures Ordered(Insert(g, s, rank), rank)
  {
    if |s| == 0 {
    } else if rank(g.fecha) < rank(s[0].fecha) {
      OrderedCons(g, s, rank);
    } else {
      assert Ordered(s[1..], rank);
      InsertOrdered(g, s[1..], rank);
      var t := Insert(g, s[1..], rank);
      forall k | 0 <= k < |t|
        ensures rank(s[0].fecha) <= rank(t[k].fecha)
      {
        assert t[k] in multiset(t);
        if t[k] != g {
          assert t[k] in multiset(s[1..]);
          var m :| 0 <= m < |s[1..]| && s[1..][m] == t[k];
          assert s[m + 1] == t[k];
        }
      }
      OrderedCons(s[0], t, rank);
    }
  }

  /** Sorting orders the days by date and keeps exactly the same days. */
  lemma {:induction false} SortByDateOrdered(gs: seq<Group>, rank: DateRank)
    ensures Ordered(SortByDate(gs, rank), rank)
    ensures multiset(SortByDate(gs, rank)) == multiset(gs)
  {
    if |gs| > 0 {
      SortByDateOrdered(gs[..|gs| - 1], rank);
      InsertOrdered(gs[|gs| - 1], SortByDate(gs[..|gs| - 1], rank), rank);
    }
  }

  /** Line 52: `slice(-10)`, the last ten days. */
  function LastTen(s: seq<Group>): (r: seq<Group>)
    ensures |r| == if |s| <= 10 then |s| else 10
    ensures r == s[|s| - |r|..]
  {
    if |s| <= 10 then s else s[|s| - 10..]
  }

  /** Lines 16-53: no data gives no days; otherwise the grouped days, ordered
      by date, at most the last ten. */
  method ChartData(ins: Option<seq<Record>>, dateKey: DateKey, rank: DateRank)
    returns (data: seq<Group>)
    ensures ins.None? || |ins.value| == 0 ==> data == []
    ensures ins.Some? && |ins.value| > 0 ==>
      data == LastTen(SortByDate(Grouped(ins.value, dateKey), rank))
  {
    if ins.None? || |ins.value| == 0 {
      return [];
    }
    var groups := GroupByDate(ins.value, dateKey);
    data := LastTen(SortByDate(groups, rank));
  }

  /** The totals beside the chart (lines 55-71), without the attendance rate. */
  datatype Stats = Stats(totalInscripciones: nat, totalAsistieron: nat, promedioDiario: nat)

  /** `Math.round(total / days)` for a positive number of days. */
  function RoundedAverage(total: nat, days: nat): (r: nat)
    requires days > 0
    ensures 2 * r * days <= 2 * total + days < 2 * (r + 1) * days
  {
    (2 * total + days) / (2 * days)
  }

  /** Lines 55-71: no totals for an empty chart, else the sums over its days
      and their rounded daily average. */
  function StatsOf(data: seq<Group>): (r: Option<Stats>)
    ensures r.None? <==> |data| == 0
    ensures r.Some? ==>
      r.value.totalInscripciones == SumInscripciones(data)
      && r.value.totalAsistieron == SumAsistieron(data)
      && 2 * r.value.promedioDiario * |data| <= 2 * SumInscripciones(data) + |data|
      && 2 * SumInscripciones(data) + |data| < 2 * (r.value.promedioDiario + 1) * |data|
  {
    if |data| == 0 then None
    else Some(Stats(SumInscripciones(data), SumAsistieron(data),
                    RoundedAverage(SumInscripciones(data), |data|)))
  }

  /** Over well-counted days, the attended never exceed the registered. */
  lemma {:induction false} WellCountedSums(gs: seq<Group>)
    requires WellCounted(gs)
    ensures SumAsistieron(gs) <= SumInscripciones(gs)
  {
    if |gs| > 0 {
      assert WellCounted(gs[1..]) by {
        forall i | 0 <= i < |gs[1..]|
          ensures 1 <= gs[1..][i].inscripciones && gs[1..][i].asistieron <= gs[1..][i].inscripciones
        {
          assert gs[1..][i] == gs[i + 1];
        }
      }
      WellCountedSums(gs[1..]);
    }
  }

  /** Reordering the days keeps them well counted. */
  lemma WellCountedPermutation(a: seq<Group>, b: seq<Group>)
    requires multiset(a) == multiset(b) && WellCounted(a)
    ensures WellCounted(b)
  {
    forall i | 0 <= i < |b|
      ensures 1 <= b[i].inscripciones && b[i].asistieron <= b[i].inscripciones
    {
      assert b[i] in multiset(b);
      var j :| 0 <= j < |a| && a[j] == b[i];
    }
  }

  /** Keeping the last ten days keeps them well counted. */
  lemma LastTenWellCounted(s: seq<Group>)
    requires WellCounted(s)
    ensures WellCounted(LastTen(s))
  {
    var r := LastTen(s);
    forall i | 0 <= i < |r|
      ensures 1 <= r[i].inscripciones && r[i].asistieron <= r[i].inscripciones
    {
      assert r[i] == s[|s| - |r| + i];
    }
  }

  /** Lines 16-71: the totals beside the chart never show more attendees than
      inscriptions. */
  lemma ChartStatsBounded(ins: seq<Record>, dateKey: DateKey, rank: DateRank)
    ensures var st := StatsOf(LastTen(SortByDate(Grouped(ins, dateKey), rank)));
      st.Some? ==> st.value.totalAsistieron <= st.value.totalInscripciones
  {
    var gs := Grouped(ins, dateKey);
    GroupedProperties(ins, dateKey);
    WellCountedPermutation(gs, SortByDate(gs, rank));
    LastTenWellCounted(SortByDate(gs, rank));
    WellCountedSums(LastTen(SortByDate(gs, rank)));
  }
}
