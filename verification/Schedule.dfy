/** Side-balanced schedules: built from a set of matchups, and checked row by row when constructed. */
module Schedules {
  import opened Basics

  datatype MatchupKey = MatchupKey(
    heroTeam: string, opponentTeam: string, archetype: string, checkpoint: string, scheduleBlock: string)

  datatype SideAssignment = PlaysP1 | PlaysP2

  /** The seeds of one row: a digest of exactly these fields per namespace. */
  datatype SeedFamily = SeedFamily(masterSeed: string, baseMatchupId: string, side: SideAssignment, repetition: nat)

  /** A row's digest, kept as the fields it is computed from: different fields, different digests. */
  datatype RowId = RowId(
    baseMatchupId: string, side: SideAssignment, block: string, family: SeedFamily, repetition: nat)

  datatype ScheduleRow = ScheduleRow(
    rowId: RowId, baseMatchupId: string, side: SideAssignment, block: string, family: SeedFamily, repetition: nat)

  /** The digest of a schedule's rows. */
  datatype ScheduleDigest = ScheduleDigest(of: seq<ScheduleRow>)

  datatype Schedule = Schedule(rows: seq<ScheduleRow>, digest: ScheduleDigest)

  /** What a plan fixes: how matchups are digested, the first bit of a registration-and-matchup digest, and the
      seeds. */
  datatype Plan = Plan(
    baseMatchupId: MatchupKey -> string, initialSide: (string, string) -> bool, registration: string,
    masterSeed: string)

  /** Matchup digests are collision free. */
  ghost predicate Injective(plan: Plan) {
    forall a, b :: plan.baseMatchupId(a) == plan.baseMatchupId(b) ==> a == b
  }

  predicate IsHex(s: string) {
    forall i :: 0 <= i < |s| ==> '0' <= s[i] <= '9' || 'a' <= s[i] <= 'f'
  }

  predicate IsDigest(s: string) {
    |s| == 71 && s[..7] == "sha256:" && IsHex(s[7..])
  }

  datatype ScheduleError = BadRepetitions | OddRepetitions | BadRegistration | NoMatchups | BadMasterSeed | Refused

  // ----- rows -----

  function SideOf(plan: Plan, id: string, repetition: nat): SideAssignment {
    var initial := if plan.initialSide(plan.registration, id) then 1 else 0;
    if (initial + repetition) % 2 == 0 then PlaysP1 else PlaysP2
  }

  function Row(plan: Plan, key: MatchupKey, repetition: nat): ScheduleRow {
    var id := plan.baseMatchupId(key);
    var side := SideOf(plan, id, repetition);
    var family := SeedFamily(plan.masterSeed, id, side, repetition);
    ScheduleRow(RowId(id, side, key.scheduleBlock, family, repetition), id, side, key.scheduleBlock, family, repetition)
  }

  function RowsOf(plan: Plan, key: MatchupKey, repetitions: nat): (r: seq<ScheduleRow>)
    ensures |r| == repetitions
    ensures forall i :: 0 <= i < |r| ==> r[i] == Row(plan, key, i)
  {
    seq(repetitions, i requires 0 <= i => Row(plan, key, i))
  }

  function AllRows(plan: Plan, ordered: seq<MatchupKey>, repetitions: nat): seq<ScheduleRow> {
    if ordered == [] then []
    else
      AllRows(plan, ordered[..|ordered| - 1], repetitions) + RowsOf(plan, ordered[|ordered| - 1], repetitions)
  }

  /** The first occurrence of each matchup. */
  function Once(keys: seq<MatchupKey>): (r: seq<MatchupKey>)
    ensures forall k :: k in r <==> k in keys
    ensures Distinct(r)
  {
    if keys == [] then []
    else
      var last := |keys| - 1;
      assert forall k :: k in keys <==> k in keys[..last] || k == keys[last];
      var rest := Once(keys[..last]);
      if keys[last] in rest then rest else rest + [keys[last]]
  }

  /** `sorted(set(keys), key=base_matchup_id)`. */
  function Ordered(plan: Plan, keys: seq<MatchupKey>): seq<MatchupKey> {
    SortByKey(Once(keys), plan.baseMatchupId)
  }

  // ----- the checks of a schedule -----

  predicate RowsInOrder(a: ScheduleRow, b: ScheduleRow) {
    LexLess(a.baseMatchupId, b.baseMatchupId)
    || (a.baseMatchupId == b.baseMatchupId && a.repetition <= b.repetition)
  }

  ghost predicate CanonicalOrder(rows: seq<ScheduleRow>) {
    forall i, j :: 0 <= i < j < |rows| ==> RowsInOrder(rows[i], rows[j])
  }

  ghost predicate UniqueIds(rows: seq<ScheduleRow>) {
    forall i, j :: 0 <= i < j < |rows| ==> rows[i].rowId != rows[j].rowId
  }

  function IsOf(id: string): ScheduleRow -> bool {
    (row: ScheduleRow) => row.baseMatchupId == id
  }

  /** The rows of one matchup. */
  function Group(rows: seq<ScheduleRow>, id: string): seq<ScheduleRow> {
    Filter(IsOf(id), rows)
  }

  function Repetitions(rows: seq<ScheduleRow>): (r: seq<int>)
    ensures |r| == |rows| && forall i :: 0 <= i < |r| ==> r[i] == rows[i].repetition
  {
    seq(|rows|, i requires 0 <= i < |rows| => rows[i].repetition)
  }

  function UpTo(n: nat): (r: seq<int>)
    ensures |r| == n && forall i :: 0 <= i < n ==> r[i] == i
  {
    seq(n, i => i)
  }

  function PlayedAs(rows: seq<ScheduleRow>, side: SideAssignment): nat {
    if rows == [] then 0
    else PlayedAs(rows[..|rows| - 1], side) + (if rows[|rows| - 1].side == side then 1 else 0)
  }

  /** Repetitions are 0..n-1 in some order, and the sides differ by at most one. */
  predicate GroupOk(rows: seq<ScheduleRow>) {
    && multiset(Repetitions(rows)) == multiset(UpTo(|rows|))
    && -1 <= PlayedAs(rows, PlaysP1) - PlayedAs(rows, PlaysP2) <= 1
  }

  ghost predicate ScheduleChecks(schedule: Schedule) {
    && schedule.digest == ScheduleDigest(schedule.rows) && RowChecks(schedule.rows)
  }

  ghost predicate RowChecks(rows: seq<ScheduleRow>) {
    && rows != [] && UniqueIds(rows) && CanonicalOrder(rows)
    && forall i :: 0 <= i < |rows| ==> GroupOk(Group(rows, rows[i].baseMatchupId))
  }

  method CheckIds(rows: seq<ScheduleRow>) returns (unique: bool)
    ensures unique <==> UniqueIds(rows)
  {
    var seen: set<RowId> := {};
    var k := 0;
    while k < |rows|
      invariant 0 <= k <= |rows|
      invariant seen == set i | 0 <= i < k :: rows[i].rowId
      invariant UniqueIds(rows[..k])
    {
      if rows[k].rowId in seen {
        return false;
      }
      seen := seen + {rows[k].rowId};
      k := k + 1;
    }
    assert rows[..k] == rows;
    return true;
  }

  lemma InOrderTransitive(a: ScheduleRow, b: ScheduleRow, c: ScheduleRow)
    requires RowsInOrder(a, b) && RowsInOrder(b, c)
    ensures RowsInOrder(a, c)
  {
    if LexLess(a.baseMatchupId, b.baseMatchupId) && LexLess(b.baseMatchupId, c.baseMatchupId) {
      LexLessTransitive(a.baseMatchupId, b.baseMatchupId, c.baseMatchupId);
    }
  }

  /** The rows equal their stable sort exactly when no neighbours are out of order. */
  method CheckOrder(rows: seq<ScheduleRow>) returns (ordered: bool)
    ensures ordered <==> CanonicalOrder(rows)
  {
    var k := 1;
    while k < |rows|
      invariant 1 <= k && (rows != [] ==> k <= |rows|)
      invariant rows != [] ==> CanonicalOrder(rows[..k])
    {
      if !RowsInOrder(rows[k - 1], rows[k]) {
        return false;
      }
      forall i | 0 <= i < k ensures RowsInOrder(rows[i], rows[k]) {
        if i < k - 1 {
          assert RowsInOrder(rows[..k][i], rows[..k][k - 1]);
          InOrderTransitive(rows[i], rows[k - 1], rows[k]);
        }
      }
      k := k + 1;
    }
    if rows != [] { assert rows[..k] == rows; }
    return true;
  }

  method CountSide(rows: seq<ScheduleRow>, side: SideAssignment) returns (n: nat)
    ensures n == PlayedAs(rows, side)
  {
    n := 0;
    var k := 0;
    while k < |rows|
      invariant 0 <= k <= |rows| && n == PlayedAs(rows[..k], side)
    {
      assert rows[..k + 1][..k] == rows[..k];
      if rows[k].side == side { n := n + 1; }
      k := k + 1;
    }
    assert rows[..k] == rows;
  }

  lemma GroupAppend(rows: seq<ScheduleRow>, row: ScheduleRow, id: string)
    ensures Group(rows + [row], id) == if row.baseMatchupId == id then Group(rows, id) + [row] else Group(rows, id)
  {
    FilterConcat(IsOf(id), rows, [row]);
    assert Filter(IsOf(id), [row]) == if row.baseMatchupId == id then [row] else [];
    assert Group(rows, id) + [] == Group(rows, id);
  }

  /** The dict holds the non-empty groups of the rows. */
  ghost predicate GroupsOf(rows: seq<ScheduleRow>, groups: map<string, seq<ScheduleRow>>) {
    forall id :: (if id in groups then groups[id] else []) == Group(rows, id) && (id in groups ==> groups[id] != [])
  }

  lemma GroupsGrow(rows: seq<ScheduleRow>, row: ScheduleRow, groups: map<string, seq<ScheduleRow>>)
    requires GroupsOf(rows, groups)
    ensures var id := row.baseMatchupId;
            GroupsOf(rows + [row], groups[id := (if id in groups then groups[id] else []) + [row]])
  {
    var id := row.baseMatchupId;
    var grown := groups[id := (if id in groups then groups[id] else []) + [row]];
    hide Group;
    forall other
      ensures (if other in grown then grown[other] else []) == Group(rows + [row], other)
           && (other in grown ==> grown[other] != [])
    {
      GroupAppend(rows, row, other);
      assert (if other in groups then groups[other] else []) == Group(rows, other);
    }
  }

  /** The `groups` dict of the constructor, filled row by row. */
  method CollectGroups(rows: seq<ScheduleRow>) returns (groups: map<string, seq<ScheduleRow>>)
    ensures GroupsOf(rows, groups)
  {
    groups := map[];
    var k := 0;
    hide GroupsOf;
    assert GroupsOf([], map[]) by { NoGroups(); }
    while k < |rows|
      invariant 0 <= k <= |rows| && GroupsOf(rows[..k], groups)
    {
      var id := rows[k].baseMatchupId;
      assert rows[..k + 1] == rows[..k] + [rows[k]];
      GroupsGrow(rows[..k], rows[k], groups);
      groups := groups[id := (if id in groups then groups[id] else []) + [rows[k]]];
      k := k + 1;
    }
    assert rows[..k] == rows;
  }

  lemma NoGroups()
    ensures GroupsOf([], map[])
  {}

  method CheckGroup(rows: seq<ScheduleRow>) returns (ok: bool)
    ensures ok <==> GroupOk(rows)
  {
    var p1Count := CountSide(rows, PlaysP1);
    var p2Count := CountSide(rows, PlaysP2);
    ok := multiset(Repetitions(rows)) == multiset(UpTo(|rows|)) && p1Count <= p2Count + 1 && p2Count <= p1Count + 1;
  }

  /** `Schedule.__post_init__`. */
  method CheckSchedule(schedule: Schedule) returns (accepted: bool)
    ensures accepted <==> ScheduleChecks(schedule)
  {
    var rows := schedule.rows;
    hide GroupOk, Group, UniqueIds, CanonicalOrder, GroupsOf;
    if rows == [] {
      return false;
    }
    var unique := CheckIds(rows);
    var ordered := CheckOrder(rows);
    if !unique || !ordered || schedule.digest != ScheduleDigest(rows) {
      return false;
    }
    var groups := CollectGroups(rows);
    var k := 0;
    while k < |rows|
      invariant 0 <= k <= |rows|
      invariant forall i :: 0 <= i < k ==> GroupOk(Group(rows, rows[i].baseMatchupId))
    {
      var id := rows[k].baseMatchupId;
      RowHasGroup(rows, groups, k);
      var ok := CheckGroup(groups[id]);
      if !ok {
        return false;
      }
      k := k + 1;
    }
    return true;
  }

  lemma {:induction false} RowIsGrouped(rows: seq<ScheduleRow>, k: nat)
    requires k < |rows|
    ensures Group(rows, rows[k].baseMatchupId) != []
  {
    var id := rows[k].baseMatchupId;
    FilterConcat(IsOf(id), rows[..k], rows[k..]);
    assert rows == rows[..k] + rows[k..] && rows[k..][0] == rows[k];
  }

  lemma RowHasGroup(rows: seq<ScheduleRow>, groups: map<string, seq<ScheduleRow>>, k: nat)
    requires GroupsOf(rows, groups) && k < |rows|
    ensures rows[k].baseMatchupId in groups
    ensures groups[rows[k].baseMatchupId] == Group(rows, rows[k].baseMatchupId)
  {
    RowIsGrouped(rows, k);
    hide Group;
  }

  // ----- building -----

  function InputError(plan: Plan, keys: seq<MatchupKey>, repetitions: int, exactBalance: bool): Option<ScheduleError> {
    if !(1 <= repetitions <= MAX_SAFE_INTEGER) then Some(BadRepetitions)
    else if exactBalance && repetitions % 2 != 0 then Some(OddRepetitions)
    else if !IsDigest(plan.registration) then Some(BadRegistration)
    else if keys == [] then Some(NoMatchups)
    else if !(|plan.masterSeed| == 64 && IsHex(plan.masterSeed)) then Some(BadMasterSeed)
    else None
  }

  /** `build_schedule`. */
  method BuildSchedule(plan: Plan, keys: seq<MatchupKey>, repetitions: int, exactBalance: bool)
    returns (r: Result<Schedule, ScheduleError>)
    requires Injective(plan)
    ensures r == match InputError(plan, keys, repetitions, exactBalance)
                 case Some(error) => Err(error)
                 case None =>
                   var rows := AllRows(plan, Ordered(plan, keys), repetitions);
                   Ok(Schedule(rows, ScheduleDigest(rows)))
    ensures var counted := 1 <= repetitions <= 9_007_199_254_740_991;
            var even := exactBalance ==> repetitions % 2 == 0;
            var registered, seeded := IsDigest(plan.registration), |plan.masterSeed| == 64 && IsHex(plan.masterSeed);
            && (r.Ok? <==> counted && even && registered && keys != [] && seeded)
            && (r == Err(BadRepetitions) <==> !counted)
            && (r == Err(OddRepetitions) <==> counted && !even)
            && (r == Err(BadRegistration) <==> counted && even && !registered)
            && (r == Err(NoMatchups) <==> counted && even && registered && keys == [])
            && (r == Err(BadMasterSeed) <==> counted && even && registered && keys != [] && !seeded)
  {
    hide ScheduleChecks, Ordered, IsDigest, IsHex, Injective, AllRows, RowsOf;
    if repetitions < 1 || repetitions > MAX_SAFE_INTEGER {
      return Err(BadRepetitions);
    }
    if exactBalance && repetitions % 2 != 0 {
      return Err(OddRepetitions);
    }
    if !IsDigest(plan.registration) {
      return Err(BadRegistration);
    }
    var ordered := Ordered(plan, keys);
    OrderedKeepsKeys(plan, keys);
    if ordered == [] {
      return Err(NoMatchups);
    }
    if !(|plan.masterSeed| == 64 && IsHex(plan.masterSeed)) {
      return Err(BadMasterSeed);
    }
    var rows: seq<ScheduleRow> := [];
    var n := 0;
    NoRowsYet(plan, repetitions);
    while n < |ordered|
      invariant 0 <= n <= |ordered| && rows == AllRows(plan, ordered[..n], repetitions)
    {
      NextMatchup(plan, ordered, n, repetitions);
      var key := ordered[n];
      var id := plan.baseMatchupId(key);
      var initial := if plan.initialSide(plan.registration, id) then 1 else 0;
      ghost var before := rows;
      var repetition := 0;
      assert before + RowsOf(plan, key, 0) == before;
      while repetition < repetitions
        invariant 0 <= repetition <= repetitions && rows == before + RowsOf(plan, key, repetition)
      {
        var side := if (initial + repetition) % 2 == 0 then PlaysP1 else PlaysP2;
        var family := SeedFamily(plan.masterSeed, id, side, repetition);
        var rowId := RowId(id, side, key.scheduleBlock, family, repetition);
        NextRow(plan, key, repetition);
        rows := rows + [ScheduleRow(rowId, id, side, key.scheduleBlock, family, repetition)];
        repetition := repetition + 1;
      }
      n := n + 1;
    }
    assert ordered[..n] == ordered;
    var schedule := Schedule(rows, ScheduleDigest(rows));
    var accepted := CheckSchedule(schedule);
    BuiltSchedulePasses(plan, keys, repetitions);
    if !accepted {
      return Err(Refused);
    }
    return Ok(schedule);
  }

  lemma NoRowsYet(plan: Plan, repetitions: nat)
    ensures AllRows(plan, [], repetitions) == []
  {}

  lemma NextMatchup(plan: Plan, ordered: seq<MatchupKey>, n: nat, repetitions: nat)
    requires n < |ordered|
    ensures AllRows(plan, ordered[..n + 1], repetitions)
         == AllRows(plan, ordered[..n], repetitions) + RowsOf(plan, ordered[n], repetitions)
  {
    assert ordered[..n + 1][..n] == ordered[..n];
  }

  lemma NextRow(plan: Plan, key: MatchupKey, repetition: nat)
    ensures RowsOf(plan, key, repetition + 1) == RowsOf(plan, key, repetition) + [Row(plan, key, repetition)]
  {}

  // ----- the matchups in order -----

  lemma OrderedKeepsKeys(plan: Plan, keys: seq<MatchupKey>)
    ensures forall k :: k in Ordered(plan, keys) <==> k in keys
    ensures |Ordered(plan, keys)| == |set k | k in keys|
    ensures Ordered(plan, keys) == [] <==> keys == []
  {
    var once := Once(keys);
    forall k ensures k in Ordered(plan, keys) <==> k in keys {
      assert k in Ordered(plan, keys) <==> k in multiset(Ordered(plan, keys));
      assert k in once <==> k in multiset(once);
    }
    DistinctSize(once);
    assert (set k | k in keys) == set k | k in once;
    if keys != [] { assert keys[0] in once; }
  }

  lemma {:induction false} DistinctSize(keys: seq<MatchupKey>)
    requires Distinct(keys)
    ensures |set k | k in keys| == |keys|
  {
    if keys != [] {
      var last := |keys| - 1;
      DistinctSize(keys[..last]);
      assert (set k | k in keys) == (set k | k in keys[..last]) + {keys[last]};
    }
  }

  lemma OrderedIsStrict(plan: Plan, keys: seq<MatchupKey>)
    requires Injective(plan)
    ensures StrictlyOrdered(Ordered(plan, keys), plan.baseMatchupId)
  {
    SortOrders(Once(keys), plan.baseMatchupId);
  }

  /** The schedule does not depend on the order or the multiplicity of the matchups it was asked for. */
  lemma {:induction false} OrderAndDuplicatesDoNotMatter(
    plan: Plan, keys: seq<MatchupKey>, others: seq<MatchupKey>, repetitions: nat)
    requires Injective(plan) && forall k :: k in keys <==> k in others
    ensures AllRows(plan, Ordered(plan, keys), repetitions) == AllRows(plan, Ordered(plan, others), repetitions)
  {
    OrderedIsStrict(plan, keys);
    OrderedIsStrict(plan, others);
    OrderedKeepsKeys(plan, keys);
    OrderedKeepsKeys(plan, others);
    hide Ordered;
    OrderedIsUnique(Ordered(plan, keys), Ordered(plan, others), plan.baseMatchupId);
  }

  // ----- the rows pass -----

  predicate RowBefore(a: ScheduleRow, b: ScheduleRow) {
    LexLess(a.baseMatchupId, b.baseMatchupId)
    || (a.baseMatchupId == b.baseMatchupId && a.repetition < b.repetition)
  }

  ghost predicate FromKeys(plan: Plan, ordered: seq<MatchupKey>, repetitions: nat, rows: seq<ScheduleRow>) {
    forall i :: 0 <= i < |rows| ==>
      rows[i].repetition < repetitions && exists k :: k in ordered && rows[i] == Row(plan, k, rows[i].repetition)
  }

  lemma {:induction false} NumberOfRows(plan: Plan, ordered: seq<MatchupKey>, repetitions: nat)
    ensures |AllRows(plan, ordered, repetitions)| == |ordered| * repetitions
  {
    hide Row;
    if ordered != [] {
      var last := |ordered| - 1;
      NumberOfRows(plan, ordered[..last], repetitions);
      assert last * repetitions + repetitions == (last + 1) * repetitions;
    }
  }

  lemma {:induction false} RowsComeFromKeys(plan: Plan, ordered: seq<MatchupKey>, repetitions: nat)
    ensures FromKeys(plan, ordered, repetitions, AllRows(plan, ordered, repetitions))
    ensures |AllRows(plan, ordered, repetitions)| == |ordered| * repetitions
  {
    hide Row;
    NumberOfRows(plan, ordered, repetitions);
    if ordered != [] {
      var last := |ordered| - 1;
      var earlier := AllRows(plan, ordered[..last], repetitions);
      RowsComeFromKeys(plan, ordered[..last], repetitions);
      var rows := AllRows(plan, ordered, repetitions);
      forall i | 0 <= i < |rows|
        ensures rows[i].repetition < repetitions
             && exists k :: k in ordered && rows[i] == Row(plan, k, rows[i].repetition)
      {
        if i < |earlier| {
          assert rows[i] == earlier[i];
          var k :| k in ordered[..last] && rows[i] == Row(plan, k, rows[i].repetition);
          assert k in ordered;
        } else {
          assert rows[i] == Row(plan, ordered[last], i - |earlier|);
          RowShape(plan, ordered[last], i - |earlier|);
          assert ordered[last] in ordered;
        }
      }
    }
  }

  lemma RowShape(plan: Plan, key: MatchupKey, repetition: nat)
    ensures var row := Row(plan, key, repetition);
            && row.repetition == repetition && row.baseMatchupId == plan.baseMatchupId(key)
            && row.rowId.baseMatchupId == row.baseMatchupId && row.rowId.repetition == row.repetition
  {}

  lemma {:induction false} RowsAreStrict(plan: Plan, ordered: seq<MatchupKey>, repetitions: nat)
    requires StrictlyOrdered(ordered, plan.baseMatchupId)
    ensures var rows := AllRows(plan, ordered, repetitions);
            forall i, j :: 0 <= i < j < |rows| ==> RowBefore(rows[i], rows[j])
  {
    hide Row;
    if ordered != [] {
      var last := |ordered| - 1;
      var earlier := AllRows(plan, ordered[..last], repetitions);
      RowsAreStrict(plan, ordered[..last], repetitions);
      RowsComeFromKeys(plan, ordered[..last], repetitions);
      var rows := AllRows(plan, ordered, repetitions);
      forall i, j | 0 <= i < j < |rows| ensures RowBefore(rows[i], rows[j]) {
        if j >= |earlier| {
          RowShape(plan, ordered[last], j - |earlier|);
          if i < |earlier| {
            assert rows[i] == earlier[i];
            var k :| k in ordered[..last] && rows[i] == Row(plan, k, rows[i].repetition);
            RowShape(plan, k, rows[i].repetition);
            var at :| 0 <= at < last && ordered[at] == k;
          } else {
            RowShape(plan, ordered[last], i - |earlier|);
          }
        }
      }
    }
  }

  lemma {:induction false} NoRowsOf(rows: seq<ScheduleRow>, id: string)
    requires forall i :: 0 <= i < |rows| ==> rows[i].baseMatchupId != id
    ensures Group(rows, id) == []
  {
    if rows != [] { NoRowsOf(rows[1..], id); }
  }

  lemma {:induction false} OnlyRowsOf(rows: seq<ScheduleRow>, id: string)
    requires forall i :: 0 <= i < |rows| ==> rows[i].baseMatchupId == id
    ensures Group(rows, id) == rows
  {
    if rows != [] {
      OnlyRowsOf(rows[1..], id);
      assert rows == [rows[0]] + rows[1..];
    }
  }

  /** The rows of one matchup in the whole schedule are exactly those built for it. */
  lemma {:induction false} GroupIsRowsOf(plan: Plan, ordered: seq<MatchupKey>, repetitions: nat, key: MatchupKey)
    requires Injective(plan) && Distinct(ordered) && key in ordered
    ensures Group(AllRows(plan, ordered, repetitions), plan.baseMatchupId(key)) == RowsOf(plan, key, repetitions)
  {
    hide Row;
    var last := |ordered| - 1;
    var id := plan.baseMatchupId(key);
    var earlier, added := AllRows(plan, ordered[..last], repetitions), RowsOf(plan, ordered[last], repetitions);
    FilterConcat(IsOf(id), earlier, added);
    forall i | 0 <= i < |added| ensures added[i].baseMatchupId == plan.baseMatchupId(ordered[last]) {
      RowShape(plan, ordered[last], i);
    }
    hide AllRows;
    if key == ordered[last] {
      RowsComeFromKeys(plan, ordered[..last], repetitions);
      forall i | 0 <= i < |earlier| ensures earlier[i].baseMatchupId != id {
        var k :| k in ordered[..last] && earlier[i] == Row(plan, k, earlier[i].repetition);
        RowShape(plan, k, earlier[i].repetition);
        var at :| 0 <= at < last && ordered[at] == k;
      }
      NoRowsOf(earlier, id);
      OnlyRowsOf(added, id);
      assert [] + added == added;
    } else {
      var at :| 0 <= at < |ordered| && ordered[at] == key;
      assert key == ordered[..last][at];
      GroupIsRowsOf(plan, ordered[..last], repetitions, key);
      NoRowsOf(added, id);
      assert RowsOf(plan, key, repetitions) + [] == RowsOf(plan, key, repetitions);
    }
  }

  /** Sides alternate: they differ by at most one, and not at all after an even number of repetitions. */
  lemma {:induction false} SidesBalance(plan: Plan, key: MatchupKey, repetitions: nat)
    ensures var rows := RowsOf(plan, key, repetitions);
            var difference := PlayedAs(rows, PlaysP1) - PlayedAs(rows, PlaysP2);
            && -1 <= difference <= 1
            && (repetitions % 2 == 0 ==> difference == 0)
            && (repetitions % 2 == 1 ==>
                  difference == if SideOf(plan, plan.baseMatchupId(key), 0).PlaysP1? then 1 else -1)
  {
    if repetitions > 0 {
      SidesBalance(plan, key, repetitions - 1);
      var rows := RowsOf(plan, key, repetitions);
      assert rows[..repetitions - 1] == RowsOf(plan, key, repetitions - 1);
    }
  }

  lemma BuiltGroupOk(plan: Plan, key: MatchupKey, repetitions: nat)
    ensures GroupOk(RowsOf(plan, key, repetitions))
  {
    SidesBalance(plan, key, repetitions);
    forall i | 0 <= i < repetitions ensures Row(plan, key, i).repetition == i {
      RowShape(plan, key, i);
    }
    hide Row;
    assert Repetitions(RowsOf(plan, key, repetitions)) == UpTo(repetitions);
  }

  lemma IdShowsKey(plan: Plan, ordered: seq<MatchupKey>, repetitions: nat, rows: seq<ScheduleRow>, i: nat)
    requires FromKeys(plan, ordered, repetitions, rows) && i < |rows|
    ensures rows[i].rowId.baseMatchupId == rows[i].baseMatchupId && rows[i].rowId.repetition == rows[i].repetition
  {
    hide Row;
    var repetition := rows[i].repetition;
    assert repetition < repetitions && exists k :: k in ordered && rows[i] == Row(plan, k, repetition);
    var k :| k in ordered && rows[i] == Row(plan, k, repetition);
    RowShape(plan, k, repetition);
  }

  lemma StrictIsDistinct(plan: Plan, ordered: seq<MatchupKey>)
    requires StrictlyOrdered(ordered, plan.baseMatchupId)
    ensures Distinct(ordered)
  {
    forall i, j | 0 <= i < j < |ordered| ensures ordered[i] != ordered[j] {
      LexLessIrreflexive(plan.baseMatchupId(ordered[i]));
    }
  }

  lemma StrictRowsFit(plan: Plan, ordered: seq<MatchupKey>, repetitions: nat, rows: seq<ScheduleRow>)
    requires FromKeys(plan, ordered, repetitions, rows)
    requires forall i, j :: 0 <= i < j < |rows| ==> RowBefore(rows[i], rows[j])
    ensures UniqueIds(rows) && CanonicalOrder(rows)
  {
    hide FromKeys;
    forall i, j | 0 <= i < j < |rows| ensures rows[i].rowId != rows[j].rowId && RowsInOrder(rows[i], rows[j]) {
      IdShowsKey(plan, ordered, repetitions, rows, i);
      IdShowsKey(plan, ordered, repetitions, rows, j);
      LexLessIrreflexive(rows[i].baseMatchupId);
      assert RowBefore(rows[i], rows[j]);
    }
  }

  lemma BuiltRowGroupOk(plan: Plan, ordered: seq<MatchupKey>, repetitions: nat, i: nat)
    requires Injective(plan) && Distinct(ordered) && i < |AllRows(plan, ordered, repetitions)|
    ensures var rows := AllRows(plan, ordered, repetitions); GroupOk(Group(rows, rows[i].baseMatchupId))
  {
    var rows := AllRows(plan, ordered, repetitions);
    RowsComeFromKeys(plan, ordered, repetitions);
    hide AllRows, GroupOk, Group, Row;
    var repetition := rows[i].repetition;
    assert repetition < repetitions && exists k :: k in ordered && rows[i] == Row(plan, k, repetition);
    var k :| k in ordered && rows[i] == Row(plan, k, repetition);
    RowShape(plan, k, repetition);
    GroupIsRowsOf(plan, ordered, repetitions, k);
    BuiltGroupOk(plan, k, repetitions);
  }

  /** Every check of the constructor accepts the rows that were built, whatever the matchups and repetitions. */
  lemma {:induction false} BuiltSchedulePasses(plan: Plan, keys: seq<MatchupKey>, repetitions: nat)
    requires Injective(plan) && keys != [] && repetitions > 0
    ensures var rows := AllRows(plan, Ordered(plan, keys), repetitions);
            ScheduleChecks(Schedule(rows, ScheduleDigest(rows)))
    ensures |AllRows(plan, Ordered(plan, keys), repetitions)| == |set k | k in keys| * repetitions
  {
    var ordered := Ordered(plan, keys);
    OrderedIsStrict(plan, keys);
    OrderedKeepsKeys(plan, keys);
    hide Ordered, AllRows, GroupOk, Group, FromKeys, UniqueIds, CanonicalOrder;
    RowsComeFromKeys(plan, ordered, repetitions);
    RowsAreStrict(plan, ordered, repetitions);
    StrictIsDistinct(plan, ordered);
    var rows := AllRows(plan, ordered, repetitions);
    assert |ordered| * repetitions > 0;
    StrictRowsFit(plan, ordered, repetitions, rows);
    forall i | 0 <= i < |rows| ensures GroupOk(Group(rows, rows[i].baseMatchupId)) {
      BuiltRowGroupOk(plan, ordered, repetitions, i);
    }
  }

  /** The row at place `k * repetitions + i` is repetition `i` of the `k`-th matchup in order: with its block, its
      seeds, and the side that the registration's bit and the repetition give it. */
  lemma {:induction false} RowsAreLaidOut(plan: Plan, ordered: seq<MatchupKey>, repetitions: nat, k: nat, i: nat)
    requires k < |ordered| && i < repetitions
    ensures var rows, at := AllRows(plan, ordered, repetitions), k * repetitions + i;
            && 0 <= at < |rows|
            && var row, id := rows[at], plan.baseMatchupId(ordered[k]);
               && row.baseMatchupId == id && row.block == ordered[k].scheduleBlock && row.repetition == i
               && (row.side.PlaysP1? <==> (if plan.initialSide(plan.registration, id) then i % 2 == 1 else i % 2 == 0))
               && row.family == SeedFamily(plan.masterSeed, id, row.side, i)
               && row.rowId == RowId(id, row.side, row.block, row.family, i)
  {
    var last := |ordered| - 1;
    NumberOfRows(plan, ordered[..last], repetitions);
    NumberOfRows(plan, ordered, repetitions);
    assert last * repetitions + repetitions == |ordered| * repetitions;
    if k < last {
      RowsAreLaidOut(plan, ordered[..last], repetitions, k, i);
      assert ordered[..last][k] == ordered[k];
    }
  }

  /** With exact balance every matchup is played equally often from both sides. */
  lemma {:induction false} ExactBalance(plan: Plan, keys: seq<MatchupKey>, repetitions: nat, key: MatchupKey)
    requires Injective(plan) && key in keys && InputError(plan, keys, repetitions, true).None?
    ensures var group := Group(AllRows(plan, Ordered(plan, keys), repetitions), plan.baseMatchupId(key));
            |group| == repetitions && PlayedAs(group, PlaysP1) == PlayedAs(group, PlaysP2)
  {
    OrderedIsStrict(plan, keys);
    OrderedKeepsKeys(plan, keys);
    hide Ordered;
    StrictIsDistinct(plan, Ordered(plan, keys));
    GroupIsRowsOf(plan, Ordered(plan, keys), repetitions, key);
    SidesBalance(plan, key, repetitions);
  }
}
