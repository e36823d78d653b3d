/** Snapshot retention (database_handlers.go, ws_dispatch.go): what one pass
    deletes, and what any number of passes working from listings of any age leave. */
module Retention {
  import opened Base

  const MIN_REDUNDANCY := 2
  const MAX_LIMIT := 500

  datatype Status = Pending | InProgress | Completed | Failed
  datatype Snap = Snap(status: Status, active: bool)
  type Snaps = map<int, Snap>

  // The successful copies an instance has.
  function Copies(snaps: Snaps): set<int> {
    set x | x in snaps && snaps[x] == Snap(Completed, true)
  }

  // ── Ranks ──────────────────────────────────────────────────────────────────

  function Above(s: set<int>, x: int): set<int> {
    set y | y in s && y > x
  }

  // The k greatest elements.
  function Newest(s: set<int>, k: int): set<int> {
    set x | x in s && |Above(s, x)| < k
  }

  lemma AboveGrows(s: set<int>, t: set<int>, x: int, y: int)
    requires s <= t && y <= x
    ensures |Above(s, x)| <= |Above(t, y)|
  {
    SubsetSize(Above(s, x), Above(t, y));
  }

  lemma {:induction false} SubsetSize(s: set<int>, t: set<int>)
    requires s <= t
    ensures |s| <= |t|
  {
    assert t == s + (t - s);
  }

  lemma {:induction false} Least(s: set<int>) returns (m: int)
    requires |s| > 0
    ensures m in s && forall x :: x in s ==> m <= x
  {
    var y := AnyOf(s);
    if s == {y} {
      m := y;
    } else {
      var rest := s - {y};
      assert s == rest + {y};
      assert rest != {};
      m := Least(rest);
      if y < m {
        m := y;
      }
    }
  }

  lemma {:induction false} NewestSize(s: set<int>, k: nat)
    ensures |Newest(s, k)| == Min(k, |s|)
    decreases |s|
  {
    if |s| <= k {
      forall x | x in s
        ensures x in Newest(s, k)
      {
        SubsetSize(Above(s, x), s - {x});
      }
      assert Newest(s, k) == s;
    } else {
      var m := Least(s);
      var rest := s - {m};
      assert Above(s, m) == rest;
      forall x | x in rest
        ensures Above(s, x) == Above(rest, x)
      {
      }
      assert Newest(s, k) == Newest(rest, k);
      NewestSize(rest, k);
    }
  }

  // ── Newest first ───────────────────────────────────────────────────────────

  function InsertDesc(x: int, s: seq<int>): seq<int> {
    if s == [] || x > s[0] then [x] + s else [s[0]] + InsertDesc(x, s[1..])
  }

  function SortDesc(s: seq<int>): seq<int> {
    if s == [] then [] else InsertDesc(s[0], SortDesc(s[1..]))
  }

  ghost predicate Descending(s: seq<int>) {
    forall i, j :: 0 <= i < j < |s| ==> s[i] > s[j]
  }

  ghost predicate Distinct(s: seq<int>) {
    forall i, j :: 0 <= i < j < |s| ==> s[i] != s[j]
  }

  function Elements(s: seq<int>): set<int> {
    set x | x in s
  }

  lemma {:induction false} InsertKeepsOrder(x: int, s: seq<int>)
    requires Descending(s) && x !in s
    ensures Descending(InsertDesc(x, s)) && Elements(InsertDesc(x, s)) == Elements(s) + {x}
  {
    if s != [] && x <= s[0] {
      var rest := s[1..];
      InsertKeepsOrder(x, rest);
      var tail := InsertDesc(x, rest);
      forall i | 0 <= i < |tail|
        ensures tail[i] < s[0]
      {
        assert tail[i] in Elements(tail);
        if tail[i] != x {
          var k :| 0 <= k < |rest| && rest[k] == tail[i];
          assert s[k + 1] == tail[i];
        }
      }
      assert s == [s[0]] + rest;
    }
  }

  lemma {:induction false} SortsDistinct(s: seq<int>)
    requires Distinct(s)
    ensures Descending(SortDesc(s)) && Elements(SortDesc(s)) == Elements(s)
  {
    if s != [] {
      SortsDistinct(s[1..]);
      assert s == [s[0]] + s[1..];
      assert s[0] !in s[1..];
      assert s[0] !in Elements(SortDesc(s[1..]));
      InsertKeepsOrder(s[0], SortDesc(s[1..]));
    }
  }

  lemma {:induction false} DistinctSize(s: seq<int>)
    requires Distinct(s)
    ensures |Elements(s)| == |s|
  {
    if s != [] {
      DistinctSize(s[1..]);
      assert s == [s[0]] + s[1..];
      assert Elements(s) == Elements(s[1..]) + {s[0]};
    }
  }

  // In a descending sequence the position of an element is its rank.
  lemma PositionIsRank(s: seq<int>, i: nat)
    requires Descending(s) && i < |s|
    ensures |Above(Elements(s), s[i])| == i
  {
    DistinctSize(s[..i]);
    assert Above(Elements(s), s[i]) == Elements(s[..i]) by {
      forall y | y in Elements(s) && y > s[i]
        ensures y in s[..i]
      {
        var j :| 0 <= j < |s| && s[j] == y;
        assert j < i;
        assert s[..i][j] == y;
      }
    }
  }

  // ── What one pass expires ──────────────────────────────────────────────────

  function Keep(retention: Option<int>): (keep: Option<int>)
    ensures keep.Some? <==> retention.Some? && retention.value > 0
    ensures keep.Some? ==> keep.value >= MIN_REDUNDANCY && keep.value >= retention.value
  {
    if retention.None? || retention.value <= 0 then None
    else Some(if retention.value < MIN_REDUNDANCY then MIN_REDUNDANCY else retention.value)
  }

  function Successful(snaps: Snaps, listed: seq<int>): seq<int> {
    if listed == [] then []
    else
      var rest := Successful(snaps, listed[1..]);
      if listed[0] in snaps && snaps[listed[0]].status == Completed then [listed[0]] + rest else rest
  }

  function Dropped(s: seq<int>, keep: nat): seq<int> {
    if |s| <= keep then [] else s[keep..]
  }

  // The snapshots a pass sets out to delete, in the order it does.
  function Plan(snaps: Snaps, retention: Option<int>, listed: seq<int>): seq<int> {
    match Keep(retention)
    case None => []
    case Some(keep) => Dropped(SortDesc(Successful(snaps, listed)), keep)
  }

  // A listing: active rows, each once, in any order; all of them up to the limit.
  ghost predicate IsListing(snaps: Snaps, listed: seq<int>) {
    && Distinct(listed) && |listed| <= MAX_LIMIT
    && (forall i :: 0 <= i < |listed| ==> listed[i] in snaps && snaps[listed[i]].active)
    && (|listed| < MAX_LIMIT ==> forall x :: x in snaps && snaps[x].active ==> x in listed)
  }

  lemma {:induction false} SuccessfulOnly(snaps: Snaps, listed: seq<int>)
    requires Distinct(listed)
    ensures Distinct(Successful(snaps, listed))
    ensures forall x :: x in Successful(snaps, listed) <==> x in listed && x in snaps && snaps[x].status == Completed
  {
    if listed != [] {
      var rest := listed[1..];
      SuccessfulOnly(snaps, rest);
      assert listed == [listed[0]] + rest;
      assert listed[0] !in rest;
    }
  }

  /** A pass sets out to delete exactly the listed copies with at least `keep`
      newer copies in the listing, each once. */
  lemma PlanIsByRank(snaps: Snaps, retention: Option<int>, listed: seq<int>)
    requires Distinct(listed)
    ensures Distinct(Plan(snaps, retention, listed))
    ensures forall x :: x in Plan(snaps, retention, listed) <==>
              && Keep(retention).Some? && x in Successful(snaps, listed)
              && |Above(Elements(Successful(snaps, listed)), x)| >= Keep(retention).value
  {
    var good := Successful(snaps, listed);
    SuccessfulOnly(snaps, listed);
    SortsDistinct(good);
    var sorted := SortDesc(good);
    match Keep(retention)
    case None =>
    case Some(keep) =>
      var plan := Dropped(sorted, keep);
      forall i | 0 <= i < |sorted|
        ensures sorted[i] in plan <==> |Above(Elements(good), sorted[i])| >= keep
      {
        PositionIsRank(sorted, i);
        if i >= keep {
          assert plan[i - keep] == sorted[i];
        }
      }
      forall x
        ensures x in plan <==> x in good && |Above(Elements(good), x)| >= keep
      {
        assert x in sorted <==> x in Elements(sorted);
        assert x in good <==> x in Elements(good);
        assert x in plan ==> x in sorted;
      }
  }

  // With everything listed, the plan is all copies but the newest `keep`.
  lemma FullPlan(snaps: Snaps, retention: Option<int>, listed: seq<int>)
    requires IsListing(snaps, listed) && |listed| < MAX_LIMIT && Keep(retention).Some?
    ensures Elements(Plan(snaps, retention, listed)) == Copies(snaps) - Newest(Copies(snaps), Keep(retention).value)
  {
    SuccessfulOnly(snaps, listed);
    PlanIsByRank(snaps, retention, listed);
    var good := Elements(Successful(snaps, listed));
    forall x
      ensures x in good <==> x in Copies(snaps)
    {
    }
    assert good == Copies(snaps);
  }

  lemma PlanIsInTable(snaps: Snaps, retention: Option<int>, listed: seq<int>)
    requires Distinct(listed)
    ensures forall x :: x in Plan(snaps, retention, listed) ==> x in snaps
  {
    PlanIsByRank(snaps, retention, listed);
    SuccessfulOnly(snaps, listed);
  }

  function Left(snap: Snap, deleted: bool): Snap {
    if deleted then snap.(active := false) else snap
  }

  // ── The pass in place ──────────────────────────────────────────────────────

  class Store {
    var snaps: Snaps

    constructor ()
      ensures snaps == map[]
    {
      snaps := map[];
    }

    method ListSnapshots() returns (listed: seq<int>)
      ensures IsListing(snaps, listed)
    {
      listed := [];
      var table := snaps;
      var todo := set x | x in table && table[x].active;
      while todo != {} && |listed| < MAX_LIMIT
        invariant forall x :: x in todo ==> x in table && table[x].active
        invariant Distinct(listed) && |listed| <= MAX_LIMIT
        invariant forall i :: 0 <= i < |listed| ==> listed[i] in table && table[listed[i]].active && listed[i] !in todo
        invariant forall x :: x in table && table[x].active && x !in todo ==> x in listed
        decreases todo
      {
        var x := Pick(todo);
        listed := listed + [x];
        todo := todo - {x};
      }
    }

    /** applySnapshotRetention run alone: a pass over everything leaves exactly
        the newest copies the count allows, never fewer than two of them, besides
        those whose deletion failed; rows that are no copies are not touched. */
    method ApplySnapshotRetention(retention: Option<int>, undeletable: set<int>)
      modifies this
      ensures forall x :: x !in Copies(old(snaps)) ==>
                (x in snaps <==> x in old(snaps)) && (x in snaps ==> snaps[x] == old(snaps)[x])
      ensures Keep(retention).None? ==> snaps == old(snaps)
      ensures Keep(retention).Some? ==>
                Newest(Copies(old(snaps)), Keep(retention).value) <= Copies(snaps) <= Copies(old(snaps))
      ensures Keep(retention).Some? && |old(snaps)| < MAX_LIMIT ==>
                Copies(snaps) == Newest(Copies(old(snaps)), Keep(retention).value) + Copies(old(snaps)) * undeletable
      ensures |Copies(snaps)| >= Min(MIN_REDUNDANCY, |Copies(old(snaps))|)
      // in numbers: no count, or none above zero, deletes nothing; a count of one
      // leaves two copies, any other leaves as many as it says
      ensures retention.None? || retention.value <= 0 ==> snaps == old(snaps)
      ensures retention.Some? && retention.value == 1 && undeletable == {} && |old(snaps)| < 500 ==>
                |Copies(snaps)| == Min(2, |Copies(old(snaps))|)
      ensures retention.Some? && retention.value >= 2 && undeletable == {} && |old(snaps)| < 500 ==>
                |Copies(snaps)| == Min(retention.value, |Copies(old(snaps))|)
    {
      hide Plan, Newest;
      var keep := Keep(retention);
      if keep.None? {
        return;
      }
      var listed := ListSnapshots();
      ghost var before := snaps;
      var stale := Plan(snaps, retention, listed);
      PlanIsInTable(snaps, retention, listed);
      assert forall x :: x in stale ==> x in before;
      var i := 0;
      while i < |stale|
        invariant i <= |stale| && snaps.Keys == before.Keys
        invariant forall x :: x in before ==> snaps[x] == Left(before[x], x in stale[..i] && x !in undeletable)
      {
        assert stale[..i + 1] == stale[..i] + [stale[i]];
        assert stale[i] in stale;
        assert stale[i] in before;
        if stale[i] !in undeletable {
          snaps := snaps[stale[i] := snaps[stale[i]].(active := false)];
        }
        i := i + 1;
      }
      assert stale[..i] == stale;
      PassOutcome(before, snaps, retention, listed, undeletable);
      NewestSize(Copies(before), keep.value);
    }
  }

  // What a finished pass left, from the plan it carried out.
  lemma PassOutcome(before: Snaps, after: Snaps, retention: Option<int>, listed: seq<int>, undeletable: set<int>)
    requires IsListing(before, listed) && Keep(retention).Some? && after.Keys == before.Keys
    requires forall x :: x in before ==>
               after[x] == Left(before[x], x in Plan(before, retention, listed) && x !in undeletable)
    ensures forall x :: x in before && x !in Copies(before) ==> after[x] == before[x]
    ensures Newest(Copies(before), Keep(retention).value) <= Copies(after) <= Copies(before)
    ensures |before| < MAX_LIMIT ==>
              Copies(after) == Newest(Copies(before), Keep(retention).value) + Copies(before) * undeletable
    ensures |Copies(after)| >= Min(MIN_REDUNDANCY, |Copies(before)|)
  {
    var keep := Keep(retention).value;
    var plan := Plan(before, retention, listed);
    PlanIsByRank(before, retention, listed);
    SuccessfulOnly(before, listed);
    var good := Elements(Successful(before, listed));
    forall x | x in plan
      ensures x in Copies(before) && x !in Newest(Copies(before), keep)
    {
      AboveGrows(good, Copies(before), x, x);
    }
    if |before| < MAX_LIMIT {
      DistinctSize(listed);
      SubsetSize(Elements(listed), before.Keys);
      FullPlan(before, retention, listed);
      assert forall x :: x in plan <==> x in Elements(plan);
    }
    NewestSize(Copies(before), keep);
    SubsetSize(Newest(Copies(before), keep), Copies(after));
  }

  // ── Any interleaving ───────────────────────────────────────────────────────

  // `ever` and `expired` are history: ids that were at some time `completed`, and
  // ids retired by a retention pass.
  datatype World = World(snaps: Snaps, passes: map<int, seq<int>>, ever: set<int>, expired: set<int>)

  datatype Act =
    | Create(id: int)
    | Progress(id: int, status: Status)
    | Begin(pass: int, retention: Option<int>, listed: seq<int>)
    | Expire(pass: int, ok: bool)
    | OperatorDelete(id: int)

  ghost predicate Enabled(w: World, a: Act) {
    match a
    case Create(id) => id !in w.snaps
    case Progress(_, _) => true
    case Begin(pass, _, listed) => pass !in w.passes && IsListing(w.snaps, listed)
    case Expire(pass, _) => pass in w.passes && w.passes[pass] != []
    case OperatorDelete(id) => id in w.snaps && w.snaps[id].active
  }

  function Retire(snaps: Snaps, id: int): Snaps {
    if id in snaps then snaps[id := snaps[id].(active := false)] else snaps
  }

  function Next(w: World, a: Act): World
    requires a.Expire? ==> a.pass in w.passes && w.passes[a.pass] != []
  {
    match a
    case Create(id) => w.(snaps := w.snaps[id := Snap(Pending, true)])
    case Progress(id, status) =>
      if id !in w.snaps then w
      else w.(snaps := w.snaps[id := w.snaps[id].(status := status)],
              ever := if status == Completed then w.ever + {id} else w.ever)
    case Begin(pass, retention, listed) => w.(passes := w.passes[pass := Plan(w.snaps, retention, listed)])
    case Expire(pass, ok) =>
      var id, rest := w.passes[pass][0], w.passes[pass][1..];
      if ok then w.(snaps := Retire(w.snaps, id), passes := w.passes[pass := rest], expired := w.expired + {id})
      else w.(passes := w.passes[pass := rest])
    case OperatorDelete(id) => w.(snaps := Retire(w.snaps, id))
  }

  // Every pass keeps at least `floor`; for two, every pass does.
  predicate Keeps(a: Act, floor: nat) {
    a.Begin? && Keep(a.retention).Some? ==> Keep(a.retention).value >= floor
  }

  predicate Outranked(ever: set<int>, x: int, floor: nat) {
    |Above(ever, x)| >= floor
  }

  ghost predicate Floor(w: World, floor: nat) {
    && (forall x :: x in w.snaps && w.snaps[x].status == Completed ==> x in w.ever)
    && (forall x :: x in w.expired ==> Outranked(w.ever, x, floor))
    && (forall p, i :: p in w.passes && 0 <= i < |w.passes[p]| ==> Outranked(w.ever, w.passes[p][i], floor))
  }

  lemma BeginKeepsFloor(w: World, a: Act, floor: nat)
    requires Floor(w, floor) && a.Begin? && Enabled(w, a) && Keeps(a, floor)
    ensures Floor(Next(w, a), floor)
  {
    var plan := Plan(w.snaps, a.retention, a.listed);
    PlanIsByRank(w.snaps, a.retention, a.listed);
    SuccessfulOnly(w.snaps, a.listed);
    forall i | 0 <= i < |plan|
      ensures Outranked(w.ever, plan[i], floor)
    {
      assert plan[i] in plan;
      AboveGrows(Elements(Successful(w.snaps, a.listed)), w.ever, plan[i], plan[i]);
    }
  }

  lemma StepKeepsFloor(w: World, a: Act, floor: nat)
    requires Floor(w, floor) && Enabled(w, a) && Keeps(a, floor)
    ensures Floor(Next(w, a), floor) && w.ever <= Next(w, a).ever
  {
    if a.Begin? {
      BeginKeepsFloor(w, a, floor);
    } else {
      var ever' := Next(w, a).ever;
      forall x | Outranked(w.ever, x, floor)
        ensures Outranked(ever', x, floor)
      {
        AboveGrows(w.ever, ever', x, x);
      }
    }
  }

  ghost predicate History(tr: seq<World>, acts: seq<Act>) {
    && |tr| == |acts| + 1 && tr[0] == World(map[], map[], {}, {})
    && forall i :: 0 <= i < |acts| ==> Enabled(tr[i], acts[i]) && tr[i + 1] == Next(tr[i], acts[i])
  }

  /** Over every interleaving, whatever snapshots report and operators delete: a
      snapshot is retired by retention only if at least `floor` newer ones had
      completed, where `floor` is the least count any pass worked with. */
  lemma {:induction false} FloorHolds(tr: seq<World>, acts: seq<Act>, n: nat, floor: nat)
    requires History(tr, acts) && n < |tr|
    requires forall i :: 0 <= i < |acts| ==> Keeps(acts[i], floor)
    ensures Floor(tr[n], floor) && tr[n].expired !! Newest(tr[n].ever, floor)
  {
    if n > 0 {
      FloorHolds(tr, acts, n - 1, floor);
      StepKeepsFloor(tr[n - 1], acts[n - 1], floor);
    }
  }

  /** With retention_count changing arbitrarily, the two newest snapshots that
      ever completed are never retired by retention. */
  lemma TwoNewestNeverExpire(tr: seq<World>, acts: seq<Act>, n: nat)
    requires History(tr, acts) && n < |tr|
    ensures tr[n].expired !! Newest(tr[n].ever, MIN_REDUNDANCY)
    ensures |Newest(tr[n].ever, MIN_REDUNDANCY)| == Min(MIN_REDUNDANCY, |tr[n].ever|)
  {
    FloorHolds(tr, acts, n, MIN_REDUNDANCY);
    NewestSize(tr[n].ever, MIN_REDUNDANCY);
  }

  // ── What is safe from the passes under way ─────────────────────────────────

  predicate OnList(w: World, x: int, p: int) {
    p in w.passes && x in w.passes[p]
  }

  function Planned(w: World): set<int> {
    set p, x | p in w.passes && x in w.passes[p] :: x
  }

  lemma PlannedIff(w: World, x: int)
    ensures x in Planned(w) <==> exists p :: OnList(w, x, p)
  {
    if p :| OnList(w, x, p) {
      assert p in w.passes && x in w.passes[p];
    }
    if x in Planned(w) {
      var p :| p in w.passes && x in w.passes[p];
      assert OnList(w, x, p);
    }
  }

  lemma PlannedIsOutranked(w: World, x: int, floor: nat)
    requires Floor(w, floor) && x in Planned(w)
    ensures Outranked(w.ever, x, floor)
  {
    PlannedIff(w, x);
    var p :| OnList(w, x, p);
    var i :| 0 <= i < |w.passes[p]| && w.passes[p][i] == x;
  }

  // The copies no pass under way is going to delete.
  function Safe(w: World): set<int> {
    Copies(w.snaps) - Planned(w)
  }

  // A completed snapshot keeps its status and no operator deletes one.
  predicate Undisturbed(w: World, a: Act) {
    match a
    case Progress(id, status) => id in w.snaps && w.snaps[id].status == Completed ==> status == Completed
    case OperatorDelete(id) => false
    case _ => true
  }

  ghost predicate Kept(w: World) {
    && (forall x :: x in w.snaps && x !in w.expired ==> w.snaps[x].active)
    && (forall x :: x in w.ever ==> x in w.snaps && w.snaps[x].status == Completed)
  }

  lemma {:induction false} KeptHolds(tr: seq<World>, acts: seq<Act>, n: nat)
    requires History(tr, acts) && n < |tr|
    requires forall i :: 0 <= i < |acts| ==> Undisturbed(tr[i], acts[i])
    ensures Kept(tr[n])
  {
    if n > 0 {
      KeptHolds(tr, acts, n - 1);
      assert Undisturbed(tr[n - 1], acts[n - 1]);
    }
  }

  /** Undisturbed, an instance never has fewer than `floor` copies because of
      retention, unless fewer ever completed; at least two in any case. */
  lemma CopiesRemain(tr: seq<World>, acts: seq<Act>, n: nat, floor: nat)
    requires History(tr, acts) && n < |tr|
    requires forall i :: 0 <= i < |acts| ==> Undisturbed(tr[i], acts[i]) && Keeps(acts[i], floor)
    ensures Newest(tr[n].ever, floor) <= Safe(tr[n]) <= Copies(tr[n].snaps)
    ensures |Copies(tr[n].snaps)| >= Min(floor, |tr[n].ever|)
    ensures |Copies(tr[n].snaps)| >= Min(MIN_REDUNDANCY, |tr[n].ever|)
  {
    KeptHolds(tr, acts, n);
    FloorHolds(tr, acts, n, floor);
    TwoNewestNeverExpire(tr, acts, n);
    NewestSize(tr[n].ever, floor);
    forall x | x in Newest(tr[n].ever, floor)
      ensures x !in Planned(tr[n])
    {
      if x in Planned(tr[n]) {
        PlannedIsOutranked(tr[n], x, floor);
      }
    }
    SubsetSize(Newest(tr[n].ever, floor), Copies(tr[n].snaps));
    SubsetSize(Newest(tr[n].ever, MIN_REDUNDANCY), Copies(tr[n].snaps));
  }

  // ── Exactly when the floor holds ───────────────────────────────────────────

  // The passes under way go on from w, and nothing else happens.
  ghost predicate Expires(tr: seq<World>, acts: seq<Act>, w: World) {
    && |tr| == |acts| + 1 && tr[0] == w
    && forall i :: 0 <= i < |acts| ==> acts[i].Expire? && Enabled(tr[i], acts[i]) && tr[i + 1] == Next(tr[i], acts[i])
  }

  // However the passes under way go on, at least `floor` copies are left.
  ghost predicate Guaranteed(w: World, floor: nat) {
    forall tr: seq<World>, acts: seq<Act> :: Expires(tr, acts, w) ==> |Copies(tr[|acts|].snaps)| >= floor
  }

  lemma ExpireKeepsSafe(w: World, a: Act)
    requires a.Expire? && Enabled(w, a)
    ensures Safe(w) <= Safe(Next(w, a)) && Planned(Next(w, a)) <= Planned(w)
    ensures a.ok ==> Safe(w) == Safe(Next(w, a))
  {
    var list, rest := w.passes[a.pass], w.passes[a.pass][1..];
    var w' := Next(w, a);
    assert list == [list[0]] + rest;
    forall x
      ensures x in Planned(w') ==> x in Planned(w)
      ensures x in Planned(w) ==> x in Planned(w') || x == list[0]
      ensures x == list[0] ==> x in Planned(w)
    {
      PlannedIff(w, x);
      PlannedIff(w', x);
      assert x == list[0] ==> OnList(w, x, a.pass);
      if p :| OnList(w', x, p) {
        assert OnList(w, x, p);
      }
      if x != list[0] {
        if p :| OnList(w, x, p) {
          assert OnList(w', x, p);
        }
      }
    }
  }

  /** A pass goes through its list: each step takes the next snapshot off it, and
      retires that one exactly if its deletion succeeds. */
  lemma PassGoesOn(w: World, a: Act)
    requires a.Expire? && Enabled(w, a)
    ensures var w', x := Next(w, a), w.passes[a.pass][0];
            && w'.passes == w.passes[a.pass := w.passes[a.pass][1..]] && w'.ever == w.ever
            && w'.expired == (if a.ok then w.expired + {x} else w.expired)
            && Copies(w'.snaps) == (if a.ok then Copies(w.snaps) - {x} else Copies(w.snaps))
  {
  }

  lemma {:induction false} SafeStays(tr: seq<World>, acts: seq<Act>, w: World, n: nat)
    requires Expires(tr, acts, w) && n <= |acts|
    ensures Safe(w) <= Safe(tr[n])
  {
    if n > 0 {
      SafeStays(tr, acts, w, n - 1);
      ExpireKeepsSafe(tr[n - 1], acts[n - 1]);
    }
  }

  // The passes can go on from w to w'.
  ghost predicate Leads(w: World, w': World) {
    exists tr, acts :: Expires(tr, acts, w) && tr[|acts|] == w'
  }

  lemma LeadsFirst(w: World, a: Act, w': World)
    requires a.Expire? && Enabled(w, a) && Leads(Next(w, a), w')
    ensures Leads(w, w')
  {
    var tr, acts :| Expires(tr, acts, Next(w, a)) && tr[|acts|] == w';
    var tr', acts' := [w] + tr, [a] + acts;
    forall i | 0 <= i < |acts'|
      ensures acts'[i].Expire? && Enabled(tr'[i], acts'[i]) && tr'[i + 1] == Next(tr'[i], acts'[i])
    {
      if i > 0 {
        assert acts'[i] == acts[i - 1] && tr'[i] == tr[i - 1] && tr'[i + 1] == tr[i];
      }
    }
    assert Expires(tr', acts', w) && tr'[|acts'|] == w';
  }

  function Busy(w: World): set<int> {
    set p | p in w.passes && w.passes[p] != []
  }

  lemma PlannedIsBusy(w: World, x: int)
    requires x in Planned(w)
    ensures Busy(w) != {}
  {
    PlannedIff(w, x);
    var p :| OnList(w, x, p);
    assert p in Busy(w);
  }

  // With every deletion succeeding, the passes leave exactly what is safe.
  lemma {:induction false} PassesRunOut(w: World) returns (w': World)
    ensures Leads(w, w') && Copies(w'.snaps) == Safe(w)
    decreases |Busy(w)|, 1, 0
  {
    if Busy(w) == {} {
      w' := w;
      var tr, acts: seq<Act> := [w], [];
      assert Expires(tr, acts, w) && tr[|acts|] == w;
      forall x
        ensures x !in Planned(w)
      {
        if x in Planned(w) {
          PlannedIsBusy(w, x);
        }
      }
    } else {
      var p := AnyOf(Busy(w));
      w' := PassRunsOut(w, p);
    }
  }

  lemma {:induction false} PassRunsOut(w: World, p: int) returns (w': World)
    requires p in Busy(w)
    ensures Leads(w, w') && Copies(w'.snaps) == Safe(w)
    decreases |Busy(w)|, 0, |w.passes[p]|
  {
    var a := Expire(p, true);
    var next := Next(w, a);
    ExpireKeepsSafe(w, a);
    if next.passes[p] == [] {
      assert Busy(next) == Busy(w) - {p};
      w' := PassesRunOut(next);
    } else {
      assert Busy(next) == Busy(w);
      w' := PassRunsOut(next, p);
    }
    LeadsFirst(w, a, w');
  }

  /** From any world, whatever led to it: the passes under way are certain to
      leave at least `floor` copies exactly when that many copies are on none of
      their lists. */
  lemma GuaranteedIff(w: World, floor: nat)
    ensures Guaranteed(w, floor) <==> |Safe(w)| >= floor
  {
    if |Safe(w)| >= floor {
      forall tr: seq<World>, acts: seq<Act> | Expires(tr, acts, w)
        ensures |Copies(tr[|acts|].snaps)| >= floor
      {
        SafeStays(tr, acts, w, |acts|);
        SubsetSize(Safe(w), Copies(tr[|acts|].snaps));
      }
    } else {
      var w' := PassesRunOut(w);
      var tr: seq<World>, acts: seq<Act> :| Expires(tr, acts, w) && tr[|acts|] == w';
      assert |Copies(tr[|acts|].snaps)| < floor;
    }
  }

  /** So an operator may delete a snapshot, or a report may take back its status,
      without costing the floor, exactly when enough other copies are on no list:
      a condition to check before the delete. A pass may begin exactly when
      enough remain outside its plan too. */
  lemma DisturbanceSparesIff(w: World, a: Act, floor: nat)
    requires Enabled(w, a) && (a.OperatorDelete? || a.Begin? || (a.Progress? && a.status != Completed))
    ensures Guaranteed(Next(w, a), floor) <==> |Safe(w) - SpentBy(w, a)| >= floor
  {
    GuaranteedIff(Next(w, a), floor);
    hide Guaranteed;
    if a.Begin? {
      BeginSpends(w, a);
    } else {
      LossSpends(w, a);
    }
  }

  // What an act takes out of the copies.
  function SpentBy(w: World, a: Act): set<int>
    requires a.OperatorDelete? || a.Begin? || a.Progress?
  {
    match a
    case Begin(_, retention, listed) => Elements(Plan(w.snaps, retention, listed))
    case Progress(id, _) => {id}
    case OperatorDelete(id) => {id}
  }

  lemma BeginSpends(w: World, a: Act)
    requires a.Begin? && Enabled(w, a)
    ensures Safe(Next(w, a)) == Safe(w) - SpentBy(w, a)
  {
    hide Plan, IsListing;
    var w' := Next(w, a);
    forall x
      ensures x in Planned(w') <==> x in Planned(w) || x in SpentBy(w, a)
    {
      PlannedIff(w, x);
      PlannedIff(w', x);
      if x in SpentBy(w, a) {
        assert OnList(w', x, a.pass);
      }
      if p :| OnList(w, x, p) {
        assert OnList(w', x, p);
      }
      if p :| OnList(w', x, p) {
        assert p != a.pass ==> OnList(w, x, p);
      }
    }
  }

  lemma LossSpends(w: World, a: Act)
    requires Enabled(w, a) && (a.OperatorDelete? || (a.Progress? && a.status != Completed))
    ensures Safe(Next(w, a)) == Safe(w) - SpentBy(w, a)
  {
    assert Planned(Next(w, a)) == Planned(w);
  }

  // ── A history that loses every copy ────────────────────────────────────────

  ghost predicate Reaches(tr: seq<World>, acts: seq<Act>, w: World) {
    History(tr, acts) && tr[|acts|] == w
  }

  ghost predicate Reachable(w: World) {
    exists tr, acts :: Reaches(tr, acts, w)
  }

  lemma ReachableNext(w: World, a: Act)
    requires Reachable(w) && Enabled(w, a)
    ensures Reachable(Next(w, a))
  {
    var tr, acts :| Reaches(tr, acts, w);
    var tr', acts' := tr + [Next(w, a)], acts + [a];
    forall i | 0 <= i < |acts'|
      ensures Enabled(tr'[i], acts'[i]) && tr'[i + 1] == Next(tr'[i], acts'[i])
    {
      assert tr'[i] == tr[i] && tr'[i + 1] == if i < |acts| then tr[i + 1] else Next(w, a);
      assert acts'[i] == if i < |acts| then acts[i] else a;
    }
    assert Reaches(tr', acts', Next(w, a));
  }

  const COPY := Snap(Completed, true)

  lemma OneMoreCopy(w: World, id: int)
    requires Reachable(w) && id !in w.snaps
    ensures Reachable(World(w.snaps[id := COPY], w.passes, w.ever + {id}, w.expired))
  {
    ReachableNext(w, Create(id));
    var made := Next(w, Create(id));
    ReachableNext(made, Progress(id, Completed));
    assert made.snaps[id := COPY] == w.snaps[id := COPY];
    assert Next(made, Progress(id, Completed)) == World(w.snaps[id := COPY], w.passes, w.ever + {id}, w.expired);
  }

  // Three copies.
  function ThreeCopies(): World {
    World(map[1 := COPY, 2 := COPY, 3 := COPY], map[], {1, 2, 3}, {})
  }

  lemma ThreeCopiesReachable()
    ensures Reachable(ThreeCopies())
  {
    var none := World(map[], map[], {}, {});
    assert Reaches([none], [], none);
    hide Reachable;
    OneMoreCopy(none, 1);
    var one := World(map[1 := COPY], map[], {1}, {});
    assert one == World(none.snaps[1 := COPY], none.passes, none.ever + {1}, none.expired);
    OneMoreCopy(one, 2);
    var two := World(map[1 := COPY, 2 := COPY], map[], {1, 2}, {});
    assert two == World(one.snaps[2 := COPY], one.passes, one.ever + {2}, one.expired);
    OneMoreCopy(two, 3);
    assert ThreeCopies() == World(two.snaps[3 := COPY], two.passes, two.ever + {3}, two.expired);
  }

  lemma PlanOfThree()
    ensures IsListing(ThreeCopies().snaps, [3, 2, 1]) && Plan(ThreeCopies().snaps, Some(1), [3, 2, 1]) == [1]
  {
    var snaps := ThreeCopies().snaps;
    assert Successful(snaps, [1]) == [1];
    assert [2, 1][1..] == [1] && [3, 2, 1][1..] == [2, 1];
    assert Successful(snaps, [2, 1]) == [2, 1];
    assert Successful(snaps, [3, 2, 1]) == [3, 2, 1];
    assert SortDesc([1]) == [1] && SortDesc([2, 1]) == [2, 1] && SortDesc([3, 2, 1]) == [3, 2, 1];
  }

  // The pass that found them sets out to delete the oldest.
  function PassUnderWay(snaps: Snaps, todo: seq<int>, expired: set<int>): World {
    World(snaps, map[0 := todo], {1, 2, 3}, expired)
  }

  lemma PassBegun()
    ensures Reachable(PassUnderWay(ThreeCopies().snaps, [1], {}))
  {
    ThreeCopiesReachable();
    PlanOfThree();
    hide Reachable, Plan, IsListing;
    ReachableNext(ThreeCopies(), Begin(0, Some(1), [3, 2, 1]));
    assert Next(ThreeCopies(), Begin(0, Some(1), [3, 2, 1])) == PassUnderWay(ThreeCopies().snaps, [1], {});
  }

  // The two newer copies go, by an operator's deletes or by late reports.
  function Lost(late: bool): Snap {
    if late then Snap(Failed, true) else Snap(Completed, false)
  }

  function Loses(id: int, late: bool): Act {
    if late then Progress(id, Failed) else OperatorDelete(id)
  }

  lemma LosesOne(snaps: Snaps, id: int, late: bool)
    requires Reachable(PassUnderWay(snaps, [1], {})) && id in snaps && snaps[id] == COPY
    ensures Reachable(PassUnderWay(snaps[id := Lost(late)], [1], {}))
  {
    hide Reachable;
    var w := PassUnderWay(snaps, [1], {});
    ReachableNext(w, Loses(id, late));
    assert Next(w, Loses(id, late)) == PassUnderWay(snaps[id := Lost(late)], [1], {});
  }

  /** Both conditions of CopiesRemain are needed: while a pass is under way, two
      deletes by an operator, or two late reports on finished snapshots, take away
      the copies its listing counted, and the pass deletes the last one. */
  lemma DisturbedFloorFails(late: bool) returns (w: World)
    ensures Reachable(w) && w.ever == {1, 2, 3} && Copies(w.snaps) == {} && w.expired == {1}
  {
    PassBegun();
    hide Reachable;
    var snaps := ThreeCopies().snaps;
    LosesOne(snaps, 2, late);
    LosesOne(snaps[2 := Lost(late)], 3, late);
    var left := snaps[2 := Lost(late)][3 := Lost(late)];
    var before := PassUnderWay(left, [1], {});
    ReachableNext(before, Expire(0, true));
    w := Next(before, Expire(0, true));
  }
}
