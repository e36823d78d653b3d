/** Schedule slots: the newest due slot, held back by a deterministic jitter, is
    claimed by inserting its row (database_scheduler.go, automation_scheduler.go). */
module SlotScheduler {
  import opened Base
  import opened Cron

  const MAX_JITTER := 5 * MINUTE
  const CATCH_UP_WINDOW := 2 * HOUR
  const LOOKBACK := 70 * 24 * HOUR

  // ── Jitter ─────────────────────────────────────────────────────────────────

  // jitterForKey; `mixed` is the 64-bit hash of the key xor the deployment seed.
  function Jitter(mixed: nat, period: int): int {
    var cap := if 0 < period < MAX_JITTER then period / 2 else MAX_JITTER;
    if cap <= 0 then 0 else mixed % (cap / SECOND + 1) * SECOND
  }

  /** The offset stays within the cap and the period; it can reach the period
      only when that is exactly the cap. */
  lemma JitterIsBounded(mixed: nat, period: int)
    ensures 0 <= Jitter(mixed, period) <= MAX_JITTER
    ensures 0 < period ==> Jitter(mixed, period) <= period
    ensures 0 < period < MAX_JITTER ==> 2 * Jitter(mixed, period) <= period
    ensures 0 < period ==>
              (Jitter(mixed, period) == period <==>
                 period == MAX_JITTER && mixed % (MAX_JITTER / SECOND + 1) == MAX_JITTER / SECOND)
  {
    var cap := if 0 < period < MAX_JITTER then period / 2 else MAX_JITTER;
    if cap > 0 {
      var n := cap / SECOND + 1;
      assert 0 <= mixed % n < n;
      assert n * SECOND <= cap + SECOND;
    }
  }

  /** Within its cap every whole second of delay is some key's: half of a period
      under five minutes, five minutes from there on or without a period. */
  lemma JitterSpreads(seconds: nat, period: int)
    requires seconds * 1000 <= if 0 < period < 5 * MINUTE then period / 2 else 5 * MINUTE
    ensures Jitter(seconds, period) == seconds * 1000
  {
  }

  // ── One tick for one entity ────────────────────────────────────────────────

  // The entity's expression and calendar, its jitter key, and the moment before
  // which no slot is owed (an automation's updated_at).
  datatype Schedule = Schedule(parts: seq<string>, cal: int -> Civil, mixed: nat, owedSince: int)

  // A claimed slot, in minutes; a stale one is recorded as skipped, not run.
  datatype Claim = Claim(slot: int, stale: bool)

  ghost predicate TwoNewest(s: Schedule, now: int, fires: seq<int>) {
    |s.parts| == 5 && Newest(Due(s.parts, s.cal, now, LOOKBACK), 2, fires)
  }

  function Period(fires: seq<int>): int {
    if |fires| > 1 then (fires[0] - fires[1]) * MINUTE else 0
  }

  // The newest slot is owed and its jittered moment has come.
  predicate Ripe(s: Schedule, now: int, fires: seq<int>) {
    |fires| > 0 && s.owedSince <= fires[0] * MINUTE && fires[0] * MINUTE + Jitter(s.mixed, Period(fires)) <= now
  }

  predicate Taken(claims: seq<Claim>, slot: int) {
    exists i :: 0 <= i < |claims| && claims[i].slot == slot
  }

  // One tick: claim the ripe slot unless the unique key already has it.
  function AfterTick(s: Schedule, claims: seq<Claim>, now: int, fires: seq<int>): seq<Claim> {
    if Ripe(s, now, fires) && !Taken(claims, fires[0])
    then claims + [Claim(fires[0], now - fires[0] * MINUTE > CATCH_UP_WINDOW)]
    else claims
  }

  class Scheduler {
    const schedule: Schedule
    var claims: seq<Claim>

    constructor (schedule: Schedule)
      requires |schedule.parts| == 5
      ensures claims == [] && this.schedule == schedule
    {
      this.schedule := schedule;
      claims := [];
    }

    // dispatchDue for this entity.
    method Tick(now: int) returns (ghost fires: seq<int>)
      requires |schedule.parts| == 5
      modifies this`claims
      ensures TwoNewest(schedule, now, fires)
      ensures claims == AfterTick(schedule, old(claims), now, fires)
    {
      var found := PreviousFires(schedule.parts, schedule.cal, now, 2, LOOKBACK);
      fires := found;
      if |found| == 0 {
        return;
      }
      var slot := found[0];
      if slot * MINUTE < schedule.owedSince || now < slot * MINUTE + Jitter(schedule.mixed, Period(found)) {
        return;
      }
      for i := 0 to |claims|
        invariant claims == old(claims) && forall j :: 0 <= j < i ==> claims[j].slot != slot
      {
        if claims[i].slot == slot {
          return;
        }
      }
      claims := claims + [Claim(slot, now - slot * MINUTE > CATCH_UP_WINDOW)];
    }
  }

  // ── Sequences of ticks ─────────────────────────────────────────────────────

  // What ticks at the given, nondecreasing times do.
  ghost predicate Ticks(s: Schedule, nows: seq<int>, fires: seq<seq<int>>, states: seq<seq<Claim>>) {
    && |states| == |nows| + 1 && |fires| == |nows| && states[0] == []
    && (forall i, j :: 0 <= i <= j < |nows| ==> nows[i] <= nows[j])
    && (forall i :: 0 <= i < |nows| ==>
          TwoNewest(s, nows[i], fires[i]) && states[i + 1] == AfterTick(s, states[i], nows[i], fires[i]))
  }

  ghost predicate Increasing(claims: seq<Claim>) {
    forall i, j :: 0 <= i < j < |claims| ==> claims[i].slot < claims[j].slot
  }

  // The last claim is the newest slot of some earlier tick.
  ghost predicate LastSeen(nows: seq<int>, fires: seq<seq<int>>, claims: seq<Claim>, n: nat)
    requires |nows| == |fires|
  {
    |claims| > 0 ==> exists k :: 0 <= k < n && k < |nows| && |fires[k]| > 0 && fires[k][0] == claims[|claims| - 1].slot
  }

  lemma {:induction false} ClaimsIncrease(s: Schedule, nows: seq<int>, fires: seq<seq<int>>, states: seq<seq<Claim>>,
                                          n: nat)
    requires Ticks(s, nows, fires, states) && n <= |nows|
    ensures Increasing(states[n]) && LastSeen(nows, fires, states[n], n)
  {
    if n > 0 {
      ClaimsIncrease(s, nows, fires, states, n - 1);
      var before, after, f := states[n - 1], states[n], fires[n - 1];
      assert TwoNewest(s, nows[n - 1], f) && after == AfterTick(s, before, nows[n - 1], f);
      if after == before {
        assert LastSeen(nows, fires, after, n);
      } else {
        NewSlotIsLater(s, nows, fires, states, n - 1);
        assert fires[n - 1][0] == after[|after| - 1].slot;
      }
    }
  }

  // A slot a tick adds is later than the last one claimed.
  lemma NewSlotIsLater(s: Schedule, nows: seq<int>, fires: seq<seq<int>>, states: seq<seq<Claim>>, n: nat)
    requires Ticks(s, nows, fires, states) && n < |nows| && |fires[n]| > 0 && !Taken(states[n], fires[n][0])
    requires LastSeen(nows, fires, states[n], n)
    ensures |states[n]| > 0 ==> states[n][|states[n]| - 1].slot < fires[n][0]
  {
    if |states[n]| > 0 {
      var k :| 0 <= k < n && |fires[k]| > 0 && fires[k][0] == states[n][|states[n]| - 1].slot;
      assert TwoNewest(s, nows[k], fires[k]) && TwoNewest(s, nows[n], fires[n]);
      NewestIsMonotone(s.parts, s.cal, nows[k], nows[n], LOOKBACK, 2, fires[k], fires[n]);
    }
  }

  /** Over any nondecreasing clock each slot is claimed at most once, and slots
      are claimed in strictly increasing order. */
  lemma SlotsClaimedInOrder(s: Schedule, nows: seq<int>, fires: seq<seq<int>>, states: seq<seq<Claim>>, n: nat)
    requires Ticks(s, nows, fires, states) && n <= |nows|
    ensures forall i, j :: 0 <= i < j < |states[n]| ==> states[n][i].slot < states[n][j].slot
  {
    ClaimsIncrease(s, nows, fires, states, n);
  }

  lemma {:induction false} ClaimsOnlyGrow(s: Schedule, nows: seq<int>, fires: seq<seq<int>>, states: seq<seq<Claim>>,
                                          i: nat, j: nat)
    requires Ticks(s, nows, fires, states) && i <= j <= |nows|
    ensures states[i] <= states[j]
  {
    if i < j {
      ClaimsOnlyGrow(s, nows, fires, states, i, j - 1);
    }
  }

  /** A slot is claimed exactly if some tick found it ripe. */
  lemma {:induction false} ClaimedIffRipe(s: Schedule, nows: seq<int>, fires: seq<seq<int>>, states: seq<seq<Claim>>,
                                          n: nat, slot: int)
    requires Ticks(s, nows, fires, states) && n <= |nows|
    ensures Taken(states[n], slot) <==> exists k :: 0 <= k < n && Ripe(s, nows[k], fires[k]) && fires[k][0] == slot
  {
    if n > 0 {
      ClaimedIffRipe(s, nows, fires, states, n - 1, slot);
      var before, after, f := states[n - 1], states[n], fires[n - 1];
      assert after == AfterTick(s, before, nows[n - 1], f);
      if Taken(before, slot) {
        var i :| 0 <= i < |before| && before[i].slot == slot;
        assert after[i].slot == slot;
      } else if after != before {
        assert after[|before|].slot == f[0];
        if Taken(after, slot) {
          var i :| 0 <= i < |after| && after[i].slot == slot;
          assert i == |before|;
        }
      }
    }
  }

  // ── Run or skipped ─────────────────────────────────────────────────────────

  // Tick k finds the slot newest, owed and past its jitter.
  ghost predicate FoundRipe(s: Schedule, nows: seq<int>, fires: seq<seq<int>>, k: nat, slot: int)
    requires k < |nows| == |fires|
  {
    Ripe(s, nows[k], fires[k]) && fires[k][0] == slot
  }

  // A claim says what the first tick to find the slot ripe made of its age: too
  // old beyond two hours.
  lemma {:induction false} ClaimedByFirst(s: Schedule, nows: seq<int>, fires: seq<seq<int>>, states: seq<seq<Claim>>,
                                          n: nat, claim: Claim) returns (k: nat)
    requires Ticks(s, nows, fires, states) && n <= |nows| && claim in states[n]
    ensures k < n && FoundRipe(s, nows, fires, k, claim.slot)
    ensures claim.stale <==> nows[k] - claim.slot * MINUTE > 2 * HOUR
    ensures forall j :: 0 <= j < k ==> !FoundRipe(s, nows, fires, j, claim.slot)
  {
    var before, after, f := states[n - 1], states[n], fires[n - 1];
    assert after == AfterTick(s, before, nows[n - 1], f);
    if claim in before {
      k := ClaimedByFirst(s, nows, fires, states, n - 1, claim);
    } else {
      k := n - 1;
      assert claim == after[|before|];
      ClaimedIffRipe(s, nows, fires, states, n - 1, claim.slot);
    }
  }

  /** A slot is run exactly if some tick found it ripe no later than two hours
      after it. */
  lemma RunIff(s: Schedule, nows: seq<int>, fires: seq<seq<int>>, states: seq<seq<Claim>>, n: nat, slot: int)
    requires Ticks(s, nows, fires, states) && n <= |nows|
    ensures Claim(slot, false) in states[n] <==>
            exists k :: 0 <= k < n && FoundRipe(s, nows, fires, k, slot) && nows[k] <= slot * MINUTE + 2 * HOUR
  {
    if Claim(slot, false) in states[n] {
      var k := ClaimedByFirst(s, nows, fires, states, n, Claim(slot, false));
    }
    if k :| 0 <= k < n && FoundRipe(s, nows, fires, k, slot) && nows[k] <= slot * MINUTE + 2 * HOUR {
      ClaimedIffRipe(s, nows, fires, states, n, slot);
      var i :| 0 <= i < |states[n]| && states[n][i].slot == slot;
      var first := ClaimedByFirst(s, nows, fires, states, n, states[n][i]);
      assert first <= k;
      assert states[n][i] == Claim(slot, false);
    }
  }

  /** And skipped, on record, exactly if ticks found it ripe, but only later than
      that: after an outage. */
  lemma SkippedIff(s: Schedule, nows: seq<int>, fires: seq<seq<int>>, states: seq<seq<Claim>>, n: nat, slot: int)
    requires Ticks(s, nows, fires, states) && n <= |nows|
    ensures Claim(slot, true) in states[n] <==>
            && (exists k :: 0 <= k < n && FoundRipe(s, nows, fires, k, slot))
            && (forall k :: 0 <= k < n && FoundRipe(s, nows, fires, k, slot) ==> nows[k] > slot * MINUTE + 2 * HOUR)
  {
    RunIff(s, nows, fires, states, n, slot);
    if Claim(slot, true) in states[n] {
      var first := ClaimedByFirst(s, nows, fires, states, n, Claim(slot, true));
      forall k | 0 <= k < n && FoundRipe(s, nows, fires, k, slot)
        ensures nows[k] > slot * MINUTE + 2 * HOUR
      {
        assert first <= k;
      }
    } else if k :| 0 <= k < n && FoundRipe(s, nows, fires, k, slot) {
      ClaimedIffRipe(s, nows, fires, states, n, slot);
      var i :| 0 <= i < |states[n]| && states[n][i].slot == slot;
      assert states[n][i] == Claim(slot, false);
    }
  }

  // `slot` is due and `next` is the following due minute.
  ghost predicate Consecutive(s: Schedule, slot: int, next: int) {
    && slot < next && Fires(s.parts, s.cal(slot))
    && forall m :: slot < m < next ==> !Fires(s.parts, s.cal(m))
  }

  // Between a slot and the next one, the slot is what a tick sees.
  lemma SlotIsNewest(s: Schedule, slot: int, next: int, now: int, fires: seq<int>)
    requires TwoNewest(s, now, fires) && Consecutive(s, slot, next)
    requires slot * MINUTE <= now < next * MINUTE && now - LOOKBACK < slot * MINUTE
    ensures |fires| > 0 && fires[0] == slot
  {
    hide Fires;
    var due := Due(s.parts, s.cal, now, LOOKBACK);
    assert slot in due;
    FirstIsGreatest(due, 2, fires, slot);
    assert fires[0] in due;
  }

  lemma FirstTickFrom(nows: seq<int>, t: int, last: nat) returns (k: nat)
    requires last < |nows| && nows[last] >= t
    ensures k <= last && nows[k] >= t && (k == 0 || nows[k - 1] < t)
  {
    k := last;
    while k > 0 && nows[k - 1] >= t
      invariant k <= last && nows[k] >= t
    {
      k := k - 1;
    }
  }

  /** Coverage: if ticks are at most `gap` apart and jitter cap plus gap fits
      before the next slot, an owed slot the ticks straddle is claimed; and run, if
      they fit into two hours. */
  lemma EverySlotIsClaimed(s: Schedule, nows: seq<int>, fires: seq<seq<int>>, states: seq<seq<Claim>>,
                           slot: int, next: int, gap: int, cap: int, last: nat)
    requires Ticks(s, nows, fires, states) && Consecutive(s, slot, next) && s.owedSince <= slot * MINUTE
    requires forall i :: 0 < i < |nows| ==> nows[i] - nows[i - 1] <= gap
    requires forall k :: 0 <= k < |nows| && |fires[k]| > 0 && fires[k][0] == slot ==>
               Jitter(s.mixed, Period(fires[k])) <= cap
    requires 0 <= gap && 0 <= cap && slot * MINUTE + cap + gap <= next * MINUTE && cap + gap <= LOOKBACK
    requires last < |nows| && nows[0] < slot * MINUTE + cap <= nows[last]
    ensures Taken(states[|nows|], slot)
    ensures cap + gap <= 2 * HOUR ==> Claim(slot, false) in states[|nows|]
  {
    var k := FirstTickFrom(nows, slot * MINUTE + cap, last);
    assert TwoNewest(s, nows[k], fires[k]);
    assert nows[k] - nows[k - 1] <= gap;
    SlotIsNewest(s, slot, next, nows[k], fires[k]);
    assert Ripe(s, nows[k], fires[k]);
    ClaimedIffRipe(s, nows, fires, states, |nows|, slot);
    RunIff(s, nows, fires, states, |nows|, slot);
    assert FoundRipe(s, nows, fires, k, slot);
  }

  // ── Exactly which slots can be claimed ─────────────────────────────────────

  // The due minute before a slot, if there is one. Its distance is the period.
  ghost predicate Previous(s: Schedule, slot: int, prev: Option<int>) {
    match prev
    case None => forall m :: m < slot ==> !Fires(s.parts, s.cal(m))
    case Some(p) => Consecutive(s, p, slot)
  }

  function GapBefore(slot: int, prev: Option<int>): int {
    if prev.Some? then (slot - prev.value) * MINUTE else 0
  }

  // The jittered moment of the slot comes before the next slot.
  predicate HasRoom(s: Schedule, slot: int, prev: Option<int>, next: int) {
    slot * MINUTE + Jitter(s.mixed, GapBefore(slot, prev)) < next * MINUTE
  }

  // What a tick that finds the slot newest finds before it: the previous due
  // minute, unless the lookback has left it behind.
  lemma PeriodOfTick(s: Schedule, now: int, fires: seq<int>, slot: int, prev: Option<int>)
    requires TwoNewest(s, now, fires) && |fires| > 0 && fires[0] == slot && Previous(s, slot, prev)
    ensures Period(fires) == if prev.Some? && now - LOOKBACK < prev.value * MINUTE then GapBefore(slot, prev) else 0
  {
    hide Fires;
    var due := Due(s.parts, s.cal, now, LOOKBACK);
    assert slot in due;
    if |fires| > 1 {
      assert fires[1] in due && fires[1] < slot;
    }
    if prev.Some? && now - LOOKBACK < prev.value * MINUTE {
      var p := prev.value;
      assert p in due;
      assert p in fires || |fires| == 2;
    }
  }

  // Beyond the greatest jitter every jitter has passed; before it, a previous
  // slot out of sight is too far for the period to matter.
  lemma RipeIff(s: Schedule, now: int, fires: seq<int>, slot: int, prev: Option<int>)
    requires TwoNewest(s, now, fires) && |fires| > 0 && fires[0] == slot && Previous(s, slot, prev)
    requires s.owedSince <= slot * MINUTE
    ensures Ripe(s, now, fires) <==> slot * MINUTE + Jitter(s.mixed, GapBefore(slot, prev)) <= now
  {
    PeriodOfTick(s, now, fires, slot, prev);
    JitterIsBounded(s.mixed, Period(fires));
    JitterIsBounded(s.mixed, GapBefore(slot, prev));
    hide Fires, TwoNewest;
  }

  // A tick between the slot and the next sees it, and what came before.
  lemma TickSees(s: Schedule, now: int, slot: int, prev: Option<int>, next: int) returns (fires: seq<int>)
    requires |s.parts| == 5 && Consecutive(s, slot, next) && Previous(s, slot, prev)
    requires slot * MINUTE <= now < next * MINUTE && now - LOOKBACK < slot * MINUTE
    ensures TwoNewest(s, now, fires) && |fires| > 0 && fires[0] == slot
  {
    hide Fires;
    var due := Due(s.parts, s.cal, now, LOOKBACK);
    if prev.Some? && now - LOOKBACK < prev.value * MINUTE {
      fires := [slot, prev.value];
    } else {
      fires := [slot];
    }
    forall m | m in due && m !in fires
      ensures |fires| == 2 && forall i :: 0 <= i < |fires| ==> fires[i] > m
    {
      assert Fires(s.parts, s.cal(m)) && m < slot;
    }
  }

  // Some sequence of ticks claims the slot.
  ghost predicate Claimable(s: Schedule, slot: int) {
    exists nows, fires, states :: Ticks(s, nows, fires, states) && Taken(states[|nows|], slot)
  }

  // A tick finds a slot newest only before the next.
  lemma NewestIsBeforeNext(s: Schedule, now: int, fires: seq<int>, slot: int, next: int)
    requires TwoNewest(s, now, fires) && |fires| > 0 && fires[0] == slot && slot < next && Fires(s.parts, s.cal(next))
    ensures now < next * MINUTE
  {
    hide Fires;
    var due := Due(s.parts, s.cal, now, LOOKBACK);
    assert slot in due;
    if next * MINUTE <= now {
      assert next in due;
      FirstIsGreatest(due, 2, fires, next);
    }
  }

  lemma ClaimedHasRoom(s: Schedule, nows: seq<int>, fires: seq<seq<int>>, states: seq<seq<Claim>>, slot: int,
                       prev: Option<int>, next: int)
    requires Ticks(s, nows, fires, states) && Taken(states[|nows|], slot)
    requires Consecutive(s, slot, next) && Fires(s.parts, s.cal(next)) && Previous(s, slot, prev)
    ensures s.owedSince <= slot * MINUTE && HasRoom(s, slot, prev, next)
  {
    hide Fires, Newest, Due, Previous;
    ClaimedIffRipe(s, nows, fires, states, |nows|, slot);
    var k :| 0 <= k < |nows| && Ripe(s, nows[k], fires[k]) && fires[k][0] == slot;
    var now, seen := nows[k], fires[k];
    assert TwoNewest(s, now, seen);
    hide Ticks, Taken, TwoNewest, Jitter;
    RipeIff(s, now, seen, slot, prev);
    NewestIsBeforeNext(s, now, seen, slot, next);
  }

  lemma RoomIsClaimable(s: Schedule, slot: int, prev: Option<int>, next: int)
    requires |s.parts| == 5 && Consecutive(s, slot, next) && Previous(s, slot, prev)
    requires s.owedSince <= slot * MINUTE && HasRoom(s, slot, prev, next)
    ensures Claimable(s, slot)
  {
    hide Fires;
    JitterIsBounded(s.mixed, GapBefore(slot, prev));
    var now := slot * MINUTE + Jitter(s.mixed, GapBefore(slot, prev));
    var seen := TickSees(s, now, slot, prev, next);
    RipeIff(s, now, seen, slot, prev);
    var nows, fires, states := [now], [seen], [[], AfterTick(s, [], now, seen)];
    assert Ticks(s, nows, fires, states);
    assert states[|nows|][0].slot == slot;
  }

  /** Whether a slot can be claimed at all, by ticks at any times: exactly when it
      is owed and its jitter, drawn from the gap before it, ends before the gap
      after it does. */
  lemma ClaimableIff(s: Schedule, slot: int, prev: Option<int>, next: int)
    requires |s.parts| == 5 && Consecutive(s, slot, next) && Fires(s.parts, s.cal(next)) && Previous(s, slot, prev)
    ensures Claimable(s, slot) <==> s.owedSince <= slot * MINUTE && HasRoom(s, slot, prev, next)
  {
    hide Fires;
    if Claimable(s, slot) {
      var nows, fires, states :| Ticks(s, nows, fires, states) && Taken(states[|nows|], slot);
      ClaimedHasRoom(s, nows, fires, states, slot, prev, next);
    }
    if s.owedSince <= slot * MINUTE && HasRoom(s, slot, prev, next) {
      RoomIsClaimable(s, slot, prev, next);
    }
  }

  // ── Two schedules that lose slots ──────────────────────────────────────────

  // A calendar whose minutes count minutes.
  ghost predicate RealClock(cal: int -> Civil) {
    forall m ::
      && cal(m)[0] == m % 60 && 0 <= cal(m)[1] <= 23
      && 1 <= cal(m)[2] <= 31 && 1 <= cal(m)[3] <= 12 && 0 <= cal(m)[4] <= 6
  }

  lemma {:induction false} SplitFirst(a: string, c: char, b: string)
    requires c !in a
    ensures Split(a + [c] + b, c) == [a] + Split(b, c)
  {
    var s := a + [c] + b;
    if a == "" {
      assert s[1..] == b;
    } else {
      SplitFirst(a[1..], c, b);
      assert s[1..] == a[1..] + [c] + b;
      assert a == [a[0]] + a[1..];
    }
  }

  lemma StarHits(value: int, spec: FieldSpec)
    ensures FieldHits("*", value, spec) <==> spec.min <= value <= spec.max
  {
    SplitOne("*", ',');
    TermReadsBack(Every, spec.min, spec.max);
    SingleTerm("*", Range(spec.min, spec.max, 0), value, spec);
  }

  // With stars elsewhere the minute decides.
  lemma MinuteDecides(minute: string, cal: int -> Civil, m: int)
    requires RealClock(cal)
    ensures Fires([minute, "*", "*", "*", "*"], cal(m)) <==> FieldHits(minute, m % 60, FIELDS[0])
  {
    hide FieldHits;
    var parts := [minute, "*", "*", "*", "*"];
    forall i | 1 <= i < 5
      ensures FieldHits(parts[i], cal(m)[i], FIELDS[i])
    {
      StarHits(cal(m)[i], FIELDS[i]);
      assert i == 1 || i == 2 || i == 3 || i == 4;
    }
  }

  lemma EveryFive(value: int)
    ensures FieldHits("*/5", value, FIELDS[0]) <==> 0 <= value <= 59 && value % 5 == 0
  {
    SplitOne("*/5", ',');
    assert Decimal(5) == "5";
    assert Print(EveryStep(5)) == "*" + "/" + "5" == "*/5";
    TermReadsBack(EveryStep(5), 0, 59);
    SingleTerm("*/5", Range(0, 59, 5), value, FIELDS[0]);
  }

  lemma ZeroAndThree(value: int)
    ensures FieldHits("0,3", value, FIELDS[0]) <==> value == 0 || value == 3
  {
    SplitFirst("0", ',', "3");
    SplitOne("3", ',');
    assert "0" + [','] + "3" == "0,3";
    var terms := Split("0,3", ',');
    assert terms == ["0", "3"];
    assert Decimal(0) == "0" && Decimal(3) == "3";
    TermReadsBack(At(0), 0, 59);
    TermReadsBack(At(3), 0, 59);
    assert TermValid(terms[0], FIELDS[0]) && TermValid(terms[1], FIELDS[0]);
    ValidatedMatchIsMembership("0,3", value, FIELDS[0]);
    assert ParseTerm(terms[0], 0, 59) == Some(Range(0, 0, 0)) && ParseTerm(terms[1], 0, 59) == Some(Range(3, 3, 0));
  }

  lemma FiveMinuteFires(cal: int -> Civil, m: int)
    requires RealClock(cal)
    ensures Fires(["*/5", "*", "*", "*", "*"], cal(m)) <==> m % 5 == 0
  {
    MinuteDecides("*/5", cal, m);
    EveryFive(m % 60);
    FiveDivides(m);
    hide Fires, FieldHits;
  }

  lemma FiveDivides(m: int)
    ensures m % 60 % 5 == 0 <==> m % 5 == 0
  {
    var q, r := m / 60, m % 60;
    assert m == 5 * (12 * q) + r;
    assert m % 5 == r % 5;
  }

  lemma LongJitter(mixed: nat, minutes: int)
    requires minutes >= 5
    ensures Jitter(mixed, minutes * MINUTE) == mixed % 301 * SECOND
  {
  }

  // After a gap of five minutes or more, the room before the next slot is a
  // question of the key alone.
  lemma RoomAfterLongGap(s: Schedule, slot: int, before: int, after: int)
    requires before >= 5
    ensures HasRoom(s, slot, Some(slot - before), slot + after) <==> s.mixed % 301 < 60 * after
  {
    LongJitter(s.mixed, before);
    hide Jitter;
    assert GapBefore(slot, Some(slot - before)) == before * MINUTE;
    assert (slot + after) * MINUTE == slot * MINUTE + after * MINUTE;
  }

  lemma NoMultipleBetween(slot: int, m: int)
    requires slot % 5 == 0 && slot < m < slot + 5
    ensures m % 5 != 0
  {
  }

  lemma FiveMinuteNeighbours(s: Schedule, slot: int)
    requires RealClock(s.cal) && s.parts == ["*/5", "*", "*", "*", "*"] && slot % 5 == 0
    ensures Consecutive(s, slot, slot + 5) && Fires(s.parts, s.cal(slot + 5))
  {
    hide Fires;
    FiveMinuteFires(s.cal, slot);
    FiveMinuteFires(s.cal, slot + 5);
    forall m | slot < m < slot + 5
      ensures !Fires(s.parts, s.cal(m))
    {
      FiveMinuteFires(s.cal, m);
      NoMultipleBetween(slot, m);
    }
  }

  /** Every five minutes: a slot is lost, whenever ticks come, exactly for the one
      key in 301 whose jitter is the whole period. */
  lemma FiveMinuteSlotLostIff(cal: int -> Civil, mixed: nat, owedSince: int, slot: int)
    requires RealClock(cal) && slot % 5 == 0 && owedSince <= slot * MINUTE
    ensures !Claimable(Schedule(["*/5", "*", "*", "*", "*"], cal, mixed, owedSince), slot) <==> mixed % 301 == 300
  {
    hide Fires, Claimable, Consecutive, HasRoom, RealClock;
    var s := Schedule(["*/5", "*", "*", "*", "*"], cal, mixed, owedSince);
    FiveMinuteNeighbours(s, slot);
    FiveMinuteNeighbours(s, slot - 5);
    ClaimableIff(s, slot, Some(slot - 5), slot + 5);
    RoomAfterLongGap(s, slot, 5, 5);
  }

  lemma ZeroAndThreeFires(cal: int -> Civil, m: int)
    requires RealClock(cal)
    ensures Fires(["0,3", "*", "*", "*", "*"], cal(m)) <==> m % 60 == 0 || m % 60 == 3
  {
    MinuteDecides("0,3", cal, m);
    ZeroAndThree(m % 60);
  }

  lemma InTheHour(slot: int, m: int)
    requires slot % 60 == 0 && slot <= m < slot + 60
    ensures m % 60 == m - slot
  {
  }

  lemma ZeroAndThreeNeighbours(s: Schedule, slot: int)
    requires RealClock(s.cal) && s.parts == ["0,3", "*", "*", "*", "*"] && slot % 60 == 0
    ensures Consecutive(s, slot, slot + 3) && Fires(s.parts, s.cal(slot + 3)) && Consecutive(s, slot - 57, slot)
  {
    hide Fires;
    InTheHour(slot, slot + 3);
    InTheHour(slot - 60, slot - 57);
    ZeroAndThreeFires(s.cal, slot);
    ZeroAndThreeFires(s.cal, slot + 3);
    ZeroAndThreeFires(s.cal, slot - 57);
    forall m | slot < m < slot + 3
      ensures !Fires(s.parts, s.cal(m))
    {
      ZeroAndThreeFires(s.cal, m);
      InTheHour(slot, m);
    }
    forall m | slot - 57 < m < slot
      ensures !Fires(s.parts, s.cal(m))
    {
      ZeroAndThreeFires(s.cal, m);
      InTheHour(slot - 60, m);
    }
  }

  /** Not only there: on the hour and three minutes past, the slot on the hour is
      jittered over five minutes because of the long gap before it, and lost
      exactly for the keys whose jitter reaches the three minutes after it. */
  lemma ZeroAndThreeSlotLostIff(cal: int -> Civil, mixed: nat, owedSince: int, slot: int)
    requires RealClock(cal) && slot % 60 == 0 && owedSince <= slot * MINUTE
    ensures !Claimable(Schedule(["0,3", "*", "*", "*", "*"], cal, mixed, owedSince), slot) <==> mixed % 301 >= 180
  {
    hide Fires, Claimable, Consecutive, HasRoom, RealClock;
    var s := Schedule(["0,3", "*", "*", "*", "*"], cal, mixed, owedSince);
    ZeroAndThreeNeighbours(s, slot);
    ClaimableIff(s, slot, Some(slot - 57), slot + 3);
    RoomAfterLongGap(s, slot, 57, 3);
  }
}
