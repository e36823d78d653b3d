/** The 5-field cron evaluator (cron/cron.go). An expression is the list of its
    white-space separated fields; the calendar is a parameter giving minute,
    hour, day, month and weekday of a minute. */
module Cron {
  import opened Base

  const MAX_INT := 0x7fff_ffff_ffff_ffff

  datatype FieldSpec = FieldSpec(min: int, max: int)

  const FIELDS: seq<FieldSpec> :=
    [FieldSpec(0, 59), FieldSpec(0, 23), FieldSpec(1, 31), FieldSpec(1, 12), FieldSpec(0, 6)]

  type Civil = v: seq<int> | |v| == 5 witness [0, 0, 1, 1, 0]

  // An inclusive range and a step, 0 meaning every value.
  datatype Range = Range(lo: int, hi: int, step: nat)

  // ── Strings ────────────────────────────────────────────────────────────────

  predicate AllDigits(s: string) {
    forall i :: 0 <= i < |s| ==> '0' <= s[i] <= '9'
  }

  function DecimalValue(s: string): nat
    requires AllDigits(s)
  {
    if s == "" then 0 else 10 * DecimalValue(s[..|s| - 1]) + (s[|s| - 1] as int - '0' as int)
  }

  // strconv.Atoi: an optional sign, at least one digit, within a 64-bit int.
  function Atoi(s: string): Option<int> {
    var signed := s != "" && (s[0] == '-' || s[0] == '+');
    var digits := if signed then s[1..] else s;
    if digits == "" || !AllDigits(digits) then None
    else
      var n: int := DecimalValue(digits);
      if signed && s[0] == '-' then (if n <= MAX_INT + 1 then Some(-n) else None)
      else if n <= MAX_INT then Some(n) else None
  }

  function IndexOf(s: string, c: char): Option<nat> {
    if s == "" then None
    else if s[0] == c then Some(0)
    else match IndexOf(s[1..], c)
      case None => None
      case Some(i) => Some(i + 1)
  }

  lemma {:induction false} IndexOfBounds(s: string, c: char)
    ensures IndexOf(s, c).Some? ==> IndexOf(s, c).value < |s| && s[IndexOf(s, c).value] == c
    ensures IndexOf(s, c).None? <==> c !in s
  {
    if s != "" && s[0] != c {
      IndexOfBounds(s[1..], c);
    }
  }

  // strings.Split on one separator: never empty.
  function Split(s: string, c: char): (parts: seq<string>)
    ensures |parts| > 0
  {
    if s == "" then [""]
    else
      var rest := Split(s[1..], c);
      if s[0] == c then [""] + rest else [[s[0]] + rest[0]] + rest[1..]
  }

  // ── Terms ──────────────────────────────────────────────────────────────────

  // The part of a term before its step.
  function ParseRange(expr: string, step: nat, min: int, max: int): Option<Range> {
    if expr == "*" then Some(Range(min, max, step))
    else match IndexOf(expr, '-')
      case Some(i) =>
        IndexOfBounds(expr, '-');
        var a, b := Atoi(expr[..i]), Atoi(expr[i + 1..]);
        if a.None? || b.None? || a.value > b.value then None else Some(Range(a.value, b.value, step))
      case None =>
        var n := Atoi(expr);
        if n.None? then None
        else if step == 0 then Some(Range(n.value, n.value, 0))
        else Some(Range(n.value, max, step))
  }

  // parseTerm, the one parser behind matching and validation.
  function ParseTerm(term: string, min: int, max: int): Option<Range> {
    match IndexOf(term, '/')
    case None => ParseRange(term, 0, min, max)
    case Some(i) =>
      IndexOfBounds(term, '/');
      var s := Atoi(term[i + 1..]);
      if s.None? || s.value <= 0 then None else ParseRange(term[..i], s.value, min, max)
  }

  predicate InRange(r: Range, value: int) {
    r.lo <= value <= r.hi && (r.step == 0 || (value - r.lo) % r.step == 0)
  }

  function TermMatches(term: string, value: int, spec: FieldSpec): Option<bool> {
    match ParseTerm(term, spec.min, spec.max)
    case None => None
    case Some(r) => Some(InRange(r, value))
  }

  // ── Fields and expressions ─────────────────────────────────────────────────

  function Answers(field: string, value: int, spec: FieldSpec): seq<Option<bool>> {
    var terms := Split(field, ',');
    seq(|terms|, i requires 0 <= i < |terms| => TermMatches(terms[i], value, spec))
  }

  // Some term matches and no earlier one is unreadable.
  ghost predicate Hit(answers: seq<Option<bool>>) {
    exists i :: 0 <= i < |answers| && answers[i] == Some(true) && forall j :: 0 <= j < i ==> answers[j].Some?
  }

  // Some term is unreadable and no earlier one matches.
  ghost predicate Broken(answers: seq<Option<bool>>) {
    exists i :: 0 <= i < |answers| && answers[i].None? && forall j :: 0 <= j < i ==> answers[j] == Some(false)
  }

  ghost predicate FieldHits(field: string, value: int, spec: FieldSpec) {
    Hit(Answers(field, value, spec))
  }

  ghost predicate FieldBroken(field: string, value: int, spec: FieldSpec) {
    Broken(Answers(field, value, spec))
  }

  lemma ScanDecides(answers: seq<Option<bool>>, i: nat)
    requires i < |answers| && answers[i] != Some(false) && forall j :: 0 <= j < i ==> answers[j] == Some(false)
    ensures Hit(answers) <==> answers[i] == Some(true)
    ensures Broken(answers) <==> answers[i].None?
  {
    assert forall j :: 0 <= j < i ==> answers[j].Some?;
    if answers[i].Some? {
      var matched := answers[i].value;
      assert answers[i] == Some(matched) && matched;
    }
    if Hit(answers) {
      var k :| 0 <= k < |answers| && answers[k] == Some(true) && forall j :: 0 <= j < k ==> answers[j].Some?;
      assert k >= i;
    }
    if Broken(answers) {
      var k :| 0 <= k < |answers| && answers[k].None? && forall j :: 0 <= j < k ==> answers[j] == Some(false);
      assert k >= i;
    }
  }

  method FieldMatches(field: string, value: int, spec: FieldSpec) returns (answer: Option<bool>)
    ensures answer == Some(true) <==> FieldHits(field, value, spec)
    ensures answer.None? <==> FieldBroken(field, value, spec)
  {
    hide Answers;
    var answers := Answers(field, value, spec);
    for i := 0 to |answers|
      invariant forall j :: 0 <= j < i ==> answers[j] == Some(false)
    {
      answer := answers[i];
      if answer != Some(false) {
        ScanDecides(answers, i);
        return;
      }
    }
    answer := Some(false);
  }

  // A plain conjunction of the five fields.
  ghost predicate Fires(parts: seq<string>, values: Civil) {
    |parts| == 5 && forall i :: 0 <= i < 5 ==> FieldHits(parts[i], values[i], FIELDS[i])
  }

  method Matches(parts: seq<string>, values: Civil) returns (ok: bool)
    ensures ok <==> Fires(parts, values)
  {
    if |parts| != 5 {
      return false;
    }
    for i := 0 to 5
      invariant forall j :: 0 <= j < i ==> FieldHits(parts[j], values[j], FIELDS[j])
    {
      var answer := FieldMatches(parts[i], values[i], FIELDS[i]);
      if answer != Some(true) {
        return false;
      }
    }
    ok := true;
  }

  // ── Walking backwards ──────────────────────────────────────────────────────

  // The minutes of the window (from - lookback, from] that fire.
  ghost function Due(parts: seq<string>, cal: int -> Civil, from: int, lookback: int): iset<int> {
    iset m | from - lookback < m * MINUTE <= from && Fires(parts, cal(m))
  }

  ghost predicate Descending(ms: seq<int>) {
    forall i, j :: 0 <= i < j < |ms| ==> ms[i] > ms[j]
  }

  /** `fires` is exactly the `count` greatest members of `due`, greatest first,
      or all of them if there are fewer. */
  ghost predicate Newest(due: iset<int>, count: int, fires: seq<int>) {
    && |fires| <= count && Descending(fires)
    && (forall i :: 0 <= i < |fires| ==> fires[i] in due)
    && (forall m :: m in due && m !in fires ==> |fires| == count && forall i :: 0 <= i < |fires| ==> fires[i] > m)
  }

  // The walk has passed every minute after t.
  ghost predicate WalkedTo(due: iset<int>, fires: seq<int>, t: int) {
    && Descending(fires)
    && (forall i :: 0 <= i < |fires| ==> fires[i] > t && fires[i] in due)
    && (forall m :: m > t && m in due ==> m in fires)
  }

  lemma WalkStep(due: iset<int>, fires: seq<int>, t: int)
    requires WalkedTo(due, fires, t)
    ensures WalkedTo(due, if t in due then fires + [t] else fires, t - 1)
  {
    if t in due {
      var longer := fires + [t];
      assert forall i :: 0 <= i < |fires| ==> longer[i] == fires[i];
      assert longer[|fires|] == t;
    }
  }

  // Stopping with enough fires, or with nothing older left.
  lemma WalkEnds(due: iset<int>, count: int, fires: seq<int>, t: int)
    requires WalkedTo(due, fires, t) && |fires| <= count
    requires |fires| == count || forall m :: m in due ==> m > t
    ensures Newest(due, count, fires)
  {
  }

  // The walk starts at the minute of `from`; it is inside the window while it is
  // after the limit, and when it leaves nothing older is due.
  lemma WalkStarts(parts: seq<string>, cal: int -> Civil, from: int, lookback: int)
    ensures WalkedTo(Due(parts, cal, from, lookback), [], from / MINUTE) && from / MINUTE * MINUTE <= from
  {
    hide Fires;
  }

  lemma WalkInside(parts: seq<string>, cal: int -> Civil, from: int, lookback: int, t: int)
    requires t * MINUTE <= from
    ensures t * MINUTE > from - lookback ==> (t in Due(parts, cal, from, lookback) <==> Fires(parts, cal(t)))
    ensures t * MINUTE <= from - lookback ==> forall m :: m in Due(parts, cal, from, lookback) ==> m > t
    ensures (t - 1) * MINUTE < t * MINUTE
  {
    hide Fires;
  }

  method PreviousFires(parts: seq<string>, cal: int -> Civil, from: int, count: int, lookback: int)
    returns (fires: seq<int>)
    ensures |parts| != 5 || count <= 0 ==> fires == []
    ensures |parts| == 5 && count > 0 ==> Newest(Due(parts, cal, from, lookback), count, fires)
  {
    hide Fires, Due, WalkedTo;
    fires := [];
    if |parts| != 5 || count <= 0 {
      return;
    }
    var t := from / MINUTE;
    var limit := from - lookback;
    ghost var due := Due(parts, cal, from, lookback);
    WalkStarts(parts, cal, from, lookback);
    while t * MINUTE > limit
      invariant t * MINUTE <= from && |fires| < count
      invariant WalkedTo(due, fires, t)
      decreases t * MINUTE - limit
    {
      WalkInside(parts, cal, from, lookback, t);
      WalkStep(due, fires, t);
      var hit := Matches(parts, cal(t));
      if hit {
        fires := fires + [t];
        if |fires| == count {
          WalkEnds(due, count, fires, t - 1);
          return;
        }
      }
      t := t - 1;
    }
    WalkInside(parts, cal, from, lookback, t);
    WalkEnds(due, count, fires, t);
  }

  lemma NextAgrees(due: iset<int>, count: int, f: seq<int>, g: seq<int>, k: nat)
    requires Newest(due, count, f) && Newest(due, count, g) && k < |f| && k <= |g|
    requires forall i :: 0 <= i < k ==> f[i] == g[i]
    ensures k < |g| && f[k] <= g[k]
  {
    var m := f[k];
    assert m in due;
    if m in g {
      var i :| 0 <= i < |g| && g[i] == m;
      assert i >= k;
    } else {
      assert |g| == count;
      assert g[k] > m;
    }
  }

  lemma {:induction false} NewestAgree(due: iset<int>, count: int, f: seq<int>, g: seq<int>, k: nat)
    requires Newest(due, count, f) && Newest(due, count, g) && k <= |f|
    ensures k <= |g| && forall i :: 0 <= i < k ==> f[i] == g[i]
  {
    hide Newest;
    if k > 0 {
      NewestAgree(due, count, f, g, k - 1);
      NextAgrees(due, count, f, g, k - 1);
      NextAgrees(due, count, g, f, k - 1);
    }
  }

  /** The specification has one answer. */
  lemma NewestIsUnique(due: iset<int>, count: int, f: seq<int>, g: seq<int>)
    requires Newest(due, count, f) && Newest(due, count, g)
    ensures f == g
  {
    NewestAgree(due, count, f, g, |f|);
    NewestAgree(due, count, g, f, |g|);
  }

  // A nonempty answer starts with the greatest member.
  lemma FirstIsGreatest(due: iset<int>, count: int, f: seq<int>, m: int)
    requires Newest(due, count, f) && count > 0 && m in due
    ensures |f| > 0 && m <= f[0] && f[0] in due
  {
    if m in f {
      var i :| 0 <= i < |f| && f[i] == m;
    }
  }

  /** The newest slot never moves back as time passes, and does not vanish while
      it stays inside the lookback. */
  lemma NewestIsMonotone(parts: seq<string>,
                         cal: int -> Civil, from: int, from': int, lookback: int, count: int, f: seq<int>, f': seq<int>)
    requires from <= from' && count > 0
    requires Newest(Due(parts, cal, from, lookback), count, f) && Newest(Due(parts, cal, from', lookback), count, f')
    ensures |f| > 0 && |f'| > 0 ==> f[0] <= f'[0]
    ensures |f| > 0 && from' - lookback < f[0] * MINUTE ==> |f'| > 0
  {
    hide Fires;
    if |f| > 0 {
      assert f[0] in Due(parts, cal, from, lookback);
      if from' - lookback < f[0] * MINUTE {
        FirstIsGreatest(Due(parts, cal, from', lookback), count, f', f[0]);
      } else if |f'| > 0 {
        assert f'[0] in Due(parts, cal, from', lookback);
      }
    }
  }

  // ── Validation ─────────────────────────────────────────────────────────────

  // What Validate asks of a term.
  predicate TermValid(term: string, spec: FieldSpec) {
    var r := ParseTerm(term, spec.min, spec.max);
    r.Some? && spec.min <= r.value.lo && r.value.hi <= spec.max
  }

  ghost predicate FieldValid(field: string, spec: FieldSpec) {
    var terms := Split(field, ',');
    forall i :: 0 <= i < |terms| ==> TermValid(terms[i], spec)
  }

  method Validate(parts: seq<string>) returns (ok: bool)
    ensures ok <==> |parts| == 5 && forall i :: 0 <= i < 5 ==> FieldValid(parts[i], FIELDS[i])
  {
    if |parts| != 5 {
      return false;
    }
    for i := 0 to 5
      invariant forall j :: 0 <= j < i ==> FieldValid(parts[j], FIELDS[j])
    {
      var terms := Split(parts[i], ',');
      for k := 0 to |terms|
        invariant forall j :: 0 <= j < k ==> TermValid(terms[j], FIELDS[i])
      {
        if !TermValid(terms[k], FIELDS[i]) {
          return false;
        }
      }
    }
    ok := true;
  }

  // The progressions a field denotes.
  ghost predicate InUnion(field: string, value: int, spec: FieldSpec) {
    var terms := Split(field, ',');
    exists i :: 0 <= i < |terms| && ParseTerm(terms[i], spec.min, spec.max).Some?
                && InRange(ParseTerm(terms[i], spec.min, spec.max).value, value)
  }

  /** On a validated field matching never takes the error path and is membership
      in a union of arithmetic progressions inside the field's range. */
  lemma ValidatedMatchIsMembership(field: string, value: int, spec: FieldSpec)
    requires FieldValid(field, spec)
    ensures !FieldBroken(field, value, spec)
    ensures FieldHits(field, value, spec) <==> InUnion(field, value, spec)
    ensures FieldHits(field, value, spec) ==> spec.min <= value <= spec.max
  {
    var terms, answers := Split(field, ','), Answers(field, value, spec);
    forall i | 0 <= i < |terms|
      ensures answers[i].Some? && answers[i] == Some(InRange(ParseTerm(terms[i], spec.min, spec.max).value, value))
    {
      assert TermValid(terms[i], spec);
    }
    if InUnion(field, value, spec) {
      var i :| 0 <= i < |terms| && ParseTerm(terms[i], spec.min, spec.max).Some?
               && InRange(ParseTerm(terms[i], spec.min, spec.max).value, value);
      assert answers[i] == Some(true);
    }
  }

  lemma FiringTermStarts(field: string, v: int, spec: FieldSpec) returns (i: nat)
    requires FieldValid(field, spec) && FieldHits(field, v, spec)
    ensures i < |Split(field, ',')| && TermStarts(Split(field, ',')[i], spec)
  {
    var answers := Answers(field, v, spec);
    var k :| 0 <= k < |answers| && answers[k] == Some(true);
    assert TermMatches(Split(field, ',')[k], v, spec) == Some(true);
    i := k;
  }

  lemma StartingTermFires(field: string, i: nat, spec: FieldSpec) returns (v: int)
    requires FieldValid(field, spec) && i < |Split(field, ',')| && TermStarts(Split(field, ',')[i], spec)
    ensures FieldHits(field, v, spec)
  {
    var term := Split(field, ',')[i];
    v := ParseTerm(term, spec.min, spec.max).value.lo;
    assert InRange(ParseTerm(term, spec.min, spec.max).value, v);
    assert InUnion(field, v, spec);
    ValidatedMatchIsMembership(field, v, spec);
  }

  /** What Validate misses: a validated field can fire at some value exactly when
      one of its terms starts within its own bound. A stepped number above the
      field's maximum does not. */
  lemma ValidatedFieldCanFireIff(field: string, spec: FieldSpec)
    requires FieldValid(field, spec)
    ensures (exists v :: FieldHits(field, v, spec)) <==>
            exists i :: 0 <= i < |Split(field, ',')| && TermStarts(Split(field, ',')[i], spec)
  {
    if v :| FieldHits(field, v, spec) {
      var i := FiringTermStarts(field, v, spec);
    }
    if i :| 0 <= i < |Split(field, ',')| && TermStarts(Split(field, ',')[i], spec) {
      var v := StartingTermFires(field, i, spec);
    }
  }

  predicate TermStarts(term: string, spec: FieldSpec) {
    var r := ParseTerm(term, spec.min, spec.max);
    r.Some? && r.value.lo <= r.value.hi
  }

  // ── Printing ───────────────────────────────────────────────────────────────

  datatype Term =
    | Every
    | EveryStep(step: nat)
    | At(n: nat)
    | AtStep(n: nat, step: nat)
    | Span(a: nat, b: nat)
    | SpanStep(a: nat, b: nat, step: nat)

  function Digit(n: nat): char
    requires n < 10
  {
    ('0' as int + n) as char
  }

  function Decimal(n: nat): string {
    if n < 10 then [Digit(n)] else Decimal(n / 10) + [Digit(n % 10)]
  }

  function PrintRange(t: Term): string {
    match t
    case Every => "*"
    case EveryStep(_) => "*"
    case At(n) => Decimal(n)
    case AtStep(n, _) => Decimal(n)
    case Span(a, b) => Decimal(a) + "-" + Decimal(b)
    case SpanStep(a, b, _) => Decimal(a) + "-" + Decimal(b)
  }

  function StepOf(t: Term): nat {
    match t
    case EveryStep(step) => step
    case AtStep(_, step) => step
    case SpanStep(_, _, step) => step
    case _ => 0
  }

  function Print(t: Term): string {
    if t.EveryStep? || t.AtStep? || t.SpanStep? then PrintRange(t) + "/" + Decimal(StepOf(t)) else PrintRange(t)
  }

  predicate Printable(t: Term) {
    match t
    case Every => true
    case EveryStep(step) => 1 <= step <= MAX_INT
    case At(n) => n <= MAX_INT
    case AtStep(n, step) => n <= MAX_INT && 1 <= step <= MAX_INT
    case Span(a, b) => a <= b <= MAX_INT
    case SpanStep(a, b, step) => a <= b <= MAX_INT && 1 <= step <= MAX_INT
  }

  // What a term means in a field with the given bounds.
  function Meaning(t: Term, min: int, max: int): Range {
    match t
    case Every => Range(min, max, 0)
    case EveryStep(step) => Range(min, max, step)
    case At(n) => Range(n, n, 0)
    case AtStep(n, step) => Range(n, max, step)
    case Span(a, b) => Range(a, b, 0)
    case SpanStep(a, b, step) => Range(a, b, step)
  }

  lemma {:induction false} DecimalReadsBack(n: nat)
    ensures Decimal(n) != "" && AllDigits(Decimal(n)) && DecimalValue(Decimal(n)) == n
  {
    if n >= 10 {
      DecimalReadsBack(n / 10);
      var s := Decimal(n);
      assert s[..|s| - 1] == Decimal(n / 10);
    } else {
      assert Decimal(n)[..0] == "";
    }
  }

  lemma AtoiDecimal(n: nat)
    requires n <= MAX_INT
    ensures Atoi(Decimal(n)) == Some(n) && Decimal(n) != "*"
    ensures '-' !in Decimal(n) && '/' !in Decimal(n)
  {
    DecimalReadsBack(n);
    assert Decimal(n)[0] != '-' && Decimal(n)[0] != '+' && Decimal(n)[0] != '*';
  }

  lemma {:induction false} IndexOfSeparator(a: string, c: char, b: string)
    requires c !in a
    ensures IndexOf(a + [c] + b, c) == Some(|a|)
    ensures (a + [c] + b)[..|a|] == a && (a + [c] + b)[|a| + 1..] == b
  {
    if a != "" {
      IndexOfSeparator(a[1..], c, b);
      assert (a + [c] + b)[1..] == a[1..] + [c] + b;
    }
  }

  lemma RangeReadsBack(t: Term, min: int, max: int)
    requires Printable(t)
    ensures ParseRange(PrintRange(t), StepOf(t), min, max) == Some(Meaning(t, min, max))
    ensures '/' !in PrintRange(t)
  {
    match t
    case Every =>
    case EveryStep(_) =>
    case At(n) =>
      AtoiDecimal(n);
      IndexOfBounds(Decimal(n), '-');
    case AtStep(n, _) =>
      AtoiDecimal(n);
      IndexOfBounds(Decimal(n), '-');
    case Span(a, b) => SpanReadsBack(a, b, 0, min, max);
    case SpanStep(a, b, step) => SpanReadsBack(a, b, step, min, max);
  }

  lemma SpanReadsBack(a: nat, b: nat, step: nat, min: int, max: int)
    requires a <= b <= MAX_INT
    ensures ParseRange(Decimal(a) + "-" + Decimal(b), step, min, max) == Some(Range(a, b, step))
    ensures '/' !in Decimal(a) + "-" + Decimal(b)
  {
    AtoiDecimal(a);
    AtoiDecimal(b);
    IndexOfSeparator(Decimal(a), '-', Decimal(b));
    assert |Decimal(a) + "-" + Decimal(b)| > 1;
  }

  /** parseTerm inverts the printer, for every term and every field. */
  lemma TermReadsBack(t: Term, min: int, max: int)
    requires Printable(t)
    ensures ParseTerm(Print(t), min, max) == Some(Meaning(t, min, max))
  {
    RangeReadsBack(t, min, max);
    if t.EveryStep? || t.AtStep? || t.SpanStep? {
      AtoiDecimal(StepOf(t));
      IndexOfSeparator(PrintRange(t), '/', Decimal(StepOf(t)));
    } else {
      IndexOfBounds(Print(t), '/');
    }
  }

  /** The gap in Validate, for every stepped number past the maximum: it is a
      valid term and matches no value at all. */
  lemma SteppedPastMaxNeverMatches(n: nat, step: nat, spec: FieldSpec, value: int)
    requires spec.max < n <= MAX_INT && spec.min <= n && 1 <= step <= MAX_INT
    ensures TermValid(Print(AtStep(n, step)), spec)
    ensures TermMatches(Print(AtStep(n, step)), value, spec) == Some(false)
  {
    TermReadsBack(AtStep(n, step), spec.min, spec.max);
  }

  /** Which printed terms validate, value by value. */
  lemma ValidTerms(t: Term, spec: FieldSpec)
    requires Printable(t) && spec.min <= spec.max
    ensures TermValid(Print(t), spec) <==>
            match t
            case Every => true
            case EveryStep(_) => true
            case At(n) => spec.min <= n <= spec.max
            case AtStep(n, _) => spec.min <= n
            case Span(a, b) => spec.min <= a && b <= spec.max
            case SpanStep(a, b, _) => spec.min <= a && b <= spec.max
  {
    TermReadsBack(t, spec.min, spec.max);
  }

  lemma ZeroStepIsUnreadable(range: string, min: int, max: int)
    requires '/' !in range
    ensures ParseTerm(range + "/0", min, max) == None
  {
    IndexOfSeparator(range, '/', "0");
    assert range + "/" + "0" == range + "/0";
    assert Decimal(0) == "0";
    AtoiDecimal(0);
  }

  /** What cannot be read: a step of zero, and a range that runs backwards. */
  lemma UnreadableTerms(a: nat, b: nat, range: string, min: int, max: int)
    requires b < a <= MAX_INT && '/' !in range
    ensures ParseTerm(range + "/0", min, max) == None
    ensures ParseTerm(Decimal(a) + "-" + Decimal(b), min, max) == None
  {
    ZeroStepIsUnreadable(range, min, max);
    AtoiDecimal(a);
    AtoiDecimal(b);
    IndexOfSeparator(Decimal(a), '-', Decimal(b));
    var term := Decimal(a) + "-" + Decimal(b);
    assert |term| > 1 && '/' !in term;
    IndexOfBounds(term, '/');
  }

  lemma AtoiDigits(s: string)
    requires s != "" && AllDigits(s)
    ensures var n: int := DecimalValue(s);
            && Atoi("+" + s) == (if n <= MAX_INT then Some(n) else None)
            && Atoi("-" + s) == (if n <= MAX_INT + 1 then Some(-n) else None)
            && Atoi(s) == (if n <= MAX_INT then Some(n) else None)
  {
    assert ("+" + s)[1..] == s && ("-" + s)[1..] == s;
    assert s[0] != '-' && s[0] != '+';
    hide DecimalValue;
  }

  /** Atoi reads an optional sign and no more than a 64-bit int. */
  lemma AtoiSigned(n: int)
    requires n >= 0
    ensures Atoi("+" + Decimal(n)) == if n <= MAX_INT then Some(n) else None
    ensures Atoi("-" + Decimal(n)) == if n <= MAX_INT + 1 then Some(-n) else None
    ensures Atoi(Decimal(n)) == if n <= MAX_INT then Some(n) else None
  {
    DecimalReadsBack(n);
    AtoiDigits(Decimal(n));
    hide Atoi, Decimal, DecimalValue, AllDigits;
  }

  // ── The fields' bounds ─────────────────────────────────────────────────────

  // The values a calendar takes: minute, hour, day of the month, month, weekday.
  predicate CalendarValue(field: nat, value: int)
    requires field < 5
  {
    match field
    case 0 => 0 <= value <= 59
    case 1 => 0 <= value <= 23
    case 2 => 1 <= value <= 31
    case 3 => 1 <= value <= 12
    case _ => 0 <= value <= 6
  }

  lemma {:induction false} SplitOne(s: string, c: char)
    requires c !in s
    ensures Split(s, c) == [s]
  {
    if s != "" {
      SplitOne(s[1..], c);
      assert s == [s[0]] + s[1..];
    }
  }

  lemma StepHasNoComma(step: nat)
    ensures ',' !in Print(EveryStep(step))
  {
    DecimalReadsBack(step);
  }

  lemma BoundsAreCalendar(field: nat, value: int)
    requires field < 5
    ensures FIELDS[field].min <= value <= FIELDS[field].max <==> CalendarValue(field, value)
    ensures FIELDS[field].min == if field == 2 || field == 3 then 1 else 0
  {
  }

  // `value` is `first` or a whole number of steps from it.
  predicate StepsFrom(value: int, first: int, step: nat) {
    step == 0 || (value - first) % step == 0
  }

  lemma StarTerms(text: string, t: Term, step: nat, value: int, spec: FieldSpec)
    requires (t == Every && step == 0) || (t == EveryStep(step) && 1 <= step <= MAX_INT)
    requires text == Print(t) && ',' !in text
    ensures FieldHits(text, value, spec) <==>
            spec.min <= value <= spec.max && StepsFrom(value, spec.min, step)
  {
    SplitOne(text, ',');
    TermReadsBack(t, spec.min, spec.max);
    SingleTerm(text, Range(spec.min, spec.max, step), value, spec);
    hide FieldHits, Print, ParseTerm, Split;
  }

  /** The bounds of a field are exactly the values a calendar takes: `*` matches
      all of them and nothing else, and a step counts from the first of them, the
      first of the month and January included. */
  lemma StepsCountFromFirst(field: nat, step: nat, value: int)
    requires field < 5 && 1 <= step <= MAX_INT
    ensures FieldHits(Print(EveryStep(step)), value, FIELDS[field]) <==>
            CalendarValue(field, value) && StepsFrom(value, if field == 2 || field == 3 then 1 else 0, step)
    ensures FieldHits("*", value, FIELDS[field]) <==> CalendarValue(field, value)
  {
    StepHasNoComma(step);
    assert Print(Every) == "*";
    assert StepsFrom(value, FIELDS[field].min, 0);
    hide FieldHits, Print, CalendarValue, StepsFrom;
    StarTerms(Print(EveryStep(step)), EveryStep(step), step, value, FIELDS[field]);
    StarTerms("*", Every, 0, value, FIELDS[field]);
    BoundsAreCalendar(field, value);
  }

  // A field of one term that parses hits what the term does.
  lemma SingleTerm(field: string, r: Range, value: int, spec: FieldSpec)
    requires Split(field, ',') == [field] && ParseTerm(field, spec.min, spec.max) == Some(r)
    requires spec.min <= r.lo && r.hi <= spec.max
    ensures FieldHits(field, value, spec) <==> InRange(r, value)
  {
    assert Split(field, ',')[0] == field;
    assert FieldValid(field, spec);
    ValidatedMatchIsMembership(field, value, spec);
  }
}
