/** The sign-in throttle: fixed windows per key, counted before the secret is checked, refunded when it was right. */
module AttemptLimiter {
  import opened Prelude

  /** One auth_attempts row; times in microseconds. */
  datatype Row = Row(attempts: nat, startedAt: int)

  datatype Rule = Rule(key: Id, max: nat, window: nat)

  const DAY: int := 86_400_000_000

  /** Rows older than a day are dead and get purged. */
  predicate Purgeable(r: Row, now: int) {
    r.startedAt < now - DAY
  }

  predicate Ended(r: Row, window: nat, now: int) {
    r.startedAt <= now - window
  }

  /** The atomic upsert: a new row or an ended window starts at one, otherwise one more. */
  function Counted(r: Option<Row>, window: nat, now: int): Row {
    if r.None? || Ended(r.value, window, now) then Row(1, now) else Row(r.value.attempts + 1, r.value.startedAt)
  }

  function Decremented(r: Row): Row {
    r.(attempts := if r.attempts > 0 then r.attempts - 1 else 0)
  }

  function RowOf(rows: map<Id, Row>, key: Id): Option<Row> {
    if key in rows then Some(rows[key]) else None
  }

  /** Counts an attempt against each rule in turn, stopping at the first rule over its limit. */
  function ConsumeAll(rows: map<Id, Row>, rules: seq<Rule>, now: int): (map<Id, Row>, bool) {
    if |rules| == 0 then (rows, true) else
      var (before, admitted) := ConsumeAll(rows, rules[..|rules| - 1], now);
      if !admitted then (before, false) else
        var rule := rules[|rules| - 1];
        var row := Counted(RowOf(before, rule.key), rule.window, now);
        (before[rule.key := row], row.attempts <= rule.max)
  }

  function RefundRow(r: Row, key: Id, keys: set<Id>): Row {
    if key in keys then Decremented(r) else r
  }

  /** Gives back one attempt per key, then sweeps dead rows. */
  function RefundAll(rows: map<Id, Row>, keys: set<Id>, now: int): map<Id, Row> {
    map k | k in rows && !Purgeable(RefundRow(rows[k], k, keys), now) :: RefundRow(rows[k], k, keys)
  }

  class Limiter {
    var rows: map<Id, Row>

    constructor ()
      ensures rows == map[]
    {
      rows := map[];
    }

    /** Refused exactly when a rule is over its limit; the rules before it and the refusing one stay counted. */
    method Consume(rules: seq<Rule>, now: int) returns (admitted: bool)
      modifies this
      ensures (rows, admitted) == ConsumeAll(old(rows), rules, now)
    {
      for i := 0 to |rules|
        invariant ConsumeAll(old(rows), rules[..i], now) == (rows, true)
      {
        assert rules[..i + 1][..i] == rules[..i];
        var rule := rules[i];
        var row := Counted(RowOf(rows, rule.key), rule.window, now);
        rows := rows[rule.key := row];
        if row.attempts > rule.max {
          RefusedStays(old(rows), rules, i + 1, now);
          return false;
        }
      }
      assert rules[..|rules|] == rules;
      admitted := true;
    }

    method Refund(rules: seq<Rule>, now: int)
      modifies this
      ensures rows == RefundAll(old(rows), set r | r in rules :: r.key, now)
    {
      var keys := set r | r in rules :: r.key;
      rows := map k | k in rows :: RefundRow(rows[k], k, keys);
      rows := map k | k in rows && !Purgeable(rows[k], now) :: rows[k];
    }
  }

  lemma {:induction false} RefusedStays(rows: map<Id, Row>, rules: seq<Rule>, i: nat, now: int)
    requires i <= |rules| && !ConsumeAll(rows, rules[..i], now).1
    ensures ConsumeAll(rows, rules, now) == ConsumeAll(rows, rules[..i], now)
    decreases |rules|
  {
    if i == |rules| {
      assert rules[..i] == rules;
    } else {
      assert rules[..|rules| - 1][..i] == rules[..i];
      RefusedStays(rows, rules[..|rules| - 1], i, now);
    }
  }

  // ---- One key under any interleaving ---------------------------------------------------------------

  /**
   * What happens on one key: an attempt arrives, an admitted attempt's secret turns out wrong or right, or a right
   * secret elsewhere sweeps the dead rows.
   */
  datatype Act = Attempt | WrongNow | WrongEarlier | RightNow | RightEarlier | OtherKeyRight

  datatype Timed = Timed(act: Act, now: int)

  /**
   * One key's row with the history it does not store: admitted attempts still being checked, split by whether
   * they were counted in the current window, the current window's wrong secrets, and the refunds that arrived
   * in it from attempts counted earlier.
   */
  datatype KeyState = KeyState(row: Option<Row>, pending: nat, pendingEarlier: nat, wrong: nat, lateRefunds: nat)

  const FRESH := KeyState(None, 0, 0, 0, 0)

  function RefundOne(r: Option<Row>, now: int): Option<Row> {
    if r.None? || Purgeable(r.value, now) then None else Some(Decremented(r.value))
  }

  function Swept(r: Option<Row>, now: int): Option<Row> {
    if r.Some? && Purgeable(r.value, now) then None else r
  }

  function Happen(s: KeyState, rule: Rule, e: Timed): KeyState {
    match e.act
    case Attempt =>
      var row := Counted(s.row, rule.window, e.now);
      var restarted := s.row.None? || Ended(s.row.value, rule.window, e.now);
      var s' := if restarted then KeyState(Some(row), 0, s.pendingEarlier + s.pending, 0, 0) else s.(row := Some(row));
      if row.attempts <= rule.max then s'.(pending := s'.pending + 1) else s'
    case WrongNow => if s.pending == 0 then s else s.(pending := s.pending - 1, wrong := s.wrong + 1)
    case WrongEarlier => if s.pendingEarlier == 0 then s else s.(pendingEarlier := s.pendingEarlier - 1)
    case RightNow => if s.pending == 0 then s else s.(pending := s.pending - 1, row := RefundOne(s.row, e.now))
    case RightEarlier =>
      if s.pendingEarlier == 0 then s
      else s.(pendingEarlier := s.pendingEarlier - 1, row := RefundOne(s.row, e.now), lateRefunds := s.lateRefunds + 1)
    case OtherKeyRight => s.(row := Swept(s.row, e.now))
  }

  function Unfold(s: KeyState, rule: Rule, events: seq<Timed>): KeyState {
    if |events| == 0 then s else Happen(Unfold(s, rule, events[..|events| - 1]), rule, events[|events| - 1])
  }

  /** The row never undercounts this window's wrong and unresolved attempts by more than its late refunds. */
  ghost predicate Bounded(s: KeyState, rule: Rule) {
    && (s.row.Some? ==> s.pending + s.wrong <= s.row.value.attempts + s.lateRefunds)
    && s.pending + s.wrong <= rule.max + s.lateRefunds
  }

  lemma {:induction false} HappenBounded(s: KeyState, rule: Rule, e: Timed)
    requires Bounded(s, rule)
    ensures Bounded(Happen(s, rule, e), rule)
  {
  }

  /** In every interleaving, the wrong secrets a window admits number at most the limit plus the refunds that reached it from earlier windows. */
  lemma {:induction false} WrongAttemptsBounded(rule: Rule, events: seq<Timed>)
    ensures Bounded(Unfold(FRESH, rule, events), rule)
  {
    if |events| > 0 {
      WrongAttemptsBounded(rule, events[..|events| - 1]);
      HappenBounded(Unfold(FRESH, rule, events[..|events| - 1]), rule, events[|events| - 1]);
    }
  }

  lemma {:induction false} UnfoldSnoc(s: KeyState, rule: Rule, events: seq<Timed>, e: Timed)
    ensures Unfold(s, rule, events + [e]) == Happen(Unfold(s, rule, events), rule, e)
  {
    assert (events + [e])[..|events|] == events;
  }

  /** One more attempt with a wrong secret. */
  function OneWrong(now: int): seq<Timed> {
    [Timed(Attempt, now), Timed(WrongNow, now)]
  }

  lemma {:induction false} UnfoldWrong(rule: Rule, now: int, events: seq<Timed>)
    ensures Unfold(FRESH, rule, events + OneWrong(now)) ==
      Happen(Happen(Unfold(FRESH, rule, events), rule, Timed(Attempt, now)), rule, Timed(WrongNow, now))
  {
    UnfoldSnoc(FRESH, rule, events, Timed(Attempt, now));
    UnfoldSnoc(FRESH, rule, events + [Timed(Attempt, now)], Timed(WrongNow, now));
    assert events + OneWrong(now) == events + [Timed(Attempt, now)] + [Timed(WrongNow, now)];
  }

  /** The run so far is in time order and ends no later than now. */
  ghost predicate InOrder(events: seq<Timed>, now: int) {
    && (forall i, j :: 0 <= i < j < |events| ==> events[i].now <= events[j].now)
    && (forall i :: 0 <= i < |events| ==> events[i].now <= now)
  }

  lemma {:induction false} OrderExtends(events: seq<Timed>, was: int, more: seq<Timed>, now: int)
    requires InOrder(events, was) && was <= now && forall i :: 0 <= i < |more| ==> more[i].now == now
    ensures InOrder(events + more, now)
  {
  }

  /** The start of the k-th window. */
  function Opens(rule: Rule, k: nat): int {
    if k == 0 then 0 else Opens(rule, k - 1) + rule.window
  }

  /** k windows in a row, each with one attempt that is still being checked when the window ends. */
  lemma {:induction false} PendingRun(rule: Rule, k: Qty) returns (events: seq<Timed>)
    requires rule.window > 0 && rule.max > 0
    ensures Unfold(FRESH, rule, events) == KeyState(Some(Row(1, Opens(rule, k - 1))), 1, k - 1, 0, 0)
    ensures InOrder(events, Opens(rule, k - 1))
    decreases k
  {
    if k == 1 {
      events := [Timed(Attempt, 0)];
      assert events[..0] == [];
    } else {
      var before := PendingRun(rule, k - 1);
      UnfoldSnoc(FRESH, rule, before, Timed(Attempt, Opens(rule, k - 1)));
      OrderExtends(before, Opens(rule, k - 2), [Timed(Attempt, Opens(rule, k - 1))], Opens(rule, k - 1));
      events := before + [Timed(Attempt, Opens(rule, k - 1))];
    }
  }

  /** After k windows with a pending attempt each, n wrong secrets in the next one. */
  lemma {:induction false} WrongRun(rule: Rule, k: nat, n: Qty) returns (events: seq<Timed>)
    requires rule.window > 0 && n <= rule.max
    ensures Unfold(FRESH, rule, events) == KeyState(Some(Row(n, Opens(rule, k))), 0, k, n, 0)
    ensures InOrder(events, Opens(rule, k))
    decreases n
  {
    var now := Opens(rule, k);
    if n > 1 {
      events := WrongRun(rule, k, n - 1);
    } else if k > 0 {
      events := PendingRun(rule, k);
    } else {
      events := [];
    }
    UnfoldWrong(rule, now, events);
    OrderExtends(events, if n > 1 || k == 0 then now else Opens(rule, k - 1), OneWrong(now), now);
    events := events + OneWrong(now);
  }

  /** After j of the k pending attempts turn out right late, j wrong secrets more than the limit were admitted. */
  lemma {:induction false} LateRun(rule: Rule, k: nat, j: nat) returns (events: seq<Timed>)
    requires rule.window > 0 && rule.max > 0 && j <= k
    ensures Unfold(FRESH, rule, events) == KeyState(Some(Row(rule.max, Opens(rule, k))), 0, k - j, rule.max + j, j)
    ensures InOrder(events, Opens(rule, k))
    decreases j
  {
    var now := Opens(rule, k);
    if j == 0 {
      events := WrongRun(rule, k, rule.max);
    } else {
      events := LateRun(rule, k, j - 1);
      UnfoldSnoc(FRESH, rule, events, Timed(RightEarlier, now));
      OrderExtends(events, now, [Timed(RightEarlier, now)], now);
      events := events + [Timed(RightEarlier, now)];
      UnfoldWrong(rule, now, events);
      OrderExtends(events, now, OneWrong(now), now);
      events := events + OneWrong(now);
    }
  }

  /** The bound is exact: under every rule, k late refunds can let k wrong secrets more than the limit through, for every k. */
  lemma {:induction false} BoundIsReached(rule: Rule, k: nat) returns (events: seq<Timed>)
    requires rule.window > 0 && rule.max > 0
    ensures InOrder(events, Opens(rule, k))
    ensures var s := Unfold(FRESH, rule, events); s.lateRefunds == k && s.wrong == rule.max + k
  {
    events := LateRun(rule, k, k);
  }

  // ---- How long a window lasts -----------------------------------------------------------------------------

  /** Before its window is over an attempt counts on the same row; otherwise it opens a new window at one. */
  lemma {:induction false} AttemptCounts(s: KeyState, rule: Rule, now: int)
    ensures var row' := Happen(s, rule, Timed(Attempt, now)).row;
            if s.row.Some? && now < s.row.value.startedAt + rule.window then row' == Some(Row(s.row.value.attempts + 1, s.row.value.startedAt)) else row' == Some(Row(1, now))
  {
  }

  /** The k-th event opens a window. */
  ghost predicate OpensWindow(rule: Rule, events: seq<Timed>, k: int) {
    && 0 <= k < |events| && events[k].act == Attempt
    && var row := Unfold(FRESH, rule, events[..k]).row;
    (row.Some? ==> row.value.startedAt + rule.window <= events[k].now)
  }

  /** The row is of a window opened no earlier than a given time, or was swept more than a day after it. */
  ghost predicate NotBefore(row: Option<Row>, start: int, now: int) {
    (row.Some? ==> start <= row.value.startedAt) && (row.None? ==> start + DAY < now)
  }

  lemma {:induction false} StepNotBefore(s: KeyState, rule: Rule, e: Timed, start: int, was: int)
    requires NotBefore(s.row, start, was) && start <= was <= e.now
    ensures NotBefore(Happen(s, rule, e).row, start, e.now)
  {
  }

  /** After a window opened at some time, the row is of that window or a later one, or was swept a day later. */
  lemma {:induction false} SinceOpened(rule: Rule, events: seq<Timed>, i: int, n: nat, end: int)
    requires InOrder(events, end) && OpensWindow(rule, events, i) && i < n <= |events|
    ensures NotBefore(Unfold(FRESH, rule, events[..n]).row, events[i].now, events[n - 1].now)
    decreases n
  {
    var before, e := Unfold(FRESH, rule, events[..n - 1]), events[n - 1];
    assert events[..n] == events[..n - 1] + [e];
    UnfoldSnoc(FRESH, rule, events[..n - 1], e);
    if n - 1 > i {
      SinceOpened(rule, events, i, n - 1, end);
      StepNotBefore(before, rule, e, events[i].now, events[n - 2].now);
    } else {
      AttemptCounts(before, rule, e.now);
    }
  }

  /** For windows of at most a day, in every interleaving two windows of a key open at least a window's length apart. */
  lemma {:induction false} WindowsApart(rule: Rule, events: seq<Timed>, i: int, j: int, end: int)
    requires rule.window <= DAY && InOrder(events, end)
    requires i < j && OpensWindow(rule, events, i) && OpensWindow(rule, events, j)
    ensures events[i].now + rule.window <= events[j].now
  {
    SinceOpened(rule, events, i, j, end);
  }

  /** A refund takes one attempt off each key it names, not below zero, and drops exactly the rows more than a day old. */
  lemma {:induction false} RefundExact(rows: map<Id, Row>, keys: set<Id>, now: int, key: Id)
    ensures key in RefundAll(rows, keys, now) <==> key in rows && now - rows[key].startedAt <= 86_400_000_000
    ensures key in RefundAll(rows, keys, now) ==>
              RefundAll(rows, keys, now)[key] == Row(if key in keys && rows[key].attempts > 0 then rows[key].attempts - 1 else rows[key].attempts, rows[key].startedAt)
  {
  }

  // ---- One key is what the rows do ------------------------------------------------------------------------

  ghost predicate DistinctKeys(rules: seq<Rule>) {
    forall i, j :: 0 <= i < j < |rules| ==> rules[i].key != rules[j].key
  }

  /** A request leaves the rows of keys it does not name alone. */
  lemma {:induction false} ConsumeOthers(rows: map<Id, Row>, rules: seq<Rule>, now: int, key: Id)
    requires forall i :: 0 <= i < |rules| ==> rules[i].key != key
    ensures RowOf(ConsumeAll(rows, rules, now).0, key) == RowOf(rows, key)
  {
    if |rules| > 0 {
      ConsumeOthers(rows, rules[..|rules| - 1], now, key);
    }
  }

  /** A request that gets as far as a key's rule is one attempt on that key, and one that does not leaves it alone. */
  lemma {:induction false} ConsumeIsAttempt(rows: map<Id, Row>, rules: seq<Rule>, i: nat, now: int, s: KeyState)
    requires DistinctKeys(rules) && i < |rules| && RowOf(rows, rules[i].key) == s.row
    ensures var reached := ConsumeAll(rows, rules[..i], now).1;
            var after := Happen(s, rules[i], Timed(Attempt, now));
            && RowOf(ConsumeAll(rows, rules, now).0, rules[i].key) == (if reached then after.row else s.row)
            && (ConsumeAll(rows, rules, now).1 ==> reached && after.row.Some? && after.row.value.attempts <= rules[i].max)
    decreases |rules|
  {
    var front := rules[..|rules| - 1];
    if i < |front| {
      assert front[i] == rules[i] && front[..i] == rules[..i];
      ConsumeIsAttempt(rows, front, i, now, s);
      assert rules[|rules| - 1].key != rules[i].key;
    } else {
      assert rules[..i] == front;
      ConsumeOthers(rows, front, now, rules[i].key);
    }
  }

  /** A refund is one attempt back on each key it names and a sweep on every other. */
  lemma {:induction false} RefundIsRight(rows: map<Id, Row>, keys: set<Id>, now: int, rule: Rule, s: KeyState)
    requires RowOf(rows, rule.key) == s.row
    ensures var row' := RowOf(RefundAll(rows, keys, now), rule.key);
            && (rule.key in keys && s.pending > 0 ==> row' == Happen(s, rule, Timed(RightNow, now)).row)
            && (rule.key in keys && s.pendingEarlier > 0 ==> row' == Happen(s, rule, Timed(RightEarlier, now)).row)
            && (rule.key !in keys ==> row' == Happen(s, rule, Timed(OtherKeyRight, now)).row)
  {
  }

  // ---- Purging -------------------------------------------------------------------------------------------

  /** A timed use of one key. */
  datatype Use = Try(at: int) | GiveBack(at: int)

  /** The row after a use, with or without the sweep of dead rows. */
  function Used(r: Option<Row>, window: nat, u: Use, sweep: bool): Option<Row> {
    match u
    case Try(at) => Some(Counted(r, window, at))
    case GiveBack(at) =>
      if r.None? then None
      else if sweep && Purgeable(r.value, at) then None
      else Some(Decremented(r.value))
  }

  /** What every attempt of a run is told: the counted row, from which the verdict and the retry time follow. */
  function Verdicts(r: Option<Row>, window: nat, uses: seq<Use>, sweep: bool): seq<Row>
    decreases |uses|
  {
    if |uses| == 0 then [] else
      var r' := Used(r, window, uses[0], sweep);
      (if uses[0].Try? then [r'.value] else []) + Verdicts(r', window, uses[1..], sweep)
  }

  ghost predicate Monotone(uses: seq<Use>) {
    forall i, j :: 0 <= i < j < |uses| ==> uses[i].at <= uses[j].at
  }

  /** No attempt from now on can tell the two rows apart: they are equal, or both their windows have ended. */
  ghost predicate Alike(a: Option<Row>, b: Option<Row>, window: nat, now: int) {
    a == b || ((a.None? || Ended(a.value, window, now)) && (b.None? || Ended(b.value, window, now)))
  }

  /** Sweeping dead rows changes no later decision, for windows of at most a day. */
  lemma {:induction false} PurgingIsInvisible(a: Option<Row>, b: Option<Row>, window: nat, uses: seq<Use>, now: int)
    requires window <= DAY && Monotone(uses) && Alike(a, b, window, now)
    requires |uses| > 0 ==> now <= uses[0].at
    ensures Verdicts(a, window, uses, true) == Verdicts(b, window, uses, false)
    decreases |uses|
  {
    if |uses| > 0 {
      var at := uses[0].at;
      var a', b' := Used(a, window, uses[0], true), Used(b, window, uses[0], false);
      assert Alike(a', b', window, at);
      PurgingIsInvisible(a', b', window, uses[1..], at);
    }
  }
}
