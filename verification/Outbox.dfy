/** The report queue as a protocol: backend/store/outbox.go, the table `report_outbox` of
    backend/store/schema.sql, and the verdicts of `Worker.Drain` in backend/outbox/outbox.go.

    A state is the table, the claims that workers hold, and a log of what took effect.  A run
    is any sequence of actions by any number of workers, with any clock readings; every
    statement of the store is one atomic action.  Times are milliseconds. */
module Outbox {
  import opened Ir

  /** The `next_attempt_at` of a dead row: the start of the year 9999. */
  const DEAD_HORIZON := 253370764800000
  const MAX_BACKOFF := 300000
  const DEFAULT_LEASE := 30000
  const DEFAULT_BATCH := 100

  /** Clock readings this side of the horizon, with room for a backoff. */
  predicate ValidClock(t: int) { 0 <= t && t + MAX_BACKOFF < DEAD_HORIZON }

  function PowerOfTwo(n: nat): nat { if n == 0 then 1 else 2 * PowerOfTwo(n - 1) }

  function Backoff(attempts: nat): nat {
    var d := 1000 * PowerOfTwo(if attempts < 16 then attempts else 16);
    if d > MAX_BACKOFF then MAX_BACKOFF else d
  }

  lemma {:induction false} PowerGrows(n: nat, m: nat)
    requires n <= m
    ensures 1 <= PowerOfTwo(n) <= PowerOfTwo(m)
  {
    if n < m { PowerGrows(n, m - 1); } else if n > 0 { PowerGrows(n - 1, m - 1); }
  }

  /** The delay before attempt `attempts + 1`: two seconds after the first failure, doubling,
      and capped from the ninth failure on. */
  lemma BackoffGrows(attempts: nat)
    requires attempts > 0
    ensures 2000 <= Backoff(attempts) <= MAX_BACKOFF
    ensures Backoff(attempts) <= Backoff(attempts + 1) <= 2 * Backoff(attempts)
    ensures Backoff(attempts) == MAX_BACKOFF <==> attempts >= 9
  {
    var n := if attempts < 16 then attempts else 16;
    assert PowerOfTwo(1) == 2;
    PowerGrows(1, n);
    assert PowerOfTwo(8) == 2 * PowerOfTwo(7) == 4 * PowerOfTwo(6) == 8 * PowerOfTwo(5);
    assert PowerOfTwo(5) == 2 * PowerOfTwo(4) == 4 * PowerOfTwo(3) == 8 * PowerOfTwo(2) == 16 * PowerOfTwo(1);
    if attempts < 9 { PowerGrows(n, 8); } else { PowerGrows(9, n); }
  }

  // ----- the table, the claims, the log -----

  datatype Report = Report(id: string, payload: string)

  datatype Row = Row(report: Report, attempts: nat, nextAt: int, leaseUntil: Option<int>, token: Option<nat>)

  datatype Claim = Claim(id: nat, report: Report, attempts: nat, sent: Option<bool>)

  datatype Entry =
    | Accepted(reportId: string)
    | Enqueued(id: nat, at: int)
    | Claimed(id: nat, token: nat, at: int, until: int)
    | Delivered(reportId: string)
    | Failed(id: nat, token: nat, buried: bool, due: int)
    | Removed(id: nat, token: nat)
    | Revived(id: nat, at: int)

  datatype State = State(
    rows: map<nat, Row>, nextId: nat, nextToken: nat, claims: map<nat, Claim>, log: seq<Entry>)

  const EMPTY := State(map[], 0, 0, map[], [])

  predicate Holds(rows: map<nat, Row>, reportId: string) {
    exists id :: id in rows && rows[id].report.id == reportId
  }

  predicate IsDue(row: Row, now: int) {
    row.nextAt <= now && (row.leaseUntil.None? || row.leaseUntil.value <= now)
  }

  predicate IsDead(row: Row) { row.nextAt >= DEAD_HORIZON }

  predicate Owns(rows: map<nat, Row>, id: nat, token: nat) {
    id in rows && rows[id].token == Some(token)
  }

  datatype Action =
    | Enqueue(report: Report, at: int)
    | Due(now: int, picks: seq<nat>, lease: int)
    | Send(token: nat, ok: bool)
    | Verdict(token: nat, at: int)
    | Crash(token: nat)
    | Revive(reportId: string, at: int)

  function Insert(s: State, report: Report, at: int): State {
    var t := s.(log := s.log + [Accepted(report.id)]);
    if Holds(s.rows, report.id) then t
    else t.(rows := s.rows[s.nextId := Row(report, 0, at, None, None)], nextId := s.nextId + 1,
            log := t.log + [Enqueued(s.nextId, at)])
  }

  /** Takes one row, if it is due, under a token never used before. */
  function ClaimOne(s: State, id: nat, now: int, lease: int): State {
    if id in s.rows && IsDue(s.rows[id], now) then
      var row := s.rows[id];
      s.(rows := s.rows[id := row.(leaseUntil := Some(now + lease), token := Some(s.nextToken))],
         claims := s.claims[s.nextToken := Claim(id, row.report, row.attempts, None)],
         nextToken := s.nextToken + 1, log := s.log + [Claimed(id, s.nextToken, now, now + lease)])
    else s
  }

  function ClaimEach(s: State, picks: seq<nat>, now: int, lease: int): State {
    if picks == [] then s
    else ClaimOne(ClaimEach(s, picks[..|picks| - 1], now, lease), picks[|picks| - 1], now, lease)
  }

  /** A failed attempt is written down: counted, rescheduled, and the lease given back. */
  function RecordFailure(s: State, id: nat, token: nat, nextAt: int): State {
    if !Owns(s.rows, id, token) then s
    else
      var row := s.rows[id];
      s.(rows := s.rows[id := row.(attempts := row.attempts + 1, nextAt := nextAt, leaseUntil := None, token := None)],
         log := s.log + [Failed(id, token, nextAt == DEAD_HORIZON, nextAt)])
  }

  function Remove(s: State, id: nat, token: nat): State {
    if !Owns(s.rows, id, token) then s
    else s.(rows := s.rows - {id}, log := s.log + [Removed(id, token)])
  }

  /** What a worker writes back once it knows how the sending went. */
  function Judge(s: State, token: nat, at: int, max: nat): State
    requires token in s.claims && s.claims[token].sent.Some?
  {
    var c := s.claims[token];
    var t := s.(claims := s.claims - {token});
    if c.sent.value then Remove(t, c.id, token)
    else RecordFailure(t, c.id, token, NextAttempt(c.attempts + 1, at, max))
  }

  /** The dead letter horizon after the last attempt, a growing delay before it. */
  function NextAttempt(attempts: nat, at: int, max: nat): int {
    if attempts >= max then DEAD_HORIZON else at + Backoff(attempts)
  }

  lemma NextAttemptDecides(attempts: nat, at: int, max: nat)
    requires ValidClock(at) && attempts > 0
    ensures if attempts >= max then NextAttempt(attempts, at, max) == DEAD_HORIZON
            else at < NextAttempt(attempts, at, max) < DEAD_HORIZON
  {
    BackoffGrows(attempts);
  }

  function ReviveRow(row: Row, at: int): Row {
    row.(nextAt := at, attempts := 0, leaseUntil := None, token := None)
  }

  /** The id of the row that holds the report.  Ids are unique; see `Inv`. */
  ghost function IdOf(rows: map<nat, Row>, reportId: string): nat
    requires Holds(rows, reportId)
  {
    var id :| id in rows && rows[id].report.id == reportId;
    id
  }

  ghost function Apply(s: State, a: Action, max: nat): State {
    match a
    case Enqueue(report, at) => if ValidClock(at) then Insert(s, report, at) else s
    case Due(now, picks, lease) => if ValidClock(now) && lease > 0 then ClaimEach(s, picks, now, lease) else s
    case Send(token, ok) =>
      if token in s.claims && s.claims[token].sent.None? then
        s.(claims := s.claims[token := s.claims[token].(sent := Some(ok))],
           log := if ok then s.log + [Delivered(s.claims[token].report.id)] else s.log)
      else s
    case Verdict(token, at) =>
      if token in s.claims && s.claims[token].sent.Some? && ValidClock(at) then Judge(s, token, at, max) else s
    case Crash(token) => s.(claims := s.claims - {token})
    case Revive(reportId, at) =>
      if Holds(s.rows, reportId) && ValidClock(at) then
        var id := IdOf(s.rows, reportId);
        s.(rows := s.rows[id := ReviveRow(s.rows[id], at)], log := s.log + [Revived(id, at)])
      else s
  }

  ghost function Run(s: State, actions: seq<Action>, max: nat): State {
    if actions == [] then s
    else Apply(Run(s, actions[..|actions| - 1], max), actions[|actions| - 1], max)
  }

  // ----- reading the log -----

  /** Failures of row `id` since it was enqueued or last revived. */
  function Failures(log: seq<Entry>, id: nat): nat {
    if log == [] then 0
    else
      var front := Failures(log[..|log| - 1], id);
      match log[|log| - 1]
      case Failed(i, _, _, _) => if i == id then front + 1 else front
      case Enqueued(i, _) => if i == id then 0 else front
      case Revived(i, _) => if i == id then 0 else front
      case _ => front
  }

  /** The latest claim of row `id`, unless it has been given back since. */
  function Holder(log: seq<Entry>, id: nat): Option<nat> {
    if log == [] then None
    else
      var front := Holder(log[..|log| - 1], id);
      match log[|log| - 1]
      case Claimed(i, token, _, _) => if i == id then Some(token) else front
      case Failed(i, _, _, _) => if i == id then None else front
      case Removed(i, _) => if i == id then None else front
      case Revived(i, _) => if i == id then None else front
      case Enqueued(i, _) => if i == id then None else front
      case _ => front
  }

  /** Whether row `id` was buried and not revived since. */
  function Buried(log: seq<Entry>, id: nat): bool {
    if log == [] then false
    else
      var front := Buried(log[..|log| - 1], id);
      match log[|log| - 1]
      case Failed(i, _, buried, _) => if i == id then buried else front
      case Enqueued(i, _) => if i == id then false else front
      case Revived(i, _) => if i == id then false else front
      case _ => front
  }

  predicate WasAccepted(log: seq<Entry>, reportId: string) { Accepted(reportId) in log }

  predicate WasDelivered(log: seq<Entry>, reportId: string) { Delivered(reportId) in log }

  predicate Settles(e: Entry) { e.Failed? || e.Removed? }

  /** No claim is settled twice. */
  ghost predicate SettledOnce(log: seq<Entry>) {
    forall i, j :: 0 <= i < j < |log| && Settles(log[i]) && Settles(log[j]) ==> log[i].token != log[j].token
  }

  /** Dead rows are not claimed. */
  ghost predicate ClaimsSpareTheDead(log: seq<Entry>) {
    forall k :: 0 <= k < |log| && log[k].Claimed? ==> !Buried(log[..k], log[k].id)
  }

  // ----- the invariant -----

  ghost predicate RowFine(s: State, id: nat, max: nat)
    requires id in s.rows
  {
    var row := s.rows[id];
    && id < s.nextId
    && row.attempts == Failures(s.log, id) && row.token == Holder(s.log, id)
    && (row.token.Some? ==> row.token.value < s.nextToken && row.leaseUntil.Some?)
    && (IsDead(row) <==> Buried(s.log, id))
    && (if IsDead(row) then row.attempts == max && row.token.None? else row.attempts < max)
  }

  ghost predicate RowsFine(s: State, max: nat) { forall id :: id in s.rows ==> RowFine(s, id, max) }

  ghost predicate ClaimFine(s: State, token: nat)
    requires token in s.claims
  {
    var c := s.claims[token];
    && token < s.nextToken && c.id < s.nextId
    && (c.id in s.rows ==> s.rows[c.id].report == c.report)
    && (Owns(s.rows, c.id, token) ==> s.rows[c.id].attempts == c.attempts)
    && (c.sent == Some(true) ==> WasDelivered(s.log, c.report.id))
    && (forall k :: 0 <= k < |s.log| && Settles(s.log[k]) ==> s.log[k].token != token)
  }

  ghost predicate ClaimsFine(s: State) { forall token :: token in s.claims ==> ClaimFine(s, token) }

  ghost predicate UniqueReports(rows: map<nat, Row>) {
    forall i, j :: i in rows && j in rows && rows[i].report.id == rows[j].report.id ==> i == j
  }

  ghost predicate NothingLost(s: State) {
    forall r :: WasAccepted(s.log, r) ==> Holds(s.rows, r) || WasDelivered(s.log, r)
  }

  ghost predicate TokensUsed(s: State) {
    && (forall k :: 0 <= k < |s.log| && Settles(s.log[k]) ==> s.log[k].token < s.nextToken)
    && (forall k :: 0 <= k < |s.log| && (s.log[k].Claimed? || s.log[k].Failed? || s.log[k].Enqueued? || s.log[k].Revived?) ==>
          s.log[k].id < s.nextId)
  }

  ghost predicate Inv(s: State, max: nat) {
    && RowsFine(s, max) && ClaimsFine(s) && UniqueReports(s.rows) && NothingLost(s)
    && TokensUsed(s) && SettledOnce(s.log) && ClaimsSpareTheDead(s.log)
  }

  // ----- every action keeps it -----

  lemma LogMore(log: seq<Entry>, e: Entry)
    ensures (log + [e])[..|log|] == log && (log + [e])[|log|] == e
    ensures forall r :: WasAccepted(log + [e], r) <==> WasAccepted(log, r) || e == Accepted(r)
    ensures forall r :: WasDelivered(log + [e], r) <==> WasDelivered(log, r) || e == Delivered(r)
  {}

  lemma {:induction false} FreshIdQuiet(log: seq<Entry>, id: nat)
    requires forall k :: 0 <= k < |log| && (log[k].Claimed? || log[k].Failed? || log[k].Enqueued? || log[k].Revived?) ==>
      log[k].id < id
    ensures Failures(log, id) == 0 && !Buried(log, id) && Holder(log, id) == None
  {
    if log == [] {
    } else {
      FreshIdQuiet(log[..|log| - 1], id);
    }
  }

  lemma FreshRowKeeps(s: State, t: State, report: Report, at: int, max: nat)
    requires RowsFine(s, max) && ClaimsFine(s) && TokensUsed(s) && SettledOnce(s.log) && ClaimsSpareTheDead(s.log)
    requires ValidClock(at) && max > 0
    requires t == s.(rows := s.rows[s.nextId := Row(report, 0, at, None, None)], nextId := s.nextId + 1,
                     log := s.log + [Enqueued(s.nextId, at)])
    ensures RowsFine(t, max) && ClaimsFine(t) && TokensUsed(t) && SettledOnce(t.log) && ClaimsSpareTheDead(t.log)
  {
    LogMore(s.log, Enqueued(s.nextId, at));
    FreshIdQuiet(s.log, s.nextId);
    SpareMore(s.log, Enqueued(s.nextId, at));
    forall id | id in t.rows ensures RowFine(t, id, max) {
      if id != s.nextId { assert RowFine(s, id, max); }
    }
    forall token | token in t.claims ensures ClaimFine(t, token) { assert ClaimFine(s, token); }
  }

  lemma InsertKeeps(s: State, report: Report, at: int, max: nat)
    requires Inv(s, max) && ValidClock(at) && max > 0
    ensures Inv(Insert(s, report, at), max)
  {
    var t, s' := s.(log := s.log + [Accepted(report.id)]), Insert(s, report, at);
    LogMore(s.log, Accepted(report.id));
    LogMore(t.log, Enqueued(s.nextId, at));
    QuietEntryKeeps(s, Accepted(report.id), max);
    if !Holds(s.rows, report.id) {
      FreshRowKeeps(t, s', report, at, max);
      FreshReport(s, s', report, at, max);
    }
    NothingLostMore(s, s', report.id);
  }

  lemma FreshReport(s: State, s': State, report: Report, at: int, max: nat)
    requires RowsFine(s, max) && UniqueReports(s.rows) && !Holds(s.rows, report.id)
    requires s'.rows == s.rows[s.nextId := Row(report, 0, at, None, None)]
    ensures UniqueReports(s'.rows) && Holds(s'.rows, report.id)
    ensures forall id :: id in s.rows ==> id in s'.rows && s'.rows[id].report == s.rows[id].report
  {
    assert s.nextId in s'.rows && s'.rows[s.nextId].report.id == report.id;
    forall id | id in s.rows ensures id in s'.rows && s'.rows[id].report == s.rows[id].report {
      assert RowFine(s, id, max);
    }
  }

  lemma NothingLostMore(s: State, s': State, reportId: string)
    requires NothingLost(s) && Holds(s'.rows, reportId)
    requires forall id :: id in s.rows ==> id in s'.rows && s'.rows[id].report == s.rows[id].report
    requires forall r :: WasAccepted(s'.log, r) ==> WasAccepted(s.log, r) || r == reportId
    requires forall r :: WasDelivered(s.log, r) ==> WasDelivered(s'.log, r)
    ensures NothingLost(s')
  {
    forall r | WasAccepted(s'.log, r) ensures Holds(s'.rows, r) || WasDelivered(s'.log, r) {
      if r != reportId && Holds(s.rows, r) {
        var id :| id in s.rows && s.rows[id].report.id == r;
        assert id in s'.rows && s'.rows[id].report.id == r;
      }
    }
  }

  lemma SpareMore(log: seq<Entry>, e: Entry)
    requires ClaimsSpareTheDead(log) && (e.Claimed? ==> !Buried(log, e.id))
    ensures ClaimsSpareTheDead(log + [e])
  {
    var more := log + [e];
    forall k | 0 <= k < |more| && more[k].Claimed? ensures !Buried(more[..k], more[k].id) {
      assert more[..k] == log[..k];
      if k == |log| { assert log[..k] == log; }
    }
  }

  /** Entries that only witness do not disturb what the log says about rows. */
  lemma QuietEntryKeeps(s: State, e: Entry, max: nat)
    requires Inv(s, max) && (e.Accepted? || e.Delivered?)
    ensures var t := s.(log := s.log + [e]);
      && RowsFine(t, max) && ClaimsFine(t) && TokensUsed(t) && SettledOnce(t.log) && ClaimsSpareTheDead(t.log)
      && (e.Delivered? ==> NothingLost(t))
  {
    var t := s.(log := s.log + [e]);
    LogMore(s.log, e);
    SpareMore(s.log, e);
    forall id | id in t.rows ensures RowFine(t, id, max) { assert RowFine(s, id, max); }
    forall token | token in t.claims ensures ClaimFine(t, token) { assert ClaimFine(s, token); }
  }

  lemma ClaimOneKeepsRows(s: State, id: nat, now: int, lease: int, max: nat)
    requires Inv(s, max) && id in s.rows && IsDue(s.rows[id], now) && ValidClock(now)
    ensures RowsFine(ClaimOne(s, id, now, lease), max) && TokensUsed(ClaimOne(s, id, now, lease))
  {
    var s' := ClaimOne(s, id, now, lease);
    LogMore(s.log, Claimed(id, s.nextToken, now, now + lease));
    forall i | i in s'.rows ensures RowFine(s', i, max) { assert RowFine(s, i, max); }
  }

  lemma ClaimOneKeepsClaims(s: State, id: nat, now: int, lease: int, max: nat)
    requires Inv(s, max) && id in s.rows && IsDue(s.rows[id], now)
    ensures ClaimsFine(ClaimOne(s, id, now, lease)) && SettledOnce(ClaimOne(s, id, now, lease).log)
  {
    var s' := ClaimOne(s, id, now, lease);
    LogMore(s.log, Claimed(id, s.nextToken, now, now + lease));
    assert RowFine(s, id, max);
    forall token | token in s'.claims ensures ClaimFine(s', token) {
      if token != s.nextToken { assert ClaimFine(s, token); }
    }
  }

  lemma ClaimOneKeeps(s: State, id: nat, now: int, lease: int, max: nat)
    requires Inv(s, max) && ValidClock(now)
    ensures Inv(ClaimOne(s, id, now, lease), max)
  {
    if id in s.rows && IsDue(s.rows[id], now) {
      assert RowFine(s, id, max);
      ClaimOneKeepsRows(s, id, now, lease, max);
      ClaimOneKeepsClaims(s, id, now, lease, max);
      LogMore(s.log, Claimed(id, s.nextToken, now, now + lease));
      SpareMore(s.log, Claimed(id, s.nextToken, now, now + lease));
      SameReports(s, ClaimOne(s, id, now, lease));
    }
  }

  lemma SameReports(s: State, s': State)
    requires UniqueReports(s.rows) && NothingLost(s) && s'.rows.Keys == s.rows.Keys
    requires forall id :: id in s.rows ==> s'.rows[id].report == s.rows[id].report
    requires forall r :: WasAccepted(s'.log, r) ==> WasAccepted(s.log, r)
    requires forall r :: WasDelivered(s.log, r) ==> WasDelivered(s'.log, r)
    ensures UniqueReports(s'.rows) && NothingLost(s')
  {
    forall r | WasAccepted(s'.log, r) ensures Holds(s'.rows, r) || WasDelivered(s'.log, r) {
      if Holds(s.rows, r) {
        var id :| id in s.rows && s.rows[id].report.id == r;
        assert id in s'.rows && s'.rows[id].report.id == r;
      }
    }
  }

  lemma {:induction false} ClaimEachKeeps(s: State, picks: seq<nat>, now: int, lease: int, max: nat)
    requires Inv(s, max) && ValidClock(now)
    ensures Inv(ClaimEach(s, picks, now, lease), max)
  {
    if picks == [] {
    } else {
      ClaimEachKeeps(s, picks[..|picks| - 1], now, lease, max);
      ClaimOneKeeps(ClaimEach(s, picks[..|picks| - 1], now, lease), picks[|picks| - 1], now, lease, max);
    }
  }

  lemma OwnFailureKeeps(s: State, t: State, token: nat, nextAt: int, max: nat)
    requires Inv(s, max) && token in s.claims && t == s.(claims := s.claims - {token})
    requires var c := s.claims[token];
      if c.attempts + 1 >= max then nextAt == DEAD_HORIZON else nextAt < DEAD_HORIZON
    requires Owns(s.rows, s.claims[token].id, token)
    ensures Inv(RecordFailure(t, s.claims[token].id, token, nextAt), max)
  {
    var c := s.claims[token];
    var s' := RecordFailure(t, c.id, token, nextAt);
    assert ClaimFine(s, token);
    var e := Failed(c.id, token, nextAt == DEAD_HORIZON, nextAt);
    LogMore(s.log, e);
    SpareMore(s.log, e);
    forall i | i in s'.rows ensures RowFine(s', i, max) { assert RowFine(s, i, max); }
    forall other | other in s'.claims ensures ClaimFine(s', other) { assert ClaimFine(s, other); }
    SameReports(s, s');
  }

  lemma FailureKeeps(s: State, t: State, token: nat, nextAt: int, max: nat)
    requires Inv(s, max) && token in s.claims && t == s.(claims := s.claims - {token})
    requires var c := s.claims[token];
      if c.attempts + 1 >= max then nextAt == DEAD_HORIZON else nextAt < DEAD_HORIZON
    ensures Inv(RecordFailure(t, s.claims[token].id, token, nextAt), max)
  {
    var c := s.claims[token];
    if Owns(s.rows, c.id, token) {
      OwnFailureKeeps(s, t, token, nextAt, max);
    } else {
      var s' := RecordFailure(t, c.id, token, nextAt);
      forall i | i in s'.rows ensures RowFine(s', i, max) { assert RowFine(s, i, max); }
      forall other | other in s'.claims ensures ClaimFine(s', other) { assert ClaimFine(s, other); }
    }
  }

  lemma RemoveKeeps(s: State, t: State, token: nat, max: nat)
    requires Inv(s, max) && token in s.claims && t == s.(claims := s.claims - {token})
    requires s.claims[token].sent == Some(true)
    ensures Inv(Remove(t, s.claims[token].id, token), max)
  {
    var c := s.claims[token];
    var s' := Remove(t, c.id, token);
    assert ClaimFine(s, token);
    if Owns(s.rows, c.id, token) {
      var e := Removed(c.id, token);
      LogMore(s.log, e);
      SpareMore(s.log, e);
      forall i | i in s'.rows ensures RowFine(s', i, max) { assert RowFine(s, i, max); }
      forall other | other in s'.claims ensures ClaimFine(s', other) { assert ClaimFine(s, other); }
      forall r | WasAccepted(s'.log, r) ensures Holds(s'.rows, r) || WasDelivered(s'.log, r) {
        if r != c.report.id && Holds(s.rows, r) {
          var id :| id in s.rows && s.rows[id].report.id == r;
          assert id in s'.rows && s'.rows[id].report.id == r;
        }
      }
    } else {
      forall i | i in s'.rows ensures RowFine(s', i, max) { assert RowFine(s, i, max); }
      forall other | other in s'.claims ensures ClaimFine(s', other) { assert ClaimFine(s, other); }
    }
  }

  lemma JudgeKeeps(s: State, token: nat, at: int, max: nat)
    requires Inv(s, max) && ValidClock(at) && token in s.claims && s.claims[token].sent.Some?
    ensures Inv(Judge(s, token, at, max), max)
  {
    var c := s.claims[token];
    var t := s.(claims := s.claims - {token});
    if c.sent.value {
      RemoveKeeps(s, t, token, max);
    } else {
      NextAttemptDecides(c.attempts + 1, at, max);
      FailureKeeps(s, t, token, NextAttempt(c.attempts + 1, at, max), max);
    }
  }

  lemma SendKeeps(s: State, token: nat, ok: bool, max: nat)
    requires Inv(s, max)
    ensures Inv(Apply(s, Send(token, ok), max), max)
  {
    if token in s.claims && s.claims[token].sent.None? {
      var c, s' := s.claims[token], Apply(s, Send(token, ok), max);
      var t := if ok then s.(log := s.log + [Delivered(c.report.id)]) else s;
      if ok {
        QuietEntryKeeps(s, Delivered(c.report.id), max);
        LogMore(s.log, Delivered(c.report.id));
      }
      forall i | i in s'.rows ensures RowFine(s', i, max) { assert RowFine(t, i, max); }
      forall other | other in s'.claims ensures ClaimFine(s', other) { assert ClaimFine(t, other); }
    }
  }

  lemma CrashKeeps(s: State, token: nat, max: nat)
    requires Inv(s, max)
    ensures Inv(Apply(s, Crash(token), max), max)
  {
    var s' := Apply(s, Crash(token), max);
    forall i | i in s'.rows ensures RowFine(s', i, max) { assert RowFine(s, i, max); }
    forall other | other in s'.claims ensures ClaimFine(s', other) { assert ClaimFine(s, other); }
  }

  lemma RevivedRowKeeps(s: State, s': State, id: nat, at: int, max: nat)
    requires Inv(s, max) && max > 0 && id in s.rows && ValidClock(at)
    requires s' == s.(rows := s.rows[id := ReviveRow(s.rows[id], at)], log := s.log + [Revived(id, at)])
    ensures RowsFine(s', max) && ClaimsFine(s')
  {
    LogMore(s.log, Revived(id, at));
    forall i | i in s'.rows ensures RowFine(s', i, max) { assert RowFine(s, i, max); }
    forall token | token in s'.claims ensures ClaimFine(s', token) { assert ClaimFine(s, token); }
  }

  lemma ReviveKeeps(s: State, reportId: string, at: int, max: nat)
    requires Inv(s, max) && max > 0
    ensures Inv(Apply(s, Revive(reportId, at), max), max)
  {
    if Holds(s.rows, reportId) && ValidClock(at) {
      var id, s' := IdOf(s.rows, reportId), Apply(s, Revive(reportId, at), max);
      RevivedRowKeeps(s, s', id, at, max);
      LogMore(s.log, Revived(id, at));
      SpareMore(s.log, Revived(id, at));
      assert RowFine(s, id, max);
      SameReports(s, s');
    }
  }

  lemma ApplyKeeps(s: State, a: Action, max: nat)
    requires Inv(s, max) && max > 0
    ensures Inv(Apply(s, a, max), max)
  {
    match a
    case Enqueue(report, at) => if ValidClock(at) { InsertKeeps(s, report, at, max); }
    case Due(now, picks, lease) => if ValidClock(now) && lease > 0 { ClaimEachKeeps(s, picks, now, lease, max); }
    case Send(token, ok) => SendKeeps(s, token, ok, max);
    case Verdict(token, at) =>
      if token in s.claims && s.claims[token].sent.Some? && ValidClock(at) { JudgeKeeps(s, token, at, max); }
    case Crash(token) => CrashKeeps(s, token, max);
    case Revive(reportId, at) => ReviveKeeps(s, reportId, at, max);
  }

  lemma {:induction false} RunKeeps(s: State, actions: seq<Action>, max: nat)
    requires Inv(s, max) && max > 0
    ensures Inv(Run(s, actions, max), max)
  {
    if actions == [] {
    } else {
      RunKeeps(s, actions[..|actions| - 1], max);
      ApplyKeeps(Run(s, actions[..|actions| - 1], max), actions[|actions| - 1], max);
    }
  }

  lemma EmptyIsFine(max: nat)
    ensures Inv(EMPTY, max)
  {}

  // ----- what the protocol guarantees -----

  /** In every run: a row waiting to be sent has failed less than `max` times, a dead row
      exactly `max` times since it was enqueued or last revived. */
  lemma DeadAfterExactlyMaxFailures(actions: seq<Action>, max: nat, id: nat)
    requires max > 0 && id in Run(EMPTY, actions, max).rows
    ensures var s := Run(EMPTY, actions, max);
      && s.rows[id].attempts == Failures(s.log, id)
      && (if IsDead(s.rows[id]) then Failures(s.log, id) == max else Failures(s.log, id) < max)
      && (IsDead(s.rows[id]) <==> Buried(s.log, id))
  {
    EmptyIsFine(max);
    RunKeeps(EMPTY, actions, max);
    assert RowFine(Run(EMPTY, actions, max), id, max);
  }

  /** In every run: no claim is settled twice, no dead row is claimed before it is revived,
      and an accepted report stays in the table until some sending of it succeeded. */
  lemma RunsAreSafe(actions: seq<Action>, max: nat)
    requires max > 0
    ensures var log, rows := Run(EMPTY, actions, max).log, Run(EMPTY, actions, max).rows;
      && SettledOnce(log) && ClaimsSpareTheDead(log)
      && forall r :: WasAccepted(log, r) ==> Holds(rows, r) || WasDelivered(log, r)
  {
    EmptyIsFine(max);
    RunKeeps(EMPTY, actions, max);
  }

  /** In every run: a verdict changes the table only if its claim is the latest one of its
      row and was not given back; it then touches that row alone, and by one failure. */
  lemma OnlyTheLatestClaimCounts(actions: seq<Action>, max: nat, token: nat, at: int)
    requires max > 0
    ensures var s := Run(EMPTY, actions, max);
      var s' := Apply(s, Verdict(token, at), max);
      s'.rows != s.rows ==>
        && token in s.claims
        && var c := s.claims[token];
           && Holder(s.log, c.id) == Some(token)
           && (forall i :: i != c.id ==> (i in s.rows <==> i in s'.rows) && (i in s.rows ==> s'.rows[i] == s.rows[i]))
           && (if c.sent == Some(true) then c.id !in s'.rows
               else c.id in s'.rows && s'.rows[c.id].attempts == s.rows[c.id].attempts + 1
                    && (IsDead(s'.rows[c.id]) <==> s.rows[c.id].attempts + 1 == max))
  {
    EmptyIsFine(max);
    RunKeeps(EMPTY, actions, max);
    var s := Run(EMPTY, actions, max);
    if Apply(s, Verdict(token, at), max).rows != s.rows {
      var c := s.claims[token];
      assert ClaimFine(s, token) && RowFine(s, c.id, max);
      NextAttemptDecides(c.attempts + 1, at, max);
    }
  }

  /** A crash hides a row only for the length of its lease: whatever the workers hold, a row
      that is not dead can be claimed again once its lease and its delay have passed. */
  lemma HiddenOnlyForTheLease(actions: seq<Action>, max: nat, id: nat, now: int, lease: int)
    requires max > 0 && ValidClock(now) && lease > 0
    requires var s := Run(EMPTY, actions, max);
      id in s.rows && !IsDead(s.rows[id]) && now >= s.rows[id].nextAt
      && (s.rows[id].leaseUntil.Some? ==> now >= s.rows[id].leaseUntil.value)
    ensures var s := Run(EMPTY, actions, max);
      var s' := Apply(s, Due(now, [id], lease), max);
      && Owns(s'.rows, id, s.nextToken) && s'.rows[id].leaseUntil == Some(now + lease)
      && s.nextToken in s'.claims && s'.claims[s.nextToken] == Claim(id, s.rows[id].report, s.rows[id].attempts, None)
  {
    var s := Run(EMPTY, actions, max);
    assert [id][..0] == [];
    assert ClaimEach(s, [id], now, lease) == ClaimOne(ClaimEach(s, [], now, lease), id, now, lease);
  }
}
