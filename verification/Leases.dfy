/** That a lease keeps other workers off its row, and a delay keeps everybody off it: what
    backend/store/outbox.go hands out claims for.

    The log tells when each row was claimed and until when, and when it was next due.  Nothing
    here looks at how the store picks a row. */
module Leases {
  import opened Ir
  import opened Seqs
  import opened Outbox

  /** The lease on row `id`, as the log tells it: that of its latest claim, unless the claim was
      settled or the row revived since. */
  function LeaseOf(log: seq<Entry>, id: nat): Option<int> {
    if log == [] then None
    else
      var front := LeaseOf(log[..|log| - 1], id);
      match log[|log| - 1]
      case Claimed(i, _, _, until) => if i == id then Some(until) else front
      case Failed(i, _, _, _) => if i == id then None else front
      case Removed(i, _) => if i == id then None else front
      case Revived(i, _) => if i == id then None else front
      case Enqueued(i, _) => if i == id then None else front
      case _ => front
  }

  /** When row `id` was last said to be due. */
  function DueAt(log: seq<Entry>, id: nat): int {
    if log == [] then 0
    else
      var front := DueAt(log[..|log| - 1], id);
      match log[|log| - 1]
      case Failed(i, _, _, due) => if i == id then due else front
      case Revived(i, at) => if i == id then at else front
      case Enqueued(i, at) => if i == id then at else front
      case _ => front
  }

  predicate RowTimed(s: State, id: nat)
    requires id in s.rows
  {
    s.rows[id].leaseUntil == LeaseOf(s.log, id) && s.rows[id].nextAt == DueAt(s.log, id)
  }

  /** The claim `e` came after the row was due and its last lease was over, and has a lease itself. */
  predicate Waited(log: seq<Entry>, e: Entry)
    requires e.Claimed?
  {
    && DueAt(log, e.id) <= e.at < e.until
    && (LeaseOf(log, e.id).Some? ==> LeaseOf(log, e.id).value <= e.at)
  }

  ghost predicate ClaimsWaited(log: seq<Entry>) {
    forall k :: 0 <= k < |log| && log[k].Claimed? ==> Waited(log[..k], log[k])
  }

  ghost predicate Timed(s: State) {
    (forall id :: id in s.rows ==> RowTimed(s, id)) && ClaimsWaited(s.log)
  }

  lemma WaitedMore(log: seq<Entry>, e: Entry)
    requires ClaimsWaited(log) && (e.Claimed? ==> Waited(log, e))
    ensures ClaimsWaited(log + [e])
  {
    var more := log + [e];
    forall k | 0 <= k < |more| && more[k].Claimed? ensures Waited(more[..k], more[k]) {
      assert more[..k] == log[..k];
      if k == |log| { assert log[..k] == log; }
    }
  }

  /** Rows change as the entry says, or not at all. */
  lemma TimedMore(s: State, t: State, e: Entry)
    requires Timed(s) && t.log == s.log + [e] && (e.Claimed? ==> Waited(s.log, e))
    requires forall id :: id in t.rows ==>
      && (id in s.rows || (e.Enqueued? && e.id == id))
      && t.rows[id].leaseUntil == (if (e.Failed? || e.Revived? || e.Enqueued? || e.Removed?) && e.id == id then None
                                   else if e.Claimed? && e.id == id then Some(e.until) else s.rows[id].leaseUntil)
      && t.rows[id].nextAt == (if e.Failed? && e.id == id then e.due
                               else if (e.Revived? || e.Enqueued?) && e.id == id then e.at else s.rows[id].nextAt)
    ensures Timed(t)
  {
    WaitedMore(s.log, e);
    LogMore(s.log, e);
    forall id | id in t.rows ensures RowTimed(t, id) {
      if id in s.rows { assert RowTimed(s, id); }
    }
  }

  lemma InsertTimed(s: State, report: Report, at: int)
    requires Timed(s) && s.nextId !in s.rows
    ensures Timed(Insert(s, report, at))
  {
    var t := s.(log := s.log + [Accepted(report.id)]);
    TimedMore(s, t, Accepted(report.id));
    if !Holds(s.rows, report.id) { TimedMore(t, Insert(s, report, at), Enqueued(s.nextId, at)); }
  }

  lemma ClaimTimed(s: State, id: nat, now: int, lease: int)
    requires Timed(s) && lease > 0
    ensures Timed(ClaimOne(s, id, now, lease))
  {
    if ClaimOne(s, id, now, lease) != s {
      assert RowTimed(s, id);
      TimedMore(s, ClaimOne(s, id, now, lease), Claimed(id, s.nextToken, now, now + lease));
    }
  }

  lemma {:induction false} ClaimsTimed(s: State, picks: seq<nat>, now: int, lease: int)
    requires Timed(s) && lease > 0
    ensures Timed(ClaimEach(s, picks, now, lease))
  {
    if picks == [] {
    } else {
      ClaimsTimed(s, picks[..|picks| - 1], now, lease);
      ClaimTimed(ClaimEach(s, picks[..|picks| - 1], now, lease), picks[|picks| - 1], now, lease);
    }
  }

  lemma SameTimes(s: State, t: State)
    requires Timed(s) && t.rows == s.rows && t.log == s.log
    ensures Timed(t)
  {
    forall id | id in t.rows ensures RowTimed(t, id) { assert RowTimed(s, id); }
  }

  lemma JudgeTimed(s: State, token: nat, at: int, max: nat)
    requires Timed(s) && token in s.claims && s.claims[token].sent.Some?
    ensures Timed(Judge(s, token, at, max))
  {
    var c, t := s.claims[token], s.(claims := s.claims - {token});
    SameTimes(s, t);
    if Owns(s.rows, c.id, token) {
      var due := NextAttempt(c.attempts + 1, at, max);
      if c.sent.value {
        TimedMore(t, Judge(s, token, at, max), Removed(c.id, token));
      } else {
        TimedMore(t, Judge(s, token, at, max), Failed(c.id, token, due == DEAD_HORIZON, due));
      }
    }
  }

  lemma SendTimed(s: State, token: nat, ok: bool, max: nat)
    requires Timed(s)
    ensures Timed(Apply(s, Send(token, ok), max))
  {
    if token in s.claims && s.claims[token].sent.None? && ok {
      TimedMore(s, Apply(s, Send(token, ok), max), Delivered(s.claims[token].report.id));
    } else {
      SameTimes(s, Apply(s, Send(token, ok), max));
    }
  }

  lemma ReviveTimed(s: State, reportId: string, at: int, max: nat)
    requires Timed(s)
    ensures Timed(Apply(s, Revive(reportId, at), max))
  {
    if Holds(s.rows, reportId) && ValidClock(at) {
      TimedMore(s, Apply(s, Revive(reportId, at), max), Revived(IdOf(s.rows, reportId), at));
    }
  }

  lemma ApplyTimed(s: State, a: Action, max: nat)
    requires Timed(s) && Inv(s, max) && max > 0
    ensures Timed(Apply(s, a, max))
  {
    match a
    case Enqueue(report, at) =>
      if ValidClock(at) {
        InsertTimed(s, report, at);
      }
    case Due(now, picks, lease) => if ValidClock(now) && lease > 0 { ClaimsTimed(s, picks, now, lease); }
    case Send(token, ok) => SendTimed(s, token, ok, max);
    case Verdict(token, at) =>
      if token in s.claims && s.claims[token].sent.Some? && ValidClock(at) { JudgeTimed(s, token, at, max); }
    case Crash(token) => SameTimes(s, Apply(s, a, max));
    case Revive(reportId, at) => ReviveTimed(s, reportId, at, max);
  }

  lemma {:induction false} RunTimed(actions: seq<Action>, max: nat)
    requires max > 0
    ensures Timed(Run(EMPTY, actions, max))
  {
    if actions == [] {
    } else {
      var front := actions[..|actions| - 1];
      RunTimed(front, max);
      EmptyIsFine(max);
      RunKeeps(EMPTY, front, max);
      ApplyTimed(Run(EMPTY, front, max), actions[|actions| - 1], max);
    }
  }

  // ----- what a claim finds -----

  /** Row `id` is free at `now`: due, and under no lease that still runs. */
  predicate Free(rows: map<nat, Row>, id: nat, now: int) {
    && id in rows && rows[id].nextAt <= now
    && (rows[id].leaseUntil == None || (rows[id].leaseUntil.Some? && rows[id].leaseUntil.value <= now))
  }

  /** Every claim that one statement hands out found its row free before the statement, and no two
      of them are for the same row. */
  lemma {:induction false} EachClaimFindsItsRowFree(s: State, picks: seq<nat>, now: int, lease: int, token: nat)
    requires lease > 0 && (forall t :: t in s.claims ==> t < s.nextToken)
    requires token in ClaimEach(s, picks, now, lease).claims && token !in s.claims
    ensures var t := ClaimEach(s, picks, now, lease);
      && Free(s.rows, t.claims[token].id, now) && t.claims[token].id in t.rows
      && t.rows[t.claims[token].id].leaseUntil == Some(now + lease)
    ensures forall other ::
      other in ClaimEach(s, picks, now, lease).claims && other !in s.claims && other != token ==>
      ClaimEach(s, picks, now, lease).claims[other].id != ClaimEach(s, picks, now, lease).claims[token].id
  {
    ClaimedRows(s, picks, now, lease);
  }

  ghost predicate Handed(s: State, t: State, now: int, lease: int) {
    && t.nextToken >= s.nextToken && t.rows.Keys == s.rows.Keys
    && (forall token :: token in t.claims && token !in s.claims ==> s.nextToken <= token < t.nextToken)
    && (forall token :: token in s.claims ==> token in t.claims)
    && (forall token :: token in t.claims && token !in s.claims ==>
          && Free(s.rows, t.claims[token].id, now)
          && t.rows[t.claims[token].id].leaseUntil == Some(now + lease)
          && t.rows[t.claims[token].id].token == Some(token))
    && (forall id :: id in s.rows ==> t.rows[id] == s.rows[id] || t.rows[id].leaseUntil == Some(now + lease))
  }

  lemma HandedMore(s: State, t: State, id: nat, now: int, lease: int)
    requires Handed(s, t, now, lease) && lease > 0 && (forall token :: token in s.claims ==> token < s.nextToken)
    ensures Handed(s, ClaimOne(t, id, now, lease), now, lease)
  {
    var u := ClaimOne(t, id, now, lease);
    if u != t {
      assert t.rows[id] == s.rows[id];
    }
  }

  lemma {:induction false} ClaimedRows(s: State, picks: seq<nat>, now: int, lease: int)
    requires lease > 0 && (forall t :: t in s.claims ==> t < s.nextToken)
    ensures Handed(s, ClaimEach(s, picks, now, lease), now, lease)
  {
    if picks == [] {
    } else {
      ClaimedRows(s, picks[..|picks| - 1], now, lease);
      HandedMore(s, ClaimEach(s, picks[..|picks| - 1], now, lease), picks[|picks| - 1], now, lease);
    }
  }

  /** In every run, whatever step hands out a claim is one that asks for due rows, and it finds the
      row due and under no running lease. */
  lemma ClaimsAreOfFreeRows(actions: seq<Action>, max: nat, a: Action, token: nat)
    requires max > 0
    requires token !in Run(EMPTY, actions, max).claims && token in Apply(Run(EMPTY, actions, max), a, max).claims
    ensures a.Due? && Free(Run(EMPTY, actions, max).rows, Apply(Run(EMPTY, actions, max), a, max).claims[token].id, a.now)
  {
    var s := Run(EMPTY, actions, max);
    EmptyIsFine(max);
    RunKeeps(EMPTY, actions, max);
    forall t | t in s.claims ensures t < s.nextToken { assert ClaimFine(s, t); }
    if a.Due? { ClaimedRows(s, a.picks, a.now, a.lease); }
  }

  // ----- leases exclude one another -----

  predicate Frees(e: Entry, id: nat) {
    (e.Failed? || e.Removed? || e.Revived? || e.Enqueued?) && e.id == id
  }

  /** Between the claim at `i` and place `j` nothing gave the row back. */
  ghost predicate KeptFrom(log: seq<Entry>, i: nat, j: nat)
    requires i < j <= |log| && log[i].Claimed?
  {
    forall k :: i < k < j ==> !Frees(log[k], log[i].id)
  }

  lemma {:induction false} LeaseRuns(log: seq<Entry>, i: nat, j: nat)
    requires ClaimsWaited(log) && i < j <= |log| && log[i].Claimed? && KeptFrom(log, i, j)
    ensures LeaseOf(log[..j], log[i].id).Some? && LeaseOf(log[..j], log[i].id).value >= log[i].until
    decreases j - i
  {
    var id := log[i].id;
    OneMore(log, j - 1);
    assert log[..j][..j - 1] == log[..j - 1];
    if j > i + 1 {
      LeaseRuns(log, i, j - 1);
      assert !Frees(log[j - 1], id);
      if log[j - 1].Claimed? { assert Waited(log[..j - 1], log[j - 1]); }
    }
  }

  /** In every run two claims of one row, with no failure, removal or revival of it between them,
      lie at least the lease of the first one apart. */
  lemma LeasesExclude(actions: seq<Action>, max: nat, i: nat, j: nat)
    requires max > 0
    requires var log := Run(EMPTY, actions, max).log;
      && i < j < |log| && log[i].Claimed? && log[j].Claimed? && log[j].id == log[i].id
      && (forall k :: i < k < j ==>
            !((log[k].Failed? || log[k].Removed? || log[k].Revived?) && log[k].id == log[i].id))
    ensures var log := Run(EMPTY, actions, max).log; log[j].at >= log[i].until > log[i].at
  {
    var log := Run(EMPTY, actions, max).log;
    RunTimed(actions, max);
    EnqueuedOnce(actions, max);
    assert KeptFrom(log, i, j) by {
      forall k | i < k < j ensures !Frees(log[k], log[i].id) { EnqueuedBefore(log, i, k); }
    }
    LeaseRuns(log, i, j);
    assert Waited(log[..j], log[j]) && Waited(log[..i], log[i]);
  }

  /** Nothing was told of row `id` so far. */
  ghost predicate NoneBefore(log: seq<Entry>, id: nat) {
    forall k :: 0 <= k < |log| && log[k].Claimed? ==> log[k].id != id
  }

  lemma EnqueuedBefore(log: seq<Entry>, i: nat, k: nat)
    requires IdsAreNew(log) && i < k < |log| && log[i].Claimed?
    ensures !(log[k].Enqueued? && log[k].id == log[i].id)
  {
    if log[k].Enqueued? { assert NoneBefore(log[..k], log[k].id) && log[..k][i] == log[i]; }
  }

  ghost predicate IdsAreNew(log: seq<Entry>) {
    forall k :: 0 <= k < |log| && log[k].Enqueued? ==> NoneBefore(log[..k], log[k].id)
  }

  /** A row is enqueued under a number of its own, before it is ever claimed. */
  lemma {:induction false} EnqueuedOnce(actions: seq<Action>, max: nat)
    requires max > 0
    ensures IdsAreNew(Run(EMPTY, actions, max).log)
  {
    if actions == [] {
    } else {
      var front, a := actions[..|actions| - 1], actions[|actions| - 1];
      var s := Run(EMPTY, front, max);
      EnqueuedOnce(front, max);
      EmptyIsFine(max);
      RunKeeps(EMPTY, front, max);
      if a.Due? {
        ClaimsAddClaims(s, a.picks, a.now, a.lease);
        NewMoreEach(s.log, Apply(s, a, max).log);
      } else if a.Enqueue? && ValidClock(a.at) {
        var t := s.log + [Accepted(a.report.id)];
        NewMore(s.log, Accepted(a.report.id));
        assert NoneBefore(t, s.nextId) by { assert TokensUsed(s); }
        NewMore(t, Enqueued(s.nextId, a.at));
      } else if Apply(s, a, max).log != s.log {
        var more := Apply(s, a, max).log;
        assert more == s.log + [more[|s.log|]];
        NewMore(s.log, more[|s.log|]);
      }
    }
  }

  lemma NewMore(log: seq<Entry>, e: Entry)
    requires IdsAreNew(log) && (e.Enqueued? ==> NoneBefore(log, e.id))
    ensures IdsAreNew(log + [e])
  {
    var more := log + [e];
    forall k | 0 <= k < |more| && more[k].Enqueued? ensures NoneBefore(more[..k], more[k].id) {
      assert more[..k] == log[..k];
      if k == |log| { assert log[..k] == log; }
    }
  }

  lemma {:induction false} ClaimsAddClaims(s: State, picks: seq<nat>, now: int, lease: int)
    ensures var log := ClaimEach(s, picks, now, lease).log;
      |log| >= |s.log| && log[..|s.log|] == s.log && forall k :: |s.log| <= k < |log| ==> log[k].Claimed?
  {
    if picks == [] {
    } else {
      ClaimsAddClaims(s, picks[..|picks| - 1], now, lease);
    }
  }

  lemma NewMoreEach(log: seq<Entry>, more: seq<Entry>)
    requires IdsAreNew(log) && |more| >= |log| && more[..|log|] == log
    requires forall k :: |log| <= k < |more| ==> more[k].Claimed?
    ensures IdsAreNew(more)
  {
    forall k | 0 <= k < |more| && more[k].Enqueued? ensures NoneBefore(more[..k], more[k].id) {
      assert more[k] == log[k] && more[..k] == log[..k];
    }
  }

  // ----- delays are kept -----

  predicate Schedules(e: Entry, id: nat) { (e.Failed? || e.Revived? || e.Enqueued?) && e.id == id }

  lemma {:induction false} DueStays(log: seq<Entry>, i: nat, j: nat, id: nat)
    requires i <= j <= |log| && forall k :: i <= k < j ==> !Schedules(log[k], id)
    ensures DueAt(log[..j], id) == DueAt(log[..i], id)
    decreases j - i
  {
    if i < j {
      DueStays(log, i, j - 1, id);
      assert log[..j][..j - 1] == log[..j - 1] && log[..j][j - 1] == log[j - 1];
    }
  }

  /** In every run a row that failed is not claimed again before the time its failure set, unless it
      failed again or was revived in between. */
  lemma DelaysAreKept(actions: seq<Action>, max: nat, i: nat, j: nat)
    requires max > 0
    requires var log := Run(EMPTY, actions, max).log;
      && i < j < |log| && log[i].Failed? && log[j].Claimed? && log[j].id == log[i].id
      && (forall k :: i < k < j ==> !Schedules(log[k], log[i].id))
    ensures var log := Run(EMPTY, actions, max).log; log[j].at >= log[i].due
  {
    var log := Run(EMPTY, actions, max).log;
    RunTimed(actions, max);
    DueStays(log, i + 1, j, log[i].id);
    assert log[..i + 1][..i] == log[..i];
    assert Waited(log[..j], log[j]);
  }

  /** The time a failure sets: the delay that goes with the number of failures so far, counted from
      the moment it is written down, or the end of time with the last attempt. */
  lemma FailuresAreRescheduled(actions: seq<Action>, max: nat, token: nat, at: int)
    requires max > 0
    ensures var s := Run(EMPTY, actions, max);
      var s' := Apply(s, Verdict(token, at), max);
      |s'.log| > |s.log| && s'.log[|s.log|].Failed? ==>
        var e := s'.log[|s.log|];
        var failures := Failures(s'.log, e.id);
        && e.token == token && s'.log == s.log + [e]
        && (if failures == max then e.buried && e.due == 253370764800000
            else failures < max && !e.buried && e.due == at + Delay(failures))
  {
    var s := Run(EMPTY, actions, max);
    EmptyIsFine(max);
    RunKeeps(EMPTY, actions, max);
    if token in s.claims && s.claims[token].sent.Some? && ValidClock(at) { VerdictReschedules(s, max, token, at); }
  }

  lemma VerdictReschedules(s: State, max: nat, token: nat, at: int)
    requires Inv(s, max) && max > 0 && token in s.claims && s.claims[token].sent.Some? && ValidClock(at)
    ensures var s' := Judge(s, token, at, max);
      |s'.log| > |s.log| && s'.log[|s.log|].Failed? ==>
        var e := s'.log[|s.log|];
        var failures := Failures(s'.log, e.id);
        && e.token == token && s'.log == s.log + [e]
        && (if failures == max then e.buried && e.due == 253370764800000
            else failures < max && !e.buried && e.due == at + Delay(failures))
  {
    var c := s.claims[token];
    assert ClaimFine(s, token);
    if Owns(s.rows, c.id, token) && !c.sent.value {
      var due := NextAttempt(c.attempts + 1, at, max);
      assert RowFine(s, c.id, max);
      LogMore(s.log, Failed(c.id, token, due == DEAD_HORIZON, due));
      DelayIsBackoff(c.attempts + 1);
      NextAttemptDecides(c.attempts + 1, at, max);
    }
  }

  /** Two seconds, four, eight, and so on up to five minutes. */
  function Delay(failures: nat): nat {
    if failures <= 1 then 2000
    else if Delay(failures - 1) * 2 > 300000 then 300000 else Delay(failures - 1) * 2
  }

  lemma {:induction false} DelayIsBackoff(failures: nat)
    requires failures > 0
    ensures Backoff(failures) == Delay(failures)
  {
    if failures == 1 {
      assert PowerOfTwo(1) == 2 * PowerOfTwo(0);
    } else {
      DelayIsBackoff(failures - 1);
      BackoffGrows(failures - 1);
      if failures >= 9 { BackoffGrows(failures); }
    }
  }
}
