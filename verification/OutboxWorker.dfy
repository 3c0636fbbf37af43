/** The queue and its worker as objects: backend/store/outbox.go and
    backend/outbox/outbox.go.

    Every method of `Queue` is one statement of the store and is proved to be one action of
    the protocol in `Outbox`; `Drain` is proved to take protocol actions only, with other
    workers acting between any two of its own statements. */
module OutboxWorker {
  import opened Ir
  import opened Outbox
  import opened Seqs

  datatype Lease = Lease(id: nat, report: Report, attempts: nat, token: nat)

  function EffectiveLimit(limit: int): nat { if limit <= 0 then DEFAULT_BATCH else limit }

  function EffectiveLease(lease: int): nat { if lease <= 0 then DEFAULT_LEASE else lease }

  /** What is not set, or not sensibly, has a default. */
  lemma DefaultsApply(n: int)
    ensures EffectiveLimit(n) == (if n >= 1 then n else 100) && EffectiveLease(n) == (if n >= 1 then n else 30000)
  {}

  /** `picks` are the earliest of the due rows, as many as allowed. */
  ghost predicate Earliest(rows: map<nat, Row>, now: int, limit: nat, picks: seq<nat>) {
    && |picks| <= limit
    && (forall k :: 0 <= k < |picks| ==> picks[k] in rows && IsDue(rows[picks[k]], now))
    && (forall i, j :: 0 <= i < j < |picks| ==> picks[i] != picks[j] && rows[picks[i]].nextAt <= rows[picks[j]].nextAt)
    && (forall id :: id in rows && IsDue(rows[id], now) && id !in picks ==>
          |picks| == limit && forall k :: 0 <= k < |picks| ==> rows[picks[k]].nextAt <= rows[id].nextAt)
  }

  class Queue {
    var rows: map<nat, Row>
    var nextId: nat
    var nextToken: nat
    var claims: map<nat, Claim>
    ghost var log: seq<Entry>

    ghost function Abs(): State
      reads this
    {
      State(rows, nextId, nextToken, claims, log)
    }

    constructor ()
      ensures Abs() == EMPTY
    {
      rows, nextId, nextToken, claims, log := map[], 0, 0, map[], [];
    }

    method Find(reportId: string) returns (found: Option<nat>)
      ensures found.Some? <==> Holds(rows, reportId)
      ensures found.Some? ==> found.value in rows && rows[found.value].report.id == reportId
    {
      var todo := rows.Keys;
      while todo != {}
        invariant todo <= rows.Keys
        invariant forall id :: id in rows && id !in todo ==> rows[id].report.id != reportId
        decreases todo
      {
        var id := Pick(todo);
        if rows[id].report.id == reportId {
          return Some(id);
        }
        todo := todo - {id};
      }
      found := None;
    }

    method Enqueue(report: Report, at: int)
      modifies this
      ensures Abs() == Insert(old(Abs()), report, at)
    {
      var found := Find(report.id);
      log := log + [Accepted(report.id)];
      if found.Some? {
        return;
      }
      rows := rows[nextId := Row(report, 0, at, None, None)];
      log := log + [Enqueued(nextId, at)];
      nextId := nextId + 1;
    }

    method Claim(id: nat, now: int, lease: int)
      modifies this
      ensures Abs() == ClaimOne(old(Abs()), id, now, lease)
    {
      if id !in rows || !IsDue(rows[id], now) {
        return;
      }
      var row := rows[id];
      rows := rows[id := row.(leaseUntil := Some(now + lease), token := Some(nextToken))];
      claims := claims[nextToken := Outbox.Claim.Claim(id, row.report, row.attempts, None)];
      log := log + [Claimed(id, nextToken, now, now + lease)];
      nextToken := nextToken + 1;
    }

    method ClaimAll(picks: seq<nat>, now: int, lease: int)
      modifies this
      ensures Abs() == ClaimEach(old(Abs()), picks, now, lease)
    {
      for k := 0 to |picks|
        invariant Abs() == ClaimEach(old(Abs()), picks[..k], now, lease)
      {
        assert picks[..k + 1][..k] == picks[..k];
        Claim(picks[k], now, lease);
      }
      assert picks[..|picks|] == picks;
    }

    /** The due row that comes first, out of those in `among`. */
    method FirstOf(among: set<nat>) returns (first: nat)
      requires among != {} && among <= rows.Keys
      ensures first in among && forall id :: id in among ==> rows[first].nextAt <= rows[id].nextAt
    {
      first := Pick(among);
      var todo := among;
      while todo != {}
        invariant todo <= among && first in among
        invariant forall id :: id in among && id !in todo ==> rows[first].nextAt <= rows[id].nextAt
        decreases todo
      {
        var id := Pick(todo);
        if rows[id].nextAt < rows[first].nextAt {
          first := id;
        }
        todo := todo - {id};
      }
    }

    method PickDue(now: int, limit: nat) returns (picks: seq<nat>)
      ensures Earliest(rows, now, limit, picks)
    {
      picks := [];
      var left := set id | id in rows && IsDue(rows[id], now);
      while left != {} && |picks| < limit
        invariant left <= rows.Keys && |picks| <= limit
        invariant forall id :: id in left ==> IsDue(rows[id], now) && id !in picks
        invariant forall k :: 0 <= k < |picks| ==> picks[k] in rows && IsDue(rows[picks[k]], now)
        invariant forall i, j :: 0 <= i < j < |picks| ==> picks[i] != picks[j] && rows[picks[i]].nextAt <= rows[picks[j]].nextAt
        invariant forall id :: id in rows && IsDue(rows[id], now) && id !in picks ==> id in left
        invariant forall id, k :: id in left && 0 <= k < |picks| ==> rows[picks[k]].nextAt <= rows[id].nextAt
        decreases left
      {
        var id := FirstOf(left);
        picks := picks + [id];
        left := left - {id};
      }
    }

    method Due(now: int, limit: int, lease: int) returns (leases: seq<Lease>, ghost picks: seq<nat>)
      requires ValidClock(now)
      modifies this
      ensures Earliest(old(rows), now, EffectiveLimit(limit), picks)
      ensures Abs() == ClaimEach(old(Abs()), picks, now, EffectiveLease(lease))
      ensures |leases| == |picks|
      ensures forall k :: 0 <= k < |leases| ==>
        var row := old(rows)[picks[k]];
        leases[k] == Lease(picks[k], row.report, row.attempts, old(nextToken) + k)
    {
      var chosen := PickDue(now, EffectiveLimit(limit));
      picks := chosen;
      var was, first := rows, nextToken;
      ClaimAll(chosen, now, EffectiveLease(lease));
      leases := seq(|chosen|, k requires 0 <= k < |chosen| && chosen[k] in was =>
        Lease(chosen[k], was[chosen[k]].report, was[chosen[k]].attempts, first + k));
    }

    /** The worker learns how the sending went. */
    method Mark(token: nat, ok: bool)
      requires token in claims && claims[token].sent.None?
      modifies this
      ensures var was := old(Abs());
        Abs() == was.(claims := was.claims[token := was.claims[token].(sent := Some(ok))],
                      log := if ok then was.log + [Delivered(was.claims[token].report.id)] else was.log)
    {
      log := if ok then log + [Delivered(claims[token].report.id)] else log;
      claims := claims[token := claims[token].(sent := Some(ok))];
    }

    /** Deletes the row, if the token still matches; `false` means the lease is lost. */
    method Done(id: nat, token: nat) returns (ok: bool)
      modifies this
      ensures var was := old(Abs());
        ok == Owns(was.rows, id, token) && Abs() == Remove(was.(claims := was.claims - {token}), id, token)
    {
      claims := claims - {token};
      ok := id in rows && rows[id].token == Some(token);
      if ok {
        rows := rows - {id};
        log := log + [Removed(id, token)];
      }
    }

    method Fail(id: nat, token: nat, nextAt: int) returns (ok: bool)
      modifies this
      ensures var was := old(Abs());
        && ok == Owns(was.rows, id, token)
        && Abs() == RecordFailure(was.(claims := was.claims - {token}), id, token, nextAt)
    {
      claims := claims - {token};
      ok := id in rows && rows[id].token == Some(token);
      if ok {
        var row := rows[id];
        rows := rows[id := row.(attempts := row.attempts + 1, nextAt := nextAt, leaseUntil := None, token := None)];
        log := log + [Failed(id, token, nextAt == DEAD_HORIZON, nextAt)];
      }
    }

    method Retry(id: nat, token: nat, nextAt: int) returns (ok: bool)
      modifies this
      ensures var was := old(Abs());
        && ok == Owns(was.rows, id, token)
        && Abs() == RecordFailure(was.(claims := was.claims - {token}), id, token, nextAt)
    {
      ok := Fail(id, token, nextAt);
    }

    method Bury(id: nat, token: nat) returns (ok: bool)
      modifies this
      ensures var was := old(Abs());
        && ok == Owns(was.rows, id, token)
        && Abs() == RecordFailure(was.(claims := was.claims - {token}), id, token, DEAD_HORIZON)
    {
      ok := Fail(id, token, DEAD_HORIZON);
    }

    /** `false` means there is no such report. */
    method Revive(reportId: string, at: int, ghost max: nat) returns (ok: bool)
      requires UniqueReports(rows) && ValidClock(at)
      modifies this
      ensures ok == Holds(old(rows), reportId) && Abs() == Apply(old(Abs()), Action.Revive(reportId, at), max)
    {
      var found := Find(reportId);
      ok := found.Some?;
      if ok {
        var id := found.value;
        assert id == IdOf(rows, reportId);
        rows := rows[id := ReviveRow(rows[id], at)];
        log := log + [Revived(id, at)];
      }
    }

    /** What a worker does with a claim of its own once the sending is over. */
    method Settle(token: nat, at: int, max: nat)
      requires token in claims && claims[token].sent.Some?
      modifies this
      ensures Abs() == Judge(old(Abs()), token, at, max)
    {
      var c := claims[token];
      var ok;
      if c.sent.value {
        ok := Done(c.id, token);
      } else {
        ok := Fail(c.id, token, NextAttempt(c.attempts + 1, at, max));
      }
    }

    /** A worker gives a claim up without a word to the store: the row stays leased. */
    method Forget(token: nat)
      modifies this
      ensures forall max :: Abs() == Apply(old(Abs()), Crash(token), max)
    {
      claims := claims - {token};
    }

    method Perform(a: Action, max: nat)
      requires UniqueReports(rows)
      modifies this
      ensures Abs() == Apply(old(Abs()), a, max)
    {
      match a
      case Enqueue(report, at) => if ValidClock(at) { Enqueue(report, at); }
      case Due(now, picks, lease) => if ValidClock(now) && lease > 0 { ClaimAll(picks, now, lease); }
      case Send(token, ok) => if token in claims && claims[token].sent.None? { Mark(token, ok); }
      case Verdict(token, at) =>
        if token in claims && claims[token].sent.Some? && ValidClock(at) { Settle(token, at, max); }
      case Crash(token) => Forget(token);
      case Revive(reportId, at) => if ValidClock(at) { var ok := Revive(reportId, at, max); }
    }
  }

  // ----- the worker -----

  /** How a statement of the store comes out: done, not done and reported so, or done with the
      answer lost on the way back. */
  datatype Reply = Works | Refused | AnswerLost

  /** What becomes of a report: `Lost` is what the log then says. */
  datatype Reported = Sent | Queued | Lost

  /** A report is sent at once, and queued when that fails.  It is lost exactly when both
      fail; and then it may be in the queue all the same, when only the answer got lost. */
  method SendOrQueue(q: Queue, report: Report, ok: bool, at: int, reply: Reply, ghost max: nat) returns (outcome: Reported)
    requires Inv(q.Abs(), max) && max > 0 && ValidClock(at)
    modifies q
    ensures q.Abs() == if ok || reply == Refused then old(q.Abs()) else Apply(old(q.Abs()), Action.Enqueue(report, at), max)
    ensures Inv(q.Abs(), max)
    ensures outcome == Lost <==> !ok && reply != Works
    ensures outcome == Sent <==> ok
    ensures outcome == Queued || (reply == AnswerLost && !ok) ==> Holds(q.rows, report.id) || WasDelivered(q.log, report.id)
  {
    if ok {
      return Sent;
    }
    if reply == Refused {
      return Lost;
    }
    ApplyKeeps(q.Abs(), Action.Enqueue(report, at), max);
    q.Enqueue(report, at);
    assert WasAccepted(q.log, report.id);
    outcome := if reply == Works then Queued else Lost;
  }

  /** Another worker never acts on a claim of ours. */
  predicate Touches(a: Action, mine: set<nat>) {
    (a.Send? || a.Verdict? || a.Crash?) && a.token in mine
  }

  /** What was done to the claims `mine`. */
  ghost function Ours(trace: seq<Action>, mine: set<nat>): seq<Action> {
    if trace == [] then []
    else Ours(trace[..|trace| - 1], mine) + (if Touches(trace[|trace| - 1], mine) then [trace[|trace| - 1]] else [])
  }

  lemma {:induction false} OursConcat(x: seq<Action>, y: seq<Action>, mine: set<nat>)
    ensures Ours(x + y, mine) == Ours(x, mine) + Ours(y, mine)
  {
    if y == [] {
      ConcatNothing(x);
    } else {
      ConcatFront(x, y);
      OursConcat(x, y[..|y| - 1], mine);
    }
  }

  lemma {:induction false} NoneOfOurs(trace: seq<Action>, mine: set<nat>)
    requires forall k :: 0 <= k < |trace| ==> !Touches(trace[k], mine)
    ensures Ours(trace, mine) == []
  {
    if trace == [] {
    } else {
      NoneOfOurs(trace[..|trace| - 1], mine);
    }
  }

  lemma OursOne(a: Action, mine: set<nat>)
    ensures Ours([a], mine) == if Touches(a, mine) then [a] else []
  {
    assert [a][..0] == [];
  }

  lemma {:induction false} RunConcat(s: State, x: seq<Action>, y: seq<Action>, max: nat)
    ensures Run(s, x + y, max) == Run(Run(s, x, max), y, max)
  {
    if y == [] {
      assert x + y == x;
    } else {
      assert (x + y)[..|x + y| - 1] == x + y[..|y| - 1];
      RunConcat(s, x, y[..|y| - 1], max);
    }
  }

  lemma RunOne(s: State, a: Action, max: nat)
    ensures Run(s, [a], max) == Apply(s, a, max)
  {
    assert [a][..0] == [];
    assert Run(s, [], max) == s;
  }

  /** Our claims are as we left them. */
  ghost predicate Kept(s: State, mine: map<nat, Claim>) {
    forall token :: token in mine ==> token in s.claims && s.claims[token] == mine[token]
  }

  lemma {:induction false} ClaimEachAdds(s: State, picks: seq<nat>, now: int, lease: int)
    ensures var t := ClaimEach(s, picks, now, lease);
      && s.nextToken <= t.nextToken
      && forall token :: token in s.claims && token < s.nextToken ==> token in t.claims && t.claims[token] == s.claims[token]
  {
    if picks == [] {
    } else {
      ClaimEachAdds(s, picks[..|picks| - 1], now, lease);
    }
  }

  lemma ForeignKeeps(s: State, a: Action, mine: map<nat, Claim>, max: nat)
    requires Inv(s, max) && Kept(s, mine) && !Touches(a, mine.Keys)
    ensures Kept(Apply(s, a, max), mine)
  {
    forall token | token in mine
      ensures token in Apply(s, a, max).claims && Apply(s, a, max).claims[token] == mine[token]
    {
      assert ClaimFine(s, token);
      match a
      case Due(now, picks, lease) => ClaimEachAdds(s, picks, now, lease);
      case _ =>
    }
  }

  /** Everybody else gets a turn. */
  method Interfere(q: Queue, script: seq<Action>, mine: set<nat>, ghost held: map<nat, Claim>, max: nat)
    returns (ghost trace: seq<Action>)
    requires Inv(q.Abs(), max) && max > 0 && held.Keys <= mine && Kept(q.Abs(), held)
    modifies q
    ensures q.Abs() == Run(old(q.Abs()), trace, max)
    ensures Inv(q.Abs(), max) && Kept(q.Abs(), held)
    ensures forall k :: 0 <= k < |trace| ==> !Touches(trace[k], mine)
  {
    trace := [];
    for k := 0 to |script|
      invariant q.Abs() == Run(old(q.Abs()), trace, max)
      invariant Inv(q.Abs(), max) && Kept(q.Abs(), held)
      invariant forall i :: 0 <= i < |trace| ==> !Touches(trace[i], mine)
    {
      var a := script[k];
      if !Touches(a, mine) {
        ApplyKeeps(q.Abs(), a, max);
        ForeignKeeps(q.Abs(), a, held, max);
        q.Perform(a, max);
        assert (trace + [a])[..|trace|] == trace;
        trace := trace + [a];
      }
    }
  }

  /** What one round of the worker meets: clock readings, sending outcomes, how each statement
      of the store comes out, the moment it is told to stop, and what the other workers do
      meanwhile. */
  datatype Round = Round(
    now: int, clock: nat -> int, sent: nat -> bool, dueReply: Reply, replies: nat -> Reply, stopAfter: nat,
    others: nat -> seq<Action>)

  ghost predicate Ticks(env: Round) { ValidClock(env.now) && forall k :: ValidClock(env.clock(k)) }

  function ClaimOf(e: Lease): Claim { Outbox.Claim.Claim(e.id, e.report, e.attempts, None) }

  function Tokens(first: nat, n: nat): (tokens: set<nat>)
    ensures forall t: nat :: t in tokens <==> first <= t < first + n
  {
    if n == 0 then {} else Tokens(first, n - 1) + {first + n - 1}
  }

  /** The claims of the entries from `k` on. */
  function Unsettled(leases: seq<Lease>, first: nat, k: nat): (held: map<nat, Claim>)
    requires k <= |leases|
    ensures forall t: nat :: t in held <==> first + k <= t < first + |leases|
    ensures forall t: nat :: t in held ==> held[t] == ClaimOf(leases[t - first])
    decreases |leases| - k
  {
    if k == |leases| then map[] else Unsettled(leases, first, k + 1)[first + k := ClaimOf(leases[k])]
  }

  /** The tokens this round drew are its own, and still hold what `Due` returned. */
  ghost predicate Mine(s: State, leases: seq<Lease>, first: nat, k: nat) {
    && (forall i :: 0 <= i < |leases| ==> leases[i].token == first + i)
    && k <= |leases| && Kept(s, Unsettled(leases, first, k))
  }

  lemma {:induction false} ClaimEachHandsOver(s: State, picks: seq<nat>, now: int, lease: int, k: nat)
    requires lease > 0 && k < |picks|
    requires forall k :: 0 <= k < |picks| ==> picks[k] in s.rows && IsDue(s.rows[picks[k]], now)
    requires forall i, j :: 0 <= i < j < |picks| ==> picks[i] != picks[j]
    ensures var t, token := ClaimEach(s, picks, now, lease), s.nextToken + k;
      && token in t.claims
      && t.claims[token] == Outbox.Claim.Claim(picks[k], s.rows[picks[k]].report, s.rows[picks[k]].attempts, None)
  {
    var n := |picks| - 1;
    ClaimEachLeaves(s, picks[..n], now, lease, picks[n]);
    if k < n { ClaimEachHandsOver(s, picks[..n], now, lease, k); }
  }

  lemma {:induction false} ClaimEachLeaves(s: State, picks: seq<nat>, now: int, lease: int, id: nat)
    requires lease > 0 && id in s.rows && id !in picks
    requires forall k :: 0 <= k < |picks| ==> picks[k] in s.rows && IsDue(s.rows[picks[k]], now)
    requires forall i, j :: 0 <= i < j < |picks| ==> picks[i] != picks[j]
    ensures var t := ClaimEach(s, picks, now, lease);
      t.nextToken == s.nextToken + |picks| && id in t.rows && t.rows[id] == s.rows[id]
  {
    if picks == [] {
    } else {
      var n := |picks| - 1;
      ClaimEachLeaves(s, picks[..n], now, lease, id);
      ClaimEachLeaves(s, picks[..n], now, lease, picks[n]);
    }
  }

  lemma DueHandsOver(s: State, picks: seq<nat>, now: int, lease: int, leases: seq<Lease>)
    requires lease > 0 && |leases| == |picks|
    requires forall k :: 0 <= k < |picks| ==> picks[k] in s.rows && IsDue(s.rows[picks[k]], now)
    requires forall i, j :: 0 <= i < j < |picks| ==> picks[i] != picks[j]
    requires forall k :: 0 <= k < |leases| ==>
      leases[k] == Lease(picks[k], s.rows[picks[k]].report, s.rows[picks[k]].attempts, s.nextToken + k)
    ensures Mine(ClaimEach(s, picks, now, lease), leases, s.nextToken, 0)
  {
    var t, held := ClaimEach(s, picks, now, lease), Unsettled(leases, s.nextToken, 0);
    forall token | token in held ensures token in t.claims && t.claims[token] == held[token] {
      ClaimEachHandsOver(s, picks, now, lease, token - s.nextToken);
      assert leases[token - s.nextToken].token == token;
    }
  }

  lemma OneStep(s: State, a: Action, max: nat)
    requires Inv(s, max) && max > 0
    ensures Run(s, [a], max) == Apply(s, a, max) && Inv(Apply(s, a, max), max)
  {
    RunOne(s, a, max);
    ApplyKeeps(s, a, max);
  }

  /** The first thing a round does is to claim the earliest due rows, as many as the batch allows. */
  ghost predicate ClaimsEarliest(
      trace: seq<Action>, leases: seq<Lease>, rows: map<nat, Row>, first: nat, now: int, batch: int, lease: int)
  {
    && trace != [] && trace[0].Due? && trace[0].now == now && trace[0].lease == EffectiveLease(lease)
    && Earliest(rows, now, EffectiveLimit(batch), trace[0].picks) && |leases| == |trace[0].picks|
    && forall k :: 0 <= k < |leases| ==>
         var id := trace[0].picks[k];
         id in rows && leases[k] == Lease(id, rows[id].report, rows[id].attempts, first + k)
  }

  /** Claims what is due. */
  method ClaimBatch(q: Queue, max: nat, batch: int, lease: int, now: int)
    returns (leases: seq<Lease>, first: nat, ghost trace: seq<Action>)
    requires Inv(q.Abs(), max) && max > 0 && ValidClock(now)
    modifies q
    ensures q.Abs() == Run(old(q.Abs()), trace, max) && |leases| <= EffectiveLimit(batch)
    ensures Inv(q.Abs(), max) && Mine(q.Abs(), leases, first, 0)
    ensures |trace| == 1 && first == old(q.nextToken)
    ensures ClaimsEarliest(trace, leases, old(q.rows), first, now, batch, lease)
  {
    ghost var was := q.Abs();
    first := q.nextToken;
    ghost var picks;
    leases, picks := q.Due(now, batch, lease);
    ghost var due := Action.Due(now, picks, EffectiveLease(lease));
    trace := [due];
    OneStep(was, due, max);
    DueHandsOver(was, picks, now, EffectiveLease(lease), leases);
  }

  /** Whatever was claimed is given up unseen. */
  method ForgetAll(q: Queue, leases: seq<Lease>, max: nat) returns (ghost trace: seq<Action>)
    requires Inv(q.Abs(), max) && max > 0
    modifies q
    ensures q.Abs() == Run(old(q.Abs()), trace, max) && Inv(q.Abs(), max)
  {
    trace := [];
    for k := 0 to |leases|
      invariant q.Abs() == Run(old(q.Abs()), trace, max) && Inv(q.Abs(), max)
    {
      ghost var was := q.Abs();
      OneStep(was, Crash(leases[k].token), max);
      RunConcat(old(q.Abs()), trace, [Crash(leases[k].token)], max);
      q.Forget(leases[k].token);
      trace := trace + [Crash(leases[k].token)];
    }
  }

  /** Claims what is due, as far as the store lets on. */
  method TryClaimBatch(q: Queue, max: nat, batch: int, lease: int, now: int, reply: Reply)
    returns (leases: seq<Lease>, first: nat, ghost trace: seq<Action>)
    requires Inv(q.Abs(), max) && max > 0 && ValidClock(now)
    modifies q
    ensures q.Abs() == Run(old(q.Abs()), trace, max) && |leases| <= EffectiveLimit(batch)
    ensures Inv(q.Abs(), max) && Mine(q.Abs(), leases, first, 0)
    ensures reply != Works ==> leases == []
    ensures reply == Refused ==> q.Abs() == old(q.Abs())
    ensures reply == Works ==>
      |trace| == 1 && first == old(q.nextToken) && ClaimsEarliest(trace, leases, old(q.rows), first, now, batch, lease)
  {
    if reply == Refused {
      return [], 0, [];
    }
    leases, first, trace := ClaimBatch(q, max, batch, lease, now);
    if reply == AnswerLost {
      ghost var forgotten;
      forgotten := ForgetAll(q, leases, max);
      RunConcat(old(q.Abs()), trace, forgotten, max);
      leases, trace := [], trace + forgotten;
    }
  }

  function Successes(sent: nat -> bool, n: nat): nat {
    if n == 0 then 0 else Successes(sent, n - 1) + (if sent(n - 1) then 1 else 0)
  }

  /** A count of the sendings that worked. */
  lemma {:induction false} SuccessesCount(sent: nat -> bool, n: nat)
    ensures Successes(sent, n) == |set k: nat | k < n && sent(k)|
  {
    if n == 0 {
      assert (set k: nat | k < n && sent(k)) == {};
    } else {
      SuccessesCount(sent, n - 1);
      var was := set k: nat | k < n - 1 && sent(k);
      assert (set k: nat | k < n && sent(k)) == was + (if sent(n - 1) then {n - 1} else {});
    }
  }

  /** What a round does to one claim: the report is sent, and what came of it written down, unless
      the store refuses that; then the claim is left to its lease. */
  ghost function EntrySteps(token: nat, env: Round, k: nat): seq<Action> {
    [Send(token, env.sent(k)), if env.replies(k).Refused? then Crash(token) else Verdict(token, env.clock(k))]
  }

  ghost function OwnSteps(first: nat, env: Round, n: nat): seq<Action> {
    if n == 0 then [] else OwnSteps(first, env, n - 1) + EntrySteps(first + n - 1, env, n - 1)
  }

  /** One round: claim what is due, send each, and write the verdict back.  All it does to
      the queue are protocol actions, interleaved with those of others, whatever becomes of
      its statements; to its own claims it does just that, one after the other until it is told
      to stop; and it returns how many reports it delivered. */
  method Drain(q: Queue, max: nat, batch: int, lease: int, env: Round)
    returns (sent: nat, handled: nat, ghost claimed: seq<Lease>, ghost trace: seq<Action>)
    requires Inv(q.Abs(), max) && max > 0 && Ticks(env)
    modifies q
    ensures q.Abs() == Run(old(q.Abs()), trace, max)
    ensures Inv(q.Abs(), max)
    ensures env.dueReply != Works ==> claimed == []
    ensures env.dueReply == Works ==>
      ClaimsEarliest(trace, claimed, old(q.rows), old(q.nextToken), env.now, batch, lease)
    ensures handled == if |claimed| < env.stopAfter then |claimed| else env.stopAfter
    ensures Ours(trace, Tokens(old(q.nextToken), |claimed|)) == OwnSteps(old(q.nextToken), env, handled)
    ensures sent == |set k: nat | k < handled && env.sent(k)|
  {
    ghost var was := q.Abs();
    var leases, first;
    ghost var due;
    leases, first, due := TryClaimBatch(q, max, batch, lease, env.now, env.dueReply);
    claimed := leases;
    sent, handled, trace := HandleAll(q, max, leases, first, env);
    SuccessesCount(env.sent, handled);
    ClaimedFirst(was, due, trace, Tokens(old(q.nextToken), |leases|), max);
    trace := due + trace;
  }

  lemma ClaimedFirst(was: State, due: seq<Action>, trace: seq<Action>, mine: set<nat>, max: nat)
    requires mine == {} || (|due| == 1 && due[0].Due?)
    ensures Run(was, due + trace, max) == Run(Run(was, due, max), trace, max)
    ensures Ours(due + trace, mine) == Ours(trace, mine) && (due != [] ==> (due + trace)[0] == due[0])
  {
    Onwards(was, due, trace, mine, max);
    NoneOfOurs(due, mine);
    ConcatNothing(Ours(trace, mine));
  }

  /** The round so far: a run of the protocol in which the first `n` claims were dealt with. */
  ghost predicate Account(
      s: State, was: State, trace: seq<Action>, mine: set<nat>, first: nat, env: Round, n: nat, max: nat)
  {
    s == Run(was, trace, max) && Inv(s, max) && Ours(trace, mine) == OwnSteps(first, env, n)
  }

  /** Handles one entry after the other, with others acting in between. */
  method HandleAll(q: Queue, max: nat, leases: seq<Lease>, first: nat, env: Round)
    returns (sent: nat, handled: nat, ghost trace: seq<Action>)
    requires Inv(q.Abs(), max) && max > 0 && Ticks(env) && Mine(q.Abs(), leases, first, 0)
    modifies q
    ensures Account(q.Abs(), old(q.Abs()), trace, Tokens(first, |leases|), first, env, handled, max)
    ensures handled == if |leases| < env.stopAfter then |leases| else env.stopAfter
    ensures sent == Successes(env.sent, handled)
  {
    ghost var was := q.Abs();
    var mine := Tokens(first, |leases|);
    sent, handled, trace := 0, 0, [];
    for k := 0 to |leases|
      invariant Account(q.Abs(), was, trace, mine, first, env, k, max) && Mine(q.Abs(), leases, first, k)
      invariant handled == k <= env.stopAfter && sent == Successes(env.sent, k)
    {
      trace := HandleNext(q, env, k, leases, first, mine, max, was, trace);
      if k >= env.stopAfter {
        return;
      }
      handled := handled + 1;
      if env.sent(k) {
        sent := sent + 1;
      }
    }
  }

  /** One more entry, as one more stretch of the round. */
  method HandleNext(
      q: Queue, env: Round, k: nat, leases: seq<Lease>, first: nat, mine: set<nat>, max: nat,
      ghost was: State, ghost before: seq<Action>)
    returns (ghost trace: seq<Action>)
    requires max > 0 && Ticks(env) && k < |leases| && mine == Tokens(first, |leases|)
    requires Account(q.Abs(), was, before, mine, first, env, k, max) && Mine(q.Abs(), leases, first, k)
    modifies q
    ensures Account(q.Abs(), was, trace, mine, first, env, if k < env.stopAfter then k + 1 else k, max)
    ensures k < env.stopAfter ==> Mine(q.Abs(), leases, first, k + 1)
  {
    ghost var mid := q.Abs();
    ghost var steps;
    steps := HandleStep(q, env, k, leases, first, mine, max);
    Stretch(was, before, mid, steps, mine, max, first, env, k);
    trace := before + steps;
  }

  lemma OwnMore(x: seq<Action>, y: seq<Action>, first: nat, env: Round, k: nat)
    requires x == OwnSteps(first, env, k)
    requires y == if k < env.stopAfter then EntrySteps(first + k, env, k) else []
    ensures x + y == OwnSteps(first, env, if k < env.stopAfter then k + 1 else k)
  {
    ConcatNothing(x);
  }

  lemma Stretch(
      was: State, before: seq<Action>, mid: State, steps: seq<Action>, mine: set<nat>, max: nat, first: nat, env: Round, k: nat)
    requires mid == Run(was, before, max) && Ours(before, mine) == OwnSteps(first, env, k)
    requires Ours(steps, mine) == if k < env.stopAfter then EntrySteps(first + k, env, k) else []
    ensures Run(mid, steps, max) == Run(was, before + steps, max)
    ensures Ours(before + steps, mine) == OwnSteps(first, env, if k < env.stopAfter then k + 1 else k)
  {
    Onwards(was, before, steps, mine, max);
    OwnMore(Ours(before, mine), Ours(steps, mine), first, env, k);
  }

  /** Others act, and then the entry is handled, unless the worker was told to stop. */
  method HandleStep(q: Queue, env: Round, k: nat, leases: seq<Lease>, first: nat, mine: set<nat>, max: nat)
    returns (ghost trace: seq<Action>)
    requires Inv(q.Abs(), max) && max > 0 && Ticks(env) && k < |leases| && Mine(q.Abs(), leases, first, k)
    requires mine == Tokens(first, |leases|)
    modifies q
    ensures q.Abs() == Run(old(q.Abs()), trace, max) && Inv(q.Abs(), max)
    ensures k < env.stopAfter ==> Mine(q.Abs(), leases, first, k + 1)
    ensures Ours(trace, mine) == if k < env.stopAfter then EntrySteps(first + k, env, k) else []
  {
    ghost var was := q.Abs();
    trace := Interfere(q, env.others(2 * k), mine, Unsettled(leases, first, k), max);
    NoneOfOurs(trace, mine);
    if k < env.stopAfter {
      ghost var step;
      step := HandleEntry(q, env, k, leases, first, mine, max);
      Onwards(was, trace, step, mine, max);
      trace := trace + step;
    }
  }

  lemma Onwards(was: State, trace: seq<Action>, more: seq<Action>, mine: set<nat>, max: nat)
    ensures Run(was, trace + more, max) == Run(Run(was, trace, max), more, max)
    ensures Ours(trace + more, mine) == Ours(trace, mine) + Ours(more, mine)
  {
    RunConcat(was, trace, more, max);
    OursConcat(trace, more, mine);
  }

  /** Sends one report and writes the verdict, with others acting in between. */
  method HandleEntry(q: Queue, env: Round, k: nat, leases: seq<Lease>, first: nat, mine: set<nat>, max: nat)
    returns (ghost trace: seq<Action>)
    requires Inv(q.Abs(), max) && max > 0 && Ticks(env) && k < |leases| && Mine(q.Abs(), leases, first, k)
    requires mine == Tokens(first, |leases|)
    modifies q
    ensures q.Abs() == Run(old(q.Abs()), trace, max)
    ensures Inv(q.Abs(), max) && Mine(q.Abs(), leases, first, k + 1)
    ensures Ours(trace, mine) == EntrySteps(first + k, env, k)
  {
    ghost var was := q.Abs();
    var e, ok := leases[k], env.sent(k);
    ghost var held := Unsettled(leases, first, k);
    assert e.token in held && held[e.token] == ClaimOf(e);
    SendReport(q, e, ok, held, max);
    held := held[e.token := ClaimOf(e).(sent := Some(ok))];
    ghost var others;
    others := Interfere(q, env.others(2 * k + 1), mine, held, max);
    RunConcat(was, [Send(e.token, ok)], others, max);
    assert e.token in held;
    WriteVerdict(q, e, ok, env.clock(k), env.replies(k), held, max);
    ghost var last := VerdictStep(e.token, env.clock(k), env.replies(k));
    RunConcat(was, [Send(e.token, ok)] + others, [last], max);
    trace := [Send(e.token, ok)] + others + [last];
    EntryIsOurs(others, leases, first, env, k);
    KeptOnwards(q.Abs(), leases, first, k, held);
  }

  lemma EntryIsOurs(others: seq<Action>, leases: seq<Lease>, first: nat, env: Round, k: nat)
    requires k < |leases| && leases[k].token == first + k
    requires forall i :: 0 <= i < |others| ==> !Touches(others[i], Tokens(first, |leases|))
    ensures var token := leases[k].token;
      Ours([Send(token, env.sent(k))] + others + [VerdictStep(token, env.clock(k), env.replies(k))],
           Tokens(first, |leases|))
      == EntrySteps(first + k, env, k)
  {
    var token := first + k;
    OursAround(Send(token, env.sent(k)), others, VerdictStep(token, env.clock(k), env.replies(k)), Tokens(first, |leases|));
  }

  lemma OursAround(a: Action, others: seq<Action>, b: Action, mine: set<nat>)
    requires Touches(a, mine) && Touches(b, mine) && forall k :: 0 <= k < |others| ==> !Touches(others[k], mine)
    ensures Ours([a] + others + [b], mine) == [a, b]
  {
    OursConcat([a] + others, [b], mine);
    OursConcat([a], others, mine);
    NoneOfOurs(others, mine);
    OursOne(a, mine);
    OursOne(b, mine);
  }

  lemma KeptOnwards(s: State, leases: seq<Lease>, first: nat, k: nat, held: map<nat, Claim>)
    requires k < |leases| && (forall i :: 0 <= i < |leases| ==> leases[i].token == first + i)
    requires held.Keys == Unsettled(leases, first, k).Keys && Kept(s, held - {leases[k].token})
    requires forall t :: t in held && t != leases[k].token ==> held[t] == Unsettled(leases, first, k)[t]
    ensures Mine(s, leases, first, k + 1)
  {
    var rest := Unsettled(leases, first, k + 1);
    forall t | t in rest ensures t in s.claims && s.claims[t] == rest[t] {
      assert t in held - {leases[k].token};
    }
  }

  method SendReport(q: Queue, e: Lease, ok: bool, ghost held: map<nat, Claim>, max: nat)
    requires Inv(q.Abs(), max) && max > 0 && Kept(q.Abs(), held) && e.token in held && held[e.token] == ClaimOf(e)
    modifies q
    ensures q.Abs() == Run(old(q.Abs()), [Send(e.token, ok)], max) && Inv(q.Abs(), max)
    ensures Kept(q.Abs(), held[e.token := ClaimOf(e).(sent := Some(ok))])
  {
    OneStep(q.Abs(), Send(e.token, ok), max);
    q.Mark(e.token, ok);
  }

  /** A verdict the store refuses leaves the row to its lease, as a crash of the worker would. */
  function VerdictStep(token: nat, at: int, reply: Reply): Action {
    if reply == Refused then Crash(token) else Verdict(token, at)
  }

  method WriteVerdict(q: Queue, e: Lease, ok: bool, at: int, reply: Reply, ghost held: map<nat, Claim>, max: nat)
    requires Inv(q.Abs(), max) && max > 0 && Kept(q.Abs(), held) && ValidClock(at)
    requires e.token in held && held[e.token] == ClaimOf(e).(sent := Some(ok))
    modifies q
    ensures q.Abs() == Run(old(q.Abs()), [VerdictStep(e.token, at, reply)], max) && Inv(q.Abs(), max)
    ensures Kept(q.Abs(), held - {e.token})
    ensures reply == Refused ==> q.rows == old(q.rows)
  {
    OneStep(q.Abs(), VerdictStep(e.token, at, reply), max);
    if reply == Refused {
      q.Forget(e.token);
      return;
    }
    var attempts, kept := e.attempts + 1, true;
    if ok {
      kept := q.Done(e.id, e.token);
    } else if attempts >= max {
      kept := q.Bury(e.id, e.token);
    } else {
      kept := q.Retry(e.id, e.token, at + Backoff(attempts));
    }
  }
}
