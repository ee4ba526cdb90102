/**
 * The daily sweep of relance-trial: one pass over the trial-status
 * pharmacies that expires the overdue ones, reminds those at J-7, J-3 and
 * J-1, and counts what it did.
 *
 * The datastore and the email provider are parameters: the fetched rows come
 * in as a value, the status updates come out as the sequence of ids marked
 * "expired", and `delivered(i)` is the provider's answer to the message posted
 * for the i-th account (consulted only when a message is actually posted).
 */
module TrialSweep {
  import opened Wrappers
  import opened TrialPolicy
  import opened Notification

  /** One `sendEmail` call made for the account at position `index`. */
  datatype Attempt = Attempt(index: nat, kind: EmailKind, days: int, dispatch: Dispatch)

  /**
   * Everything a sweep does: the three counters, the ids whose status it set
   * to "expired" (in order), and its `sendEmail` calls (in order).
   */
  datatype Run = Run(sent: nat, expired: nat, errors: nat, marked: seq<string>, attempts: seq<Attempt>)

  /** The results object before the first account: all counters at 0. */
  const Start: Run := Run(0, 0, 0, [], [])

  /** The template and day count passed to `sendEmail` for an account that gets mail. */
  function AttemptFor(now: int, apiKey: string, delivered: nat -> bool, i: nat, ph: Account): Attempt
    requires Decide(now, ph) != NoAction
  {
    if Decide(now, ph) == Expire then
      Attempt(i, Expiration, 0, SendEmail(apiKey, ph, Expiration, 0, delivered(i)))
    else
      var days := Decide(now, ph).days;
      Attempt(i, TrialReminder, days, SendEmail(apiKey, ph, TrialReminder, days, delivered(i)))
  }

  /** Whether the reminder for the i-th account went through. */
  predicate ReminderDelivered(now: int, apiKey: string, delivered: nat -> bool, i: nat, ph: Account)
  {
    Decide(now, ph).Remind? && AttemptFor(now, apiKey, delivered, i, ph).dispatch.ok
  }

  /**
   * What the loop body does with the i-th account. An expiring account is
   * marked and counted whatever becomes of its email; a reminded account
   * raises exactly one of `sent` and `errors`, `sent` when the email went
   * through; any other account changes nothing.
   */
  function Step(now: int, apiKey: string, delivered: nat -> bool, r: Run, i: nat, ph: Account): (s: Run)
    ensures s.expired == r.expired + (if Decide(now, ph) == Expire then 1 else 0)
    ensures s.sent == r.sent + (if ReminderDelivered(now, apiKey, delivered, i, ph) then 1 else 0)
    ensures s.sent + s.errors == r.sent + r.errors + (if Decide(now, ph).Remind? then 1 else 0)
    ensures s.marked == r.marked + (if Decide(now, ph) == Expire then [ph.id] else [])
    ensures Decide(now, ph) == NoAction ==> s == r
    ensures Decide(now, ph) != NoAction ==>
      s.attempts == r.attempts + [AttemptFor(now, apiKey, delivered, i, ph)]
  {
    match Decide(now, ph)
    case Expire =>
      r.(expired := r.expired + 1, marked := r.marked + [ph.id],
         attempts := r.attempts + [AttemptFor(now, apiKey, delivered, i, ph)])
    case Remind(_) =>
      var a := AttemptFor(now, apiKey, delivered, i, ph);
      if a.dispatch.ok then r.(sent := r.sent + 1, attempts := r.attempts + [a])
      else r.(errors := r.errors + 1, attempts := r.attempts + [a])
    case NoAction => r
  }

  /** The sweep over `pharmacies`, account by account from the first. */
  function SweepSpec(now: int, apiKey: string, delivered: nat -> bool, pharmacies: seq<Account>): Run
    decreases |pharmacies|
  {
    if pharmacies == [] then Start
    else
      var n := |pharmacies| - 1;
      Step(now, apiKey, delivered, SweepSpec(now, apiKey, delivered, pharmacies[..n]), n, pharmacies[n])
  }

  /** Positions of the accounts whose trial is over (days < 0). */
  ghost function ExpiringAt(now: int, pharmacies: seq<Account>): set<nat>
  {
    set i: nat | i < |pharmacies| && Decide(now, pharmacies[i]) == Expire
  }

  /** Positions of the accounts due a reminder (days in {7, 3, 1}). */
  ghost function RemindingAt(now: int, pharmacies: seq<Account>): set<nat>
  {
    set i: nat | i < |pharmacies| && Decide(now, pharmacies[i]).Remind?
  }

  /** Positions of the accounts whose reminder went through. */
  ghost function DeliveredAt(now: int, apiKey: string, delivered: nat -> bool, pharmacies: seq<Account>): set<nat>
  {
    set i: nat | i < |pharmacies| && ReminderDelivered(now, apiKey, delivered, i, pharmacies[i])
  }

  /** After a sweep, `expired` is the number of accounts with days < 0. */
  lemma {:induction false} SweepExpiredCount(now: int, apiKey: string, delivered: nat -> bool, pharmacies: seq<Account>)
    ensures SweepSpec(now, apiKey, delivered, pharmacies).expired == |ExpiringAt(now, pharmacies)|
    decreases |pharmacies|
  {
    if pharmacies == [] {
      assert ExpiringAt(now, pharmacies) == {};
    } else {
      var n := |pharmacies| - 1;
      var p := pharmacies[..n];
      SweepExpiredCount(now, apiKey, delivered, p);
      assert forall i :: 0 <= i < n ==> p[i] == pharmacies[i];
      AddLast(ExpiringAt(now, p), ExpiringAt(now, pharmacies), n, Decide(now, pharmacies[n]) == Expire);
    }
  }

  /** After a sweep, `sent + errors` is the number of accounts with days in {7, 3, 1}. */
  lemma {:induction false} SweepReminderCount(now: int, apiKey: string, delivered: nat -> bool, pharmacies: seq<Account>)
    ensures SweepSpec(now, apiKey, delivered, pharmacies).sent + SweepSpec(now, apiKey, delivered, pharmacies).errors
            == |RemindingAt(now, pharmacies)|
    decreases |pharmacies|
  {
    if pharmacies == [] {
      assert RemindingAt(now, pharmacies) == {};
    } else {
      var n := |pharmacies| - 1;
      var p := pharmacies[..n];
      SweepReminderCount(now, apiKey, delivered, p);
      assert forall i :: 0 <= i < n ==> p[i] == pharmacies[i];
      AddLast(RemindingAt(now, p), RemindingAt(now, pharmacies), n, Decide(now, pharmacies[n]).Remind?);
    }
  }

  /** After a sweep, `sent` is the number of reminders that went through. */
  lemma {:induction false} SweepSentCount(now: int, apiKey: string, delivered: nat -> bool, pharmacies: seq<Account>)
    ensures SweepSpec(now, apiKey, delivered, pharmacies).sent == |DeliveredAt(now, apiKey, delivered, pharmacies)|
    decreases |pharmacies|
  {
    if pharmacies == [] {
      assert DeliveredAt(now, apiKey, delivered, pharmacies) == {};
    } else {
      var n := |pharmacies| - 1;
      var p := pharmacies[..n];
      SweepSentCount(now, apiKey, delivered, p);
      assert forall i :: 0 <= i < n ==> p[i] == pharmacies[i];
      AddLast(DeliveredAt(now, apiKey, delivered, p), DeliveredAt(now, apiKey, delivered, pharmacies), n,
              ReminderDelivered(now, apiKey, delivered, n, pharmacies[n]));
    }
  }

  /** Each account raises at most one counter, so the counters add up to at most the number of accounts. */
  lemma {:induction false} SweepCountersBounded(now: int, apiKey: string, delivered: nat -> bool, pharmacies: seq<Account>)
    ensures SweepSpec(now, apiKey, delivered, pharmacies).sent + SweepSpec(now, apiKey, delivered, pharmacies).expired
            + SweepSpec(now, apiKey, delivered, pharmacies).errors <= |pharmacies|
    decreases |pharmacies|
  {
    if pharmacies != [] {
      SweepCountersBounded(now, apiKey, delivered, pharmacies[..|pharmacies| - 1]);
    }
  }

  /**
   * The provider's answers reach the counters only through reminders: the
   * expiration emails' outcome is discarded, so `expired` and the updates
   * never depend on it, and two runs that agree on the reminders' outcomes
   * agree on `sent` and `errors`.
   */
  lemma {:induction false} ExpirationOutcomeIgnored(now: int, apiKey: string, d1: nat -> bool, d2: nat -> bool,
                                                    pharmacies: seq<Account>)
    ensures SweepSpec(now, apiKey, d1, pharmacies).expired == SweepSpec(now, apiKey, d2, pharmacies).expired
    ensures SweepSpec(now, apiKey, d1, pharmacies).marked == SweepSpec(now, apiKey, d2, pharmacies).marked
    ensures (forall i :: 0 <= i < |pharmacies| && Decide(now, pharmacies[i]).Remind? ==> d1(i) == d2(i)) ==>
      SweepSpec(now, apiKey, d1, pharmacies).sent == SweepSpec(now, apiKey, d2, pharmacies).sent &&
      SweepSpec(now, apiKey, d1, pharmacies).errors == SweepSpec(now, apiKey, d2, pharmacies).errors
    decreases |pharmacies|
  {
    if pharmacies != [] {
      var n := |pharmacies| - 1;
      var p := pharmacies[..n];
      ExpirationOutcomeIgnored(now, apiKey, d1, d2, p);
      if forall i :: 0 <= i < |pharmacies| && Decide(now, pharmacies[i]).Remind? ==> d1(i) == d2(i) {
        assert forall i :: 0 <= i < n && Decide(now, p[i]).Remind? ==> d1(i) == d2(i) by {
          assert forall i :: 0 <= i < n ==> p[i] == pharmacies[i];
        }
      }
    }
  }

  /**
   * Without an API key `sendEmail` refuses every call, so nothing is posted,
   * no reminder counts as sent and every reminder counts as an error.
   */
  lemma MissingApiKeyFailsEveryReminder(now: int, delivered: nat -> bool, pharmacies: seq<Account>)
    ensures SweepSpec(now, "", delivered, pharmacies).sent == 0
    ensures SweepSpec(now, "", delivered, pharmacies).errors == |RemindingAt(now, pharmacies)|
    ensures forall a :: a in SweepSpec(now, "", delivered, pharmacies).attempts ==> a.dispatch.posted.None?
  {
    SweepSentCount(now, "", delivered, pharmacies);
    SweepReminderCount(now, "", delivered, pharmacies);
    SweepAttempts(now, "", delivered, pharmacies);
    assert DeliveredAt(now, "", delivered, pharmacies) == {};
  }

  /** Adding position n to a set of positions below n adds one to its size. */
  lemma AddLast(below: set<nat>, upTo: set<nat>, n: nat, last: bool)
    requires forall i :: i in below ==> i < n
    requires forall i :: i < n ==> (i in upTo <==> i in below)
    requires forall i :: i in upTo ==> i <= n
    requires n in upTo <==> last
    ensures |upTo| == |below| + (if last then 1 else 0)
  {
    if last {
      assert upTo == below + {n};
    } else {
      assert upTo == below;
    }
  }

  /**
   * Only the expire branch writes to the datastore: the ids marked expired
   * are exactly the ids of the accounts with days < 0, one update each.
   */
  lemma {:induction false} SweepMarksOnlyExpiring(now: int, apiKey: string, delivered: nat -> bool, pharmacies: seq<Account>)
    ensures |SweepSpec(now, apiKey, delivered, pharmacies).marked| == SweepSpec(now, apiKey, delivered, pharmacies).expired
    ensures forall x :: x in SweepSpec(now, apiKey, delivered, pharmacies).marked <==>
      exists i :: 0 <= i < |pharmacies| && Decide(now, pharmacies[i]) == Expire && pharmacies[i].id == x
    decreases |pharmacies|
  {
    if pharmacies != [] {
      var n := |pharmacies| - 1;
      var p := pharmacies[..n];
      SweepMarksOnlyExpiring(now, apiKey, delivered, p);
      forall x
        ensures x in SweepSpec(now, apiKey, delivered, pharmacies).marked <==>
          exists i :: 0 <= i < |pharmacies| && Decide(now, pharmacies[i]) == Expire && pharmacies[i].id == x
      {
        if exists i :: 0 <= i < |pharmacies| && Decide(now, pharmacies[i]) == Expire && pharmacies[i].id == x {
          var i :| 0 <= i < |pharmacies| && Decide(now, pharmacies[i]) == Expire && pharmacies[i].id == x;
          if i < n {
            assert p[i] == pharmacies[i];
          }
        }
      }
    }
  }

  /**
   * Each account gets at most one `sendEmail` call per sweep, in the order of
   * the accounts; it gets one exactly when it expires or is due a reminder,
   * with the expiration template when it expires and the reminder template,
   * carrying its day count, when it is due a reminder.
   */
  lemma {:induction false} SweepAttempts(now: int, apiKey: string, delivered: nat -> bool, pharmacies: seq<Account>)
    ensures forall j :: 0 <= j < |SweepSpec(now, apiKey, delivered, pharmacies).attempts| ==>
      var a := SweepSpec(now, apiKey, delivered, pharmacies).attempts[j];
      a.index < |pharmacies| && Decide(now, pharmacies[a.index]) != NoAction &&
      a == AttemptFor(now, apiKey, delivered, a.index, pharmacies[a.index])
    ensures forall j, k :: 0 <= j < k < |SweepSpec(now, apiKey, delivered, pharmacies).attempts| ==>
      SweepSpec(now, apiKey, delivered, pharmacies).attempts[j].index
        < SweepSpec(now, apiKey, delivered, pharmacies).attempts[k].index
    ensures forall i :: 0 <= i < |pharmacies| && Decide(now, pharmacies[i]) != NoAction ==>
      exists j :: 0 <= j < |SweepSpec(now, apiKey, delivered, pharmacies).attempts| &&
        SweepSpec(now, apiKey, delivered, pharmacies).attempts[j].index == i
    decreases |pharmacies|
  {
    if pharmacies != [] {
      var n := |pharmacies| - 1;
      var p := pharmacies[..n];
      SweepAttempts(now, apiKey, delivered, p);
      var r, s := SweepSpec(now, apiKey, delivered, p), SweepSpec(now, apiKey, delivered, pharmacies);
      assert forall j :: 0 <= j < |r.attempts| ==> r.attempts[j].index < n && s.attempts[j] == r.attempts[j];
      forall i | 0 <= i < |pharmacies| && Decide(now, pharmacies[i]) != NoAction
        ensures exists j :: 0 <= j < |s.attempts| && s.attempts[j].index == i
      {
        if i < n {
          assert p[i] == pharmacies[i];
          var j :| 0 <= j < |r.attempts| && r.attempts[j].index == i;
          assert s.attempts[j].index == i;
        } else {
          assert s.attempts[|s.attempts| - 1].index == i;
        }
      }
    }
  }

  /** The counters start at 0 and never go down as the sweep proceeds. */
  lemma {:induction false} SweepCountersGrow(now: int, apiKey: string, delivered: nat -> bool, pharmacies: seq<Account>, m: nat)
    requires m <= |pharmacies|
    ensures SweepSpec(now, apiKey, delivered, pharmacies[..m]).sent <= SweepSpec(now, apiKey, delivered, pharmacies).sent
    ensures SweepSpec(now, apiKey, delivered, pharmacies[..m]).expired <= SweepSpec(now, apiKey, delivered, pharmacies).expired
    ensures SweepSpec(now, apiKey, delivered, pharmacies[..m]).errors <= SweepSpec(now, apiKey, delivered, pharmacies).errors
    decreases |pharmacies|
  {
    if m < |pharmacies| {
      var n := |pharmacies| - 1;
      var p := pharmacies[..n];
      assert p[..m] == pharmacies[..m];
      SweepCountersGrow(now, apiKey, delivered, p, m);
    } else {
      assert pharmacies[..m] == pharmacies;
    }
  }

  /**
   * The classification loop of the handler: counters from 0, one pass over
   * the rows, `continue` after the expire branch.
   */
  method Sweep(now: int, apiKey: string, delivered: nat -> bool, pharmacies: seq<Account>)
    returns (sent: nat, expired: nat, errors: nat, marked: seq<string>, attempts: seq<Attempt>)
    ensures Run(sent, expired, errors, marked, attempts) == SweepSpec(now, apiKey, delivered, pharmacies)
  {
    sent, expired, errors := 0, 0, 0;
    marked, attempts := [], [];
    for i := 0 to |pharmacies|
      invariant Run(sent, expired, errors, marked, attempts) == SweepSpec(now, apiKey, delivered, pharmacies[..i])
    {
      assert pharmacies[..i + 1][..i] == pharmacies[..i];
      var ph := pharmacies[i];
      if ph.trialEnd.None? {
        // The day count is NaN: neither `< 0` nor `includes` holds.
        continue;
      }
      var jours := DaysRemaining(now, ph.trialEnd.value);
      if jours < 0 {
        marked := marked + [ph.id];
        expired := expired + 1;
        var d := SendEmail(apiKey, ph, Expiration, 0, delivered(i));
        attempts := attempts + [Attempt(i, Expiration, 0, d)];
        continue;
      }
      if jours in ReminderDays {
        var d := SendEmail(apiKey, ph, TrialReminder, jours, delivered(i));
        attempts := attempts + [Attempt(i, TrialReminder, jours, d)];
        if d.ok {
          sent := sent + 1;
        } else {
          errors := errors + 1;
        }
      }
    }
    assert pharmacies[..|pharmacies|] == pharmacies;
  }

  /** What the datastore query returned: an error, or rows (possibly null). */
  datatype FetchResult = FetchError(message: string) | Fetched(data: Option<seq<Account>>)

  /** The handler's JSON answer: `{ error }` (status 500) or `{ ok, sent, expired, errors, ts }`. */
  datatype Response = Failed(message: string) | Summary(sent: nat, expired: nat, errors: nat, ts: int)

  /** `pharmacies || []`: a null result is an empty list. */
  function Rows(data: Option<seq<Account>>): (rows: seq<Account>)
    ensures data.None? ==> rows == []
    ensures data.Some? ==> rows == data.value
  {
    match data
    case Some(rows) => rows
    case None => []
  }

  /**
   * One invocation of the job at instant `now`. A fetch error ends the run
   * before any account is looked at; otherwise the sweep's counters are
   * returned together with the instant the run used.
   */
  method Serve(now: int, fetched: FetchResult, apiKey: string, delivered: nat -> bool)
    returns (response: Response, marked: seq<string>, attempts: seq<Attempt>)
    ensures fetched.FetchError? ==> response == Failed(fetched.message) && marked == [] && attempts == []
    ensures fetched.Fetched? ==>
      var r := SweepSpec(now, apiKey, delivered, Rows(fetched.data));
      response == Summary(r.sent, r.expired, r.errors, now) && marked == r.marked && attempts == r.attempts
  {
    if fetched.FetchError? {
      return Failed(fetched.message), [], [];
    }
    var sent, expired, errors;
    sent, expired, errors, marked, attempts := Sweep(now, apiKey, delivered, Rows(fetched.data));
    response := Summary(sent, expired, errors, now);
  }
}
