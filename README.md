# relance-trial: the trial sweep of PharmaGest

PharmaGest runs `relance-trial` once a day. It is a Supabase edge function
that reads every pharmacy whose `statut` is `trial` and whose email is set.
For each one it computes the whole days left until `trial_end`, rounding up.
It then does exactly one of three things:

- **expire**: the days are negative. The row's status becomes `expired`,
  `expired` goes up by one, and an expiration email is sent whose result is
  ignored.
- **remind**: the days are 7, 3 or 1. A reminder email is sent. `sent` goes up
  when the provider accepts it, `errors` when it does not.
- **nothing**: any other day count, including 0.

This project models that sweep in Dafny:

- `trial_policy.dfy` (module `TrialPolicy`): the pharmacy record, the day
  count as exact ceiling division on integer milliseconds, and the
  first-match classification.
- `notification.dfy` (module `Notification`): the choices `sendEmail` makes
  before it posts. These are the refusal when the API key or the recipient is
  empty, the PRIX price with its 29000 fallback, the subject with its
  "jour"/"jours" choice, and the greeting name.
- `decimal.dfy` (module `Decimal`): how a day count is written in the subject.
- `trial_sweep.dfy` (module `TrialSweep`): the loop with its counters and its
  `continue` (method `Sweep`), the handler around it (method `Serve`), and the
  functional specification `SweepSpec` that both methods are proved against.
  The lemmas about `SweepSpec` state the counting and "who gets written or
  mailed" properties.

The outside world comes in as parameters:

- `now` is the clock reading in milliseconds. It is read once per run.
- The datastore query result is a `FetchResult`.
- The status updates come out as `marked`, the ids set to `expired`, in order.
- `delivered(i)` is the email provider's answer for the message posted for
  the i-th account. It is consulted only when a message is actually posted.

## Model

| member | source | states |
|---|---|---|
| TrialPolicy.DaysRemaining | supabase/functions/relance-trial/index.ts:48-49 | the day count is the ceiling of (trial_end - now) / 86 400 000: (days-1)*86 400 000 < trial_end - now <= days*86 400 000 |
| TrialPolicy.DaysRemainingUnique | supabase/functions/relance-trial/index.ts:49 | any integer that satisfies the ceiling bounds is the computed day count |
| TrialPolicy.DaysRemainingExamples | supabase/functions/relance-trial/index.ts:49 | 30 minutes ahead gives 1; 2 hours ago gives 0 (not -1); 3 days 2 hours ahead gives 4 |
| TrialPolicy.Classify | supabase/functions/relance-trial/index.ts:52-68 | expire iff days < 0; remind (with that count) iff days is 7, 3 or 1; nothing iff days >= 0 and not 7, 3 or 1 |
| TrialPolicy.Decide | supabase/functions/relance-trial/index.ts:48-52 | an unparseable trial_end (NaN days) leads to no action; otherwise the action is the classification of the ceiling day count |
| TrialPolicy.DecideByTrialEnd | supabase/functions/relance-trial/index.ts:48-68 | on timestamps: expire iff trial_end <= now - 1 day; remind at J-d (d = 7, 3, 1) iff trial_end lies in (now + (d-1) days, now + d days]; nothing otherwise |
| TrialPolicy.EndedWithinLastDayIsLeftAlone | supabase/functions/relance-trial/index.ts:49-52 | a trial that ended less than a day ago has 0 days left and is neither expired nor reminded |
| Notification.PlanPrice | supabase/functions/relance-trial/index.ts:82 | the price is positive; it is the PRIX entry for a plan in the table and 29000 for any other plan |
| Notification.PlanPriceTable | supabase/functions/relance-trial/index.ts:17-21 | Starter 15000, Professionnel 29000, Entreprise 55000, any other plan 29000; every price is one of those three |
| Notification.DayUnit | supabase/functions/relance-trial/index.ts:84 | the unit is "jours" iff more than one day is left, "jour" otherwise |
| Notification.Subject | supabase/functions/relance-trial/index.ts:83-86 | the expiration subject is fixed whatever the count; the reminder subject is the stem, the count, a space and the unit |
| Notification.ReminderSubjectDeterminesDays | supabase/functions/relance-trial/index.ts:84 | two reminder subjects are equal only for equal day counts, so the subject carries the count |
| Notification.GreetingName | supabase/functions/relance-trial/index.ts:109 | the greeting uses the contact name when it is set and non-empty, and the pharmacy name otherwise |
| Notification.Compose | supabase/functions/relance-trial/index.ts:82-110 | the message goes to the pharmacy's email, with that subject, greeting, pharmacy name, plan and plan price |
| Notification.SendEmail | supabase/functions/relance-trial/index.ts:77-128 | nothing is posted iff the API key or the email is empty; otherwise the composed message is posted; the call succeeds iff a message was posted and the provider accepted it |
| Decimal.NatToDecimalRoundTrip | supabase/functions/relance-trial/index.ts:84 | the numeral written for a day count reads back as that count |
| TrialSweep.Step | supabase/functions/relance-trial/index.ts:52-68 | per account: expire adds 1 to expired and marks the id; remind adds exactly 1 to sent+errors, to sent iff its email went through; nothing leaves the run unchanged; only expire and remind make one sendEmail call |
| TrialSweep.SweepExpiredCount | supabase/functions/relance-trial/index.ts:45-57 | after the sweep, expired equals the number of accounts with days < 0 |
| TrialSweep.SweepReminderCount | supabase/functions/relance-trial/index.ts:64-67 | after the sweep, sent + errors equals the number of accounts with days in {7, 3, 1} |
| TrialSweep.SweepSentCount | supabase/functions/relance-trial/index.ts:65-66 | after the sweep, sent equals the number of reminders the provider accepted |
| TrialSweep.SweepCountersBounded | supabase/functions/relance-trial/index.ts:45-69 | sent + expired + errors is at most the number of accounts |
| TrialSweep.SweepCountersGrow | supabase/functions/relance-trial/index.ts:45-69 | the counters of any prefix of the sweep are at most the final counters, so they never go down |
| TrialSweep.SweepMarksOnlyExpiring | supabase/functions/relance-trial/index.ts:52-60 | one status update per expiring account; an id is marked expired iff it belongs to an account with days < 0 |
| TrialSweep.SweepAttempts | supabase/functions/relance-trial/index.ts:52-68 | sendEmail calls go in account order with at most one per account; an account gets one iff it expires or is due a reminder, with the expiration template (count 0) or the reminder template (its count) |
| TrialSweep.ExpirationOutcomeIgnored | supabase/functions/relance-trial/index.ts:57-59 | expired and the updates do not depend on the provider's answers; sent and errors depend only on the answers to reminders |
| TrialSweep.MissingApiKeyFailsEveryReminder | supabase/functions/relance-trial/index.ts:81 | with an empty API key nothing is posted, sent is 0 and every reminder counts as an error |
| TrialSweep.Sweep | supabase/functions/relance-trial/index.ts:45-69 | the loop's counters, updates and sendEmail calls are those of SweepSpec on the fetched rows |
| TrialSweep.Rows | supabase/functions/relance-trial/index.ts:47 | a null query result (the fallback to an empty list) is swept as no accounts; otherwise the fetched rows are swept unchanged |
| TrialSweep.Serve | supabase/functions/relance-trial/index.ts:27-74 | a fetch error returns that error with nothing processed; otherwise the response holds the sweep's counters and the run's single `now` |

## Left out

- HTTP serving, the Supabase client and the `fetch` to the Resend API are I/O. They are parameters: the fetched rows, the ids marked expired, and the oracle `delivered`. A thrown network error and a non-OK response both read as `delivered(i) == false`.
- A failed status update is never checked by the source. The model records the update request and counts the account as expired either way, as the code does.
- Environment variables are not modelled. The API key is a parameter; an unset key is the empty string. The WhatsApp number only appears in the HTML. The application URL is passed to `sendEmail` as `appUrl` and never used.
- The HTML bodies, colours, the WhatsApp deep link with `encodeURIComponent`, and the `fr-FR` grouping of the price are not modelled. These are template and locale formatting. The body's "jour(s)" is the same choice as the subject's `DayUnit`.
- The response's ISO-8601 `ts` is `now` in milliseconds. The HTTP status is implied by the variant: 500 for `Failed`, 200 for `Summary`.
- Date parsing is not modelled. `trial_end` comes in as milliseconds, or as `None` when it does not parse; then the day count is NaN and the account is left alone. Turning a stored null into the epoch (`new Date(null)`) is part of that parsing.
- TrialPolicy.DaysRemaining: does not model floating-point division; it is exact. Dividing by 86 400 000 in doubles can first round a fraction up to a whole number only at about 2^27 (134 million) days. Any valid JavaScript date is within 8.64e15 ms of the epoch, so for a present-day `now` the quotient stays near 100 million days or less. On every valid date the exact ceiling therefore equals `Math.ceil` on doubles.
- Notification.PlanPrice: does not model JavaScript's inherited object keys. A plan named like an `Object.prototype` member (`toString`, `constructor`) finds a function in `PRIX`; the model prices every name missing from the table at 29000.
- The unused `in7`, `in3`, `in1` and `past` values and the `console` logging are not modelled; they affect nothing.
- Overlapping or repeated invocations are not modelled. The model covers one run. The source keeps no record of reminders already sent, so a second run on the same day sends them again.
- The greeting reads the `contact` column (`ph.contact||ph.nom`, index.ts:109). An empty email string also stops the dispatch (`!ph.email`, index.ts:81), not only a null one.
