# Entitlement model of the MexBot browser extension and its backend

MexBot gates its features behind a seven-day trial and a paid subscription.
Whether an account has access is decided in three separate places, and this
project models each of them as it is written, without unifying them:

- **The extension's billing store** (`trialStore`,
  `packages/storage/lib/trial/index.ts`): one stored `BillingInfo` record with
  a trial and an optional subscription. `startTrial`, `endTrial`,
  `setSubscriptionInfo` and `cancelSubscription` rewrite it through updater
  functions. `isPremium` trusts the subscription's `isActive` flag without
  looking at its end date. Otherwise it re-evaluates an active trial and
  writes back the trial's flag and day count. `getDaysRemaining` counts whole
  days, rounded up, and writes nothing. Module `TrialStore` (`trial_store.dfy`)
  holds the updaters and `isPremium`/`getDaysRemaining` as pure functions. The
  class `Store` has a single `billing` field. Its writing methods apply the
  updaters; `IsPremium` and `GetDaysRemaining` follow the source's branches
  step by step and are proved equal to `PremiumCheck` and `DaysRemaining`.
- **The backend's user rules** (`api/src/auth.js`): a first Google sign-in
  creates a user with a seven-day trial. A later login records the login time
  and switches the trial off once `trialEndDate < now`. `updateUserSubscription`
  shallow-merges an update object into the stored subscription.
  `hasActiveAccess` grants access for an active subscription whose end date
  lies after `now`, or for an active trial whose end date lies after `now`.
  Module `Auth` (`auth.dfy`) models the Mongoose collection as the class
  `UserStore`. It holds a map from document id to user and the unique
  `googleId` index beside it.
- **The pricing page** (`pages/pricing/src/index.tsx`): the status
  `{isActive, daysRemaining, startDate, endDate}` that `checkTrialStatus`
  derives from the trial kept in the page's local storage, and the record that
  `startTrial` builds. Module `Pricing` (`pricing.dfy`) holds both as pure
  functions.

Module `Days` (`days.dfy`) holds the shared time arithmetic. Every instant is
an integer number of milliseconds. `Math.ceil(ms / 86400000)` is `DaysCeil`,
which is exact integer ceiling division, and `Math.max(0, n)` is `Max0`.

The two sides deliberately disagree, and the model keeps both behaviours.
`TrialStore.LapsedSubscriptionStillPremium` shows that the extension grants
access for a subscription whose end date has passed. `Auth.HasAccess` requires
the end date to lie in the future. `Auth.LoginBoundary` shows that at the
instant a trial ends, login (strict `<`) leaves the trial marked active, while
access (strict `>`) no longer counts it.

Some further facts about the code that the model keeps:

- In the extension store and on the pricing page, `startTrial` can be called
  at any time, even after a trial expired, and always starts a new week-long
  trial: it checks neither an earlier trial nor an active subscription. On the
  backend a trial is created only with a new user, and no login turns a
  switched-off trial back on (`Auth.LoginsNeverReactivate`).
- Nothing reconciles payment events with the stored records: the backend's
  webhook handler only logs, and subscriptions change only through
  `setSubscriptionInfo`/`cancelSubscription` in the extension and
  `updateUserSubscription` on the backend.
- `cancelSubscription` clears the extension's subscription flag at once,
  whatever the subscription's end date.
- All instants are milliseconds since the epoch.

## Model

| member | source | states |
|---|---|---|
| `Days.DaysCeil` | packages/storage/lib/trial/index.ts:129 | the result is the least whole number of days covering the given milliseconds: `(d-1)*DAY < ms <= d*DAY` |
| `Days.Max0` | packages/storage/lib/trial/index.ts:137 | `Math.max(0, n)`: never negative, at least `n`, and either `n` or 0 |
| `Days.DaysCeilPositive` | packages/storage/lib/trial/index.ts:129-131 | the rounded-up day count is positive exactly when the end lies after `now` |
| `Days.DaysCeilMonotone` | pages/pricing/src/index.tsx:52 | less time left never gives more days remaining |
| `Days.DaysCeilWhole` | packages/storage/lib/trial/index.ts:69-77 | a whole number of days (the 7-day trial length) is its own ceiling |
| `Days.DaysCeilWithinWeek` | packages/storage/lib/trial/index.ts:69-77 | with between 1 ms and 7 days left, 1 to 7 days remain |
| `TrialStore.SubscriptionFlag` | packages/storage/lib/trial/index.ts:121 | `data.subscription?.isActive`: false with no subscription, otherwise the stored `isActive` flag, with no look at the end date |
| `TrialStore.WithTrialStarted` | packages/storage/lib/trial/index.ts:67-79 | whatever the prior trial, the trial becomes active with start `now`, end `now + 604800000`, 7 days remaining; the subscription is untouched; the record is well formed |
| `TrialStore.WithTrialEnded` | packages/storage/lib/trial/index.ts:82-90 | the trial becomes inactive with 0 days remaining; its dates and the subscription are kept |
| `TrialStore.WithSubscription` | packages/storage/lib/trial/index.ts:98-103 | the subscription is replaced wholesale; the trial is kept |
| `TrialStore.WithSubscriptionCancelled` | packages/storage/lib/trial/index.ts:105-115 | a missing subscription stays missing; otherwise only its `isActive` becomes false; the trial is kept; the flag is off afterwards |
| `TrialStore.PremiumCheck` | packages/storage/lib/trial/index.ts:117-157 | the subscription flag alone gives true with nothing written, whatever its end date; else an active trial gives true iff its end lies after `now`, the written trial flag equals the answer, the written day count is `max(0, ceil((end-now)/day))` and the dates are kept; with neither, false and nothing written; well-formedness is preserved |
| `TrialStore.DaysRemaining` | packages/storage/lib/trial/index.ts:159-175 | with the subscription flag, the unclamped ceiling of the subscription's remaining time (possibly negative); else with an active trial, the ceiling of the trial's remaining days `(d-1)*DAY < end-now <= d*DAY` while its end lies after `now` and 0 once it has passed; else 0 |
| `TrialStore.PremiumIdempotent` | packages/storage/lib/trial/index.ts:117-157 | a second `isPremium` at the same instant returns the same answer and leaves the same record |
| `TrialStore.PremiumAgreesWithDaysRemaining` | packages/storage/lib/trial/index.ts:126-175 | without the subscription flag, the day count `isPremium` writes equals `getDaysRemaining` before and after the write, and the answer is true iff that count is positive |
| `TrialStore.StartedTrialLastsAWeek` | packages/storage/lib/trial/index.ts:67-156 | after `startTrial` at `t` (even after an expired trial), `isPremium` is true exactly while `now < t + 7 days`, and during that week 1 to 7 days remain |
| `TrialStore.LapsedSubscriptionStillPremium` | packages/storage/lib/trial/index.ts:120-165 | with the subscription flag set and its end date passed, `isPremium` is still true while `getDaysRemaining` is 0 or negative |
| `TrialStore.EndedTrialOnlySubscription` | packages/storage/lib/trial/index.ts:82-175 | after `endTrial`, `isPremium` equals the subscription flag, and without the flag 0 days remain |
| `TrialStore.CancelledFallsBackToTrial` | packages/storage/lib/trial/index.ts:105-156 | after `cancelSubscription`, `isPremium` is true iff the trial is active with an end after `now` |
| `TrialStore.RunKeepsWellFormed` | packages/storage/lib/trial/index.ts:67-157 | any sequence of `startTrial`, `endTrial`, `setSubscriptionInfo`, `cancelSubscription` and `isPremium` calls keeps the record well formed: an active trial has its dates, the dates are one week apart, the day count is non-negative and 0 when the trial is off |
| `TrialStore.OnlyStartTrialActivates` | packages/storage/lib/trial/index.ts:67-157 | from an inactive trial, any sequence of operations without `startTrial` leaves the trial inactive with its dates unchanged |
| `TrialStore.Store.constructor` | packages/storage/lib/trial/index.ts:44-59 | the store starts with an inactive trial with empty dates and 0 days, and no subscription |
| `TrialStore.Store.GetTrialInfo` | packages/storage/lib/trial/index.ts:62-65 | returns the stored trial, which has an end date whenever it is active |
| `TrialStore.Store.GetSubscriptionInfo` | packages/storage/lib/trial/index.ts:93-96 | returns the stored subscription or none |
| `TrialStore.Store.StartTrial` | packages/storage/lib/trial/index.ts:67-80 | the new record is the old one with a fresh week-long trial from `now`; the subscription is unchanged |
| `TrialStore.Store.EndTrial` | packages/storage/lib/trial/index.ts:82-91 | the new trial is the old one with `isActive` false and 0 days; everything else unchanged |
| `TrialStore.Store.SetSubscriptionInfo` | packages/storage/lib/trial/index.ts:98-103 | the new subscription is the given one; the trial is unchanged |
| `TrialStore.Store.CancelSubscription` | packages/storage/lib/trial/index.ts:105-115 | the stored subscription, if any, keeps every field but `isActive`, which becomes false; the trial is unchanged |
| `TrialStore.Store.IsPremium` | packages/storage/lib/trial/index.ts:117-157 | the answer and the written-back record are those of `PremiumCheck`; the subscription flag gives true with nothing written; with an active trial the answer is `end > now` and the stored flag equals it |
| `TrialStore.Store.GetDaysRemaining` | packages/storage/lib/trial/index.ts:159-175 | returns `DaysRemaining` of the stored record and writes nothing |
| `Auth.ProfileComplete` | api/src/auth.js:15-28 | the `required` validators of `googleId`, `email` and `name`: a profile with any of them empty is refused, and a complete one has all three non-empty |
| `Auth.SubscriptionGrants` | api/src/auth.js:180 | the subscription branch of access: never without the `isActive` flag or without an end date, and only while `now` is before the end date |
| `Auth.TrialGrants` | api/src/auth.js:185 | the trial branch of access: never without `isTrialActive` and never from the end instant on |
| `Auth.HasAccess` | api/src/auth.js:179-189 | with neither the subscription flag nor the trial flag there is no access, and access is only ever granted before the trial's or the subscription's end date |
| `Auth.NewUser` | api/src/auth.js:86-99 | a new user has the profile's identity, trial start `now`, trial end `now + 7 days`, an active trial, the default inactive subscription, and creation and login time `now` |
| `Auth.LoggedIn` | api/src/auth.js:100-108 | login sets `lastLogin = now`; `isTrialActive` becomes false iff it was true and `trialEndDate < now`; it never becomes true; nothing else changes |
| `Auth.Override` | api/src/auth.js:158-161 | a field present in the update wins, an absent one keeps the old value |
| `Auth.MergeSubscription` | api/src/auth.js:158-161 | every field supplied in the update overrides the stored one; absent fields keep their old values |
| `Auth.MergeEmpty` | api/src/auth.js:158-161 | an update with no fields leaves the subscription unchanged |
| `Auth.MergeCompose` | api/src/auth.js:158-161 | two updates in a row equal one update with both objects spread in order |
| `Auth.MergeIdempotent` | api/src/auth.js:158-161 | applying the same update twice equals applying it once |
| `Auth.AccessAntitone` | api/src/auth.js:180-186 | for a fixed user, access at `t` implies access at every earlier instant |
| `Auth.LoginKeepsAccess` | api/src/auth.js:100-189 | the lazy trial expiry at login never changes the access verdict at the same instant |
| `Auth.LoginIdempotent` | api/src/auth.js:100-108 | two logins at the same instant equal one |
| `Auth.LoginsNeverReactivate` | api/src/auth.js:100-108 | after any sequence of logins the trial is on iff it was on and no login came strictly after its end; trial dates and subscription never change |
| `Auth.LoginBoundary` | api/src/auth.js:105-185 | at `now == trialEndDate`, login leaves an active trial active, yet the trial branch of access is false |
| `Auth.NewUserAccessForAWeek` | api/src/auth.js:86-189 | a user created at `t` has access exactly while `now < t + 7 days` |
| `Auth.PaidUpdateGrantsAccess` | api/src/auth.js:151-186 | an update setting `isActive` true and an end date after `now` gives access, whatever the trial |
| `Auth.ReplaceKeepsIndexed` | api/src/auth.js:14-56 | rewriting a document without touching its `googleId`, e-mail, name or trial dates keeps the unique indexes and the schema's required fields intact |
| `Auth.InsertKeepsIndexed` | api/src/auth.js:14-56 | adding a complete document with an unused `googleId` and e-mail under a fresh id keeps the unique indexes intact |
| `Auth.UserStore.constructor` | api/src/auth.js:58 | the collection starts empty |
| `Auth.UserStore.CreateOrUpdateUser` | api/src/auth.js:82-116 | a known `googleId` logs in (only that user changes, by `LoggedIn`); an unknown one with an empty required field fails, one with a taken e-mail fails, otherwise a `NewUser` is added under a fresh id and indexed |
| `Auth.UserStore.GetUserById` | api/src/auth.js:141-148 | returns the user stored under the id, or none when there is none |
| `Auth.UserStore.UpdateUserSubscription` | api/src/auth.js:151-169 | an unknown id fails and changes nothing; otherwise only that user's subscription changes, to the merge of the old one with the update; trial fields and other users are unchanged |
| `Auth.UserStore.HasActiveAccess` | api/src/auth.js:172-194 | true iff the user exists and `sub.isActive && sub.endDate > now` or `isTrialActive && trialEndDate > now`; an unknown user gives false; nothing is modified |
| `Pricing.TrialStatus` | pages/pricing/src/index.tsx:47-59 | `isActive` iff the end lies after `now`, equivalently iff the ceiling of days left is positive; `daysRemaining` is that ceiling when active and 0 otherwise, never negative; dates are passed through |
| `Pricing.StartTrial` | pages/pricing/src/index.tsx:147-158 | the stored trial starts at the first clock reading and ends 7 days after the second; the page state is active with 7 days and the same dates; with ordered readings the trial spans at least a week |
| `Pricing.StartedStatusAgrees` | pages/pricing/src/index.tsx:52-158 | deriving the status at the second clock reading gives back exactly the state `startTrial` set |
| `Pricing.StartedStatusWithinWeek` | pages/pricing/src/index.tsx:52-158 | from the second clock reading on, the derived status shows at most 7 days and is active exactly until 7 days after that reading |
| `Pricing.StatusAntitone` | pages/pricing/src/index.tsx:50-56 | as time passes the derived day count never grows and a lapsed trial never becomes active again |

## Left out

- `api/src/index.js` is not part of this model. It is Express, CORS, rate-limit and Stripe plumbing: checkout and subscription status are Stripe calls, and the webhook cases only log.
- `verifyGoogleToken`, `generateToken` and `verifyToken` are calls into Google's and the JWT library's code. The verified profile is the input `GoogleProfile`.
- Mongoose persistence is an in-memory map. Document ids are natural numbers handed out in order, and id cast errors are not modelled. `createOrUpdateUser` and `updateUserSubscription` rethrow every failure as one generic error; the model keeps the reasons apart as `AuthError`. Fields outside the schema, which strict mode drops, are not representable in a `SubscriptionPatch`.
- Auth.UserStore.CreateOrUpdateUser: the several `new Date()` readings within one call are one instant `now`.
- Auth.UserStore.HasActiveAccess: the source reads the clock twice, once for the subscription branch (`api/src/auth.js:180`) and once for the trial branch (line 185); the model uses one instant `now` for both. If a trial ends between the two readings, the source's verdict can differ from the model's.
- Auth.NewUser: the trial end is `now + 7 × 86400000 ms`. The source adds 7 to the local calendar date, which differs by an hour across a daylight-saving change.
- Asynchrony and concurrency are out of scope. Each store operation is one atomic step, so interleaved read-modify-writes (`isPremium` racing `startTrial`) are not modelled.
- Dates are integer milliseconds. ISO-string parsing and formatting are not modelled, nor are dates outside JavaScript's valid range. `Math.ceil` of a floating-point quotient is exact integer ceiling division.
- The extension's subscription dates are assumed to parse. Its trial dates may be the empty string of the default record (`Unset`); `isPremium` treats an active trial with an empty end date as expired, as `NaN > 0` is false.
- TrialStore.DaysRemaining: requires the well-formed record every operation keeps, so the `NaN` that `getDaysRemaining` would return for an active trial with an empty end date is not modelled; no operation produces such a record.
- TrialStore.Store.GetDaysRemaining: requires `Valid()` for the same reason.
- Pricing page: React state, theme detection, `handleSubscribe` (a Stripe redirect), `window.close`, and the `localStorage` and `setTrialInfo` boundary are not modelled. When no trial is stored, or the stored JSON does not parse, `checkTrialStatus` sets nothing; only the derivation from a stored trial is modelled.
- `GoogleSignIn.tsx`, `TrialBanner.tsx`, `ProgressIndicator.tsx`, `main.tsx` and `chrome-extension/manifest.js` are user interface, bootstrap and configuration, and are not part of this model.
