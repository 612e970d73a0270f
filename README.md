# Tournament lifecycle and auth gate, modelled in Dafny

This project models the two controllers at the core of a small tournament
backend:

- **Tournament controller** (`tournament.dfy`, module `Tournaments`). A table
  of tournament rows with soft delete. It supports `add`, `getById`,
  `updateById`, `deleteById` and `getList` (offset/limit paging with the
  defaults 0 and 30). Its centre is the forward-only lifecycle
  Unstarted → Started → Stopped, driven by `start` and `stop`.
  - The table is the class `Store`. Its field `rows` maps ids to rows and its
    field `nextId` is the next id to hand out. The mutating handlers are
    methods that update the table in place.
  - `getById` and `getList` are read-only, so they are functions over the
    table.
  - The checks that `start` and `stop` make on a row they found are the pure
    functions `StartRow` and `StopRow`. The methods are proved against them,
    and the lifecycle lemmas are proved about them.
- **Auth controller** (`auth.dfy`, module `Auth`).
  - `login` hashes the password, looks up the (email, hash) pair and signs a
    token over `{email, password: hash}`.
  - `authValidator(role)` is a short-circuiting chain: pick a token, verify
    it, resolve the user, compare the role with the threshold.
  - The md5 hash, `jwt.sign`, `jwt.verify` and the secret are parameters, so
    every property holds for any hash, signer and verifier. Where a lemma
    needs verify to give back what sign was given, it asks only that the
    decoded claims carry every signed claim unchanged, plus at most registered
    claims such as the `iat` that jsonwebtoken adds (`Auth.Carries`).
  - The user table is a sequence, and a lookup returns its first matching
    row (see "## Left out" on row order).
  - The decision chain is the function `Gate`, which takes the user lookup as
    an abstract function.

`options.dfy` holds the `Option` datatype that both modules use.

The clock is a parameter: `now` stands for `Math.floor(Date.now() / 1000)`.
Timestamps follow JavaScript truthiness, as the guards `if (tournament.stopDate)`
read them. `IsSet` treats both `null` and `0` as unset. A transition made at
time 0 therefore leaves the stage where it was.

Ids are handed out in increasing order, and the model lists rows in
ascending id order (see "## Left out" on row order). A soft-deleted row is
invisible to every read, update and delete, as the store's paranoid mode
makes it.

## Model

| member | source | states |
|---|---|---|
| `Tournaments.Store.Add` | components/tournament/tournament.controller.js:13-31 | adds one unstarted row under the next id and changes nothing else; returns exactly that row as getById shows it; the table invariant is kept |
| `Tournaments.Store.DeleteById` | components/tournament/tournament.controller.js:38-49 | a live row is marked deleted and the result is Ok; when no row was affected (absent or already deleted) the result is NotFound "Tournament doesn't exist." and the table is unchanged |
| `Tournaments.GetById` | components/tournament/tournament.controller.js:51-64 | Ok exactly for a live row, carrying its id, title and both dates; otherwise NotFound "Tournament doesn't exist." |
| `Tournaments.Store.UpdateById` | components/tournament/tournament.controller.js:66-85 | changes only the title of a live row, leaves deleted and absent rows alone, and answers with the row read back afterwards; NotFound exactly when the row was not live |
| `Tournaments.OrDefault` | components/tournament/tournament.controller.js:95-96 | the JavaScript or-default after `+req.query.x`: a supplied non-zero value is used as is; the result differs from the default only when it is that supplied non-zero value, so absent, non-numeric and zero all give the default |
| `Tournaments.GetList` | components/tournament/tournament.controller.js:93-108 | returns at most `limit` tournaments; its length is `min(limit, available - offset)` (empty when offset is past the end); the k-th element is the (offset + k)-th live row in ascending id order; offset and limit default to 0 and 30 when absent, non-numeric or 0 |
| `Tournaments.ListingMembers` | components/tournament/tournament.controller.js:97-103 | a tournament appears in the store listing exactly when its row is live and in id range, shown as getById shows it |
| `Tournaments.ListingOrdered` | components/tournament/tournament.controller.js:103 | the store listing is in strictly increasing id order, within the id range |
| `Tournaments.ListedAreLive` | components/tournament/tournament.controller.js:93-104 | everything getList returns is a live row exactly as getById returns it (deleted rows never appear), in ascending id order |
| `Tournaments.ZeroMeansDefault` | components/tournament/tournament.controller.js:95-96 | `limit=0` gives the same page as a missing limit and as 30; `offset=0` behaves as a missing offset |
| `Tournaments.StartRow` | components/tournament/tournament.controller.js:119-127 | succeeds exactly on an unstarted row and then sets only startDate to now; a stopped row gives "The tournament has ended." (checked first, so never "already started"); a started row gives "The tournament was already started." |
| `Tournaments.StopRow` | components/tournament/tournament.controller.js:149-157 | succeeds exactly on a started, unstopped row and then sets only stopDate to now; a stopped row gives "The tournament was already stopped." before the not-started check; an unstarted row gives "The tournament wasn't started." |
| `Tournaments.Store.Start` | components/tournament/tournament.controller.js:110-138 | an absent or deleted id gives NotFound "The Tournament doesn't exist." with the table unchanged; a refusal by the row checks leaves the table unchanged; on success only this row's startDate changes, and the answer is {id, startDate, stopDate, title} of the updated row |
| `Tournaments.Store.Stop` | components/tournament/tournament.controller.js:140-168 | the same for stop: NotFound first, then the row checks; on success only this row's stopDate changes, and the updated row is returned |
| `Tournaments.StepForward` | components/tournament/tournament.controller.js:119-157 | one start or stop request keeps "stopDate set implies startDate set"; it moves the stage forward by at most one step; it never clears or changes a set date, the title or the deleted flag |
| `Tournaments.ReplayForward` | components/tournament/tournament.controller.js:119-157 | any sequence of start and stop requests keeps the invariant, never moves the stage backward, and never changes a set date or the title |
| `Tournaments.StoppedOnlyAfterStarted` | components/tournament/tournament.controller.js:119-157 | a run from Unstarted that ends Stopped passes through Started at some intermediate point: Unstarted → Stopped is never one step |
| `Auth.PickToken` | components/user/auth.controller.js:39 | the token is present exactly when some source holds a non-empty value; it is then the value of the first such source in the order body, query, `x-auth-token` header |
| `Auth.Gate` | components/user/auth.controller.js:41-73 | an allowed user meets the threshold and came from the lookup; a denial is 400 exactly when no token was found, and 401 otherwise |
| `Auth.GateAllowsExactly` | components/user/auth.controller.js:42-68 | the request goes on with user u exactly when a token exists, verifies, resolves to u, and u's role is at least the threshold; each failure returns early |
| `Auth.NoTokenShortCircuits` | components/user/auth.controller.js:41-73 | without a token the answer is 400 "No token provided." whatever the verifier, secret and lookup are, so neither is consulted |
| `Auth.BadSignatureSkipsLookup` | components/user/auth.controller.js:42-47 | a token that fails verification gets 401 "Failed to authenticate token.", whatever the lookup would return |
| `Auth.UnknownSubjectLooksLikeBadSignature` | components/user/auth.controller.js:44-58 | a verified token whose user does not resolve gets the same answer as a token that fails verification |
| `Auth.BelowThresholdDenied` | components/user/auth.controller.js:61-65 | once a user is resolved, the answer is 401 "Permission denied." exactly when their role is below the threshold |
| `Auth.ThresholdMonotone` | components/user/auth.controller.js:61-67 | a request allowed at some threshold is allowed, with the same user, at every lower threshold |
| `Auth.Threshold` | components/user/auth.controller.js:37 | the threshold is the given role, or 0 when none is given |
| `Auth.FindByCredentials` | components/user/auth.controller.js:19-24 | finds nothing exactly when no row has both this email and this hash; otherwise it returns the first row of the table that has both |
| `Auth.LoginClaims` | components/user/auth.controller.js:30 | the claims login signs are exactly `email` and `password`, holding the email and the password hash |
| `Auth.Login` | components/user/auth.controller.js:15-31 | succeeds exactly when some user has this email and md5(password); the answer then carries that user's id and the token signed over {email, password: md5(password)}; every failure is "Missing or invalid authentication credentials." |
| `Auth.LoginFailuresIdentical` | components/user/auth.controller.js:17-27 | any two failed logins (unknown email, wrong password) give identical answers |
| `Auth.ResolveAsWritten` | components/user/auth.controller.js:49-53 | as written, the lookup ignores the claims: it finds a user exactly when the table is non-empty, and that user is the first row |
| `Auth.FindById` | components/user/auth.controller.js:49-52 | the id lookup the guard names: nothing exactly when no row has this id, otherwise a row with this id |
| `Auth.ResolveByIdClaim` | components/user/auth.controller.js:51 | the lookup by `decoded._id` finds a user exactly when some row's id is the `_id` claim, and then only such a user |
| `Auth.Resolve` | components/user/auth.controller.js:49-53 | the corrected lookup finds a user exactly when some row's email and password hash are the token's `email` and `password` claims, and then only such a user |
| `Auth.AuthValidatorAsWritten` | components/user/auth.controller.js:37-75 | the guard as written, with the threshold defaulting to 0: an allowed request always runs as the first user row |
| `Auth.AuthValidator` | components/user/auth.controller.js:37-75 | the guard with the corrected lookup: an allowed user is a row of the table and meets the threshold |
| `Auth.IdClaimNeverIssued` | components/user/auth.controller.js:30 | the claims login signs hold no `_id` |
| `Auth.IdLookupRejectsLoginTokens` | components/user/auth.controller.js:28-58 | even with the filter applied, a lookup by `_id` would answer 401 "Failed to authenticate token." to every token login issues, for any verifier that gives back the signed claims plus registered ones such as `iat` |
| `Auth.UnfilteredLookupEscalates` | components/user/auth.controller.js:49-67 | as written, a role-0 user's verified token passes a role-1 guard as the first user (an administrator); the corrected guard denies it with "Permission denied." |
| `Auth.LoginTokenResolves` | components/user/auth.controller.js:28-67 | when verify gives back the signed claims (plus registered ones such as `iat`), a token from login, presented in any source, resolves under the corrected guard to the user whose id login returned; that user is allowed exactly when their role meets the threshold |
| `Auth.MatchingClaimsResolve` | components/user/auth.controller.js:42-67 | under the corrected guard, any verifying token whose email and password claims name a row of the table resolves, and goes on exactly when the found user's role meets the threshold |
| `Auth.RoleZeroUser` | components/user/auth.controller.js:61-67 | a verified token of a role-0 user is denied by a role-1 guard and admitted by the default guard and by a role-0 guard |

`Tournaments.LifecycleScenarios` and `Tournaments.PagingScenario` use the
handlers' contracts alone to derive these request sequences:

- [create, stop] gives "wasn't started".
- [create, start, start] gives "already started".
- [create, start, stop, stop] gives "already stopped".
- [create, start, stop, start] gives "has ended".
- After a start, getById shows the returned startDate.
- A second delete gives NotFound.
- Over five rows, limit 2 returns 2 rows from offset 0 and 1 row from offset 4.

## Findings

| source | as written | input that shows it | evidently intended | confidence | as-written member | corrected member |
|---|---|---|---|---|---|---|
| components/user/auth.controller.js:50 | the filter is passed under `when:`, which the lookup does not read, so the query has no condition and returns the first user row | table [admin (role 1), bob (role 0)], a verifying token carrying bob's claims, guard `authValidator(1)`: the request is allowed as admin | filter under `where:`, resolving the user the token names | not executed; medium (rests on the store ignoring an unknown query option) | `Auth.ResolveAsWritten`, `Auth.UnfilteredLookupEscalates` | `Auth.Resolve`, `Auth.LoginTokenResolves` |
| components/user/auth.controller.js:51 | the lookup key is `decoded._id`, a claim that login never issues (line 30 signs only `email` and `password`) | any token from login: there is no `_id` claim, so a lookup by id matches no user and the guard answers 401 | resolve the subject by a claim that login issues; here the (email, password hash) pair, which login itself matches on. The other repair, login signing `_id: user.id` and the guard filtering `where: {id: decoded._id}`, is not modelled: it changes the token login issues (line 30) as well as the guard, while the pair needs no change to login and reuses login's own match | not executed; high | `Auth.ResolveByIdClaim`, `Auth.IdLookupRejectsLoginTokens` | `Auth.Resolve`, `Auth.LoginTokenResolves` |

`Auth.AuthValidator` is the guard with the corrected lookup, and
`Auth.AuthValidatorAsWritten` is the guard as written. Both share the same
decision chain, `Auth.Gate`, which is as written.

## Left out

- Row order: neither `findAll` (tournament.controller.js:103) nor `find`
  (auth.controller.js:19-24, 49-53) asks for an order, so the order of rows
  is whatever the database returns. The model fixes one:
  - `Tournaments.GetList` pages over ascending id order;
  - `Auth.FindByCredentials` and `Auth.ResolveAsWritten` take the first
    matching row of the user sequence;
  - the escalation example of `Auth.UnfilteredLookupEscalates` places the
    administrator first. Under another order the unfiltered lookup still
    ignores the claims, but it returns whichever row comes first.

- HTTP plumbing: routing, `res.status(...).json(...)`, and `next()`. `next()`
  is the `Allow(user)` decision and `req.user` is its user. Status codes are
  modelled only where the guard writes them (400 and 401).
- The input validators `titleValidator`, `idValidator`,
  `limitOffsetValidator` and `loginValidator`, and their helper
  `ValidatorUtils.errorMapped`, which is not part of this model. The model
  accepts any title, id, email and password.
- `CommonUtils.catchError` and the error classes, which are not part of this
  model. Errors are the datatype `Tournaments.Error` and the decisions and
  replies of `Auth`. The HTTP status of a tournament error and of a failed
  login is not modelled.
- The storage engine: the Sequelize models and the database. Storage failures
  are not modelled either. So in `Tournaments.Store.Add` the read-back always
  finds the new row, and the "Cannot create a tournament." branch is never
  taken.
- The md5 and jsonwebtoken internals. They are arbitrary functions. A lemma
  that needs verify to undo sign says so in its requires through
  `Auth.Carries`: the decoded claims hold the signed ones unchanged, plus
  registered ones such as `iat`. Token expiry is not modelled.
- `process.env.secret` and `Date.now()`. They are the parameters `secret`
  and `now`.
- Concurrency. Each handler is one atomic step, so the read-then-write race
  between concurrent `start` or `stop` calls is not modelled.
- `Tournaments.GetList`: offset and limit are `Option<nat>`. `None` stands
  for an absent or non-numeric value (NaN). Negative and fractional values,
  and any other corner of `+x` coercion, are not modelled. The validator
  rejects fractions, and the store's reaction to a negative value is outside
  the model.
- Token sources: the body, query and header fields are optional strings. A
  non-string value in a JSON body, such as a number or an object, is not
  modelled.
