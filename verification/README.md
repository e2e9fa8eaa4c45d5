# One-time login handoff: a verified model

A browser that logs in at the portal is sent to the authentication foundation, comes back with a
one-time code, and the portal exchanges that code, together with a PKCE verifier that only it knows,
for the user's id. This project models the three stateful cores behind that exchange and the handlers
that tie them together, and proves what holds in every run of any number of interleaved requests.

* **The foundation's Redis protocol**, at two levels. At the raw level (`Text`, `References`,
  `Encodings`, `Records`, `Scripts`, `LuaServer`, `Wrappers`) Redis is a map from keys to hashes of strings: the
  five Lua scripts are methods of a `Server` that read, validate, delete and write step by step, each
  proved against a function on arbitrary databases, and the Rust code around them encodes, decodes,
  prints and parses. At the typed level (`Protocol`) the same commands act on records. `Refinement`,
  `ScriptRefinement` and `RunRefinement` prove that the raw level does what the typed level says, for
  single commands and for whole runs. `Runs` and `RunTheorems` prove what every run of the typed
  protocol keeps, whatever is lost and however the clock moves; `Eviction` proves that Redis dropping
  expired keys cannot be seen through the scripts, and `EvictedExchange` and `EvictedLogin` what of it
  the handlers show that read before a script. `Responses` says which HTTP status means what.
* **The portal's local state** (`Portal`, `PortalRefinement`, `PortalSessions`, `LateUse`): a class
  over two bounded, expiring, lazily cleaned maps, proved against step functions, and these against
  maps that are never cleaned, with how long a record can be used and the exact effect of operations
  whose times are out of order.
* **Identity resolution** (`Identity`): concurrent resolvers that read, insert inside a transaction
  and read again, over two tables with a primary key.
* **All requests together** (`System`, `Agreement`, `EndToEnd`, `History`): the handlers of both
  services as sequences of steps of interleaved requests over Redis, the identity tables and the
  portal's state, with loss of records, clock changes and death of requests anywhere. On these rest
  the end-to-end results: where a portal session comes from and that the correspondence is one to one
  (`Origins`), how often each thing can have happened (`Conservation`), single use, logout and lifetimes
  (`SystemTheorems`, `Logouts`), on whose terms handoffs are issued and what a disabled user gets
  (`Terms`), how exchange requests are answered (`ExchangeRequests`), and that from every reachable
  state a login, with Google or with a common session, can still be carried through, however the
  browser arrives (`Progress`, `Logins`, `Entries`, `FirstLogin`, `SsoLogin`).

SHA-256 is a parameter (`Hash`), a function from texts to 32 bytes. No such function is injective, so
statements ask only that the references generated in the run at hand have different digests
(`CollisionFree`, `CollisionFreeRun`); `SsoLogin.SomeRunLogsIn` gives a hash and a run that meet this
and reach a portal session. Generated references are values that were not generated before (`Fresh`,
`New`). Times are unbounded naturals up to the u64 limit; the scripts' limit of 2^53-1 is kept
explicitly, with `tonumber` as any rounding to doubles.

Where the code and what one might expect of it differ, the model follows the code:

* Plain writes overwrite (HSET without an existence check), so single use of external transactions
  rests on fresh references: `RunTheorems.RewritingAllowsAnotherClaim`; what holds regardless is
  `RunTheorems.EachUseIsPaidFor`.
* A handoff that disappears between TYPE and HGET is reported as an invalid record, not as a missing
  one: `RunTheorems.SplitExchangeIsAtomic` says exactly when, `EvictedExchange.SlippingHappens` that it does.
* A claim whose stored texts are not UTF-8 changes the record and is reported as invalid:
  `ScriptCalls.ClaimIsReported` says exactly when, `ScriptCalls.ClaimCanGoUnreported` gives such a record.
* The portal's login and callback read the time before they take the lock, so an operation can come
  with a time older than a cleanup: `PortalRefinement.TimeMustNotGoBack` shows the effect,
  `LateUse.AlikeUnlessLate` says, for every sequence of operations with any times, exactly when all are
  answered as in the simple model, and `LateUse.LateClaim` which claims it concerns.
* A handoff that is evicted between TYPE and HGET changes the exchange handler's response, though never
  its success: `EvictedExchange.ResponseDependsOnSlipping` says exactly when, and
  `EvictedExchange.SlippingChangesTheResponse` shows it for every handoff that expires.
* A session that is evicted before the login handler reads it sends the browser to Google, where the
  handler would have refused a user who is not eligible: `EvictedLogin.LoginDependsOnEligibility` says
  exactly when, `EvictedLogin.LoginCanDiffer` gives a run.
* The scripts' test for numbers accepts a sign and leading zeros, which EXPIREAT refuses, so that Redis
  aborts the script after its HSET: `ScriptCalls.IssueAborts` and `ScriptCalls.CreateAborts` say exactly when
  and what is left behind, `ScriptCalls.SignedExpiryAborts` gives the arguments. The wrappers print their
  numbers and never cause it.

## Model

| member | source | states |
|---|---|---|
| `Origins.PortalSessionOrigin` | portal_backend/src/main.rs:550-640 | In every run whose references do not collide, every portal session has an origin: a portal login; a later callback with its state and from the same browser that claimed its login start before it expired; a login at the foundation that wrote an external transaction; Google's callback that claimed it, was named a subject, resolved it and, in a successful creation, made the common session; a handoff issued from that session, to the portal's service, under the callback's code and for the challenge of that login start's verifier, on the terms of the transaction if it is the session's first; the portal callback's own exchange, which succeeded; and the answer. User and authentication time agree all along, and the verifier is one the foundation accepts |
| `Origins.OriginsAreDistinct` | portal_backend/src/main.rs:196-288 | The correspondence is one to one: two portal sessions share no verifier, no login, no claim, no issued handoff, no exchange and no answer |
| `Origins.SameUserSameSubject` | rust-auth0-service/src/main.rs:506-558 | Two portal sessions are for the same user if and only if Google named the same subject for both |
| `Origins.UsersAreSubjects` | rust-auth0-service/src/postgres.rs:127-276 | In every run of the whole system, two requests that were given a user, at any times, were given the same one if and only if they were for the same subject |
| `FirstLogin.FirstLoginSucceeds` | rust-auth0-service/src/main.rs:217-595 | Every run can be continued by a login through Google, with HSET and EXPIREAT, the identity tables, creation and the three commands of the exchange, each request and each Redis command at its own time, to a portal session for the user of its subject, new or known, however the browser arrives: without a cookie, with one that names no session, with a session expired on the application's clock, which is deleted, or with one that is lost or expires between the read and the issue script; if the portal has room, the subject can be resolved, and the ten-minute and two-minute windows are kept. The portal finds that session at every time within 28800 seconds of its making and at no later one; the session that the browser had is gone for good |
| `Entries.Enters` | rust-auth0-service/src/main.rs:292-364 | Each of these ways leads, step by step, to a login with Google for the request's own query, and leaves no session under its cookie |
| `SsoLogin.SsoLoginSucceeds` | rust-auth0-service/src/main.rs:265-383 | Every run in which a browser has a common session of an enabled user can be continued by a login with it, without Google, to a portal session with that user and the session's time of authentication, while the session lives on both clocks |
| `SsoLogin.SomeRunLogsIn` | portal_backend/src/main.rs:516-640 | There is a hash and a run without collisions that reaches a portal session, so the statements about runs are about something |
| `Terms.SsoTerms` | rust-auth0-service/src/main.rs:314-382 | Behind every handoff issued with a common session: a request brought the cookie, read that session, unexpired on its own clock, and then found its user enabled; the handoff is for that request's service and challenge, for 120 seconds from its arrival, and the browser goes back to that service with that request's state |
| `Terms.FirstTerms` | rust-auth0-service/src/main.rs:238-249 | Behind every common session and its first handoff: a request arrived, a transaction with its service, state and challenge was written and claimed, by Redis within 600 seconds of that arrival; session and handoff have the lifetimes 28800 and 120 from the authentication, the handoff is for that service and challenge, and the browser goes back with that state |
| `Terms.TransactionTerms` | rust-auth0-service/src/main.rs:217-263 | Every written transaction holds exactly what some arrived request brought, for 600 seconds from its arrival |
| `Terms.StateLengths` | rust-auth0-service/src/main.rs:148-154 | The foundation takes states of 1 to 256 bytes from a service, and no others |
| `Terms.ClaimsAreTimely` | rust-auth0-service/src/redis_state.rs:66-71 | No transaction is claimed 600 seconds after the request that it is for |
| `Terms.DisabledUsersDoNotLogIn` | rust-auth0-service/src/main.rs:324-334 | From a moment at which a user is disabled until it is enabled again, no request is given the user, and no login that has read a session of the user goes on |
| `Logouts.SessionsEndByLogout` | rust-auth0-service/src/main.rs:644-757 | A session is ended only by a posted logout whose cookie names it, within 600 seconds of a logout page that drew the reference and the token that it posts together; the answer is that page's return address |
| `Logouts.LogoutSucceeds` | rust-auth0-service/src/main.rs:680-745 | Every run in which a browser's session is stored can be continued by its logout, page, EXPIREAT, clock and post, to a state in which that session has ended and is gone, and no other |
| `Logouts.PortalLogoutIsFinal` | portal_backend/src/main.rs:692-740 | A portal logout with the session's token in cookie and header succeeds, and at no later moment of the run and at no time does anybody find that session |
| `Logouts.PortalLogoutSucceeds` | portal_backend/src/main.rs:710-732 | Every run in which a portal session lives can be continued by its logout, which removes it and no other |
| `ExchangeRequests.RequestsAreAnsweredAtomically` | rust-auth0-service/src/main.rs:626-641 | In every run, each answered exchange request was answered as one atomic exchange at its last command: 200 if the handoff was there for its service and verifier, unused, unexpired and with its session, 400 otherwise, but 503 exactly if the handoff was there for TYPE and gone for HGET |
| `ExchangeRequests.AnyRequestIsAnswered` | rust-auth0-service/src/redis_state.rs:559-646 | Every run can be continued by any service's exchange request to its answer, with the store and answer of one atomic exchange |
| `Conservation.NothingIsMultipliedAnywhere` | rust-auth0-service/src/main.rs:412-595 | Counting events, in every run: portal sessions held <= sessions opened by callbacks <= login starts claimed <= login starts made; sessions opened <= successful exchanges <= handoffs issued; common sessions created <= external transactions claimed <= written |
| `Conservation.TallyIsFiled` | portal_backend/src/main.rs:196-288 | For each of the eight kinds of event, the records kept of it are exactly as many as it happened: no two events share one |
| `Conservation.ClaimedNeverReturns` | portal_backend/src/main.rs:235-255 | Once claimed, a login start is never again in the portal's map, at any later moment of any run |
| `SystemTheorems.OneExchangePerCode` | rust-auth0-service/src/main.rs:597-642 | Of all requests of a run that present the same code, interleaved in any way, at most one is answered with a user |
| `SystemTheorems.LogoutEndsEveryRequest` | rust-auth0-service/src/main.rs:314-369 | After a logout ended a session, no request issues a handoff for it, including a login that read the session before, and none exchanges a handoff issued for it |
| `SystemTheorems.ExchangesAreTimely` | rust-auth0-service/src/main.rs:506-558 | With the field values the handlers give, every successful exchange is at a Redis time below issued_at + 120 and below authenticated_at + 28800 |
| `SystemTheorems.SystemRunsOnRawRedis` | rust-auth0-service/src/redis_state.rs:672-703 | At every moment of every run, the raw database that got the same commands holds exactly the hashes of the typed records, with no TTL other than a record's own expiry |
| `SystemTheorems.RequestsGetTypedAnswers` | rust-auth0-service/src/redis_state.rs:449-646 | Every command that a handler sends in a run gets from the raw hashes, through script, reply and decoding, the answer of the typed protocol |
| `EndToEnd.StepKeepsInv` | rust-auth0-service/src/main.rs:265-757 | Every step of every handler, and every loss, keeps the invariant of the whole system: references, request states, login starts, waiting callbacks and portal sessions all stay accounted for |
| `Agreement.PlanIsGood` | rust-auth0-service/src/main.rs:217-757 | Every Redis command a handler sends is well formed, has the handler's expiries, uses only references just generated, and creates a session only after a claim of its own |
| `RunTheorems.AtMostOneExchange` | rust-auth0-service/src/redis_state.rs:147-194 | Over every run with fresh references, whatever records are lost, a handoff is exchanged at most once, and never if it was not issued |
| `RunTheorems.ExchangeIsGenuine` | rust-auth0-service/src/redis_state.rs:162-193 | A successful exchange answers with the user and time that were issued, to the service and challenge and for the session they were issued for, while that session is present, unexpired and not logged out |
| `RunTheorems.SplitExchangeIsAtomic` | rust-auth0-service/src/redis_state.rs:559-646 | TYPE, HGET and script with anything in between change the store and answer as one atomic exchange at the script's instant, except that they change nothing and answer NotFound if the handoff was absent at TYPE, and InvalidStoredState if and only if it was there at TYPE and gone at HGET |
| `RunTheorems.OwnLookupIsNeverInvalid` | rust-auth0-service/src/redis_state.rs:179-189 | In every coherent state the exchange script's exits for a session that does not match its handoff are unreachable |
| `RunTheorems.LogoutIsFinal` | rust-auth0-service/src/redis_state.rs:214-233 | After a logout deleted a session, no command issues or exchanges for it and no fresh command brings it back |
| `RunTheorems.LogoutCompletesOnce` | rust-auth0-service/src/redis_state.rs:218-232 | A logout transaction that has completed is refused at every later moment of the run |
| `RunTheorems.AbsoluteLifetime` | rust-auth0-service/src/redis_state.rs:176-190 | No exchange succeeds 120 seconds after issuing or 28800 seconds after authentication, however many handoffs the session gave rise to |
| `RunTheorems.RecordsOnlyAge` | rust-auth0-service/src/redis_state.rs:46-234 | Between any two moments of a run, records known at the first are unchanged but for a status that only moved forward, or are gone for good |
| `RunTheorems.NothingIsMultiplied` | rust-auth0-service/src/redis_state.rs:53-72 | An external transaction is claimed at most once; claims never outnumber writes, nor exchanges issues |
| `RunTheorems.EachUseIsPaidFor` | rust-auth0-service/src/redis_state.rs:672-703 | In every run, with references reused or not, claims of a key are at most its writes and exchanges of a handoff at most its issues, with one to spare while the record is still usable |
| `RunTheorems.RewritingAllowsAnotherClaim` | rust-auth0-service/src/redis_state.rs:684-693 | Writing the same external transaction again, which HSET allows, lets it be claimed a second time |
| `Runs.EveryRunIsCoherent` | rust-auth0-service/src/redis_state.rs:90-144 | Every run with fresh references is coherent: stored records are those written, created or issued but for status; used ones stay used; an issued handoff agrees with the session it names on user and authentication time |
| `Runs.EveryCommandMoves` | rust-auth0-service/src/redis_state.rs:46-234 | What any command can do to the three record families: create under a free key, move one status forward on success, or only remove |
| `RunRefinement.RunsRefine` | rust-auth0-service/src/redis_state.rs:333-646 | After every run that the service can send, the raw database represents exactly the typed store and its records stay well formed |
| `RunRefinement.AnswersAgree` | rust-auth0-service/src/redis_state.rs:449-670 | And the next command, whatever it is, gets the same answer at both levels |
| `RunRefinement.CommandRefines` | rust-auth0-service/src/redis_state.rs:619-787 | Each of the fifteen commands, on any database that represents a store, gives the typed answer and a database that represents the typed result |
| `RunRefinement.EvictionIsExpiry` | rust-auth0-service/src/redis_state.rs:684-699 | A TTL that has passed belongs to a record that has expired, so eviction by Redis only removes expired records |
| `ScriptRefinement.ClaimRefines` | rust-auth0-service/src/redis_state.rs:46-73 | On encoded records with any u64 times, the claim script gives the typed claim's answer and store |
| `ScriptRefinement.IssueRefines` | rust-auth0-service/src/redis_state.rs:75-112 | The same for the issue script with its nine arguments |
| `ScriptRefinement.CreateRefines` | rust-auth0-service/src/redis_state.rs:114-145 | The same for the script that creates session and handoff together |
| `ScriptRefinement.ExchangeRefines` | rust-auth0-service/src/redis_state.rs:147-194 | The same for the exchange script |
| `ScriptRefinement.LogoutRefines` | rust-auth0-service/src/redis_state.rs:196-234 | The same for the logout script, fixed-work comparison included |
| `LuaServer.Server.Claim` | rust-auth0-service/src/redis_state.rs:46-73 | The claim script's commands, in order, leave the database and give the reply that the specification function says, on any database whatever its hashes hold |
| `LuaServer.Server.Issue` | rust-auth0-service/src/redis_state.rs:75-112 | The same for issuing, an EXPIREAT that Redis refuses and that aborts the script after its HSET included |
| `LuaServer.Server.Create` | rust-auth0-service/src/redis_state.rs:114-145 | The same for creating, with either EXPIREAT aborting the script |
| `LuaServer.Server.Exchange` | rust-auth0-service/src/redis_state.rs:147-194 | The same for exchanging |
| `LuaServer.Server.CompleteLogout` | rust-auth0-service/src/redis_state.rs:196-234 | The same for completing a logout |
| `LuaServer.Server.ReadHandoff` | rust-auth0-service/src/redis_state.rs:164-175 | Counting fields, testing each and matching Lua patterns accepts exactly the hashes with the eight fields whose texts the Rust parsers accept within 2^53-1, and reads the same values |
| `LuaServer.Server.ReadSession` | rust-auth0-service/src/redis_state.rs:91-97 | The same for the four fields of a common session |
| `LuaServer.FixedWorkEqualLookup` | rust-auth0-service/src/redis_state.rs:203-213 | The loop that ORs the XORs of 64 byte pairs is true if and only if both texts are lookups and equal |
| `ScriptCalls.ClaimIsReported` | rust-auth0-service/src/redis_state.rs:449-488 | For every database: a claim that changed the store is reported as the record now stored if and only if its five texts are UTF-8, and otherwise as an invalid record |
| `ScriptCalls.ExchangeIsReported` | rust-auth0-service/src/redis_state.rs:559-594 | An exchange that changed the store is always reported, with the stored user and time |
| `ScriptCalls.LogoutIsReported` | rust-auth0-service/src/redis_state.rs:596-617 | A logout that changed the store is reported with the stored return address exactly when that is UTF-8 |
| `ScriptCalls.IssueAborts` | rust-auth0-service/src/redis_state.rs:104-110 | For every database and arguments: an issue that passes its tests is aborted if and only if the expiry has a sign or leading zeros; the handoff is then stored without a TTL and a failure of Redis is reported |
| `ScriptCalls.CreateAborts` | rust-auth0-service/src/redis_state.rs:137-144 | The same for a creation, with the session stored without a TTL, or with one and the handoff without |
| `ScriptCalls.SignedExpiryAborts` | rust-auth0-service/src/redis_state.rs:77-81 | There are a database and arguments that pass the script's tests and abort it |
| `ScriptCalls.ClaimCanGoUnreported` | rust-auth0-service/src/redis_state.rs:461-484 | There is a stored hash that a claim changes and reports as invalid |
| `Eviction.EvictionOnlyFades` | rust-auth0-service/src/redis_state.rs:53-233 | Next to a server that never evicts, one that evicts any expired records at any moments lacks nothing but expired records, for every run with a clock that does not go back |
| `Eviction.EvictionIsInvisible` | rust-auth0-service/src/redis_state.rs:46-234 | And every script is answered alike by both, up to NotFound and Expired |
| `Eviction.ResponsesAgree` | rust-auth0-service/src/main.rs:435-448 | So the handlers, which group these two, show the answers of the scripts alike |
| `EvictedExchange.ResponseDependsOnSlipping` | rust-auth0-service/src/main.rs:626-641 | The exchange handler, with its TYPE and HGET, responds alike on a server that evicts and on one that does not if and only if the handoff slipped away between the two reads on both or on neither |
| `EvictedExchange.SlippingChangesTheResponse` | rust-auth0-service/src/main.rs:626-641 | For every session and handoff that can be made: evicted after its expiry and between the two reads, the handoff is reported as an invalid record with 503, where the server that does not evict responds otherwise |
| `EvictedExchange.SlippingHappens` | rust-auth0-service/src/redis_state.rs:619-646 | There is an allowed run with fresh references in which a handoff slips away between TYPE and HGET, is reported as an invalid record, and the responses differ |
| `EvictedExchange.SuccessIsUnaffected` | rust-auth0-service/src/redis_state.rs:619-646 | Whether an exchange succeeds, and with which user and time, never depends on eviction |
| `EvictedLogin.LoginDependsOnEligibility` | rust-auth0-service/src/main.rs:314-369 | The login handler, with its HGETALL, its check of the user and the issue script, responds alike on both servers except exactly when an evicted session, unexpired for the request, belongs to a user who is not eligible; then one says Forbidden and the other starts a login with Google |
| `EvictedLogin.LoginCanDiffer` | rust-auth0-service/src/main.rs:314-332 | There is such a run and such a request |
| `EvictedLogin.RequestsRespondSo` | rust-auth0-service/src/main.rs:314-369 | A login request of the system goes to Google, ends with 403, or is sent back with a handoff exactly as that response says |
| `Responses.ClaimStatusMeans` | rust-auth0-service/src/main.rs:435-448 | Google's callback goes on exactly with a waiting, unexpired transaction, and answers 400 otherwise |
| `Responses.ClaimIsUnavailable` | rust-auth0-service/src/main.rs:443-447 | It answers 503 exactly for a transaction with a time beyond 2^53-1 |
| `Responses.ExchangeStatusMeans` | rust-auth0-service/src/main.rs:626-641 | After any run, an exchange done in one piece answers 200 exactly with an unused, unexpired handoff for that service and challenge whose session is unexpired, and 400 otherwise |
| `Responses.LogoutStatusMeans` | rust-auth0-service/src/main.rs:735-756 | A logout answers 303 exactly with a pending transaction and its own token, 403 with another token, and 400 without a pending transaction |
| `Responses.LogoutDeletes` | rust-auth0-service/src/redis_state.rs:230-233 | One that answers 303 gives the stored return address, and has deleted the session that it names and no other |
| `Responses.IssueTurnMeans` | rust-auth0-service/src/main.rs:354-369 | A login with a session goes back to the service exactly while session and handoff are unexpired, and to Google otherwise |
| `Records.ExternalRoundTrip` | rust-auth0-service/src/redis_state.rs:789-856 | Every external transaction is decoded from its own encoding, through decimal text |
| `Records.SessionRoundTrip` | rust-auth0-service/src/redis_state.rs:808-866 | Every common session, for every u64 and i32 |
| `Records.HandoffRoundTrip` | rust-auth0-service/src/redis_state.rs:817-886 | A handoff is decoded from its encoding exactly when its session lookup is well formed, and otherwise rejected |
| `Records.LogoutRoundTrip` | rust-auth0-service/src/redis_state.rs:830-904 | A logout transaction exactly when its CSRF lookup is well formed |
| `Records.ExternalSpelling` | rust-auth0-service/src/redis_state.rs:789-856 | Whatever spelling of numbers a decodable hash uses, re-encoding keeps the record, and gives the same hash back if and only if its numbers have no sign and no leading zero |
| `Records.SessionSpelling` | rust-auth0-service/src/redis_state.rs:808-866 | The same for common sessions, with their signed user id |
| `Records.HandoffSpelling` | rust-auth0-service/src/redis_state.rs:817-886 | The same for handoffs |
| `Records.LogoutSpelling` | rust-auth0-service/src/redis_state.rs:830-904 | The same for logout transactions |
| `Decimal.LuaUintAgrees` | rust-auth0-service/src/redis_state.rs:46-52 | The Lua test for unsigned numbers, on the double that `tonumber` gives, accepts exactly the u64 texts of value at most 2^53-1, with the same value |
| `Decimal.LuaIntAgrees` | rust-auth0-service/src/redis_state.rs:77-89 | The Lua test for signed numbers, on that double, accepts exactly the i32 texts, with the same value |
| `Decimal.RoundingIsInvisible` | rust-auth0-service/src/redis_state.rs:46-52 | With any rounding to doubles that is monotone and exact up to 2^53, the scripts' range test is the exact one |
| `Decimal.ParsePrintU64` | rust-auth0-service/src/redis_state.rs:926-930 | Parsing the decimal text of any u64 gives it back |
| `Decimal.ParsePrintI32` | rust-auth0-service/src/redis_state.rs:932-936 | Parsing the decimal text of any i32 gives it back |
| `References.LuaLookupAgrees` | rust-auth0-service/src/redis_state.rs:968-974 | The Lua pattern for lookups accepts exactly what `is_lookup` accepts |
| `References.HexInjective` | rust-auth0-service/src/auth_foundation.rs:70-75 | Different digests have different hexadecimal lookups |
| `References.Base64UrlInjective` | rust-auth0-service/src/auth_foundation.rs:64-68 | Base64url without padding (section 5 of RFC 4648) of different 32 bytes differs |
| `Encodings.Base64UrlDenotes` | rust-auth0-service/src/auth_foundation.rs:64-68 | By the table of section 5 of RFC 4648, the base64url digits of any bytes denote the number that the bytes denote, shifted by the padding bits |
| `Encodings.ChallengeDenotes` | rust-auth0-service/src/auth_foundation.rs:85-89 | An S256 challenge (section 4.2 of RFC 7636) is 43 digits that denote four times its verifier's digest |
| `Encodings.LookupDenotes` | rust-auth0-service/src/auth_foundation.rs:70-75 | A lookup is 64 hexadecimal digits that denote the reference's digest |
| `Encodings.ValidMeansUtf8` | rust-auth0-service/src/redis_state.rs:648-655 | A reply is taken as text exactly if it is the UTF-8 form (section 3 of RFC 3629) of some Unicode scalar values |
| `References.VerifierLengths` | rust-auth0-service/src/auth_foundation.rs:122-136 | Verifiers are accepted at every length from 43 to 128 and at no other |
| `References.ReferenceIsAccepted` | rust-auth0-service/src/auth_foundation.rs:122-148 | The encoding of any 32 bytes is a reference that both services accept, and a verifier in the accepted range |
| `References.ChallengeInjective` | rust-auth0-service/src/auth_foundation.rs:85-89 | S256 challenges (section 4.6 of RFC 7636) are equal if and only if the digests of the verifiers are |
| `References.KeyInjective` | rust-auth0-service/src/redis_state.rs:310-331 | Keys of different families never coincide, and keys of one family coincide only for equal lookups |
| `Portal.PortalLocalState.CleanupExpired` | portal_backend/src/main.rs:189-194 | The two loops that visit every record leave under each key exactly what was there, if it has not expired, and nothing otherwise |
| `Portal.PortalLocalState.CreateLoginStart` | portal_backend/src/main.rs:196-233 | The new contents and the outcome of creating a login start under the first drawn reference that is not in use |
| `Portal.PortalLocalState.ClaimLoginStart` | portal_backend/src/main.rs:235-255 | Removes and returns a live login start for its own browser, removes an expired one, and changes nothing otherwise |
| `Portal.PortalLocalState.CreateLocalSession` | portal_backend/src/main.rs:257-288 | The new contents and the outcome of creating a session under the first drawn reference that is not in use |
| `Portal.PortalLocalState.GetLocalSession` | portal_backend/src/main.rs:290-300 | Returns a live session, and removes an expired one |
| `Portal.PortalLocalState.LogoutUnderLock` | portal_backend/src/main.rs:710-732 | Removes the session exactly when it is live and cookie, header and stored digest agree |
| `Portal.RetryTerminates` | portal_backend/src/main.rs:207-232 | If one draw more than there are records are pairwise distinct, the retry loop has its free reference among these, and within the capacity when the map is below it |
| `Portal.DrawUntilFree` | portal_backend/src/main.rs:268-287 | The retry loop stops at the first drawn reference that is not in use |
| `PortalSessions.SessionLives` | portal_backend/src/main.rs:257-300 | In every sequence of operations in order of time, a session that was made, and neither made again nor ended by a logout, is found, with its user, exactly until 28800 seconds after its making |
| `PortalSessions.StartLives` | portal_backend/src/main.rs:196-255 | Likewise a login start is claimed by its own browser exactly until 600 seconds after its making, and another browser is refused |
| `PortalSessions.PathIsLocal` | portal_backend/src/main.rs:307-317 | A path that is accepted has at most 2048 bytes, begins with a slash, and with no second slash or backslash that would make it another host's |
| `PortalRefinement.LazyCleanupTracks` | portal_backend/src/main.rs:189-304 | For every sequence of operations in order of time, with cleanups anywhere, the live records are those of maps that are never cleaned, and both maps stay within capacity |
| `PortalRefinement.LazyCleanupIsInvisible` | portal_backend/src/main.rs:822-834 | And every outcome is that of the simple model, up to Expired and NotFound; capacity is reached exactly when that many records are live |
| `PortalRefinement.TimeMustNotGoBack` | portal_backend/src/main.rs:563-567 | A claim with a time older than a cleanup can be refused although its login start was live at that time |
| `LateUse.AlikeUnlessLate` | portal_backend/src/main.rs:189-304 | For every sequence of operations with any times, all outcomes are those of maps that are never cleaned if and only if no operation comes late: its time is before the expiry of a record that a cleanup, a creation or an earlier use with a later time has dropped, and that record would have decided its outcome |
| `LateUse.LateClaim` | portal_backend/src/main.rs:563-567 | After any operations in order of time, a claim with any time is answered as in the simple model if and only if its login start did not expire between that time and the latest cleanup, creation or claim that looked at it |
| `LateUse.InOrderIsNeverLate` | portal_backend/src/main.rs:822-834 | Operations in order of time never come late |
| `Identity.ResolutionIsAFunction` | rust-auth0-service/src/postgres.rs:127-138 | In every run of any number of resolvers, two that succeed, at any times, return the same id if and only if they were for the same provider and subject |
| `Identity.TablesStayConsistent` | rust-auth0-service/src/postgres.rs:208-276 | There are always as many committed users as identities, and no resolver ends with an inconsistent identity |
| `Identity.IdentitiesStay` | postgres/auth-migrations/001_create_authentication_tables.sql:62-83 | A committed identity keeps its user for ever |
| `Identity.ResolversEnd` | rust-auth0-service/src/postgres.rs:127-138 | In every run, a resolver that ends with a user ends with an enabled one, and one is refused as disabled exactly if its read found its identity with a user then disabled |
| `Identity.DisabledUsersAreRefused` | rust-auth0-service/src/postgres.rs:176-206 | From a moment at which the user of an identity is disabled until it is enabled again, no resolver that arrives for the identity is given it: it is refused as disabled, or fails |
| `Identity.ConflictEnds` | rust-auth0-service/src/postgres.rs:259-274 | A resolver that lost a race can end, with the winner's user, or refused if that is disabled by then |

## Left out

- HTTP servers, routing, headers, cookies, HTML output, query and cookie parsing, logging and configuration: plumbing around the modelled steps. The handlers enter the model with parsed inputs.
- Google's token and user info calls: a request that has claimed its transaction either ends there or is given some subject, which it resolves.
- The checks that a service is registered and enabled and that its secret matches: in `System` a request may pass them always. Statements about runs hold for more runs than the services have.
- That a user is disabled between the check of a login with a session and the exchange: the exchange does not look at the user again.
- SHA-256, random bytes and the timing of comparisons: a parameter, fresh values, and equality. Operating system failures to give random bytes are a request that ends.
- Redis replication, failover, connection errors and type errors on foreign keys during a run: there is one Redis, a script is one step, and a request that gets no answer ends.
- EXPIREAT's own limit on times far in the future is not modelled; neither are times of the application before 1970.
- Redis write-failure messages and error codes in logs: single branches.
- `write_session`, `write_handoff` and the stand-alone readers of external transactions, handoffs and logout transactions: no handler uses them.
- PostgreSQL beyond committed rows, the primary key, waiting for a conflicting open insert, and rollback; rows are never deleted, as in the services.
- Hash field names are an enumeration with one case for any other name, and strings have one character per byte.
- Portal.PortalLocalState.CreateLoginStart: takes the random source as a sequence of draws in which some draw is free, since the loop would not end otherwise; `Portal.RetryTerminates` shows that as many distinct draws as records, and one more, are enough.
- Portal.PortalLocalState.CreateLocalSession: the same.
- Eviction.EvictionIsInvisible: is about scripts and writes; the plain reads before them do see a dropped key, which `EvictedExchange` covers for the exchange handler and `EvictedLogin` for the login handler.
- The Vue frontend, Kubernetes manifests, container files and the cut-over scripts.
