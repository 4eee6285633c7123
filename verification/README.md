# Users module: a verified model

A Dafny model of the users module's identity, authorization and onboarding logic, with proofs about it.
`dafny verify dfyconfig.toml` checks the whole project.

## What is modelled

**Credentials and identities** (`Accounts`, `AccountSafety`, `AccountFrames`, `AccountOutcomes`, `AccountMarks`,
`AccountEmails`, `AccountTheorems`, `AccountDb`). Accounts, password rows, OIDC identity rows, minted link tokens, the open
transactions of the two credential deleters, and administrators' updates between their read and their write form
one state machine. Its steps are sign-up, administration, the last writes of an email verification and of a
password reset, password change, the five branches of sign-in resolution, link mode, and begin/commit/abort of
`Unlink` and `RemovePassword`. A transaction is a snapshot, a decision on the snapshot, and a commit. Under
serializable isolation the commit aborts when another serializable transaction has removed rows of the account it
read (write skew, PostgreSQL 16 documentation, section 13.2.3); under plain snapshot isolation only when a row it
deletes is itself gone. The main result, no interleaving takes an account's last credential, holds for the first
and is refuted for the second. The class `AccountDb.Store` runs the same steps on mutable tables.

**Step-up challenge** (`StepUp`, `StepUpRows`, `StepUpTheorems`, `StepUpGate`). Email codes, issued tokens, any number of server
processes with a consumed set and a janitor each, their restarts, and a clock that never goes back. The tables and
the signing key are shared. A request that redeems a code is two steps, the look-up with the comparison and the
consumption, so requests overlap; a restart of a process forgets its consumed set and its unfinished requests.
Passes of the gates are counted against verifications and redeemed codes. `StepUpGate.Gate` is the mutable state of
one process.

**Redirect flow** (`OAuthFlow`). Minting of sign-in, test and link states, and the callback's branching.

**The credential system** (`Credentials`, `CredentialTheorems`, `CredentialEvidence`, `CredentialResets`,
`CredentialFlows`, `CredentialJourneys`, `CredentialDb`). The three above together with the password reset rows as one state machine over
any number of processes, in which nothing a request claims is taken on trust: a code is compared with its row, a
step-up token spent from the consumed set of the process it reaches, a current password verified against the stored
one, a reset token looked up, a state found among those minted. Its runs project onto runs of the account and the
step-up machine, so their results carry over. A restart forgets the resets under way; what the database had already
been sent, a commit or the write of an update, may still happen. `CredentialJourneys` follows each flow, undisturbed,
from the first request to what it changes. `CredentialDb.Handlers` is the mutable state of one process's handlers.

**Authorizer** (`Authz`). The recursive group queries are evaluated table by table and proved to be the
reflexive-transitive closure; the decision is proved equal to a declarative specification, whichever queries fail.

**Sessions** (`Sessions`). From a password to a session token, and from any bearer token through the session verifier,
the claim mapper, the resolver and the middleware to the entity the authorizer decides for; and identity assumption,
whose token names an administrator and the user acted for.

**Provider configuration** (`Providers`, `ProviderAdmin`, `EditForm`, `EditedSave`). The layered merge, the tri-state PUT, the
provenance view, and the browser form that reads the view and writes it back.

**Onboarding** (`Onboarding`, `OnboardingTheorems`, `OnboardingOutcomes`, `OnboardingHandlers`). The config row, the override rows, the
OAuth registry, the cached boot state and the setup token of one process, from boot through every sequence of
confirmations and provider writes there. `OnboardingHandlers.Handlers` is the handlers' mutable state.

**Token and hash formats** (`Tokens`, `PasswordHash`, `Base64`, `Text`, `JsonValues`). Three token kinds under one
secret, and the printer and parser of password hashes. `Base64` follows section 4 and section 5 of RFC 4648.

### Where the code disagrees with its comments

The model follows the code.

- A comment in `Confirm` says an empty provider list implies an opt-out. It does so only when the registry itself
  is empty: the set it measures is complete over the registry (`OnboardingTheorems.ConfirmVerdict`).
- `BootStateResult.Enabled` is documented as sorted; it lists ids in the order of the views, which is map order.
  The verdict does not depend on that order (`Onboarding.DetermineBootState`).
- The callback has a branch that shows a failed exchange of a test flow; `Exchange` returns an empty payload with
  every error, so that branch never runs (`OAuthFlow.TestFailureUnreachable`).
- A body with `"enabled": null` disables the provider, since null decodes into false without an error.
- The browser and the server trim different characters (U+FEFF and U+0085), so scopes can survive one and not the
  other (`EditForm.ScopesSafe`).
- `Update` keeps the verification mark when an administrator changes an account's email.
- The index on lower-cased emails is not unique and the constraint on emails compares the text itself, while
  accounts are looked up by the lower-cased email (`AccountEmails.CaseTwins`).
- The check on `email_codes.purpose` lists `login` and `verify_email` only, so with the migrations as they stand no
  step-up code can be stored and nobody passes a required step-up (`StepUpTheorems.GateOpensIff`). The other step-up
  results are about a table that admits `credential_change`.
- The callback calls a state one-shot; it clears the cookie, but the state stays valid until it expires
  (`CredentialFlows.OnePassTwoIdentities`).
- A failed clearing of the setup token hash is logged as harmless; the token then still authorizes every endpoint
  that takes one (`OnboardingTheorems.ConfirmSpendsToken`).

### Properties that hold only under a condition

Each is proved with its exact condition. The lemmas named show a run or an input where it fails.

- A step-up token that passed passes again at a process exactly when it is unexpired and it never passed at this
  process, or the process restarted after it last did (`SecondProcessReadmits`, `RestartReadmits`).
- A code row can be redeemed again exactly when another request found it before, or consuming it failed and it is
  open still (`OverlapRedeemsTwice`): `ConsumeEmailCode` also succeeds on a row consumed meanwhile. A password reset
  row can be used again under the same condition (`OverlapResetsTwice`).
- A verified account stays verified along a run exactly when no update writes an unset mark over its set one, and an
  unverified account never has two identities or a link token exactly when no update does so while the account has
  them (`UpdateLosesMark`): `Update` writes back a mark it read before its transaction.
- Emails are unique up to case along a run exactly when no step writes one that another account has up to case
  (`CaseTwins`); then, and only then, the tables determine which account a look-up finds.
- An account's codes and the proof behind its mark are of the email it has exactly while no update gives it another
  one after a code was mailed to the old one, or with a mark that nothing proves for the new one
  (`OldCodeVerifiesNewAddress`).
- A linked identity always resolves to its account, unless its issuer is the local issuer and its subject is not
  that account's UUID (`LocalIssuerLinkIsLost`).
- Two PUT bodies in turn act like one combined body, unless an ill-typed value of the second stands over a
  well-typed value of the first (`IllTypedAfterWellTyped`).
- An unedited save keeps the provider exactly when every override is one the form's text reproduces
  (`CommaScopeExample`), and a second one changes nothing exactly when the scopes the first one stored are stable
  (`SecondSaveExample`).
- A step-up token is kept out of the session verifier by the issuer claim alone, so only while the local issuer is
  not empty; with an empty one it still signs nobody in, since it names no subject (`Sessions.OnlySessionsSignIn`).
- A session that assumes a user is decided as that user exactly while the user is found; otherwise the assumption is
  dropped without a word and the decisions are the administrator's (`Sessions.AssumeSession`).
- A mailed code or reset, a token and a redirect state work exactly until they expire: the row at the nanosecond, the
  signed ones to the second (`CredentialJourneys`).
- A wildcard manager passes every operation when `manage` implies every registered one, as the seed does; an
  operation registered later without that edge is refused (`ExportRefusesManager`).
- A confirmation with an empty list opts out only when the registry is empty or the request says so
  (`EmptyListDoesNotOptOut`).
- A confirmation that ends confirmed leaves no accepted setup token exactly when none was stored or clearing it and
  refreshing both succeed; a provider write that ends confirmed never clears it (`PutKeepsTokenReachably`).

## Model

| member | source | states |
|---|---|---|
| AccountSafety.NeverLosesLastCredential | api/internal/handlers/identities.go:253-290 | over every interleaving of requests with serializable deleters, an account that has a credential keeps one |
| AccountSafety.DecisionLeavesOne | api/internal/service/identities.go:23-39 | a removal the snapshot's counts allow leaves the account one of the rows the snapshot shows, if they are still there |
| AccountSafety.SerializableCommitKeepsCredential | api/internal/handlers/identities.go:428-449 | a serializable commit of either deleter, stale or not, leaves every account with a credential one |
| AccountSafety.CommitSparesOthers | model/db/auth_oidc_identities.sql.go:27-43 | whatever the isolation, a deleter takes nothing from another account |
| AccountSafety.RunKeeps | api/internal/auth/resolver.go:154-285 | every run, with updates split at their read, keeps the tables well formed, emails unique to the letter, open transactions true to what they read, and link tokens and pending updates naming accounts |
| AccountTheorems.RaceOutcomes | api/internal/handlers/identities_test.go:731-744 | an unlink racing a password removal empties the account under snapshot isolation and leaves the password under serializable isolation |
| AccountTheorems.SnapshotLosesLastCredential | api/internal/handlers/identities_test.go:731-744 | the state that race needs is two requests away from the empty tables, so snapshot isolation does lose a last credential |
| AccountTheorems.UnlinkAlone | api/internal/handlers/identities.go:235-312 | an undisturbed unlink removes exactly the owned row, answers 409 when one credential is counted whatever the uuid, 404 otherwise, and then changes no row |
| AccountTheorems.RemovePasswordAlone | api/internal/handlers/identities.go:418-463 | an undisturbed removal takes exactly the password row, refuses without an identity, and does nothing without a password |
| AccountFrames.PasswordChangedOnlyBy | api/internal/handlers/identities.go:328-410 | frame: a step changes an existing account's password row only by a reset of it, by its own SetPassword past the gate with the stored password, or by its own removal |
| AccountFrames.VerifiedOnlyBy | api/internal/handlers/auth/emailcode.go:186-199 | frame: an account becomes verified only by the last write of an email-code request of it, by a sign-in whose provider vouches for its address, or by the write of an update that read its mark set |
| AccountFrames.EmailChangedOnlyBy | model/db/user_accounts.sql.go:196-202 | frame: an account stays, and its email changes only by the write of an update of it, or of an email-code request of it that writes back the email read at its start |
| AccountFrames.TokensOnlyBy | api/internal/handlers/identities.go:200-227 | frame: link tokens stay and are added only by starting a link, transactions only by beginning one, pending updates only by a read that records the mark as it stands, each for its own account |
| AccountFrames.BindingNeedsReply | api/internal/handlers/auth/oidc.go:363-473 | a new identity row is the one the provider's reply names, bound to the account that signed in or that holds a minted link token |
| AccountMarks.UnverifiedAtMostOneIdentity | api/internal/auth/resolver.go:214-285 | at every point of a run from the empty tables an unverified account has at most one identity and no link token, exactly when no update writes an unset mark over the account's set one while it has more |
| AccountMarks.VerifiedForever | api/internal/service/user_accounts.go:265-295 | accounts stay; a verified account is verified all along a run exactly when no update writes an unset mark over its set one |
| AccountMarks.UpdateLosesMark | api/internal/service/user_accounts.go:265-295 | a run from the empty tables in which an update reads before a verification and writes after a second sign-in: unverified again, with two identities |
| AccountEmails.RunCaseUnique | model/migrations/0101_users.sql:14-22 | emails are unique up to case at every point of a run exactly when no step writes one that another account has up to case |
| AccountEmails.LookUpDeterminedIff | model/db/user_accounts.sql.go:68-73 | the account an email finds is determined by the tables exactly while emails are unique up to case |
| AccountEmails.CaseTwins | model/migrations/0101_users.sql:14-22 | a sign-in under a mixed-case email and a sign-up under its lower-case form leave two accounts that either email finds |
| AccountTheorems.BindingStable | api/internal/auth/resolver.go:289-329 | an identity that is not unlinked keeps its account and uuid over any run |
| AccountTheorems.StepKeepsBinding | model/db/auth_oidc_identities.sql.go:27-43 | the only step that removes an identity is a commit of an unlink of that uuid by its own account |
| AccountTheorems.IdentityReachesItsAccount | api/internal/auth/resolver.go:154-212 | after any run that keeps it, an identity resolves to its account under any email, exactly when it does not take the local-issuer path or that path names the same account |
| AccountTheorems.LocalIssuerLinkIsLost | api/internal/auth/resolver.go:161-176 | a run from the empty tables links an identity of the local issuer that is then refused as no UUID |
| AccountTheorems.ResolveBinds | api/internal/auth/resolver.go:334-393 | a successful sign-in leaves its identity bound to the account it returned |
| AccountTheorems.ResolveAgain | api/internal/auth/resolver.go:190-213 | a repeated sign-in reaches the same account and changes only the last-seen time |
| AccountTheorems.ResolveJoinsOnlyProven | api/internal/auth/resolver.go:214-285 | a new identity joins an existing account only by its email, only when the account was verified or the provider vouches, and the account is verified afterwards |
| AccountOutcomes.KnownExact | api/internal/auth/resolver.go:154-212 | from every state, a local token reaches the account of its UUID and changes nothing, a known identity its account and changes its last-seen time |
| AccountOutcomes.JoinExact | api/internal/auth/resolver.go:214-285 | from every state, a new identity under an account's email joins it exactly when the account is verified or the provider vouches, leaves it verified with its email and a fresh row, and is otherwise refused with nothing changed |
| AccountOutcomes.FreshExact | api/internal/auth/resolver.go:397-550 | from every state, a new identity under an email no account has creates its account, verified exactly if the provider vouches, with its row |
| AccountOutcomes.LinkExact | api/internal/handlers/auth/oidc.go:363-473 | a link callback binds a new identity, touches an own one and refuses another account's; link tokens are minted past the gate for a usable provider |
| AccountOutcomes.RegisterExact | api/internal/handlers/auth/register.go:74-190 | a sign-up is accepted exactly with a well-formed body, twelve bytes of password and a free email, and adds one unverified account with the hash of that password |
| AccountOutcomes.CreateExact | api/internal/service/user_accounts.go:113-198 | the same for an administrator's creation, with an optional password and only for a permitted caller |
| AccountOutcomes.UpdateAlone | api/internal/service/user_accounts.go:265-342 | an undisturbed update by a permitted caller gives the account the normalised email if the constraint lets it, keeps the mark, and changes nothing else |
| AccountOutcomes.SetPasswordExact | api/internal/handlers/identities.go:328-410 | past the gate a password is set exactly with twelve bytes and, over a stored one, the current password; no other row changes |
| AccountOutcomes.CommitExact | api/internal/handlers/identities.go:253-290 | a deleter's commit aborts exactly on a conflict of its isolation level, and marks exactly the same account's open transactions when it removes |
| AccountDb.Store.FindByEmail | model/db/user_accounts.sql.go:68-73 | the look-up finds the account the database returns first of those that match up to case, and none only if none matches |
| AccountDb.Store.EmailFree | model/migrations/0101_users.sql:14 | the unique constraint holds exactly when no other account has the same text |
| AccountDb.Store.VerifyAndLink | api/internal/auth/resolver.go:334-393 | verification and link are both kept, or both undone |
| AccountDb.Store.AutoCreate | api/internal/auth/resolver.go:397-550 | account and identity are both created, or neither |
| AccountDb.Store.Commit | api/internal/handlers/identities.go:263-290 | the commit removes the decided rows or aborts, and leaves every account with a credential one |
| StepUpTheorems.PassesAreEarned | api/internal/auth/stepup.go:94-213 | over any run of any number of processes, with overlapping requests, janitor ticks and restarts, passes plus outstanding tokens equal verifications plus repeats, for every account; nothing repeats while tokens are presented to one process that stays up; in clean runs each verification has its own redeemed credential_change row |
| StepUpTheorems.GateExact | api/internal/auth/stepup.go:94-147 | in every reachable state the gate of a process passes exactly an unexpired token of the account that has not passed there since that process last restarted |
| StepUpTheorems.SpentTokenReturnsIff | api/internal/handlers/identities.go:42-46 | a token that passed passes at a process exactly when its account presents it before it expires and it never passed there, or the process restarted after it last did |
| StepUpTheorems.TokenPassesBounded | api/internal/auth/stepup.go:90-93 | a token's passes at any set of processes are at most their number plus their restarts in its lifetime |
| StepUpTheorems.AccountPassesBounded | deploy/k8s/base/deployment.yaml:7 | where the gated requests reach a given set of processes only, an account passes at most once for each verification and each process or restart of one |
| StepUpTheorems.PassedTokenIsSpent | api/internal/auth/stepup.go:180-189 | a process that stays up never passes a token again that passed there, whatever happens there or elsewhere |
| StepUpTheorems.RestartReadmits | api/internal/auth/stepup.go:90-93 | one redeemed code, a pass, a restart and a second pass with the same token: two passes, one verification |
| StepUpTheorems.SecondProcessReadmits | api/internal/handlers/identities.go:42-46 | one redeemed code, a pass, and a second pass of the same token at another process, without any restart |
| StepUpTheorems.JanitorIsInvisible | api/internal/auth/stepup.go:194-213 | in every reachable state a janitor tick at any process changes no later verdict of any gate |
| StepUpTheorems.TickLeavesLive | api/internal/auth/stepup.go:194-213 | after a janitor tick a process remembers exactly the live tokens that passed there since its last restart |
| StepUpRows.RedeemableExact | model/db/email_codes.sql.go:58-87 | a row can be redeemed, or redeemed again, by some continuation exactly while an unfinished request holds it or it is neither consumed nor expired |
| StepUpRows.RedeemedRowReturnsIff | model/db/email_codes.sql.go:14-23 | a row just redeemed can be redeemed again exactly when another request found it before, or consuming it failed while it was open |
| StepUpRows.RestartReleases | api/internal/handlers/identities.go:544-592 | after a restart a row can be redeemed exactly while a request at another process holds it or it is open |
| StepUpRows.CleanRunRedeemsOnce | api/internal/handlers/identities.go:544-592 | a row is redeemed at most once by every run in which consuming it succeeds and no look-up finds it while another request holds it |
| StepUpRows.OverlapRedeemsTwice | api/internal/handlers/identities.go:544-592 | two overlapping requests redeem one code twice though both consumptions succeed |
| StepUpTheorems.GateOpensIff | model/migrations/0103_email_codes.sql:7 | some run passes the gate exactly where the check on the purpose of a code admits credential_change |
| StepUpTheorems.MigrationsShutTheGate | model/migrations/0103_email_codes.sql:7 | with the purposes the migrations admit no run passes it |
| StepUpTheorems.RunKeeps | api/internal/handlers/identities.go:494-611 | every run of any number of processes keeps tokens conserved and each token's passes bounded by the processes and their restarts |
| StepUpGate.Gate.FindCode | model/db/email_codes.sql.go:58-87 | the newest active row is found and compared, and nothing is consumed |
| StepUpGate.Gate.Finish | api/internal/handlers/identities.go:578-592 | the row found is consumed, whoever consumed it meanwhile, and a fresh token issued for a step-up |
| StepUpGate.Gate.VerifyCode | api/internal/handlers/identities.go:544-592 | an undisturbed step-up verification is its look-up followed by its end |
| StepUpGate.Gate.Require | api/internal/handlers/identities.go:602-611 | this process's gate passes and marks the token in its own consumed set, which stays this process's share of all of them |
| StepUpGate.Gate.PruneConsumed | api/internal/auth/stepup.go:194-213 | the ranging loop leaves exactly the unexpired entries |
| StepUpGate.Gate.Restart | api/internal/handlers/identities.go:42-46 | the process has an empty consumed set and no request under way; other processes' sets and requests and the code rows stay |
| CredentialTheorems.ChangesAreEarned | api/internal/handlers/identities.go:602-611 | with step-up required, over any run of any number of processes, password changes, link starts and removals granted to an account plus its outstanding tokens are at most its verifications and repeats, and at most its verifications times the processes that take them and their restarts; at one process that stays up at most its verifications, in clean runs its redeemed credential_change rows |
| CredentialTheorems.CheckGrantsNothing | model/migrations/0103_email_codes.sql:7 | with step-up required and a check that leaves out credential_change, none of them is ever granted |
| CredentialTheorems.LastCredentialSurvives | api/internal/handlers/identities.go:253-290 | no run of the whole system takes an account's last credential |
| CredentialTheorems.CodesRunIs | api/internal/handlers/auth/emailcode.go:118-199 | the step-up part of every run of the whole system is a run of the step-up machine |
| CredentialEvidence.VerifiedHasEvidence | api/internal/handlers/auth/emailcode.go:118-199 | in every reachable state a verified account redeemed a code mailed for it, for a purpose other than login, or signed in, not by a session token, through a provider that vouched for the address it then had |
| CredentialEvidence.VerifiedAddressIsProved | api/internal/handlers/auth/emailcode.go:96-112 | an account's codes were mailed to the email it has and its mark is backed by a proof of that email, all along a run exactly when no update gives it another email although a code was mailed to the old one or nothing proves the new one; a verified account then redeemed a code mailed to the very email it has, or a provider vouched for it |
| CredentialEvidence.OldCodeVerifiesNewAddress | api/internal/handlers/auth/emailcode.go:186-199 | a code mailed before an update of the email verifies the new one, to which none was mailed |
| CredentialResets.PasswordChangeNeedsProof | api/internal/handlers/auth/reset.go:89-141 | after any run, an existing account's password row changes only by a reset that found an unexpired row of its token for this account, by the verified owner who spent a step-up token and knew the stored password, or by a removal |
| CredentialResets.ResettableExact | model/db/password_resets.sql.go:50-56 | a reset row can change the password, or change it again, by some continuation exactly while an unfinished request holds it or it is neither consumed nor expired |
| CredentialResets.UsedRowReturnsIff | model/db/password_resets.sql.go:14-23 | a reset row just used can be used again exactly when another request found it before, or consuming it failed while it was open |
| CredentialResets.RestartReleasesReset | api/internal/handlers/auth/reset.go:89-141 | the same for a reset row |
| CredentialResets.OverlapResetsTwice | api/internal/handlers/auth/reset.go:109-141 | two overlapping requests change the password with one reset though both consumptions succeed |
| CredentialFlows.RunKeeps | api/internal/handlers/identities.go:200-262 | over any run, every link token and open removal belongs to an account granted one past the gate, and every link state names such an account |
| CredentialFlows.NewIdentityAnswersItsStart | api/internal/handlers/auth/oidc.go:363-473 | after any run, a callback that binds a new identity answers a state minted for its provider, in its browser, in time and with its nonce; the account is the one that started linking past the gate, or the one just signed in |
| CredentialFlows.StartBindsReplies | api/internal/handlers/auth/oidc.go:155-243 | over any run, the identities bound by returning a state are among those the provider named under its nonce in replies that came with it |
| CredentialFlows.LiveStartBinds | api/internal/auth/oauth.go:482-520 | while a link state lives, every such reply that names a new identity binds it to the account that started, without another pass |
| CredentialFlows.OnePassTwoIdentities | api/internal/handlers/auth/oidc.go:158 | a run from the empty tables with one verification, one pass, and two identities linked with the one state it paid for |
| CredentialJourneys.MailedCodeVerifies | api/internal/handlers/auth/emailcode.go:68-199 | from every valid state, a mailed code is redeemed exactly within 300 seconds; it verifies the account and nothing else, or nothing for a login, a purpose not named meaning one, and its row is consumed |
| CredentialJourneys.MailedResetWorksOnce | api/internal/handlers/auth/reset.go:34-141 | from every valid state, a mailed reset changes exactly its account's password to the one submitted exactly within 1800 seconds, and its token is refused from then on |
| CredentialJourneys.StepUpPaysForPassword | api/internal/handlers/identities.go:328-410 | from every valid state, a redeemed step-up pays for one password change at any process exactly while its token lives, and is spent even where the change is then refused |
| CredentialJourneys.StepUpPaysForLink | api/internal/handlers/identities.go:200-227 | the same for the start of a link: its answers, and a state that names the account |
| CredentialJourneys.StepUpPaysForRemoval | api/internal/handlers/identities.go:235-290 | the same for a removal, which undisturbed does what Unlink or RemovePassword alone does |
| CredentialJourneys.RedirectSignsIn | api/internal/handlers/auth/oidc.go:155-290 | from every state, an answered sign-in does to the accounts exactly what resolving its principal does, while its state lives; a test, a late answer and one without an email change nothing |
| CredentialDb.Handlers.EmailCodeBegin | api/internal/handlers/auth/emailcode.go:118-164 | composition: the account table's look-up, then this process's code look-up, and the account's email remembered |
| CredentialDb.Handlers.EmailCodeEnd | api/internal/handlers/auth/emailcode.go:164-199 | composition: the row is consumed and, but for a login, the account marked verified with the email read before |
| CredentialDb.Handlers.SetPassword | api/internal/handlers/identities.go:328-410 | composition with the gate: a step-up token is spent at this process before the request is looked at; then the password is changed or refused |
| CredentialDb.Handlers.StartLink | api/internal/handlers/identities.go:200-227 | composition with the gate: past it a link state with provider, nonce and lifetime is minted for the account |
| CredentialDb.Handlers.BeginRemoval | api/internal/handlers/identities.go:235-262 | composition with the gate: past it a deleter's snapshot is taken |
| OAuthFlow.MintedStateReturns | api/internal/auth/oauth.go:482-520 | a state is accepted exactly in the browser that started the flow, for its provider and until it expires, and gives back the signed payload |
| OAuthFlow.CallbackFollowsPurpose | api/internal/handlers/auth/oidc.go:155-243 | a callback can only go on with the purpose the state was minted for, and only with its provider, cookie, nonce and lifetime; a link names the account that started it |
| OAuthFlow.HonestCallbackGoesOn | api/internal/auth/oauth.go:407-480 | an undisturbed flow of each purpose goes on as started |
| OAuthFlow.ValidatedPath | api/internal/auth/oauth.go:562-583 | exactly the empty path and the site-relative ones are accepted, the former as the root, the others unchanged |
| OAuthFlow.StartedState | api/internal/auth/oauth.go:407-480 | a flow starts exactly for a usable provider and an accepted path, each refusal with its cause, and its state says for 300 seconds what it was started for |
| OAuthFlow.CallbackExact | api/internal/handlers/auth/oidc.go:155-243 | where every callback ends, whatever was presented: each refusal with its one cause in order, the rest where the state says |
| OAuthFlow.ErrorsCarryNoPayload | api/internal/auth/oauth.go:482-557 | on every error path Exchange returns the empty payload, and on success the payload that was signed |
| OAuthFlow.TestFailureUnreachable | api/internal/handlers/auth/oidc.go:205-211 | so the branch for a failed test exchange never runs |
| Authz.ChainExact | api/internal/authz/authz.go:206-221 | working-table evaluation ends on every finite relation, cycles included, with exactly the reflexive-transitive closure of the start |
| Authz.ChainFrame | api/internal/authz/authz.go:252-282 | a chain depends only on the memberships that leave it |
| Authz.AuthorizeExact | api/internal/authz/authz.go:86-176 | for whoever acts, with any queries failing: an error exactly where a failing query is reached, and otherwise allow exactly when the declarative specification permits, but for tags that cannot be read |
| Authz.SudoDecides | api/internal/authz/authz.go:181-186 | a sudo session is decided exactly as the assumed user's own session would be, whoever assumed it; only a context with neither actor is unauthenticated |
| Authz.WildcardExact | api/internal/authz/authz.go:206-229 | the wildcard query finds a grant exactly when one in the operation's closure names a group of the actor |
| Authz.GrantExact | api/internal/authz/authz.go:252-282 | the targeted query finds a grant exactly when one links a group of the actor to a group of the target |
| Authz.AllowIsMonotone | api/internal/authz/authz.go:86-176 | adding grants, memberships or tags never turns an allow into a deny |
| Authz.DecisionFrame | api/internal/authz/authz.go:181-186 | rows outside the two chains of the entity that acts, which is the sudo user where there is one, never change the decision |
| Authz.ManagerPasses | api/internal/authz/authz.go:86-130 | a wildcard manager through any depth of groups passes every unknown operation and every one that manage implies |
| Authz.ManagerStopsThere | api/internal/authz/authz.go:86-176 | a wildcard manager whose chain holds no other grant passes a registered operation exactly when manage implies it or, with a target, it is or owns the target |
| Authz.ExportRefusesManager | api/internal/authz/authz.go:86-130 | beside the seed, a registered operation that manage does not imply is refused to a wildcard manager |
| Authz.ManagerPassesEverything | api/internal/authz/authz.go:86-176 | where manage implies every registered operation a wildcard manager passes every operation and target |
| Authz.SeedManageImpliesAll | api/internal/authz/export_test.go:83-95 | the seeded operations are such a registry |
| Authz.SeedServes | api/internal/authz/export_test.go:83-95 | in the seed a request to read is served by a grant of read, sread, list, update, delete, swrite or manage, one to update by update, swrite or manage |
| Sessions.SessionActs | api/internal/auth/middleware.go:39-63 | a session token for a known account signs in its subject, with the named sudo user acting if found, exactly until its day is over and while the local issuer is not empty |
| Sessions.PasswordSignsIn | api/internal/handlers/auth/login.go:25-92 | after any run that does not set or remove it, a stored password signs in exactly the passwords it accepts, under every email that finds the account, with a day's session decided as the account's own entity |
| Sessions.AssumeNeedsPermission | api/internal/service/user_accounts.go:431-470 | an identity is assumed only by an effective actor permitted to assume it, and the token names the caller's own account and the target |
| Sessions.AssumeActsAsTarget | api/internal/auth/middleware.go:103-112 | over any later run of the tables, an assumed session gets every decision the target's own session would get, while the account signed in stays the caller's |
| Sessions.AssumeSession | api/internal/auth/resolver.go:566-583 | the decisions of an assumed session are the user's if the user is found, and the administrator's if not |
| Sessions.BearerChangesNothing | api/internal/auth/resolver.go:155-176 | whatever token is presented, a bearer request never creates, links or verifies an account |
| Sessions.OnlySessionsSignIn | api/internal/auth/claims_generic.go:17-41 | no state and no step-up token ever signs anyone in, whatever the local issuer |
| Providers.LoadMergedProviders | api/internal/config/provider_merge.go:94-140 | the loops build the merge of every id of either layer, whatever the order |
| Providers.MergedRegistry | api/internal/config/provider_merge.go:312-326 | the loop keeps exactly the enabled and complete entries |
| Providers.EffectiveIs | api/internal/config/provider_merge.go:145-165 | each effective field is the first non-empty layer in the documented order |
| Providers.MergeTwice | api/cmd/server/main.go:110-115 | merging the rows over the merged registry gives the same registry, for every environment and row set |
| Providers.EffectiveOverDefaults | api/internal/config/provider_merge.go:244-261 | a row's columns stand over the values without the row, field by field |
| Providers.BareProvider | api/internal/config/providers.go:58-75 | given a client and nothing else, exactly google and microsoft resolve to a usable provider, with these issuers, styles, names and scopes |
| Providers.MultiTenantExact | api/internal/config/providers.go:77-96 | the issuers that stand for every tenant are Microsoft's three shared ones |
| ProviderAdmin.PutIsPatchAction | api/internal/handlers/oidc_providers.go:263-300 | two PUT bodies in turn store what the combined body stores, over every row and none, exactly when no ill-typed value of the second replaces a well-typed one |
| ProviderAdmin.IllTypedAfterWellTyped | api/internal/handlers/oidc_providers.go:469-493 | a number after a name makes the two differ |
| ProviderAdmin.TextPatch | api/internal/handlers/oidc_providers.go:469-493 | the same for one text column, with what each side stores otherwise |
| ProviderAdmin.ScopesPatch | api/internal/handlers/oidc_providers.go:515-548 | the same for the scopes column |
| ProviderAdmin.TrimScopes | api/internal/handlers/oidc_providers.go:530-548 | the appending loop stores the trimmed, non-empty items in order, or NULL if there are none |
| ProviderAdmin.LabelsNameTheLayer | api/internal/handlers/oidc_providers.go:675-738 | every text label names the first layer with a value, and that value is the effective one |
| ProviderAdmin.ScopesLabelNamesTheLayer | api/internal/handlers/oidc_providers.go:740-753 | the same for scopes; an override is shown exactly when it is the effective list |
| ProviderAdmin.DefaultsAreRowless | api/internal/handlers/oidc_providers.go:589-640 | every default shown is the effective value with the row removed |
| ProviderAdmin.ClearingReveals | api/internal/handlers/oidc_providers.go:469-548 | clearing any fields by PUT makes exactly those take the defaults shown before |
| EditForm.ScopesRoundTrip | example/src/app/oidc-config/provider-edit-modal.tsx:64-95 | joining and parsing scopes gives the list back exactly when every scope is non-empty, trimmed and free of commas |
| EditForm.UneditedSaveKeepsProvider | example/src/app/oidc-config/provider-edit-modal.tsx:64-151 | an unedited save leaves the effective provider exactly when every override is one the form reproduces, and always leaves the enabled flag and the secret |
| EditedSave.SaveStoresTheForm | example/src/app/oidc-config/provider-edit-modal.tsx:111-151 | saving any form over any view and any row stores what was typed: texts that are not empty or the default, the secret typed, cleared or kept, the scopes the server keeps, the flag |
| EditedSave.SaveTakesEffect | example/src/app/oidc-config/provider-edit-modal.tsx:111-151 | what was typed is what takes effect, field by field, and what the form shows when it is opened again |
| EditedSave.FormShowsEffective | example/src/app/oidc-config/provider-edit-modal.tsx:64-83 | the form opened on a provider shows its effective values and never the secret |
| EditForm.SecondSaveChangesNothing | example/src/app/oidc-config/provider-edit-modal.tsx:111-151 | a second unedited save changes nothing exactly when the scopes the first one stored are clean for browser and server and not the default, or none are stored and the default's text stores none; every other column never changes again |
| EditForm.SafeOnceIsStable | example/src/app/oidc-config/provider-edit-modal.tsx:111-151 | a provider that one unedited save leaves as it was is settled by it: the second save stores the same row |
| EditForm.CommaScopeExample | example/src/app/oidc-config/provider-edit-modal.tsx:89-95 | the scope "a,b" saved unedited becomes two effective scopes |
| EditForm.SecondSaveExample | example/src/app/oidc-config/provider-edit-modal.tsx:138-151 | a scope only the server and then only the browser trims changes at the second save |
| EditForm.TrimmedProviderIsSafe | example/src/app/oidc-config/provider-edit-modal.tsx:128-151 | trimmed values and clean scopes are always safe to save unedited |
| EditForm.TrimsAreLawful | example/src/app/oidc-config/provider-edit-modal.tsx:89-95 | the browser's and the server's trimming are idempotent, ignore a leading space and only remove |
| Onboarding.DetermineBootState | api/internal/config/oidc_state.go:106-157 | the counting loop's verdict is a function of the set of views, so no order matters; the enabled ids come in the order given |
| OnboardingTheorems.BootAgrees | api/cmd/server/main.go:182-235 | after boot caches, registry and database agree, a plaintext is held exactly in unconfirmed states, and the stored hash is its hash |
| OnboardingTheorems.BootVerdict | api/cmd/server/main.go:110-115 | the verdict at boot in closed form; OAuth then holds exactly the registry's ids |
| OnboardingTheorems.RunAgrees | api/internal/handlers/oidc_config.go:99-139 | the agreement holds after every error-free run of confirmations and provider writes |
| OnboardingTheorems.ConfirmedOkMeans | api/internal/auth/oauth.go:279-294 | confirmed_ok holds exactly when some registry provider is enabled and all enabled ones are available, and then the OAuth status is ok |
| OnboardingTheorems.ConfirmExact | api/internal/handlers/oidc_config.go:312-328 | a confirmation changes no effective field of any provider, enables exactly the requested registry ids, and leaves other rows alone |
| OnboardingTheorems.ConfirmVerdict | api/internal/handlers/oidc_config.go:331-376 | the state a confirmation ends in, from the request and the discoveries alone |
| OnboardingTheorems.EmptyListDoesNotOptOut | api/internal/handlers/oidc_config.go:312-315 | an empty list over a non-empty registry leaves init_failed |
| OnboardingTheorems.HandedOutIsAccepted | api/internal/handlers/oidc_config.go:232-254 | in one process, the loopback endpoint answers exactly while unconfirmed with a hash stored, and its token is accepted by every endpoint of this process |
| OnboardingTheorems.ConfirmSpendsToken | api/internal/handlers/oidc_config.go:363-376 | in one process, a confirmation that ends confirmed leaves no token this process accepts exactly when there was none or clearing and refresh both succeed |
| OnboardingTheorems.TokenIsOneShot | api/internal/handlers/oidc_config.go:389-412 | in one process, after boot, any error-free run, a confirmation that ends confirmed there and any later run, no setup token authorizes anything there |
| OnboardingTheorems.OnlyConfirmSpends | api/internal/handlers/oidc_providers.go:388-398 | a provider write leaves the token and what it authorizes alone |
| OnboardingTheorems.PutMayConfirmAndKeepToken | api/internal/handlers/oidc_providers.go:263-326 | a PUT can end confirmed with the token still accepted, though no longer handed out |
| OnboardingTheorems.PutKeepsTokenReachably | api/internal/handlers/oidc_providers.go:263-326 | a boot, a Confirm and a PUT reach that state, for every single complete provider |
| OnboardingTheorems.OnlyGrantedChange | api/internal/handlers/oidc_config.go:389-412 | a request changes the state only for an administrator or with an accepted token, submitted or in the header |
| OnboardingTheorems.RevertIsRowless | api/internal/handlers/oidc_providers.go:233-256 | a DELETE makes the effective values the defaults shown before, relative to the registry merged at boot, and touches no other provider |
| OnboardingOutcomes.WriteExact | api/internal/handlers/oidc_providers.go:158-326 | what a PUT, POST or DELETE answers, each refusal with its cause in order, and what it leaves: the named provider's row only, the token and the config untouched, everything in memory reloaded |
| OnboardingOutcomes.ValidIdIsSlug | api/internal/handlers/oidc_providers.go:37 | the ids accepted are those of the pattern: a letter, at most thirty letters, digits or hyphens, a letter or digit |
| OnboardingOutcomes.ConfirmAnswers | api/internal/handlers/oidc_config.go:284-311 | a confirmation is answered by who asks alone: an administrator without a token, anyone else with one the cached hash accepts, and an internal error where the check fails |
| OnboardingOutcomes.EnsureExact | api/internal/handlers/oidc_config.go:472-523 | ensuring the setup token forgets it when confirmed, keeps one held in full, and otherwise stores and shows the fresh one; nothing else changes |
| OnboardingHandlers.Handlers.constructor | api/cmd/server/main.go:182-235 | construction, initial load, replay and token emission give the boot state |
| OnboardingHandlers.Handlers.BuildProviderViews | api/internal/handlers/oidc_config.go:531-552 | the loop gives one view for each registry id, from the merge and the OAuth registry |
| OnboardingHandlers.Handlers.RefreshState | api/internal/handlers/oidc_config.go:99-119 | the caches become the fresh reading and nothing else changes |
| OnboardingHandlers.Handlers.Rebuild | api/internal/auth/oauth.go:309-337 | the new map holds exactly the registry's ids with their initialization results |
| OnboardingHandlers.Handlers.OverallStatus | api/internal/auth/oauth.go:279-294 | the search is ok exactly when some provider is available |
| OnboardingHandlers.Handlers.RebuildFromLayers | api/internal/handlers/oidc_config.go:128-139 | merge, registry, rebuild and refresh give the state machine's state |
| OnboardingHandlers.Handlers.EnsureSetupToken | api/internal/handlers/oidc_config.go:472-523 | the three unconfirmed branches and the confirmed one give the state machine's state and banner |
| OnboardingHandlers.Handlers.SetupToken | api/internal/handlers/oidc_config.go:232-254 | the token is returned exactly to loopback callers while unconfirmed and held |
| OnboardingHandlers.Handlers.AuthorizeConfirm | api/internal/handlers/oidc_config.go:389-412 | administrator first, then the submitted or header token against the cached hash |
| OnboardingHandlers.Handlers.NormalizeEnabledSet | api/internal/handlers/oidc_config.go:599-612 | the loop marks exactly the registry ids requested up to case and space, and is complete over the registry |
| OnboardingHandlers.Handlers.SaveEnabled | model/db/oidc_providers.sql.go:95-114 | the loop of upserts changes only the enabled column of registry ids |
| OnboardingHandlers.Handlers.Confirm | api/internal/handlers/oidc_config.go:284-377 | the handler gives the state machine's state and outcome |
| OnboardingHandlers.Handlers.Update | api/internal/handlers/oidc_providers.go:158-176 | same for a PUT |
| OnboardingHandlers.Handlers.Create | api/internal/handlers/oidc_providers.go:187-227 | same for a POST, with its conflict |
| OnboardingHandlers.Handlers.Revert | api/internal/handlers/oidc_providers.go:233-256 | same for a DELETE |
| Tokens.StateRoundTrip | api/internal/auth/oauth_state.go:61-111 | a signed state verifies to itself until it expires and never afterwards |
| Tokens.StepUpRoundTrip | api/internal/auth/stepup.go:48-147 | a step-up token passes the stateless checks exactly for its own account and until it expires, and says credential_change |
| Tokens.SessionRoundTrip | api/internal/auth/local_jwt.go:20-60 | a session token is accepted exactly until its day is over, and then says its issuer, subject, sudo user, roles in order and issue second, and nothing else |
| Tokens.MintedSessionsSay | api/internal/auth/local_jwt.go:20-60 | a login session names its account and no role, an assumed one the administrator, the role admin and the assumed user |
| Tokens.StateIsSigned | api/internal/auth/oauth_state.go:77-111 | a text is accepted as a state exactly if it is a body with its MAC, and until the time the body says |
| Tokens.StepUpIsSigned | api/internal/auth/stepup.go:94-147 | a text is accepted as a step-up token exactly if it carries the step-up header, its MAC, and a payload for the account and credential_change that is not over |
| Tokens.SessionIsSigned | api/internal/auth/jwt.go:80-119 | a text is accepted as a session exactly if it carries some header, its MAC and live claims of the local issuer, which are handed on |
| Tokens.StateTokenOnlyAsState | api/internal/auth/oauth_state.go:77-111 | a signed state is accepted by no other verifier |
| Tokens.StepUpTokenOnlyAsStepUp | api/internal/auth/stepup.go:94-147 | with a non-empty local issuer a step-up token is accepted by no other verifier |
| Tokens.SessionTokenOnlyAsSession | api/internal/auth/jwt.go:80-119 | nothing signed under the session header is accepted by another verifier |
| Tokens.StepUpStaysApart | api/internal/auth/jwt.go:80-119 | a live step-up token is taken for a session exactly when the local issuer is empty |
| Tokens.HeadersDiffer | api/internal/auth/stepup.go:48-75 | the two header texts differ and hold no dot |
| PasswordHash.PhcRoundTrip | api/internal/auth/password.go:33-40 | parsing a printed hash gives back salt, hash and parameters exactly when the parameters fit their machine types |
| PasswordHash.ParsePrinted | api/internal/auth/password.go:57-97 | every printed hash parses, salt and hash whole, parameters modulo their widths |
| PasswordHash.ParsedShape | api/internal/auth/password.go:57-97 | whatever parses is six parts between dollar signs that name argon2id and a version, with the salt and hash the last two decode to |
| PasswordHash.StoredHashAcceptsExactly | api/internal/auth/password.go:25-54 | a stored hash, of three passes over 64 MiB in two lanes, accepts exactly the passwords that derive the stored key, and never fails to parse |
| PasswordHash.StoredText | api/internal/auth/password.go:33-40 | the text stored, with version and parameters in plain before salt and key |
| Base64.RoundTrip | api/internal/auth/password.go:33-40 | decoding undoes encoding for every byte string in both alphabets |
| Text.SplitJoin | api/internal/auth/password.go:57-60 | splitting undoes joining when no piece holds the separator |

## Left out

- HTTP: decoding, status codes, cookies, redirects, logging, email sending and telemetry are not modelled; outcomes stand for responses.
- Discovery and the code exchange: whether a provider initializes and what it replies are arbitrary inputs.
- Cryptography: Argon2, bcrypt, HMAC and SHA-256 are arbitrary functions; only issued tokens are taken to carry a valid MAC, token ids are fresh numbers, and a code comparison is equality with the code that was hashed.
- Tokens.StateRoundTrip: JSON encoding is any codec whose decoding undoes it on the objects used; text that is not valid UTF-8 is not modelled.
- Sessions: of the claim mappers only the generic one, which reads local sessions, is modelled; no second verifier is configured at boot; roles are carried and read by nothing modelled; a stored password hash always parses.
- Sessions.AssumeActsAsTarget: accounts are never deleted along its runs; Sessions.AssumeSession says what a session does whose user is gone.
- Accounts: an account's public UUID is represented by its internal id; entity, name and audit rows, the first-user hook, and the deletion of accounts are not part of this model.
- Isolation: the two deleters, updates, step-up verification, email verification and password reset are split at their look-up; every other request is a single step, the sending of a code among them. A deleter may also abort at any time. The database may abort more transactions than the model requires.
- Processes: a step-up token, a code look-up and a reset under way belong to a process; a state, a session or a provider's reply may reach any.
- AccountDb.Store.AutoCreate: one row in place of the entity, legal entity, person and account rows.
- Sign-in: the last-seen update always succeeds; in the program a failure of it is only logged. A string is its sequence of bytes, so the length of a password counts bytes.
- StepUpGate.Gate.Finish: consuming a row and issuing its token are one step; issuing touches no shared row.
- Bearer steps: a bearer step of the credential system resolves any principal, more than the program's session tokens can name (`Sessions.BearerChangesNothing`).
- Credentials: an identity UUID that does not parse is refused after the gate in the program; here it is a number. Two reset tokens with one hash are not stored twice.
- OAuthFlow.CallbackFollowsPurpose: speaks of minted states; the issuer pattern of multi-tenant providers is an input.
- Authz.SeedManageImpliesAll: the operation registry is in another module, which is not part of this model; its closure is taken to be the reflexive, transitive backward closure of Implies.
- Onboarding.DetermineBootState: save timestamps and per-provider error texts are not modelled.
- OnboardingTheorems.TokenIsOneShot: one process; another keeps the hash it cached and the plaintext it minted at its own boot, so its own token still authorizes there until its caches are refreshed. The same holds for OnboardingTheorems.HandedOutIsAccepted and OnboardingTheorems.ConfirmSpendsToken.
- OnboardingTheorems.RunAgrees: database errors half-way through a request are not modelled, among them a registry id that the check on oidc_providers refuses, except the two failures in Confirm that are only logged; confirmations and provider writes are taken one at a time, since the registry is rebuilt outside the handlers' lock.
- OnboardingHandlers.Handlers.constructor: boot with onboarding endpoints on; with them off the process exits when unconfirmed.
- ProviderAdmin.LabelsNameTheLayer: the live initialization state, error text and callback URL of the view are not modelled.
- EditForm.UneditedSaveKeepsProvider: React state and the fetch client are not modelled; the secret field is empty in an unedited form.
- Sorted listings of providers, the status and saved endpoints: they only read what is modelled.
- Environment parsing, the other claim mappers, memberships and apps: only easy facts.
