# API keys page: identities, subscriptions and their reconciliation

The Nillion API portal's API-keys page (`src/app/api-keys/page.tsx`) lets a
wallet owner track the app identities they use for the nilDB and nilAI
services. An identity has a name, a secp256k1 public key, a DID and the
network it was made on. It also holds one subscription record per service: a
status (`active`, `inactive` or `unknown`) and, optionally, the instants at
which the subscription expires and can be renewed. The list lives in the
browser's `localStorage` under `nillion-apps-<address>`.

This project models the engine behind that page:

- **Loading.** Stored records, which may be legacy, are migrated to the
  current shape (`Migration`). A saved list of well-formed identities loads
  back unchanged.
- **Renewal window and expiry.** `canRenewSubscription` and the expiry
  category chosen by `formatFriendlyDate` (`Identities`).
- **Reconciliation.** The pass selects the identities on the current network
  whose status is unknown or active-without-details. It turns the authority's
  two answers per identity into new records and merges them into the list
  (`Oracle`, `Reconciliation`).
- **Handlers.** Creating an app, attaching an existing key, stop-tracking,
  subscribing and renewing (`Mutations` for the pure parts, `ApiKeys` for the
  page state).
  - Validation refuses bad or duplicate input.
  - A payment failure is classified as a rejection, insufficient funds or
    another failure.
  - A successful subscribe or renew activates exactly one service of the
    identities with that key.
  - The in-flight key of a subscribe or renew is released when it finishes,
    and no other key is touched.

The page state is the class `ApiKeys.ApiKeysPage`; storage is two maps keyed
by wallet address. The remote authority's answers are parameters. The
handlers that `await` (reconciliation, subscribe, renew) are split into a
Begin and a Finish method, so a caller can interleave other operations
between them. `ApiKeys.PassOverwritesConcurrentSubscribe` shows the
consequence: a pass that read the authority before a subscribe completed
merges its stale answer over the subscribe's result.

Where the behaviour could be read two ways, the model follows the code:

- A stored status or network token other than the known ones is kept as it
  is (`Unrecognised`, `UnrecognisedNetwork`), because the code casts it
  without checking. It is not turned into `unknown`.
- A failure of the cost query before a subscribe or renew aborts the handler,
  like a failed payment: the query is in the same `try`.
- The handlers themselves check neither an in-flight key nor the renewal
  window. Only the buttons do, through their `disabled` state and whether
  they are rendered at all. These gates are `Mutations.SubscribeEnabled` and
  `Mutations.RenewEnabled`, and the Begin methods prove that each gate closes
  for the key they add.

Files: `wrappers.dfy`, `text.dfy` (JavaScript string operations),
`identities.dfy`, `oracle.dfy`, `migration.dfy`, `seqs.dfy`,
`reconciliation.dfy`, `mutations.dfy`, `page.dfy`.

## Model

| member | source | states |
|---|---|---|
| Identities.ParseStatus | src/app/api-keys/page.tsx:172-181 | A stored status token prints back as itself; it is unrecognised exactly when it is none of `active`, `inactive`, `unknown` |
| Identities.ParseNetwork | src/app/api-keys/page.tsx:200-202 | A stored network token prints back as itself; it is unrecognised exactly when it is neither `testnet` nor `mainnet` |
| Identities.CanRenewSubscription | src/app/api-keys/page.tsx:90-99 | The renew button's condition: active, with a known renewal instant that has been reached (its properties are the two lemmas below) |
| Identities.Subscriptions.With | src/app/api-keys/page.tsx:708-714 | Spreading a record for one service sets that service and keeps the other service's record |
| Identities.RenewalWindowStaysOpen | src/app/api-keys/page.tsx:90-99 | A subscription that can be renewed at some instant can still be renewed at every later instant |
| Identities.RenewalWindowBoundary | src/app/api-keys/page.tsx:90-99 | The window opens exactly at `renewableAt` and not a millisecond before; it never opens for an inactive or unknown subscription or one without details |
| Identities.DaysUntil | src/app/api-keys/page.tsx:53-54 | The day count is the ceiling of the difference in days: `(days-1)*day < diff <= days*day` |
| Identities.FriendlyExpiry | src/app/api-keys/page.tsx:50-75 | Each message kind (expired n days ago, today, tomorrow, in n days, in 1 month, in n months, in about n months) covers exactly its window of milliseconds until expiry |
| Oracle.DetailsFromStatus | src/app/api-keys/page.tsx:271-281 | Details are kept if and only if the response is subscribed and carries details, and then both instants are copied |
| Oracle.SubscriptionFromStatus | src/app/api-keys/page.tsx:264-300 | A checked record is active exactly when subscribed and inactive otherwise; it never has details unless active |
| Text.Trim | src/app/api-keys/page.tsx:349-352 | `trim()` returns a slice of the input with only blank text cut from either end. The result has no whitespace at either end, and is empty exactly when the input is blank |
| Text.IsPublicKeyHex | src/app/api-keys/page.tsx:565 | The key pattern `/^[0-9a-fA-F]{66}$/`: exactly 66 hexadecimal digits |
| Text.IncludesIff | src/app/api-keys/page.tsx:462-467 | The left-to-right `includes` search succeeds exactly when the word occurs at some position |
| Text.NatToStringInjective | src/app/api-keys/page.tsx:199 | Different positions print as different decimal strings |
| Migration.MigrateSubscription | src/app/api-keys/page.tsx:172-195 | A bare legacy string becomes a detail-less record with that status. An object keeps its truthy status or gets `unknown`, and keeps details exactly when it had them. Anything else becomes `unknown` without details |
| Migration.MigrateApp | src/app/api-keys/page.tsx:197-207 | The name is the stored one if truthy, else `App <position>`, so it is never empty. The network defaults to testnet. Key and DID are kept, and each service's record is migrated |
| Migration.MigrateApps | src/app/api-keys/page.tsx:170-208 | The list keeps its length and order; record `i` gets placeholder position `length - i` |
| Migration.PlaceholderNameInjective | src/app/api-keys/page.tsx:199 | Two placeholder names are equal only for equal positions |
| Migration.PlaceholderNamesDistinct | src/app/api-keys/page.tsx:199 | Two nameless records of one load receive different names |
| Migration.PlaceholderMayRepeatStoredName | src/app/api-keys/page.tsx:199 | A placeholder can equal a stored name (`App 1` twice), so names are not unique after loading |
| Migration.SerializeApps | src/app/api-keys/page.tsx:445-448 | Saving writes one record per identity, in list order |
| Migration.LoadAfterSaveApp | src/app/api-keys/page.tsx:197-207 | A well-formed identity, once saved, migrates back to itself at any position |
| Migration.LoadAfterSave | src/app/api-keys/page.tsx:163-221 | Loading a saved list of well-formed identities gives back the same list |
| Migration.MigrationIdempotent | src/app/api-keys/page.tsx:170-208 | Saving and reloading a migrated list changes nothing, unless a legacy entry was the empty status string |
| Migration.MigrationNotIdempotentOnEmptyStatus | src/app/api-keys/page.tsx:173-174 | A legacy empty status string first becomes an unrecognised empty status, and the next load turns it into `unknown` |
| Seqs.Filter | src/app/api-keys/page.tsx:531-533 | `filter` keeps exactly the elements that pass and adds none |
| Seqs.FilterAppend | src/app/api-keys/page.tsx:531-533 | Filtering works piece by piece over a concatenation, so relative order is kept |
| Reconciliation.AppsNeedingDetails | src/app/api-keys/page.tsx:231-240 | The candidates are exactly the listed identities on the current network with a service unknown, or active without details |
| Reconciliation.NeedsDetails | src/app/api-keys/page.tsx:231-238 | The selection test: on the current network, with a service unknown or active without details |
| Reconciliation.PassRuns | src/app/api-keys/page.tsx:226-241 | The pass's guard: connected, a non-empty list, no pass running, and some candidate |
| Reconciliation.FilterKeepsKeysUnique | src/app/api-keys/page.tsx:231-240 | Selecting from a list with unique keys gives candidates with unique keys |
| Reconciliation.CheckApp | src/app/api-keys/page.tsx:257-307 | A candidate yields a result if and only if both its queries answered; the result carries its key and both services' checked records |
| Reconciliation.CheckResults | src/app/api-keys/page.tsx:257-310 | One result per candidate, in candidate order |
| Reconciliation.FindResult | src/app/api-keys/page.tsx:315 | `find` returns the first non-null result for the key, and finds one if and only if one exists |
| Reconciliation.MergeResults | src/app/api-keys/page.tsx:313-324 | The merge keeps length and order and changes only `subscriptions`. It changes an identity only when some result names its key, and then takes that first result's records |
| Reconciliation.MergeKeepsKeysUnique | src/app/api-keys/page.tsx:313-324 | The merge never changes a key, so a list with unique keys keeps them |
| Reconciliation.FailedCheckLeavesAppUnchanged | src/app/api-keys/page.tsx:301-307 | For candidates with unique keys, a candidate whose queries failed keeps exactly its previous state |
| Reconciliation.SucceededCheckApplied | src/app/api-keys/page.tsx:313-324 | For candidates with unique keys, a candidate whose queries answered takes both checked records and keeps every other field |
| Reconciliation.SkippedAppUnchanged | src/app/api-keys/page.tsx:313-324 | For a list with unique keys, an identity the selection skipped is named by no result, so the merge leaves it exactly as it was |
| Reconciliation.SettledPassLeavesNoCandidates | src/app/api-keys/page.tsx:224-341 | For a list with unique keys: after a pass in which every query answered, and every subscribed answer carried details, the next selection is empty, so the effect stops re-running |
| Mutations.ErrorMessage | src/app/api-keys/page.tsx:457-460 | An `Error` gives its message; any other thrown value gives "Unknown error occurred" |
| Mutations.ClassifyMessage | src/app/api-keys/page.tsx:462-471 | A rejection if and only if the message contains "rejected" or "denied". Insufficient funds if and only if it contains neither but contains "insufficient". Otherwise a failure carrying the message |
| Mutations.ClassifyError | src/app/api-keys/page.tsx:457-471 | A non-`Error` is reported as another failure with the fallback message; an `Error` is classified by its message |
| Mutations.RejectionWinsOverInsufficientFunds | src/app/api-keys/page.tsx:462-468 | A message containing both "rejected" and "insufficient" is classified as a rejection |
| Mutations.ValidateNewApp | src/app/api-keys/page.tsx:344-364 | Creation passes if and only if the wallet is connected, the trimmed name is not blank, and no listed name equals it ignoring case. Each refusal (not connected, empty name, duplicate name) is pinned to the first check that fails |
| Mutations.ValidateExistingApp | src/app/api-keys/page.tsx:553-588 | Attaching passes if and only if the name is not blank, the trimmed key is 66 hex digits, and neither the name (ignoring case) nor the key is taken. Each refusal (empty name, empty key, malformed key, duplicate name, duplicate key) is pinned to the first check that fails, in that order; the wallet is not checked |
| Mutations.NamesCompareIgnoringCase | src/app/api-keys/page.tsx:354-364 | "foo" is refused as a duplicate when "Foo" exists |
| Mutations.WrongLengthKeyRefused | src/app/api-keys/page.tsx:563-567 | A trimmed key of 65 or 67 characters is refused |
| Mutations.TrackedKeyRefused | src/app/api-keys/page.tsx:584-588 | A key already in the list is refused, whatever the name |
| Mutations.NewCreatedApp | src/app/api-keys/page.tsx:422-439 | The created identity has the paid service active with the fetched details and the other service inactive without details |
| Mutations.NewAttachedApp | src/app/api-keys/page.tsx:601-616 | The attached identity has the placeholder DID `Unknown DID for <name>` and both services unknown without details |
| Mutations.AttachedAppAwaitsReconciliation | src/app/api-keys/page.tsx:601-616 | An attached identity is a candidate of the next pass on its network |
| Mutations.NewAppsReloadUnchanged | src/app/api-keys/page.tsx:441-448 | Created and attached identities on a known network survive a save and a reload unchanged |
| Mutations.PrependKeepsKeysUnique | src/app/api-keys/page.tsx:441 | Prepending an identity whose key is not listed keeps the keys unique |
| Mutations.AttachKeepsKeysUnique | src/app/api-keys/page.tsx:584-617 | Attaching a key that passed validation keeps the keys of the list unique |
| Mutations.CreateKeepsKeysUnique | src/app/api-keys/page.tsx:422-441 | Creating an app whose generated key is not listed keeps the keys unique |
| Mutations.FreshDetails | src/app/api-keys/page.tsx:683-701 | The best-effort status fetch yields details if and only if it answered subscribed with details, and then copies both instants; a failed fetch yields none |
| Mutations.MarkActive | src/app/api-keys/page.tsx:704-719 | Only the chosen service of the identities with that key becomes active with the new details. Every other identity, the other service and every other field are kept |
| Mutations.MarkActiveIdempotent | src/app/api-keys/page.tsx:704-719 | Applying the same subscribe or renew merge twice is the same as applying it once |
| Mutations.MarkActiveKeepsKeysUnique | src/app/api-keys/page.tsx:704-719 | A subscribe or renew merge never changes a key, so unique keys stay unique |
| Mutations.WithoutApp | src/app/api-keys/page.tsx:530-533 | Stop-tracking keeps exactly the identities with another key |
| Mutations.WithoutAppKeepsOrder | src/app/api-keys/page.tsx:530-533 | Stop-tracking keeps the remaining identities in order |
| Mutations.WithoutUntrackedApp | src/app/api-keys/page.tsx:530-533 | Stop-tracking an untracked key leaves the list unchanged |
| Mutations.WithoutAppKeepsKeysUnique | src/app/api-keys/page.tsx:530-533 | Stop-tracking keeps the keys of the list unique |
| Mutations.SubscriptionKeyInjective | src/app/api-keys/page.tsx:653-654 | Two subscribe keys are equal only for the same key and service |
| Mutations.RenewalKeyInjective | src/app/api-keys/page.tsx:761-762 | Two renewal keys are equal only for the same key and service |
| Mutations.SubscriptionKey | src/app/api-keys/page.tsx:653 | The subscribe key is the public key, a dash and the five-letter service name |
| Mutations.RenewalKey | src/app/api-keys/page.tsx:761 | The renewal key is the public key, a dash, the service name and `-renew` |
| Mutations.SubscribeEnabled | src/app/api-keys/page.tsx:1086-1093 | The subscribe button is shown for an inactive service and enabled while its key is not in flight |
| Mutations.RenewEnabled | src/app/api-keys/page.tsx:1112-1119 | The renew button is shown inside the renewal window and enabled while its renewal key is not in flight |
| ApiKeys.SaveApps | src/app/api-keys/page.tsx:445-448 | Saving writes the serialised list under the connected owner's address and leaves every other owner's entry as it was; with no address nothing is written |
| ApiKeys.SavedListReloads | src/app/api-keys/page.tsx:163-221 | What a save wrote for the owner loads back as the saved identities when they are well-formed |
| ApiKeys.ApiKeysPage.constructor | src/app/api-keys/page.tsx:104-121 | The page starts with an empty list, no keys in flight, no pass running and nothing on display |
| ApiKeys.ApiKeysPage.LoadApps | src/app/api-keys/page.tsx:163-221 | The list becomes the owner's stored list, migrated, or empty when there is none; the store is not written |
| ApiKeys.ApiKeysPage.LoadMainApp | src/app/api-keys/page.tsx:129-147 | A stored main app only clears the one-time display |
| ApiKeys.ApiKeysPage.BeginLoadAllSubscriptionDetails | src/app/api-keys/page.tsx:224-243 | The pass starts if and only if the wallet is connected, the list is not empty, no pass is running and there is a candidate. It then returns the candidates and sets the flag |
| ApiKeys.ApiKeysPage.FinishLoadAllSubscriptionDetails | src/app/api-keys/page.tsx:245-330 | The results are merged into the list as it is now, or nothing changes if the client failed; the flag is cleared either way, and unique keys stay unique |
| ApiKeys.ApiKeysPage.LoadAllSubscriptionDetails | src/app/api-keys/page.tsx:224-330 | An uninterrupted pass merges its answers into the list it selected from, or changes nothing when its guard fails |
| ApiKeys.ApiKeysPage.CreateNewApp | src/app/api-keys/page.tsx:343-475 | A refused request changes nothing. A failed payment clears the display and reports its class. A paid one prepends the created identity, saves the list and the main app for the address, and shows the private key once; a key not yet listed keeps the keys unique |
| ApiKeys.ApiKeysPage.FinishCreateNewApp | src/app/api-keys/page.tsx:366-475 | The part after validation. The display is cleared first. A failed payment reports its class and changes nothing else. A paid one prepends the created identity, saves the list and the main app under the trimmed name, and shows the new key pair; a key not yet listed keeps the keys unique |
| ApiKeys.ApiKeysPage.PrependAndSave | src/app/api-keys/page.tsx:441-448 | The new identity goes first in the list and the updated list is saved for the wallet's address; an identity whose key is not yet listed keeps the keys unique |
| ApiKeys.ApiKeysPage.AddExistingApp | src/app/api-keys/page.tsx:553-642 | A refused request changes nothing; otherwise the attached identity is prepended and the list saved for the address. Unique keys stay unique |
| ApiKeys.ApiKeysPage.ConfirmStopTracking | src/app/api-keys/page.tsx:527-546 | With a target and an address, every identity with the target's key is removed and the list saved; otherwise nothing changes. Unique keys stay unique |
| ApiKeys.ApiKeysPage.BeginSubscribe | src/app/api-keys/page.tsx:644-654 | When connected, the key is marked in flight and the subscribe button for that identity and service is disabled; otherwise nothing changes |
| ApiKeys.ApiKeysPage.FinishSubscribe | src/app/api-keys/page.tsx:656-749 | A paid subscribe activates the service for that key; a failure is classified and leaves the list alone. Only that key is released, and unique keys stay unique |
| ApiKeys.ApiKeysPage.SubscribeToServiceForApp | src/app/api-keys/page.tsx:644-750 | Without a wallet, nothing changes. Otherwise the result is a success with the service active or a classified failure, and the key ends released |
| ApiKeys.ApiKeysPage.BeginRenew | src/app/api-keys/page.tsx:752-762 | When connected, the renewal key is marked in flight and the renew button for that identity and service is disabled |
| ApiKeys.ApiKeysPage.FinishRenew | src/app/api-keys/page.tsx:764-859 | A paid renewal re-activates the service with fresh details; a failure is classified and leaves the list alone. Only that key is released, and unique keys stay unique |
| ApiKeys.ApiKeysPage.RenewSubscriptionForApp | src/app/api-keys/page.tsx:752-860 | Without a wallet, nothing changes. Otherwise the result is a success with new details or a classified failure, and the key ends released |
| ApiKeys.PassOverwritesConcurrentSubscribe | src/app/api-keys/page.tsx:313-324 | A pass selects an identity for its unknown nilAI record; the nilDB subscribe button is offered because nilDB is inactive. The pass then merges its stale "not subscribed" answer over the completed subscribe's active record |

## Left out

- Date strings and `ensureDate` (`page.tsx:45-47`) are not modelled. Instants are millisecond counts, and a missing or falsy stored instant is `None`.
- `formatFriendlyDate`'s wording is not modelled, only which message it picks. `formatShortDate` and the rest of the rendering are left out, except the button gates.
- Identities.FriendlyExpiry: computes the ceiling exactly; floating-point rounding of `diffMs / 86400000` is not modelled.
- Text.ToLower: maps ASCII letters only; Unicode case mapping is not modelled, so duplicate-name checks on non-ASCII names are weaker than the source's.
- `JSON.parse` failures and `localStorage` write errors are left out. Stored data is already-parsed records, and a write always succeeds.
- Migration.MigrateApp: fields of a stored record other than the modelled ones, which the source's spread keeps, are not carried.
- Keypair generation, the payer and client construction, `subscriptionCost`, `payAndValidate` and `subscriptionStatus` are remote or foreign calls. Their outcomes are parameters: a `Payment`, or one optional pair of answers per candidate.
- ApiKeys.ApiKeysPage.LoadAllSubscriptionDetails: the concurrent `Promise.all` fan-out is a sequence of answers in candidate order. Interleaving inside a pass is not modelled, and neither is the effect's automatic re-run on every list change (its dependency array).
- ApiKeys.ApiKeysPage.CreateNewApp: modelled as one step. The source prepends to the list it captured before its `await`s, so an app attached or stopped meanwhile would be undone; that interleaving is not modelled.
- The `creating` and `addingExisting` flags, the modals, the clipboard, the private-key download and the form fields are UI state and are left out.
- The alerts are not modelled as text. Their choice is the returned `ValidationError`, `ErrorClass` or `ActionOutcome`.
- Keys are unique only as far as the page keeps them so. A stored legacy list may already hold two identities with one key, and the lemmas about a pass assume unique keys. The model proves that attach, stop-tracking, the merges and create keep keys unique; for create this needs the generated key to be new, since key generation is a parameter.
- The wallet and network providers are outside this file. The wallet is a `Wallet` value and the network a `Network` value.
