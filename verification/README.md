# Evidence chain of custody — a verified Dafny model

This project models the core of a permissioned evidence registry: the
`EvidenceManagement` ledger that registers and verifies organizations, grants
each verified organization the role of its type, lets law enforcement collect
evidence, transfer it and lets the forensic lab and the court move it along a
fixed lifecycle, lets the administrator destroy it, and records every such
mutation in an append-only chain of custody per evidence item. Beside it, the
model covers the pure parts of the web client: the status and
organization-type labels, the reshaping of ledger records into display
records, the service object's guards and role-flag aggregation, and the
navigation bar's role badge and address abbreviation.

Files and modules:

- `ledger.dfy`, module `EvidenceLedger`: the records (Organization, Evidence,
  CustodyRecord), roles, the lifecycle, the ledger invariant `Valid`, and each
  transaction as a function from a state to a result and the next state.
  A reverted transaction returns the state unchanged.
- `contract.dfy`, module `EvidenceContract`: class `EvidenceManagement`, whose
  fields are the contract's tables. Each transaction is a method proved to
  update the fields exactly as the matching `EvidenceLedger` function says, and
  to keep `Valid`. The read methods are proved against the same functions;
  `GetEvidenceByCase` is a scan loop with its invariant.
- `properties.dfy`, module `LedgerProperties`: every transaction and every
  sequence of transactions keeps the invariant. The ledger only grows: ids
  are never reused, logs are append-only, statuses never move back, and a
  destroyed item is frozen. Each custody log has exactly one entry per
  successful mutation of its item.
- `effects.dfy`, module `LedgerEffects`: for every state and caller, when each
  transaction succeeds, which error kind each refusal reverts with, and what
  it writes and leaves alone; the case query's exactness and order; the
  lifecycle edges.
- `scenarios.dfy`, module `TestScenarios`: the scenarios of
  `test/EvidenceManagement.test.js`, replayed for arbitrary distinct signer
  addresses and block time.
- `service.dfy`, module `ChainService`: `blockchainService.js` — labels,
  record mappings, and class `BlockchainService` (`getContract`, `hasRole`,
  `getUserRoles` and the read calls that reshape records).
- `navbar.dfy`, module `NavbarView`: `getRoleName`, `formatAddress`, and the
  dashboard choice of `App.js`.

## Where the contract's behaviour comes from

The contract's Solidity source is not part of this model. Its behaviour is
taken from what `test/EvidenceManagement.test.js` asserts, from the actions
each dashboard offers, and from the status labels of `blockchainService.js`.
Where none of these decides a question, the model makes one choice and states
it here:

- Error kinds:
  - `Unauthorized`: the caller lacks the role that registration, verification,
    collection, transfer or destruction requires.
  - `NotFound`: an unknown id.
  - `InvalidTransition`: a transfer, status change or destruction of an
    inactive (destroyed) item; a status change the caller's role may not
    make, or one that is not a lifecycle edge. A status change by the wrong
    role is `InvalidTransition`, not `Unauthorized`.
  - `UnverifiedRecipient`: a transfer target without a verified organization.
  - `InvalidArgument`: an enum ordinal out of range. The ABI decoder rejects
    it before the function body runs, so before any role check.
  - When several other checks fail, the first one in the function body is
    reported. The tests only assert that such calls revert.
- Lifecycle edges are those the dashboards offer. The forensic lab moves
  Collected→Under Analysis→Analyzed. The court moves Analyzed→In Court→Archived.
  Nothing else is a status-update edge. Destroy is offered only while the item
  is active, and is modelled as failing on inactive items. Transfer is offered
  only while the item is active.
- Transfer is allowed to holders of the law-enforcement role (the only
  dashboard with a transfer action). It does not change the item's status.
- Collection requires the law-enforcement role and a verified organization
  bound to the caller.
- An address resolves to the organization most recently registered for it.
  The recipient check and the custody record's organization name use that
  organization; the name is `""` for an address with no organization.
- A custody record's handler is the transaction's sender. The collection
  entry's notes are empty. A status update writes "Evidence " followed by
  the new status's label; the tests assert only "Evidence Under Analysis".
- The `evidences(id)` getter is modelled as `NotFound` for an unknown id.

## Model

| member | source | states |
|---|---|---|
| `EvidenceLedger.OrgTypeFromOrdinal` | test/EvidenceManagement.test.js:26-30 | the orgType argument decodes exactly for 0..2, to the type with that ordinal |
| `EvidenceLedger.StatusFromOrdinal` | frontend/src/services/blockchainService.js:313 | the newStatus argument decodes exactly for 0..5, to the status with that ordinal |
| `EvidenceLedger.Register` | test/EvidenceManagement.test.js:24-57 | registerOrganization: a refused call leaves the state unchanged; a new organization takes the next id; grants, evidence and logs are untouched |
| `EvidenceLedger.Verify` | test/EvidenceManagement.test.js:32-36 | verifyOrganization: a refused call leaves the state unchanged; on success the organization is verified; the tables keep their sizes, and evidence, logs and the address index are untouched |
| `EvidenceLedger.Collect` | test/EvidenceManagement.test.js:71-116 | collectEvidence: every refusal is `Unauthorized` and changes nothing; a success returns the next id and adds one item and one log; organizations, grants and the address index are untouched |
| `EvidenceLedger.Transfer` | test/EvidenceManagement.test.js:137-157 | transferEvidence: a refused call changes nothing; the items are never changed, no log is added or dropped, and organizations, grants and the address index are untouched |
| `EvidenceLedger.UpdateStatus` | test/EvidenceManagement.test.js:176-197 | updateEvidenceStatus: a refused call changes nothing; on success the item exists and its status has the requested ordinal; the table sizes are kept, and organizations, grants and the address index are untouched |
| `EvidenceLedger.Destroy` | test/EvidenceManagement.test.js:245-257 | destroyEvidence: a refused call changes nothing; on success the item exists, is Destroyed and inactive; the table sizes are kept, and organizations, grants and the address index are untouched |
| `EvidenceLedger.ChainOfCustody` | test/EvidenceManagement.test.js:113-115 | getChainOfCustody: the log of an id that was never created is empty, not an error |
| `EvidenceLedger.EvidenceByCase` | test/EvidenceManagement.test.js:291-301 | getEvidenceByCase: no more items than the table holds, each of the requested case |
| `EvidenceLedger.VerifyIntegrity` | test/EvidenceManagement.test.js:214-228 | verifyEvidenceIntegrity: fails exactly for an unknown id |
| `EvidenceContract.EvidenceManagement.constructor` | test/EvidenceManagement.test.js:17-20 | deployment leaves the deployer as the only admin and all tables empty, and the invariant holds |
| `EvidenceContract.EvidenceManagement.RegisterOrganization` | test/EvidenceManagement.test.js:24-57 | result and new storage are those of `Register`; the invariant is kept |
| `EvidenceContract.EvidenceManagement.VerifyOrganization` | test/EvidenceManagement.test.js:32-36 | result and new storage are those of `Verify`; the invariant is kept |
| `EvidenceContract.EvidenceManagement.CollectEvidence` | test/EvidenceManagement.test.js:71-116 | result and new storage are those of `Collect`; the invariant is kept |
| `EvidenceContract.EvidenceManagement.TransferEvidence` | test/EvidenceManagement.test.js:137-157 | result and new storage are those of `Transfer`; the invariant is kept |
| `EvidenceContract.EvidenceManagement.UpdateEvidenceStatus` | test/EvidenceManagement.test.js:176-197 | result and new storage are those of `UpdateStatus`; the invariant is kept |
| `EvidenceContract.EvidenceManagement.DestroyEvidence` | test/EvidenceManagement.test.js:245-257 | result and new storage are those of `Destroy`; the invariant is kept |
| `EvidenceContract.EvidenceManagement.HasRoleOf` | test/EvidenceManagement.test.js:18-19 | answers whether the account holds the role in the current grants |
| `EvidenceContract.EvidenceManagement.GetOrganizationCount` | test/EvidenceManagement.test.js:324-332 | the number of registered organizations, verified or not |
| `EvidenceContract.EvidenceManagement.GetEvidenceCount` | test/EvidenceManagement.test.js:305-322 | the number of collected items, destroyed ones included |
| `EvidenceContract.EvidenceManagement.GetAllOrganizations` | test/EvidenceManagement.test.js:53-56 | the Organization table in id order |
| `EvidenceContract.EvidenceManagement.GetAllEvidence` | frontend/src/services/blockchainService.js:217-221 | the Evidence table in id order |
| `EvidenceContract.EvidenceManagement.GetEvidence` | test/EvidenceManagement.test.js:183-184 | the record with that id when it exists, `NotFound` exactly otherwise |
| `EvidenceContract.EvidenceManagement.GetChainOfCustody` | test/EvidenceManagement.test.js:113-115 | the custody log of the id, empty for an id never created |
| `EvidenceContract.EvidenceManagement.VerifyEvidenceIntegrity` | test/EvidenceManagement.test.js:214-228 | the stored-hash comparison of `VerifyIntegrity` |
| `EvidenceContract.EvidenceManagement.GetEvidenceByCase` | test/EvidenceManagement.test.js:291-301 | the scan returns `EvidenceByCase` of the table (exact members and order proved in `LedgerEffects`) |
| `LedgerProperties.DeployValid` | test/EvidenceManagement.test.js:17-20 | after deployment the invariant holds and an address is admin iff it is the deployer |
| `LedgerProperties.RegisterPreservesValid` | test/EvidenceManagement.test.js:49-57 | registration keeps the invariant and only appends to the ledger |
| `LedgerProperties.VerifyPreservesValid` | test/EvidenceManagement.test.js:32-36 | verification keeps the invariant: every non-admin role is vouched for by a verified organization of the matching type |
| `LedgerProperties.CollectPreservesValid` | test/EvidenceManagement.test.js:104-116 | collection keeps the invariant (dense ids, one well-formed log per item) and only appends |
| `LedgerProperties.TransferPreservesValid` | test/EvidenceManagement.test.js:137-147 | transfer keeps the invariant and only extends the item's log |
| `LedgerProperties.UpdateStatusPreservesValid` | test/EvidenceManagement.test.js:176-197 | a status update keeps the invariant and moves the status forward |
| `LedgerProperties.DestroyPreservesValid` | test/EvidenceManagement.test.js:245-251 | destruction keeps the invariant (inactive exactly when Destroyed) |
| `LedgerProperties.ApplyPreservesValid` | test/EvidenceManagement.test.js:60-198 | any one transaction keeps the invariant and only grows the ledger |
| `LedgerProperties.RunPreservesValid` | test/EvidenceManagement.test.js:60-257 | any sequence of the six modelled transactions keeps the invariant; ids are never reused, logs are append-only, statuses never move back, verification and roles are never withdrawn, a destroyed item and its log never change |
| `LedgerProperties.ApplyCustodyDelta` | test/EvidenceManagement.test.js:144-146 | one transaction adds exactly one entry to its target's log when it succeeds, and none to any log otherwise |
| `LedgerProperties.RunCustodyCount` | test/EvidenceManagement.test.js:187-197 | over any sequence, a log grows by exactly the number of successful transactions aimed at its item |
| `LedgerProperties.CustodyLogCountsMutations` | test/EvidenceManagement.test.js:104-116 | from deployment, each log's length is the number of mutations applied to its item, and entry 0 is "Evidence Collected" |
| `LedgerEffects.RegisterEffect` | test/EvidenceManagement.test.js:39-57 | registration succeeds iff the caller is admin and the type decodes; an undecodable type is `InvalidArgument`, a non-admin call with a valid type is `Unauthorized`, and either changes nothing; a new organization gets the next id, unverified, appended in order |
| `LedgerEffects.VerifyEffect` | test/EvidenceManagement.test.js:24-37 | verification succeeds iff admin and the id exists; a non-admin call is `Unauthorized`, an admin's unknown id `NotFound`, and either changes nothing; it sets the flag and grants the role of the type to the bound address; the address index is kept |
| `LedgerEffects.CollectEffect` | test/EvidenceManagement.test.js:92-116 | collection succeeds iff the caller has the law-enforcement role and a verified organization; a refused one adds nothing; a successful one adds one active Collected item with the next id, carrying every argument (case, description, type, hash, location) with the caller and time, and a one-entry "Evidence Collected" log, and leaves every other log unchanged |
| `LedgerEffects.TransferEffect` | test/EvidenceManagement.test.js:137-157 | transfer succeeds iff the caller has the law-enforcement role, the item is active and the recipient has a verified organization; refusals are `Unauthorized`, `NotFound` for an unknown id, `InvalidTransition` for a destroyed item and `UnverifiedRecipient`, changing nothing; items and the address index are never changed; a success appends exactly one "Evidence Transferred" entry with the caller as handler and the notes to that item's log, and no other log changes |
| `LedgerEffects.UpdateStatusEffect` | test/EvidenceManagement.test.js:176-197 | an update succeeds iff the item is active, the caller holds the role of the target status and the edge is one step forward; it sets that status and appends one entry naming it to that item's log only; an undecodable status is `InvalidArgument`, an unknown id `NotFound`, and every other refusal (inactive item, wrong role, no edge) `InvalidTransition`, changing nothing |
| `LedgerEffects.DestroyEffect` | test/EvidenceManagement.test.js:245-257 | destruction succeeds iff admin and the item is active; refusals are `Unauthorized`, `NotFound` for an unknown id and `InvalidTransition` for an item already destroyed, changing nothing; a success makes that item alone inactive with status Destroyed, leaves every other item untouched and appends "Evidence Destroyed" with the caller and reason to its log only |
| `LedgerEffects.IntegrityIff` | test/EvidenceManagement.test.js:214-228 | integrity is true iff the candidate equals the stored hash; an unknown id is `NotFound` |
| `LedgerEffects.ByCaseMembers` | test/EvidenceManagement.test.js:291-296 | the case query returns exactly the items with that caseId |
| `LedgerEffects.ByCaseInOrder` | test/EvidenceManagement.test.js:291-296 | the case query keeps ascending id order |
| `LedgerEffects.ByCaseUnknown` | test/EvidenceManagement.test.js:298-301 | a case with no items yields the empty sequence |
| `LedgerEffects.ByCaseOfLedger` | test/EvidenceManagement.test.js:260-301 | on a valid ledger the case query is exact and in creation order |
| `LedgerEffects.LifecycleEdges` | frontend/src/components/ForensicLabDashboard.js:123-140 | the lab's edges are exactly 0→1 and 1→2, the court's (CourtDashboard.js:215-231) exactly 2→3 and 3→4; no edge goes back or leaves Archived or Destroyed |
| `TestScenarios.DeployerIsAdmin` | test/EvidenceManagement.test.js:17-20 | the deployer is admin and another signer is not |
| `TestScenarios.RegisterAndVerifyScenario` | test/EvidenceManagement.test.js:24-47 | verifying Metro Police grants its address the law-enforcement role; a registration by an outsider reverts and changes nothing |
| `TestScenarios.AllOrganizationsScenario` | test/EvidenceManagement.test.js:49-57 | two registrations list "Metro Police" then "State Lab", ids 1 and 2 |
| `TestScenarios.CollectScenario` | test/EvidenceManagement.test.js:71-116 | the police's collection returns id 1 with a one-entry "Evidence Collected" log; the outsider's reverts and adds nothing |
| `TestScenarios.TransferScenario` | test/EvidenceManagement.test.js:119-157 | transfer to the verified lab gives a two-entry log ending "Evidence Transferred"; transfer to the outsider reverts `UnverifiedRecipient` |
| `TestScenarios.StatusUpdateScenario` | test/EvidenceManagement.test.js:160-197 | the lab's update sets status 1 and the last entry is "Evidence Under Analysis" |
| `TestScenarios.IntegrityScenario` | test/EvidenceManagement.test.js:200-228 | the stored hash verifies, a wrong hash does not |
| `TestScenarios.DestroyScenario` | test/EvidenceManagement.test.js:231-257 | the admin's destroy leaves the item inactive with status 5; the outsider's reverts and changes nothing |
| `TestScenarios.CaseRetrievalScenario` | test/EvidenceManagement.test.js:260-301 | CASE-001 yields its two items, CASE-999 yields none |
| `TestScenarios.CountsScenario` | test/EvidenceManagement.test.js:304-332 | the counts go 0, 1, 2 for both tables |
| `ChainService.StatusName` | frontend/src/services/blockchainService.js:312-315 | getStatusName: "Unknown" exactly for a value outside the six ordinals |
| `ChainService.OrgTypeName` | frontend/src/services/blockchainService.js:320-323 | getOrgTypeName: "Unknown" exactly for a value outside the three ordinals |
| `ChainService.FormatEvidence` | frontend/src/services/blockchainService.js:295-306 | one item's display record; its collection time in milliseconds gives back the seconds |
| `ChainService.FormatCustody` | frontend/src/services/blockchainService.js:249-256 | one entry's display record; its timestamp in milliseconds gives back the seconds |
| `ChainService.FormatOrganization` | frontend/src/services/blockchainService.js:144-151 | one organization's display record; its registration time in milliseconds gives back the seconds |
| `ChainService.StatusNameTable` | frontend/src/services/blockchainService.js:312-315 | ordinals 0..5 label Collected, Under Analysis, Analyzed, In Court, Archived, Destroyed; every other value is "Unknown" |
| `ChainService.OrgTypeNameTable` | frontend/src/services/blockchainService.js:320-323 | ordinals 0..2 label Law Enforcement, Forensic Lab, Court; every other value is "Unknown" |
| `ChainService.StatusNameInjective` | frontend/src/services/blockchainService.js:312-315 | distinct statuses have distinct labels |
| `ChainService.OrgTypeNameInjective` | frontend/src/services/blockchainService.js:320-323 | distinct organization types have distinct labels |
| `ChainService.StatusActionUsesLabel` | test/EvidenceManagement.test.js:196 | a status update's custody action is "Evidence " followed by the client's label of the new status |
| `ChainService.FormatEvidenceArray` | frontend/src/services/blockchainService.js:294-307 | one display record per item, same length and order |
| `ChainService.FormatCustodyLog` | frontend/src/services/blockchainService.js:249-256 | one display record per custody entry, same length and order |
| `ChainService.FormatOrganizations` | frontend/src/services/blockchainService.js:144-151 | one display record per organization, same length and order |
| `ChainService.FormatEvidenceLossless` | frontend/src/services/blockchainService.js:295-306 | every field is copied and collectedAt is seconds×1000: reading the record back gives the item |
| `ChainService.FormatCustodyLossless` | frontend/src/services/blockchainService.js:249-256 | every field is copied and timestamp is seconds×1000 |
| `ChainService.FormatOrganizationLossless` | frontend/src/services/blockchainService.js:144-151 | every field is copied and registeredAt is seconds×1000 |
| `ChainService.FormatEvidenceArrayInjective` | frontend/src/services/blockchainService.js:294-307 | two item lists format alike iff they are equal |
| `ChainService.FormatByCase` | frontend/src/services/blockchainService.js:231-235 | formatting the case query equals filtering the formatted table by case |
| `ChainService.BlockchainService.constructor` | frontend/src/services/blockchainService.js:6-11 | a new service has no contract and no account |
| `ChainService.BlockchainService.GetContract` | frontend/src/services/blockchainService.js:63-68 | fails with the not-initialised message iff no contract is set, else returns the stored contract |
| `ChainService.BlockchainService.HasRoleNamed` | frontend/src/services/blockchainService.js:73-82 | true only when initialised, connected, the call does not fail and the account holds the named role; every failure gives false |
| `ChainService.BlockchainService.GetUserRoles` | frontend/src/services/blockchainService.js:87-105 | each flag is its own hasRole answer; all false without a contract; on a valid ledger isAdmin iff the account is the deployer |
| `ChainService.BlockchainService.GetAllOrganizations` | frontend/src/services/blockchainService.js:140-156 | the not-initialised error, or the organizations as display records |
| `ChainService.BlockchainService.GetAllEvidence` | frontend/src/services/blockchainService.js:217-226 | the not-initialised error, or all items as display records |
| `ChainService.BlockchainService.GetEvidenceByCase` | frontend/src/services/blockchainService.js:231-240 | the not-initialised error, or the display records of that case in order |
| `ChainService.BlockchainService.GetChainOfCustody` | frontend/src/services/blockchainService.js:245-261 | the not-initialised error, or the item's log as display records |
| `ChainService.BlockchainService.VerifyEvidenceIntegrity` | frontend/src/services/blockchainService.js:266-274 | the not-initialised error; for an unknown id the contract's `NotFound` revert, rethrown; otherwise the contract's answer, true iff the candidate is the stored hash |
| `NavbarView.RoleName` | frontend/src/components/Navbar.js:5-11 | getRoleName: one of the five badges, "No Role" exactly when no flag is set |
| `NavbarView.DashboardFor` | frontend/src/App.js:79-83 | the no-role message exactly when no flag is set |
| `NavbarView.FormatAddress` | frontend/src/components/Navbar.js:13-16 | formatAddress: empty exactly for a missing or empty address |
| `NavbarView.RoleNamePrecedence` | frontend/src/components/Navbar.js:5-11 | the badge is Administrator > Law Enforcement > Forensic Lab > Court by the highest flag set, "No Role" iff none is |
| `NavbarView.BadgeMatchesDashboard` | frontend/src/App.js:79-83 | the dashboard shown and the badge follow the same precedence |
| `NavbarView.FormatAddressAbsent` | frontend/src/components/Navbar.js:14 | a missing or empty address formats as "" |
| `NavbarView.FormatAddressShape` | frontend/src/components/Navbar.js:15 | an address of length ≥ 6 gives 13 characters: its first 6, "...", its last 4 |
| `NavbarView.FormatAddressShort` | frontend/src/components/Navbar.js:15 | a shorter address is kept whole before the dots, and whole or by its last 4 after them |
| `NavbarView.FormatAddressDistinguishes` | frontend/src/components/Navbar.js:13-16 | for addresses of length ≥ 6 two abbreviations are equal iff the first 6 and the last 4 characters agree |

## Left out

- The contract's Solidity source is not part of this model; see the choices above.
- Role administration: the tests use a standard role-based access-control interface (`ADMIN_ROLE`, `hasRole`), which usually also offers grant, revoke and renounce functions. No such transaction is modelled, so a role can be neither withdrawn nor granted except by verifying an organization. The monotonicity of `RunPreservesValid` (roles and verification never withdrawn) holds for the six modelled transactions only.
- Events (`EvidenceCollected` and the others): the returned id stands for the event the test looks for.
- Integer widths: ids and timestamps are unbounded naturals; uint256 overflow and the precision of `toNumber()` are not modelled.
- Block timestamps are a `now` parameter. The client's `Date` objects are reduced to the millisecond integer seconds×1000.
- Role hashing with keccak256 is replaced by the `Role` enum. `RoleByName` assumes that no other role string hashes to a granted role.
- `blockchainService.init`: the MetaMask request, the provider and signer, and the account/chain listeners that reload the page. The model's service object has its `contract` and `currentAccount` fields assigned from outside.
- `getCurrentAccount` and the mutating service wrappers registerOrganization, verifyOrganization, collectEvidence, transferEvidence, updateEvidenceStatus and destroyEvidence. Each calls `getContract`, forwards to the contract, waits for the receipt and rethrows; the guard is modelled in `GetContract`. `collectEvidence` also reads the new id from the receipt's `EvidenceCollected` event and returns it with the receipt; the model's `CollectEvidence` returns that id directly.
- A failing network call is modelled only for `hasRole`, through a `callFails` parameter. The other read wrappers' rethrow on a failing call is not modelled.
- `ipfsService.js` (content upload and fetch, random simulated hashes): the content hash is an opaque string.
- `NavbarView.FormatAddress` counts characters as Unicode scalar values, while JavaScript's `substring` counts UTF-16 code units. The two agree on hexadecimal addresses; they differ only on strings outside the Basic Multilingual Plane.
- `scripts/deploy.js`, React rendering, toasts, prompts and the custody modal's own address formatting.
- Concurrency and atomicity come from the host chain. Each transaction is one method run to completion.
