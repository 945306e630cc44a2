/**
 * The evidence ledger as a state machine over values.
 *
 * A `LedgerState` holds the four tables of the EvidenceManagement contract:
 * role grants, the Organization table (id i+1 at index i), the Evidence table
 * (id i+1 at index i) and one custody log per evidence item (log of id i+1 at
 * index i). Every operation is a function from a state and the caller's
 * address to a result and the next state; a failing operation returns the
 * state it was given, which models the all-or-nothing revert of a transaction.
 * The class in contract.dfy is proved to implement exactly these functions.
 */
module EvidenceLedger {

  type Address = string

  datatype Option<T> = None | Some(value: T)

  /** The ways an operation reverts. */
  datatype Error =
    | Unauthorized         // caller lacks the role the operation needs
    | NotFound             // the organization or evidence id does not exist
    | InvalidTransition    // evidence inactive, or a status edge that is not allowed
    | UnverifiedRecipient  // transfer target has no verified organization
    | InvalidArgument      // an enum ordinal out of range (rejected by the ABI decoder)

  datatype Result<T> = Ok(value: T) | Err(error: Error)

  /** ADMIN_ROLE, LAW_ENFORCEMENT_ROLE, FORENSIC_LAB_ROLE, COURT_ROLE. */
  datatype Role = AdminRole | LawEnforcementRole | ForensicLabRole | CourtRole

  /** Organization types, ordinals 0..2. */
  datatype OrgType = LawEnforcement | ForensicLab | Court

  /** Evidence lifecycle states, ordinals 0..5. */
  datatype Status = Collected | UnderAnalysis | Analyzed | InCourt | Archived | Destroyed

  datatype Grant = Grant(who: Address, role: Role)

  datatype Organization = Organization(
    id: nat,
    name: string,
    orgType: OrgType,
    walletAddress: Address,
    isVerified: bool,
    registeredAt: nat)

  datatype Evidence = Evidence(
    id: nat,
    caseId: string,
    description: string,
    evidenceType: string,
    ipfsHash: string,
    collectedBy: Address,
    collectedAt: nat,
    status: Status,
    isActive: bool,
    location: string)

  datatype CustodyRecord = CustodyRecord(
    evidenceId: nat,
    handler: Address,
    action: string,
    notes: string,
    timestamp: nat,
    organizationName: string)

  datatype LedgerState = LedgerState(
    admin: Address,
    grants: set<Grant>,
    organizations: seq<Organization>,
    orgIdOf: map<Address, nat>,
    evidences: seq<Evidence>,
    custody: seq<seq<CustodyRecord>>)

  const CollectedAction: string := "Evidence Collected"
  const TransferredAction: string := "Evidence Transferred"
  const DestroyedAction: string := "Evidence Destroyed"

  // ---------------------------------------------------------------- enums

  function OrgTypeOrdinal(t: OrgType): nat
  {
    match t
    case LawEnforcement => 0
    case ForensicLab => 1
    case Court => 2
  }

  /** Decodes an orgType argument; None for an ordinal the enum does not have. */
  function OrgTypeFromOrdinal(n: nat): (t: Option<OrgType>)
    ensures t.Some? <==> n < 3
    ensures t.Some? ==> OrgTypeOrdinal(t.value) == n
  {
    if n == 0 then Some(LawEnforcement)
    else if n == 1 then Some(ForensicLab)
    else if n == 2 then Some(Court)
    else None
  }

  function StatusOrdinal(s: Status): nat
  {
    match s
    case Collected => 0
    case UnderAnalysis => 1
    case Analyzed => 2
    case InCourt => 3
    case Archived => 4
    case Destroyed => 5
  }

  /** Decodes a newStatus argument; None for an ordinal the enum does not have. */
  function StatusFromOrdinal(n: nat): (s: Option<Status>)
    ensures s.Some? <==> n < 6
    ensures s.Some? ==> StatusOrdinal(s.value) == n
  {
    if n == 0 then Some(Collected)
    else if n == 1 then Some(UnderAnalysis)
    else if n == 2 then Some(Analyzed)
    else if n == 3 then Some(InCourt)
    else if n == 4 then Some(Archived)
    else if n == 5 then Some(Destroyed)
    else None
  }

  /** The role that verifying an organization of type `t` grants. */
  function RoleFor(t: OrgType): Role
  {
    match t
    case LawEnforcement => LawEnforcementRole
    case ForensicLab => ForensicLabRole
    case Court => CourtRole
  }

  /**
   * The role allowed to move evidence INTO status `target` by
   * updateEvidenceStatus; None for the two states that operation never sets
   * (Collected is set by collection, Destroyed by destruction).
   */
  function UpdaterOf(target: Status): Option<Role>
  {
    match target
    case UnderAnalysis => Some(ForensicLabRole)
    case Analyzed => Some(ForensicLabRole)
    case InCourt => Some(CourtRole)
    case Archived => Some(CourtRole)
    case _ => None
  }

  /** The lifecycle edges a status update may take: one step forward, 0->1->2->3->4. */
  predicate AllowedEdge(from: Status, to: Status)
  {
    UpdaterOf(to).Some? && StatusOrdinal(to) == StatusOrdinal(from) + 1
  }

  /** The status's display label. */
  function StatusLabel(s: Status): string
  {
    match s
    case Collected => "Collected"
    case UnderAnalysis => "Under Analysis"
    case Analyzed => "Analyzed"
    case InCourt => "In Court"
    case Archived => "Archived"
    case Destroyed => "Destroyed"
  }

  /** The custody action written when evidence enters `s` by a status update. */
  function StatusAction(s: Status): string
  {
    "Evidence " + StatusLabel(s)
  }

  // ---------------------------------------------------------------- queries

  predicate HasRole(st: LedgerState, role: Role, who: Address)
  {
    Grant(who, role) in st.grants
  }

  /** The organization an address resolves to, if any. */
  function OrgOf(st: LedgerState, who: Address): Option<Organization>
  {
    if who in st.orgIdOf && 1 <= st.orgIdOf[who] <= |st.organizations|
    then Some(st.organizations[st.orgIdOf[who] - 1])
    else None
  }

  /** `who` resolves to an organization that the admin has verified. */
  predicate IsVerifiedMember(st: LedgerState, who: Address)
  {
    OrgOf(st, who).Some? && OrgOf(st, who).value.isVerified
  }

  /** The organization name written into a custody record for `handler`. */
  function OrgNameOf(st: LedgerState, handler: Address): string
  {
    if OrgOf(st, handler).Some? then OrgOf(st, handler).value.name else ""
  }

  predicate EvidenceExists(st: LedgerState, id: nat)
  {
    1 <= id <= |st.evidences|
  }

  /** getChainOfCustody: the log of `id`, empty for an id never created. */
  function ChainOfCustody(st: LedgerState, id: nat): (log: seq<CustodyRecord>)
    ensures |st.custody| == |st.evidences| && !EvidenceExists(st, id) ==> log == []
  {
    if 1 <= id <= |st.custody| then st.custody[id - 1] else []
  }

  /** getEvidenceByCase: the items whose caseId is `caseId`, in table order. */
  function EvidenceByCase(evs: seq<Evidence>, caseId: string): (found: seq<Evidence>)
    ensures |found| <= |evs|
    ensures forall i :: 0 <= i < |found| ==> found[i].caseId == caseId
  {
    if |evs| == 0 then []
    else
      var last := evs[|evs| - 1];
      EvidenceByCase(evs[..|evs| - 1], caseId) + (if last.caseId == caseId then [last] else [])
  }

  /** verifyEvidenceIntegrity: compares the stored content hash with a candidate. */
  function VerifyIntegrity(st: LedgerState, id: nat, candidate: string): (r: Result<bool>)
    ensures r.Err? <==> !EvidenceExists(st, id)
  {
    if EvidenceExists(st, id) then Ok(st.evidences[id - 1].ipfsHash == candidate)
    else Err(NotFound)
  }

  // ---------------------------------------------------------------- invariant

  /** Some verified organization bound to `g.who` has the type that grants `g.role`. */
  ghost predicate Vouched(orgs: seq<Organization>, g: Grant)
  {
    exists i :: 0 <= i < |orgs| && orgs[i].isVerified && orgs[i].walletAddress == g.who
                && RoleFor(orgs[i].orgType) == g.role
  }

  /** A custody log for evidence `id`: non-empty, opened by the collection entry, all about `id`. */
  ghost predicate WellFormedLog(log: seq<CustodyRecord>, id: nat)
  {
    |log| >= 1 && log[0].action == CollectedAction
    && forall j :: 0 <= j < |log| ==> log[j].evidenceId == id
  }

  ghost predicate Valid(st: LedgerState)
  {
    // the deployer is admin, and nobody else ever is
    Grant(st.admin, AdminRole) in st.grants
    && (forall g :: g in st.grants && g.role == AdminRole ==> g.who == st.admin)
    // every other role was granted by verifying an organization of the matching type
    && (forall g :: g in st.grants && g.role != AdminRole ==> Vouched(st.organizations, g))
    // ids are dense, from 1
    && (forall i :: 0 <= i < |st.organizations| ==> st.organizations[i].id == i + 1)
    && (forall i :: 0 <= i < |st.evidences| ==> st.evidences[i].id == i + 1)
    // the address index points at organizations bound to that address
    && (forall a :: a in st.orgIdOf ==>
          1 <= st.orgIdOf[a] <= |st.organizations|
          && st.organizations[st.orgIdOf[a] - 1].walletAddress == a)
    // an item is active exactly until it is destroyed
    && (forall i :: 0 <= i < |st.evidences| ==>
          (st.evidences[i].isActive <==> st.evidences[i].status != Destroyed))
    // one custody log per item
    && |st.custody| == |st.evidences|
    && (forall i :: 0 <= i < |st.custody| ==> WellFormedLog(st.custody[i], i + 1))
  }

  // ---------------------------------------------------------------- operations

  /** Deployment: the deployer holds ADMIN_ROLE; all tables are empty. */
  function Deploy(deployer: Address): LedgerState
  {
    LedgerState(deployer, {Grant(deployer, AdminRole)}, [], map[], [], [])
  }

  /**
   * registerOrganization. The orgType argument is decoded before the body
   * runs, so an out-of-range ordinal is rejected before the role check.
   */
  function Register(st: LedgerState, caller: Address, name: string, orgType: nat, wallet: Address, now: nat)
    : (out: (Result<nat>, LedgerState))
    ensures out.0.Err? ==> out.1 == st
    ensures out.0.Ok? ==> out.0.value == |st.organizations| + 1 == |out.1.organizations|
    ensures out.1.grants == st.grants && out.1.evidences == st.evidences && out.1.custody == st.custody
  {
    match OrgTypeFromOrdinal(orgType)
    case None => (Err(InvalidArgument), st)
    case Some(t) =>
      if !HasRole(st, AdminRole, caller) then (Err(Unauthorized), st)
      else
        var id := |st.organizations| + 1;
        (Ok(id), st.(organizations := st.organizations + [Organization(id, name, t, wallet, false, now)],
                     orgIdOf := st.orgIdOf[wallet := id]))
  }

  /** verifyOrganization: marks the organization verified and grants its address the role of its type. */
  function Verify(st: LedgerState, caller: Address, orgId: nat): (out: (Result<()>, LedgerState))
    ensures out.0.Err? ==> out.1 == st
    ensures out.0.Ok? ==> 1 <= orgId <= |out.1.organizations| && out.1.organizations[orgId - 1].isVerified
    ensures |out.1.organizations| == |st.organizations|
    ensures out.1.evidences == st.evidences && out.1.custody == st.custody && out.1.orgIdOf == st.orgIdOf
  {
    if !HasRole(st, AdminRole, caller) then (Err(Unauthorized), st)
    else if !(1 <= orgId <= |st.organizations|) then (Err(NotFound), st)
    else
      var org := st.organizations[orgId - 1];
      (Ok(()), st.(organizations := st.organizations[orgId - 1 := org.(isVerified := true)],
                   grants := st.grants + {Grant(org.walletAddress, RoleFor(org.orgType))}))
  }

  function Collect(st: LedgerState, caller: Address, caseId: string, description: string,
                   evidenceType: string, ipfsHash: string, location: string, now: nat)
    : (out: (Result<nat>, LedgerState))
    ensures out.0.Err? ==> out.0.error == Unauthorized && out.1 == st
    ensures out.0.Ok? ==>
              out.0.value == |st.evidences| + 1 == |out.1.evidences| && |out.1.custody| == |st.custody| + 1
    ensures out.1.grants == st.grants && out.1.organizations == st.organizations && out.1.orgIdOf == st.orgIdOf
  {
    if !(HasRole(st, LawEnforcementRole, caller) && IsVerifiedMember(st, caller)) then (Err(Unauthorized), st)
    else
      var id := |st.evidences| + 1;
      var ev := Evidence(id, caseId, description, evidenceType, ipfsHash, caller, now, Collected, true, location);
      var entry := CustodyRecord(id, caller, CollectedAction, "", now, OrgNameOf(st, caller));
      (Ok(id), st.(evidences := st.evidences + [ev], custody := st.custody + [[entry]]))
  }

  /** Appends one custody entry to the log of an existing item. */
  function AppendEntry(st: LedgerState, id: nat, entry: CustodyRecord): LedgerState
    requires 1 <= id <= |st.custody|
  {
    st.(custody := st.custody[id - 1 := st.custody[id - 1] + [entry]])
  }

  /** transferEvidence: records a hand-over in the item's log; the item itself is unchanged. */
  function Transfer(st: LedgerState, caller: Address, id: nat, to: Address, notes: string, now: nat)
    : (out: (Result<()>, LedgerState))
    requires |st.custody| == |st.evidences|
    ensures out.0.Err? ==> out.1 == st
    ensures out.1.evidences == st.evidences && |out.1.custody| == |st.custody|
    ensures out.1.grants == st.grants && out.1.organizations == st.organizations && out.1.orgIdOf == st.orgIdOf
  {
    if !HasRole(st, LawEnforcementRole, caller) then (Err(Unauthorized), st)
    else if !EvidenceExists(st, id) then (Err(NotFound), st)
    else if !st.evidences[id - 1].isActive then (Err(InvalidTransition), st)
    else if !IsVerifiedMember(st, to) then (Err(UnverifiedRecipient), st)
    else
      (Ok(()), AppendEntry(st, id, CustodyRecord(id, caller, TransferredAction, notes, now, OrgNameOf(st, caller))))
  }

  /**
   * updateEvidenceStatus: a status change the caller's role may not make,
   * like one on inactive evidence, fails with InvalidTransition.
   */
  function UpdateStatus(st: LedgerState, caller: Address, id: nat, newStatus: nat, notes: string, now: nat)
    : (out: (Result<()>, LedgerState))
    requires |st.custody| == |st.evidences|
    ensures |out.1.evidences| == |st.evidences| && |out.1.custody| == |st.custody|
    ensures out.0.Err? ==> out.1 == st
    ensures out.0.Ok? ==> EvidenceExists(st, id) && StatusOrdinal(out.1.evidences[id - 1].status) == newStatus
    ensures out.1.grants == st.grants && out.1.organizations == st.organizations && out.1.orgIdOf == st.orgIdOf
  {
    match StatusFromOrdinal(newStatus)
    case None => (Err(InvalidArgument), st)
    case Some(target) =>
      if !EvidenceExists(st, id) then (Err(NotFound), st)
      else
        var ev := st.evidences[id - 1];
        if !ev.isActive || UpdaterOf(target).None? then (Err(InvalidTransition), st)
        else if !HasRole(st, UpdaterOf(target).value, caller) || !AllowedEdge(ev.status, target) then
          (Err(InvalidTransition), st)
        else
          var st' := st.(evidences := st.evidences[id - 1 := ev.(status := target)]);
          (Ok(()), AppendEntry(st', id, CustodyRecord(id, caller, StatusAction(target), notes, now, OrgNameOf(st, caller))))
  }

  /** destroyEvidence: the item becomes inactive with status Destroyed; the reason is logged. */
  function Destroy(st: LedgerState, caller: Address, id: nat, reason: string, now: nat)
    : (out: (Result<()>, LedgerState))
    requires |st.custody| == |st.evidences|
    ensures |out.1.evidences| == |st.evidences| && |out.1.custody| == |st.custody|
    ensures out.0.Err? ==> out.1 == st
    ensures out.0.Ok? ==> EvidenceExists(st, id) && out.1.evidences[id - 1].status == Destroyed
                          && !out.1.evidences[id - 1].isActive
    ensures out.1.grants == st.grants && out.1.organizations == st.organizations && out.1.orgIdOf == st.orgIdOf
  {
    if !HasRole(st, AdminRole, caller) then (Err(Unauthorized), st)
    else if !EvidenceExists(st, id) then (Err(NotFound), st)
    else if !st.evidences[id - 1].isActive then (Err(InvalidTransition), st)
    else
      var ev := st.evidences[id - 1];
      var st' := st.(evidences := st.evidences[id - 1 := ev.(status := Destroyed, isActive := false)]);
      (Ok(()), AppendEntry(st', id, CustodyRecord(id, caller, DestroyedAction, reason, now, OrgNameOf(st, caller))))
  }
}
