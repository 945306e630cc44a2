/**
 * The client-side BlockchainService: status and organization-type labels,
 * the reshaping of contract records into display records (timestamps from
 * seconds to milliseconds), and the service object that guards every call on
 * an initialised contract and turns failed role queries into `false`.
 */
module ChainService {
  import opened EvidenceLedger
  import opened EvidenceContract

  // ------------------------------------------------------------ labels

  const StatusNames: seq<string> := ["Collected", "Under Analysis", "Analyzed", "In Court", "Archived", "Destroyed"]
  const OrgTypeNames: seq<string> := ["Law Enforcement", "Forensic Lab", "Court"]
  const UnknownName: string := "Unknown"

  /** getStatusName: the label at a status ordinal, "Unknown" for any other value. */
  function StatusName(status: int): (name: string)
    ensures name == UnknownName <==> !(0 <= status < |StatusNames|)
  {
    if 0 <= status < |StatusNames| then StatusNames[status] else UnknownName
  }

  /** getOrgTypeName: the label at an organization-type ordinal, "Unknown" for any other value. */
  function OrgTypeName(orgType: int): (name: string)
    ensures name == UnknownName <==> !(0 <= orgType < |OrgTypeNames|)
  {
    if 0 <= orgType < |OrgTypeNames| then OrgTypeNames[orgType] else UnknownName
  }

  /** The six status labels, in ordinal order; every other value is "Unknown". */
  lemma StatusNameTable(status: int)
    ensures StatusName(0) == "Collected" && StatusName(1) == "Under Analysis" && StatusName(2) == "Analyzed"
    ensures StatusName(3) == "In Court" && StatusName(4) == "Archived" && StatusName(5) == "Destroyed"
    ensures StatusName(status) == "Unknown" <==> !(0 <= status < 6)
  {
    if 0 <= status < 6 {
      assert StatusName(status) == StatusNames[status];
      assert StatusNames[status][0] != 'U' || StatusNames[status] == "Under Analysis";
    }
  }

  /** The three organization-type labels, in ordinal order; every other value is "Unknown". */
  lemma OrgTypeNameTable(orgType: int)
    ensures OrgTypeName(0) == "Law Enforcement" && OrgTypeName(1) == "Forensic Lab" && OrgTypeName(2) == "Court"
    ensures OrgTypeName(orgType) == "Unknown" <==> !(0 <= orgType < 3)
  {
    if 0 <= orgType < 3 {
      assert OrgTypeNames[orgType][0] != 'U';
    }
  }

  /** Distinct statuses get distinct labels, so a label identifies its status. */
  lemma StatusNameInjective(s: Status, t: Status)
    ensures StatusName(StatusOrdinal(s)) == StatusName(StatusOrdinal(t)) <==> s == t
  {
    if s != t {
      var a, b := StatusName(StatusOrdinal(s)), StatusName(StatusOrdinal(t));
      assert |a| != |b| || a[0] != b[0] || a[1] != b[1];
    }
  }

  /** Distinct organization types get distinct labels. */
  lemma OrgTypeNameInjective(s: OrgType, t: OrgType)
    ensures OrgTypeName(OrgTypeOrdinal(s)) == OrgTypeName(OrgTypeOrdinal(t)) <==> s == t
  {
    if s != t {
      var a, b := OrgTypeName(OrgTypeOrdinal(s)), OrgTypeName(OrgTypeOrdinal(t));
      assert a[0] != b[0];
    }
  }

  /** The custody action a status update writes is "Evidence " followed by the label of the new status. */
  lemma StatusActionUsesLabel(s: Status)
    ensures StatusAction(s) == "Evidence " + StatusName(StatusOrdinal(s))
  {
    assert StatusName(StatusOrdinal(s)) == StatusLabel(s) by {
      assert StatusName(StatusOrdinal(s)) == StatusNames[StatusOrdinal(s)];
    }
  }

  // ------------------------------------------------------------ display records

  function ToMillis(seconds: nat): nat
  {
    seconds * 1000
  }

  datatype EvidenceView = EvidenceView(
    id: nat, caseId: string, description: string, evidenceType: string, ipfsHash: string,
    collectedBy: Address, collectedAt: nat, status: Status, isActive: bool, location: string)

  datatype CustodyView = CustodyView(
    evidenceId: nat, handler: Address, action: string, notes: string, timestamp: nat, organizationName: string)

  datatype OrganizationView = OrganizationView(
    id: nat, name: string, orgType: OrgType, walletAddress: Address, isVerified: bool, registeredAt: nat)

  /** The record mapping of _formatEvidenceArray for one item; the collection time stays recoverable. */
  function FormatEvidence(ev: Evidence): (v: EvidenceView)
    ensures v.collectedAt % 1000 == 0 && v.collectedAt / 1000 == ev.collectedAt
  {
    EvidenceView(ev.id, ev.caseId, ev.description, ev.evidenceType, ev.ipfsHash,
                 ev.collectedBy, ToMillis(ev.collectedAt), ev.status, ev.isActive, ev.location)
  }

  /** The record mapping of getChainOfCustody for one entry. */
  function FormatCustody(rec: CustodyRecord): (v: CustodyView)
    ensures v.timestamp % 1000 == 0 && v.timestamp / 1000 == rec.timestamp
  {
    CustodyView(rec.evidenceId, rec.handler, rec.action, rec.notes, ToMillis(rec.timestamp), rec.organizationName)
  }

  /** The record mapping of getAllOrganizations for one organization. */
  function FormatOrganization(org: Organization): (v: OrganizationView)
    ensures v.registeredAt % 1000 == 0 && v.registeredAt / 1000 == org.registeredAt
  {
    OrganizationView(org.id, org.name, org.orgType, org.walletAddress, org.isVerified, ToMillis(org.registeredAt))
  }

  /** _formatEvidenceArray: one display record per item, same order. */
  function FormatEvidenceArray(evs: seq<Evidence>): (views: seq<EvidenceView>)
    ensures |views| == |evs|
    ensures forall i :: 0 <= i < |evs| ==> views[i] == FormatEvidence(evs[i])
  {
    if evs == [] then [] else [FormatEvidence(evs[0])] + FormatEvidenceArray(evs[1..])
  }

  /** The record mapping of getChainOfCustody: one display record per entry, same order. */
  function FormatCustodyLog(log: seq<CustodyRecord>): (views: seq<CustodyView>)
    ensures |views| == |log|
    ensures forall i :: 0 <= i < |log| ==> views[i] == FormatCustody(log[i])
  {
    if log == [] then [] else [FormatCustody(log[0])] + FormatCustodyLog(log[1..])
  }

  /** The record mapping of getAllOrganizations: one display record per organization, same order. */
  function FormatOrganizations(orgs: seq<Organization>): (views: seq<OrganizationView>)
    ensures |views| == |orgs|
    ensures forall i :: 0 <= i < |orgs| ==> views[i] == FormatOrganization(orgs[i])
  {
    if orgs == [] then [] else [FormatOrganization(orgs[0])] + FormatOrganizations(orgs[1..])
  }

  /**
   * Reading a display record back (milliseconds to seconds) gives the
   * contract's record: the reshaping copies every field and loses nothing.
   */
  lemma FormatEvidenceLossless(ev: Evidence)
    ensures var v := FormatEvidence(ev);
      v.collectedAt % 1000 == 0
      && Evidence(v.id, v.caseId, v.description, v.evidenceType, v.ipfsHash, v.collectedBy,
                  v.collectedAt / 1000, v.status, v.isActive, v.location) == ev
  {
  }

  lemma FormatCustodyLossless(rec: CustodyRecord)
    ensures var v := FormatCustody(rec);
      v.timestamp % 1000 == 0
      && CustodyRecord(v.evidenceId, v.handler, v.action, v.notes, v.timestamp / 1000, v.organizationName) == rec
  {
  }

  lemma FormatOrganizationLossless(org: Organization)
    ensures var v := FormatOrganization(org);
      v.registeredAt % 1000 == 0
      && Organization(v.id, v.name, v.orgType, v.walletAddress, v.isVerified, v.registeredAt / 1000) == org
  {
  }

  /** Two item lists format alike exactly when they are equal. */
  lemma FormatEvidenceArrayInjective(a: seq<Evidence>, b: seq<Evidence>)
    ensures FormatEvidenceArray(a) == FormatEvidenceArray(b) <==> a == b
  {
    if FormatEvidenceArray(a) == FormatEvidenceArray(b) {
      forall i | 0 <= i < |a| ensures a[i] == b[i] {
        FormatEvidenceLossless(a[i]);
        FormatEvidenceLossless(b[i]);
      }
    }
  }

  /** Formatting commutes with the case filter: the display of a case query lists the case's display records. */
  lemma {:induction false} FormatByCase(evs: seq<Evidence>, caseId: string)
    ensures FormatEvidenceArray(EvidenceByCase(evs, caseId)) == ViewsOfCase(FormatEvidenceArray(evs), caseId)
  {
    if |evs| > 0 {
      var init, last := evs[..|evs| - 1], evs[|evs| - 1];
      var tail := if last.caseId == caseId then [last] else [];
      var view := FormatEvidence(last);
      assert evs == init + [last];
      calc {
        FormatEvidenceArray(EvidenceByCase(evs, caseId));
        == { ByCaseStep(init, last, caseId); }
        FormatEvidenceArray(EvidenceByCase(init, caseId) + tail);
        == { FormatAppend(EvidenceByCase(init, caseId), tail); }
        FormatEvidenceArray(EvidenceByCase(init, caseId)) + FormatEvidenceArray(tail);
        == { FormatByCase(init, caseId); assert FormatEvidenceArray(tail) == if view.caseId == caseId then [view] else []; }
        ViewsOfCase(FormatEvidenceArray(init), caseId) + (if view.caseId == caseId then [view] else []);
        == { ViewsOfCaseStep(FormatEvidenceArray(init), view, caseId); }
        ViewsOfCase(FormatEvidenceArray(init) + [view], caseId);
        == { FormatAppend(init, [last]); assert FormatEvidenceArray([last]) == [view]; }
        ViewsOfCase(FormatEvidenceArray(evs), caseId);
      }
    }
  }

  /**
   * The display records of one case, in order: the filter of EvidenceByCase,
   * applied to display records instead of contract records.
   */
  function ViewsOfCase(views: seq<EvidenceView>, caseId: string): seq<EvidenceView>
  {
    if |views| == 0 then []
    else
      var last := views[|views| - 1];
      ViewsOfCase(views[..|views| - 1], caseId) + (if last.caseId == caseId then [last] else [])
  }

  /** The case filter on a table with one more item at its end. */
  lemma ByCaseStep(init: seq<Evidence>, last: Evidence, caseId: string)
    ensures EvidenceByCase(init + [last], caseId) == EvidenceByCase(init, caseId) + (if last.caseId == caseId then [last] else [])
  {
    assert (init + [last])[..|init|] == init;
  }

  /** The view filter on a list with one more view at its end. */
  lemma ViewsOfCaseStep(init: seq<EvidenceView>, last: EvidenceView, caseId: string)
    ensures ViewsOfCase(init + [last], caseId) == ViewsOfCase(init, caseId) + (if last.caseId == caseId then [last] else [])
  {
    assert (init + [last])[..|init|] == init;
  }

  lemma FormatAppend(a: seq<Evidence>, b: seq<Evidence>)
    ensures FormatEvidenceArray(a + b) == FormatEvidenceArray(a) + FormatEvidenceArray(b)
  {
    assert |FormatEvidenceArray(a + b)| == |FormatEvidenceArray(a) + FormatEvidenceArray(b)|;
    forall i | 0 <= i < |a + b|
      ensures FormatEvidenceArray(a + b)[i] == (FormatEvidenceArray(a) + FormatEvidenceArray(b))[i]
    {
      if i >= |a| {
        assert (a + b)[i] == b[i - |a|];
      }
    }
  }

  // ------------------------------------------------------------ the service object

  /** The outcome of a service call: a value, or a thrown error with its message. */
  datatype Call<T> = Returned(value: T) | Threw(message: string)

  const NotInitialized: string := "Contract not initialized. Call init() first."

  /**
   * The message of the error a reverted contract call throws. The contract's
   * own revert strings are not part of this model, so each kind stands for
   * itself; they differ from each other and from the not-initialised message.
   */
  function RevertMessage(e: Error): (m: string)
    ensures m != NotInitialized
  {
    match e
    case Unauthorized => "reverted: Unauthorized"
    case NotFound => "reverted: NotFound"
    case InvalidTransition => "reverted: InvalidTransition"
    case UnverifiedRecipient => "reverted: UnverifiedRecipient"
    case InvalidArgument => "reverted: InvalidArgument"
  }

  /** The role flags getUserRoles reports. */
  datatype UserRoles = UserRoles(isAdmin: bool, isLawEnforcement: bool, isForensicLab: bool, isCourt: bool)

  /** The role named by a role string, as the contract's role constants hash them. */
  function RoleByName(name: string): Option<Role>
  {
    if name == "ADMIN_ROLE" then Some(AdminRole)
    else if name == "LAW_ENFORCEMENT_ROLE" then Some(LawEnforcementRole)
    else if name == "FORENSIC_LAB_ROLE" then Some(ForensicLabRole)
    else if name == "COURT_ROLE" then Some(CourtRole)
    else None
  }

  class BlockchainService {
    var contract: EvidenceManagement?
    var currentAccount: Option<Address>

    constructor ()
      ensures contract == null && currentAccount == None
    {
      contract := null;
      currentAccount := None;
    }

    /**
     * What hasRole answers: true only when the contract is initialised, an
     * account is connected, the call does not fail and the account holds the
     * named role.
     */
    ghost predicate Holds(roleName: string, callFails: bool)
      reads this, contract
    {
      contract != null && !callFails && currentAccount.Some? && RoleByName(roleName).Some?
      && HasRole(contract.Snapshot(), RoleByName(roleName).value, currentAccount.value)
    }

    method GetContract() returns (r: Call<EvidenceManagement>)
      ensures r.Threw? <==> contract == null
      ensures r.Threw? ==> r.message == NotInitialized
      ensures r.Returned? ==> r.value == contract
    {
      if contract == null {
        return Threw(NotInitialized);
      }
      return Returned(contract);
    }

    /** hasRole: any failure (no contract, no account, a failing call) is caught and answered `false`. */
    method HasRoleNamed(roleName: string, callFails: bool) returns (b: bool)
      ensures b == Holds(roleName, callFails)
      ensures contract == null || callFails ==> !b
    {
      var c := GetContract();
      if c.Threw? || callFails || currentAccount.None? {
        return false;
      }
      var role := RoleByName(roleName);
      if role.None? {
        return false;
      }
      b := c.value.HasRoleOf(role.value, currentAccount.value);
    }

    /**
     * getUserRoles: all four flags start false and each is set only from its
     * own hasRole query; `failing` names the queries whose call fails.
     */
    method GetUserRoles(failing: set<string>) returns (roles: UserRoles)
      ensures roles.isAdmin == Holds("ADMIN_ROLE", "ADMIN_ROLE" in failing)
      ensures roles.isLawEnforcement == Holds("LAW_ENFORCEMENT_ROLE", "LAW_ENFORCEMENT_ROLE" in failing)
      ensures roles.isForensicLab == Holds("FORENSIC_LAB_ROLE", "FORENSIC_LAB_ROLE" in failing)
      ensures roles.isCourt == Holds("COURT_ROLE", "COURT_ROLE" in failing)
      ensures contract == null ==> roles == UserRoles(false, false, false, false)
      ensures contract != null && contract.Valid() && currentAccount.Some? && "ADMIN_ROLE" !in failing ==>
                (roles.isAdmin <==> currentAccount.value == contract.admin)
    {
      roles := UserRoles(false, false, false, false);
      var b := HasRoleNamed("ADMIN_ROLE", "ADMIN_ROLE" in failing);
      roles := roles.(isAdmin := b);
      b := HasRoleNamed("LAW_ENFORCEMENT_ROLE", "LAW_ENFORCEMENT_ROLE" in failing);
      roles := roles.(isLawEnforcement := b);
      b := HasRoleNamed("FORENSIC_LAB_ROLE", "FORENSIC_LAB_ROLE" in failing);
      roles := roles.(isForensicLab := b);
      b := HasRoleNamed("COURT_ROLE", "COURT_ROLE" in failing);
      roles := roles.(isCourt := b);
    }

    /** getAllOrganizations: the contract's organizations as display records, or the not-initialised error. */
    method GetAllOrganizations() returns (r: Call<seq<OrganizationView>>)
      ensures contract == null ==> r == Threw(NotInitialized)
      ensures contract != null ==> r == Returned(FormatOrganizations(contract.organizations))
    {
      var c := GetContract();
      if c.Threw? {
        return Threw(c.message);
      }
      var orgs := c.value.GetAllOrganizations();
      r := Returned(FormatOrganizations(orgs));
    }

    /** getAllEvidence: every item as a display record, in id order. */
    method GetAllEvidence() returns (r: Call<seq<EvidenceView>>)
      ensures contract == null ==> r == Threw(NotInitialized)
      ensures contract != null ==> r == Returned(FormatEvidenceArray(contract.evidences))
    {
      var c := GetContract();
      if c.Threw? {
        return Threw(c.message);
      }
      var evs := c.value.GetAllEvidence();
      r := Returned(FormatEvidenceArray(evs));
    }

    /** getEvidenceByCase: the display records of one case, in id order. */
    method GetEvidenceByCase(caseId: string) returns (r: Call<seq<EvidenceView>>)
      ensures contract == null ==> r == Threw(NotInitialized)
      ensures contract != null ==> r == Returned(ViewsOfCase(FormatEvidenceArray(contract.evidences), caseId))
    {
      var c := GetContract();
      if c.Threw? {
        return Threw(c.message);
      }
      var evs := c.value.GetEvidenceByCase(caseId);
      FormatByCase(c.value.evidences, caseId);
      r := Returned(FormatEvidenceArray(evs));
    }

    /** getChainOfCustody: the log of one item as display records, in append order. */
    method GetChainOfCustody(id: nat) returns (r: Call<seq<CustodyView>>)
      ensures contract == null ==> r == Threw(NotInitialized)
      ensures contract != null ==> r == Returned(FormatCustodyLog(ChainOfCustody(contract.Snapshot(), id)))
    {
      var c := GetContract();
      if c.Threw? {
        return Threw(c.message);
      }
      var log := c.value.GetChainOfCustody(id);
      r := Returned(FormatCustodyLog(log));
    }

    /**
     * verifyEvidenceIntegrity: the contract's answer, passed on as it is. The
     * contract's NotFound revert for an unknown id is caught and rethrown, so
     * the call throws for it.
     */
    method VerifyEvidenceIntegrity(id: nat, candidate: string) returns (r: Call<bool>)
      ensures contract == null ==> r == Threw(NotInitialized)
      ensures contract != null && !EvidenceExists(contract.Snapshot(), id) ==> r == Threw(RevertMessage(NotFound))
      ensures contract != null && EvidenceExists(contract.Snapshot(), id) ==>
                r.Returned? && (r.value <==> contract.evidences[id - 1].ipfsHash == candidate)
    {
      var c := GetContract();
      if c.Threw? {
        return Threw(c.message);
      }
      var ok := c.value.VerifyEvidenceIntegrity(id, candidate);
      match ok
      case Err(e) => r := Threw(RevertMessage(e));
      case Ok(same) => r := Returned(same);
    }
  }
}
