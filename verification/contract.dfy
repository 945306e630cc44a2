/**
 * The EvidenceManagement contract as a mutable object.
 *
 * Its fields are the contract's storage: role grants, the Organization table,
 * the address-to-organization index, the Evidence table and the per-evidence
 * custody logs. Each transaction is one method; `caller` stands for the
 * transaction's sender and `now` for the block timestamp. Every mutating
 * method is proved to leave the fields exactly as the matching transition
 * function of EvidenceLedger prescribes, so everything proved about those
 * functions in LedgerProperties holds of the object.
 */
module EvidenceContract {
  import opened EvidenceLedger
  import LedgerProperties

  class EvidenceManagement {
    const admin: Address
    var grants: set<Grant>
    var organizations: seq<Organization>
    var orgIdOf: map<Address, nat>
    var evidences: seq<Evidence>
    var custody: seq<seq<CustodyRecord>>

    /** The storage as a value. */
    function Snapshot(): LedgerState
      reads this
    {
      LedgerState(admin, grants, organizations, orgIdOf, evidences, custody)
    }

    ghost predicate Valid()
      reads this
    {
      EvidenceLedger.Valid(Snapshot())
    }

    /** Deployment: the deployer becomes admin. */
    constructor (deployer: Address)
      ensures Snapshot() == Deploy(deployer)
      ensures Valid()
    {
      admin := deployer;
      grants := {Grant(deployer, AdminRole)};
      organizations := [];
      orgIdOf := map[];
      evidences := [];
      custody := [];
    }

    method RegisterOrganization(caller: Address, name: string, orgType: nat, wallet: Address, now: nat)
      returns (r: Result<nat>)
      requires Valid()
      modifies this
      ensures Valid()
      ensures (r, Snapshot()) == Register(old(Snapshot()), caller, name, orgType, wallet, now)
    {
      var t := OrgTypeFromOrdinal(orgType);
      if t.None? {
        return Err(InvalidArgument);
      }
      if Grant(caller, AdminRole) !in grants {
        return Err(Unauthorized);
      }
      LedgerProperties.RegisterPreservesValid(Snapshot(), caller, name, orgType, wallet, now);
      var id := |organizations| + 1;
      organizations := organizations + [Organization(id, name, t.value, wallet, false, now)];
      orgIdOf := orgIdOf[wallet := id];
      r := Ok(id);
    }

    method VerifyOrganization(caller: Address, orgId: nat) returns (r: Result<()>)
      requires Valid()
      modifies this
      ensures Valid()
      ensures (r, Snapshot()) == Verify(old(Snapshot()), caller, orgId)
    {
      if Grant(caller, AdminRole) !in grants {
        return Err(Unauthorized);
      }
      if !(1 <= orgId <= |organizations|) {
        return Err(NotFound);
      }
      LedgerProperties.VerifyPreservesValid(Snapshot(), caller, orgId);
      var org := organizations[orgId - 1];
      organizations := organizations[orgId - 1 := org.(isVerified := true)];
      grants := grants + {Grant(org.walletAddress, RoleFor(org.orgType))};
      r := Ok(());
    }

    method CollectEvidence(caller: Address, caseId: string, description: string, evidenceType: string,
                           ipfsHash: string, location: string, now: nat)
      returns (r: Result<nat>)
      requires Valid()
      modifies this
      ensures Valid()
      ensures (r, Snapshot()) == Collect(old(Snapshot()), caller, caseId, description, evidenceType, ipfsHash, location, now)
    {
      var st := Snapshot();
      if Grant(caller, LawEnforcementRole) !in grants || !IsVerifiedMember(st, caller) {
        return Err(Unauthorized);
      }
      LedgerProperties.CollectPreservesValid(st, caller, caseId, description, evidenceType, ipfsHash, location, now);
      var id := |evidences| + 1;
      evidences := evidences + [Evidence(id, caseId, description, evidenceType, ipfsHash, caller, now, Collected, true, location)];
      custody := custody + [[CustodyRecord(id, caller, CollectedAction, "", now, OrgNameOf(st, caller))]];
      r := Ok(id);
    }

    /** Appends `entry` to the custody log of evidence `id`. */
    method AddCustodyRecord(id: nat, entry: CustodyRecord)
      requires 1 <= id <= |custody|
      modifies this
      ensures custody == old(custody)[id - 1 := old(custody)[id - 1] + [entry]]
      ensures grants == old(grants) && organizations == old(organizations) && orgIdOf == old(orgIdOf)
      ensures evidences == old(evidences)
    {
      custody := custody[id - 1 := custody[id - 1] + [entry]];
    }

    method TransferEvidence(caller: Address, id: nat, to: Address, notes: string, now: nat) returns (r: Result<()>)
      requires Valid()
      modifies this
      ensures Valid()
      ensures (r, Snapshot()) == Transfer(old(Snapshot()), caller, id, to, notes, now)
    {
      var st := Snapshot();
      if Grant(caller, LawEnforcementRole) !in grants {
        return Err(Unauthorized);
      }
      if !(1 <= id <= |evidences|) {
        return Err(NotFound);
      }
      if !evidences[id - 1].isActive {
        return Err(InvalidTransition);
      }
      if !IsVerifiedMember(st, to) {
        return Err(UnverifiedRecipient);
      }
      LedgerProperties.TransferPreservesValid(st, caller, id, to, notes, now);
      AddCustodyRecord(id, CustodyRecord(id, caller, TransferredAction, notes, now, OrgNameOf(st, caller)));
      r := Ok(());
    }

    method UpdateEvidenceStatus(caller: Address, id: nat, newStatus: nat, notes: string, now: nat) returns (r: Result<()>)
      requires Valid()
      modifies this
      ensures Valid()
      ensures (r, Snapshot()) == UpdateStatus(old(Snapshot()), caller, id, newStatus, notes, now)
    {
      var st := Snapshot();
      var target := StatusFromOrdinal(newStatus);
      if target.None? {
        return Err(InvalidArgument);
      }
      if !(1 <= id <= |evidences|) {
        return Err(NotFound);
      }
      var ev := evidences[id - 1];
      var updater := UpdaterOf(target.value);
      if !ev.isActive || updater.None? {
        return Err(InvalidTransition);
      }
      if Grant(caller, updater.value) !in grants || !AllowedEdge(ev.status, target.value) {
        return Err(InvalidTransition);
      }
      LedgerProperties.UpdateStatusPreservesValid(st, caller, id, newStatus, notes, now);
      evidences := evidences[id - 1 := ev.(status := target.value)];
      AddCustodyRecord(id, CustodyRecord(id, caller, StatusAction(target.value), notes, now, OrgNameOf(st, caller)));
      r := Ok(());
    }

    method DestroyEvidence(caller: Address, id: nat, reason: string, now: nat) returns (r: Result<()>)
      requires Valid()
      modifies this
      ensures Valid()
      ensures (r, Snapshot()) == Destroy(old(Snapshot()), caller, id, reason, now)
    {
      var st := Snapshot();
      if Grant(caller, AdminRole) !in grants {
        return Err(Unauthorized);
      }
      if !(1 <= id <= |evidences|) {
        return Err(NotFound);
      }
      var ev := evidences[id - 1];
      if !ev.isActive {
        return Err(InvalidTransition);
      }
      LedgerProperties.DestroyPreservesValid(st, caller, id, reason, now);
      evidences := evidences[id - 1 := ev.(status := Destroyed, isActive := false)];
      AddCustodyRecord(id, CustodyRecord(id, caller, DestroyedAction, reason, now, OrgNameOf(st, caller)));
      r := Ok(());
    }

    // ------------------------------------------------------------ reads

    method HasRoleOf(role: Role, account: Address) returns (b: bool)
      ensures b == HasRole(Snapshot(), role, account)
    {
      b := Grant(account, role) in grants;
    }

    method GetOrganizationCount() returns (n: nat)
      ensures n == |Snapshot().organizations|
    {
      n := |organizations|;
    }

    method GetEvidenceCount() returns (n: nat)
      ensures n == |Snapshot().evidences|
    {
      n := |evidences|;
    }

    method GetAllOrganizations() returns (orgs: seq<Organization>)
      ensures orgs == Snapshot().organizations
    {
      orgs := organizations;
    }

    method GetAllEvidence() returns (evs: seq<Evidence>)
      ensures evs == Snapshot().evidences
    {
      evs := evidences;
    }

    /** The public `evidences(id)` getter. */
    method GetEvidence(id: nat) returns (r: Result<Evidence>)
      ensures r.Ok? <==> EvidenceExists(Snapshot(), id)
      ensures r.Ok? ==> r.value == evidences[id - 1]
      ensures r.Err? ==> r.error == NotFound
    {
      if 1 <= id <= |evidences| {
        r := Ok(evidences[id - 1]);
      } else {
        r := Err(NotFound);
      }
    }

    method GetChainOfCustody(id: nat) returns (log: seq<CustodyRecord>)
      ensures log == ChainOfCustody(Snapshot(), id)
    {
      if 1 <= id <= |custody| {
        log := custody[id - 1];
      } else {
        log := [];
      }
    }

    method VerifyEvidenceIntegrity(id: nat, candidate: string) returns (r: Result<bool>)
      ensures r == VerifyIntegrity(Snapshot(), id, candidate)
    {
      if 1 <= id <= |evidences| {
        r := Ok(evidences[id - 1].ipfsHash == candidate);
      } else {
        r := Err(NotFound);
      }
    }

    /** Scans the Evidence table in id order, keeping the items of one case. */
    method GetEvidenceByCase(caseId: string) returns (found: seq<Evidence>)
      ensures found == EvidenceByCase(Snapshot().evidences, caseId)
    {
      found := [];
      var i := 0;
      while i < |evidences|
        invariant 0 <= i <= |evidences|
        invariant found == EvidenceByCase(evidences[..i], caseId)
      {
        assert evidences[..i + 1][..i] == evidences[..i];
        if evidences[i].caseId == caseId {
          found := found + [evidences[i]];
        }
        i := i + 1;
      }
      assert evidences[..i] == evidences;
    }
  }
}
