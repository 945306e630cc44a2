/**
 * The scenarios of the contract's test suite, replayed on the state machine
 * for arbitrary distinct signer addresses and an arbitrary block time. The
 * setup functions are the suite's `beforeEach` blocks.
 */
module TestScenarios {
  import opened EvidenceLedger

  /** Five distinct signers: admin (the deployer), law enforcement, forensic lab, court and an outsider. */
  predicate Signers(admin: Address, police: Address, lab: Address, court: Address, user: Address)
  {
    admin != police && admin != lab && admin != court && admin != user
    && police != lab && police != court && police != user
    && lab != court && lab != user && court != user
  }

  /** "Metro Police" (law enforcement, bound to `police`) registered as organization 1 and verified. */
  function PoliceVerified(admin: Address, police: Address, t: nat): LedgerState
  {
    var s1 := Register(Deploy(admin), admin, "Metro Police", 0, police, t).1;
    Verify(s1, admin, 1).1
  }

  /** PoliceVerified, then one item of CASE-001 collected by the police. */
  function OneItemCollected(admin: Address, police: Address, t: nat): LedgerState
  {
    Collect(PoliceVerified(admin, police, t), police, "CASE-001", "Test evidence", "Digital",
            "QmTestHash123", "Location", t).1
  }

  /** Police and "State Lab" (forensic lab, bound to `lab`) registered and verified, then one item collected. */
  function TwoOrgsOneItem(admin: Address, police: Address, lab: Address, t: nat): LedgerState
  {
    var s2 := PoliceVerified(admin, police, t);
    var s3 := Register(s2, admin, "State Lab", 1, lab, t).1;
    var s4 := Verify(s3, admin, 2).1;
    Collect(s4, police, "CASE-001", "Test evidence", "Digital", "QmTestHash", "Location", t).1
  }

  /** "State Lab" registered as organization 1 and "Metro Police" as organization 2, both verified. */
  function LabThenPolice(admin: Address, police: Address, lab: Address, t: nat): LedgerState
  {
    var s1 := Register(Deploy(admin), admin, "State Lab", 1, lab, t).1;
    var s2 := Verify(s1, admin, 1).1;
    var s3 := Register(s2, admin, "Metro Police", 0, police, t).1;
    Verify(s3, admin, 2).1
  }

  lemma LabThenPoliceFacts(admin: Address, police: Address, lab: Address, t: nat)
    requires admin != police && admin != lab && police != lab
    ensures var st := LabThenPolice(admin, police, lab, t);
      st.evidences == [] && st.custody == []
      && HasRole(st, ForensicLabRole, lab) && HasRole(st, LawEnforcementRole, police)
      && IsVerifiedMember(st, police)
  {
    var s1 := Register(Deploy(admin), admin, "State Lab", 1, lab, t).1;
    var s2 := Verify(s1, admin, 1).1;
    var s3 := Register(s2, admin, "Metro Police", 0, police, t).1;
    var s4 := Verify(s3, admin, 2).1;
    assert s4.organizations[0].orgType == ForensicLab && s4.organizations[1].orgType == LawEnforcement;
    assert OrgOf(s4, police) == Some(s4.organizations[1]);
  }

  lemma PoliceVerifiedFacts(admin: Address, police: Address, t: nat)
    requires admin != police
    ensures var st := PoliceVerified(admin, police, t);
      |st.organizations| == 1 && st.evidences == []
      && HasRole(st, LawEnforcementRole, police) && IsVerifiedMember(st, police)
      && !HasRole(st, AdminRole, police)
  {
    var s1 := Register(Deploy(admin), admin, "Metro Police", 0, police, t).1;
    assert s1.organizations[0].orgType == LawEnforcement;
    assert OrgOf(s1, police) == Some(s1.organizations[0]);
  }

  /** A collection by a verified law-enforcement member appends its item and keeps the member's standing. */
  lemma CollectByMember(st: LedgerState, caller: Address, caseId: string, description: string,
                        evidenceType: string, ipfsHash: string, location: string, now: nat)
    requires HasRole(st, LawEnforcementRole, caller) && IsVerifiedMember(st, caller)
    ensures var st' := Collect(st, caller, caseId, description, evidenceType, ipfsHash, location, now).1;
      st'.evidences == st.evidences + [Evidence(|st.evidences| + 1, caseId, description, evidenceType, ipfsHash,
                                                caller, now, Collected, true, location)]
      && st'.custody == st.custody + [[CustodyRecord(|st.evidences| + 1, caller, CollectedAction, "", now,
                                                      OrgNameOf(st, caller))]]
      && st'.grants == st.grants
      && HasRole(st', LawEnforcementRole, caller) && IsVerifiedMember(st', caller)
  {
    var st' := Collect(st, caller, caseId, description, evidenceType, ipfsHash, location, now).1;
    assert st'.grants == st.grants && st'.organizations == st.organizations && st'.orgIdOf == st.orgIdOf;
    assert OrgOf(st', caller) == OrgOf(st, caller);
  }

  /** A status update by a holder of the target's role, along an allowed edge, succeeds and logs the new status. */
  lemma UpdateByHolder(st: LedgerState, caller: Address, id: nat, target: Status, notes: string, now: nat)
    requires |st.custody| == |st.evidences| && EvidenceExists(st, id) && st.evidences[id - 1].isActive
    requires UpdaterOf(target).Some? && HasRole(st, UpdaterOf(target).value, caller)
    requires AllowedEdge(st.evidences[id - 1].status, target)
    ensures var (r, st') := UpdateStatus(st, caller, id, StatusOrdinal(target), notes, now);
      r == Ok(()) && st'.evidences[id - 1].status == target
      && ChainOfCustody(st', id) ==
           ChainOfCustody(st, id) + [CustodyRecord(id, caller, StatusAction(target), notes, now, OrgNameOf(st, caller))]
  {
    assert StatusFromOrdinal(StatusOrdinal(target)) == Some(target);
  }

  lemma UnderAnalysisAction()
    ensures StatusAction(UnderAnalysis) == "Evidence Under Analysis"
  {
  }

  /** Deployment: the deployer holds the admin role (test/EvidenceManagement.test.js:17-20). */
  lemma DeployerIsAdmin(admin: Address, user: Address)
    requires admin != user
    ensures HasRole(Deploy(admin), AdminRole, admin)
    ensures !HasRole(Deploy(admin), AdminRole, user)
  {
  }

  /** Register and verify grants LAW_ENFORCEMENT_ROLE; an outsider's registration reverts (test/EvidenceManagement.test.js:24-47). */
  lemma RegisterAndVerifyScenario(admin: Address, police: Address, user: Address, t: nat)
    requires admin != police && admin != user
    ensures HasRole(PoliceVerified(admin, police, t), LawEnforcementRole, police)
    ensures Register(Deploy(admin), user, "Fake Org", 0, user, t) == (Err(Unauthorized), Deploy(admin))
  {
    PoliceVerifiedFacts(admin, police, t);
  }

  /** getAllOrganizations lists organizations in registration order (test/EvidenceManagement.test.js:49-57). */
  lemma AllOrganizationsScenario(admin: Address, police: Address, lab: Address, t: nat)
    ensures var s1 := Register(Deploy(admin), admin, "Metro Police", 0, police, t).1;
            var s2 := Register(s1, admin, "State Lab", 1, lab, t).1;
            |s2.organizations| == 2
            && s2.organizations[0].name == "Metro Police" && s2.organizations[1].name == "State Lab"
            && s2.organizations[0].id == 1 && s2.organizations[1].id == 2
  {
  }

  /** Collection by the police creates item 1 and one "Evidence Collected" entry; an outsider's reverts (test/EvidenceManagement.test.js:71-116). */
  lemma CollectScenario(admin: Address, police: Address, user: Address, t: nat)
    requires admin != police && admin != user && police != user
    ensures var st := PoliceVerified(admin, police, t);
            var (r, st') := Collect(st, police, "CASE-001", "Test evidence", "Digital", "QmTestHash", "Location", t);
            r == Ok(1)
            && |ChainOfCustody(st', 1)| == 1 && ChainOfCustody(st', 1)[0].action == "Evidence Collected"
    ensures var st := PoliceVerified(admin, police, t);
            Collect(st, user, "CASE-001", "Test evidence", "Digital", "QmTestHash", "Location", t) == (Err(Unauthorized), st)
  {
    PoliceVerifiedFacts(admin, police, t);
    var st := PoliceVerified(admin, police, t);
    assert !HasRole(st, LawEnforcementRole, user) by {
      assert st.grants == {Grant(admin, AdminRole), Grant(police, LawEnforcementRole)};
    }
  }

  /** Transfer to the verified lab appends "Evidence Transferred"; to the outsider it reverts (test/EvidenceManagement.test.js:137-157). */
  lemma TransferScenario(admin: Address, police: Address, lab: Address, court: Address, user: Address, t: nat)
    requires Signers(admin, police, lab, court, user)
    ensures var st := TwoOrgsOneItem(admin, police, lab, t);
            var (r, st') := Transfer(st, police, 1, lab, "Sending for analysis", t);
            r == Ok(())
            && |ChainOfCustody(st', 1)| == 2 && ChainOfCustody(st', 1)[1].action == "Evidence Transferred"
    ensures var st := TwoOrgsOneItem(admin, police, lab, t);
            Transfer(st, police, 1, user, "Test", t) == (Err(UnverifiedRecipient), st)
  {
    PoliceVerifiedFacts(admin, police, t);
    var s2 := PoliceVerified(admin, police, t);
    var s3 := Register(s2, admin, "State Lab", 1, lab, t).1;
    var s4 := Verify(s3, admin, 2).1;
    assert OrgOf(s4, lab).Some? && OrgOf(s4, lab).value.isVerified;
    assert OrgOf(s4, police) == OrgOf(s2, police);
    var st := TwoOrgsOneItem(admin, police, lab, t);
    assert OrgOf(st, user).None?;
  }

  /** The lab moves item 1 to Under Analysis; the last entry is "Evidence Under Analysis" (test/EvidenceManagement.test.js:162-197). */
  lemma StatusUpdateScenario(admin: Address, police: Address, lab: Address, court: Address, user: Address, t: nat)
    requires Signers(admin, police, lab, court, user)
    ensures var s4 := LabThenPolice(admin, police, lab, t);
            var s5 := Collect(s4, police, "CASE-001", "Test evidence", "Digital", "QmTestHash", "Location", t).1;
            var (r, s6) := UpdateStatus(s5, lab, 1, 1, "Starting analysis", t);
            r == Ok(())
            && StatusOrdinal(s6.evidences[0].status) == 1
            && |ChainOfCustody(s6, 1)| > 1
            && ChainOfCustody(s6, 1)[|ChainOfCustody(s6, 1)| - 1].action == "Evidence Under Analysis"
  {
    LabThenPoliceFacts(admin, police, lab, t);
    var s4 := LabThenPolice(admin, police, lab, t);
    CollectByMember(s4, police, "CASE-001", "Test evidence", "Digital", "QmTestHash", "Location", t);
    var s5 := Collect(s4, police, "CASE-001", "Test evidence", "Digital", "QmTestHash", "Location", t).1;
    assert |ChainOfCustody(s5, 1)| == 1 && s5.evidences[0].status == Collected;
    UpdateByHolder(s5, lab, 1, UnderAnalysis, "Starting analysis", t);
    UnderAnalysisAction();
  }

  /** verifyEvidenceIntegrity: true for the stored hash, false for another (test/EvidenceManagement.test.js:214-228). */
  lemma IntegrityScenario(admin: Address, police: Address, t: nat)
    requires admin != police
    ensures VerifyIntegrity(OneItemCollected(admin, police, t), 1, "QmTestHash123") == Ok(true)
    ensures VerifyIntegrity(OneItemCollected(admin, police, t), 1, "QmWrongHash") == Ok(false)
  {
    PoliceVerifiedFacts(admin, police, t);
  }

  /** The admin destroys item 1 (inactive, status 5); the outsider cannot (test/EvidenceManagement.test.js:245-257). */
  lemma DestroyScenario(admin: Address, police: Address, user: Address, t: nat)
    requires admin != police && admin != user
    ensures var st := OneItemCollected(admin, police, t);
            var (r, st') := Destroy(st, admin, 1, "Court order", t);
            r == Ok(()) && !st'.evidences[0].isActive && StatusOrdinal(st'.evidences[0].status) == 5
    ensures var st := OneItemCollected(admin, police, t);
            Destroy(st, user, 1, "Test", t) == (Err(Unauthorized), st)
  {
    PoliceVerifiedFacts(admin, police, t);
  }

  /** Two items of CASE-001 and one of CASE-002: the query returns the two; CASE-999 returns none (test/EvidenceManagement.test.js:262-301). */
  lemma CaseRetrievalScenario(admin: Address, police: Address, t: nat)
    requires admin != police
    ensures var s := PoliceVerified(admin, police, t);
            var s1 := Collect(s, police, "CASE-001", "Evidence 1", "Digital", "QmHash1", "Location 1", t).1;
            var s2 := Collect(s1, police, "CASE-001", "Evidence 2", "Physical", "QmHash2", "Location 2", t).1;
            var s3 := Collect(s2, police, "CASE-002", "Evidence 3", "Digital", "QmHash3", "Location 3", t).1;
            |EvidenceByCase(s3.evidences, "CASE-001")| == 2
            && EvidenceByCase(s3.evidences, "CASE-001")[0].caseId == "CASE-001"
            && EvidenceByCase(s3.evidences, "CASE-001")[1].caseId == "CASE-001"
            && EvidenceByCase(s3.evidences, "CASE-999") == []
  {
    PoliceVerifiedFacts(admin, police, t);
    var s := PoliceVerified(admin, police, t);
    CollectByMember(s, police, "CASE-001", "Evidence 1", "Digital", "QmHash1", "Location 1", t);
    var s1 := Collect(s, police, "CASE-001", "Evidence 1", "Digital", "QmHash1", "Location 1", t).1;
    CollectByMember(s1, police, "CASE-001", "Evidence 2", "Physical", "QmHash2", "Location 2", t);
    var s2 := Collect(s1, police, "CASE-001", "Evidence 2", "Physical", "QmHash2", "Location 2", t).1;
    CollectByMember(s2, police, "CASE-002", "Evidence 3", "Digital", "QmHash3", "Location 3", t);
    var s3 := Collect(s2, police, "CASE-002", "Evidence 3", "Digital", "QmHash3", "Location 3", t).1;
    assert s3.evidences[..2] == s2.evidences && s2.evidences[..1] == s1.evidences && s1.evidences[..0] == [];
    assert "CASE-002" != "CASE-001" && "CASE-001" != "CASE-999" && "CASE-002" != "CASE-999";
    assert EvidenceByCase(s1.evidences, "CASE-001") == s1.evidences;
    assert EvidenceByCase(s2.evidences, "CASE-001") == s2.evidences;
    assert EvidenceByCase(s3.evidences, "CASE-001") == s2.evidences;
    assert EvidenceByCase(s1.evidences, "CASE-999") == [];
    assert EvidenceByCase(s2.evidences, "CASE-999") == [];
  }

  /** The evidence count goes 0, 1, 2; the organization count goes 0, 1, 2 (test/EvidenceManagement.test.js:305-332). */
  lemma CountsScenario(admin: Address, police: Address, lab: Address, t: nat)
    requires admin != police
    ensures var s := PoliceVerified(admin, police, t);
            var s1 := Collect(s, police, "CASE-001", "Evidence 1", "Digital", "QmHash1", "Location 1", t).1;
            var s2 := Collect(s1, police, "CASE-002", "Evidence 2", "Digital", "QmHash2", "Location 2", t).1;
            |s.evidences| == 0 && |s1.evidences| == 1 && |s2.evidences| == 2
    ensures var o1 := Register(Deploy(admin), admin, "Org 1", 0, police, t).1;
            var o2 := Register(o1, admin, "Org 2", 1, lab, t).1;
            |Deploy(admin).organizations| == 0 && |o1.organizations| == 1 && |o2.organizations| == 2
  {
    PoliceVerifiedFacts(admin, police, t);
  }
}
