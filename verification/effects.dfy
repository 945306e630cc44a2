/**
 * What each ledger operation does, for every state and every caller: when it
 * succeeds, what it reverts with otherwise, what it writes to the custody
 * log, and what the read queries return.
 */
module LedgerEffects {
  import opened EvidenceLedger

  /**
   * Only the admin registers; a new organization gets the next id, unverified,
   * at the end of the table. An undecodable type is rejected before the role check.
   */
  lemma RegisterEffect(st: LedgerState, caller: Address, name: string, orgType: nat, wallet: Address, now: nat)
    ensures var (r, st') := Register(st, caller, name, orgType, wallet, now);
      (r.Ok? <==> HasRole(st, AdminRole, caller) && orgType < 3)
      && (orgType >= 3 ==> r == Err(InvalidArgument))
      && (orgType < 3 && !HasRole(st, AdminRole, caller) ==> r == Err(Unauthorized))
      && (r.Err? ==> st' == st)
      && (r.Ok? ==>
            r.value == |st.organizations| + 1
            && |st'.organizations| == |st.organizations| + 1
            && st'.organizations[..|st.organizations|] == st.organizations
            && (var org := st'.organizations[|st.organizations|];
                org.id == r.value && org.name == name && org.walletAddress == wallet
                && OrgTypeOrdinal(org.orgType) == orgType && !org.isVerified && org.registeredAt == now
                && OrgOf(st', wallet) == Some(org))
            && st'.grants == st.grants && st'.evidences == st.evidences && st'.custody == st.custody)
  {
  }

  /**
   * Verifying marks the organization verified and grants its bound address
   * the role of its type. A non-admin caller is Unauthorized; an admin naming
   * an id that was never registered gets NotFound. The address index is kept.
   */
  lemma VerifyEffect(st: LedgerState, caller: Address, orgId: nat)
    ensures var (r, st') := Verify(st, caller, orgId);
      (r.Ok? <==> HasRole(st, AdminRole, caller) && 1 <= orgId <= |st.organizations|)
      && (!HasRole(st, AdminRole, caller) ==> r == Err(Unauthorized))
      && (HasRole(st, AdminRole, caller) && !(1 <= orgId <= |st.organizations|) ==> r == Err(NotFound))
      && (r.Err? ==> st' == st)
      && st'.orgIdOf == st.orgIdOf
      && (r.Ok? ==>
            var org := st.organizations[orgId - 1];
            st'.organizations == st.organizations[orgId - 1 := org.(isVerified := true)]
            && st'.grants == st.grants + {Grant(org.walletAddress, RoleFor(org.orgType))}
            && HasRole(st', RoleFor(org.orgType), org.walletAddress)
            && st'.evidences == st.evidences && st'.custody == st.custody)
  {
  }

  /**
   * Collection needs the law-enforcement role and a verified organization;
   * it adds exactly one item, active and Collected, whose log is the single
   * entry "Evidence Collected". A refused collection adds nothing.
   */
  lemma CollectEffect(st: LedgerState, caller: Address, caseId: string, description: string,
                      evidenceType: string, ipfsHash: string, location: string, now: nat)
    requires |st.custody| == |st.evidences|
    ensures var (r, st') := Collect(st, caller, caseId, description, evidenceType, ipfsHash, location, now);
      (r.Ok? <==> HasRole(st, LawEnforcementRole, caller) && IsVerifiedMember(st, caller))
      && (r.Err? ==> r.error == Unauthorized && st' == st)
      && st'.orgIdOf == st.orgIdOf
      && (r.Ok? ==>
            r.value == |st.evidences| + 1
            && |st'.evidences| == |st.evidences| + 1
            && st'.evidences[..|st.evidences|] == st.evidences
            && (var ev := st'.evidences[r.value - 1];
                ev.id == r.value && ev.caseId == caseId && ev.description == description
                && ev.evidenceType == evidenceType && ev.ipfsHash == ipfsHash
                && ev.collectedBy == caller && ev.collectedAt == now
                && ev.status == Collected && ev.isActive && ev.location == location)
            && |ChainOfCustody(st', r.value)| == 1
            && ChainOfCustody(st', r.value)[0].action == "Evidence Collected"
            && ChainOfCustody(st', r.value)[0].handler == caller
            && (forall id :: id != r.value ==> ChainOfCustody(st', id) == ChainOfCustody(st, id)))
  {
  }

  /**
   * A transfer leaves the item (and its status) unchanged and appends exactly
   * one entry, "Evidence Transferred", handled by the caller, to that item's
   * log only. It reverts, changing nothing, with Unauthorized for a caller
   * without the law-enforcement role, NotFound for an unknown id,
   * InvalidTransition for an inactive (destroyed) item, and
   * UnverifiedRecipient for an address without a verified organization.
   */
  lemma TransferEffect(st: LedgerState, caller: Address, id: nat, to: Address, notes: string, now: nat)
    requires |st.custody| == |st.evidences|
    ensures var (r, st') := Transfer(st, caller, id, to, notes, now);
      (r.Ok? <==> HasRole(st, LawEnforcementRole, caller) && EvidenceExists(st, id)
                  && st.evidences[id - 1].isActive && IsVerifiedMember(st, to))
      && (r.Err? ==> st' == st)
      && (!HasRole(st, LawEnforcementRole, caller) ==> r == Err(Unauthorized))
      && (HasRole(st, LawEnforcementRole, caller) && !EvidenceExists(st, id) ==> r == Err(NotFound))
      && ((HasRole(st, LawEnforcementRole, caller) && EvidenceExists(st, id) && !st.evidences[id - 1].isActive)
            ==> r == Err(InvalidTransition))
      && ((HasRole(st, LawEnforcementRole, caller) && EvidenceExists(st, id) && st.evidences[id - 1].isActive
           && !IsVerifiedMember(st, to)) ==> r == Err(UnverifiedRecipient))
      && st'.evidences == st.evidences && st'.orgIdOf == st.orgIdOf
      && (r.Ok? ==>
            ChainOfCustody(st', id)
              == ChainOfCustody(st, id) + [CustodyRecord(id, caller, "Evidence Transferred", notes, now, OrgNameOf(st, caller))]
            && (forall k :: k != id ==> ChainOfCustody(st', k) == ChainOfCustody(st, k)))
  {
  }

  /**
   * A status update moves an active item one step along the lifecycle, by the
   * role that owns the target status, and appends one entry naming the new
   * status. Once the item exists, every refusal (inactive evidence, a caller
   * whose role may not set that status, a step that is not an edge) reverts
   * with InvalidTransition and changes nothing.
   */
  lemma UpdateStatusEffect(st: LedgerState, caller: Address, id: nat, newStatus: nat, notes: string, now: nat)
    requires |st.custody| == |st.evidences|
    ensures var (r, st') := UpdateStatus(st, caller, id, newStatus, notes, now);
      (r.Ok? <==> newStatus < 6 && EvidenceExists(st, id) && st.evidences[id - 1].isActive
                  && var target := StatusFromOrdinal(newStatus).value;
                     UpdaterOf(target).Some? && HasRole(st, UpdaterOf(target).value, caller)
                     && AllowedEdge(st.evidences[id - 1].status, target))
      && (r.Err? ==> st' == st)
      && (newStatus >= 6 ==> r == Err(InvalidArgument))
      && (newStatus < 6 && !EvidenceExists(st, id) ==> r == Err(NotFound))
      && (newStatus < 6 && EvidenceExists(st, id) && r.Err? ==> r == Err(InvalidTransition))
      && (r.Ok? ==>
            var target := StatusFromOrdinal(newStatus).value;
            StatusOrdinal(target) == newStatus
            && st'.evidences == st.evidences[id - 1 := st.evidences[id - 1].(status := target)]
            && StatusOrdinal(st'.evidences[id - 1].status) == StatusOrdinal(st.evidences[id - 1].status) + 1
            && ChainOfCustody(st', id) == ChainOfCustody(st, id) + [ChainOfCustody(st', id)[|ChainOfCustody(st, id)|]]
            && ChainOfCustody(st', id)[|ChainOfCustody(st, id)|].action == StatusAction(target)
            && (forall k :: k != id ==> ChainOfCustody(st', k) == ChainOfCustody(st, k)))
  {
  }

  /**
   * Only the admin destroys; the one active item named becomes inactive with
   * status Destroyed, every other item is untouched, and one "Evidence
   * Destroyed" entry carrying the reason is appended to its log only. It
   * reverts, changing nothing, with Unauthorized for a non-admin caller,
   * NotFound for an unknown id and InvalidTransition for an item already
   * destroyed.
   */
  lemma DestroyEffect(st: LedgerState, caller: Address, id: nat, reason: string, now: nat)
    requires |st.custody| == |st.evidences|
    ensures var (r, st') := Destroy(st, caller, id, reason, now);
      (r.Ok? <==> HasRole(st, AdminRole, caller) && EvidenceExists(st, id) && st.evidences[id - 1].isActive)
      && (!HasRole(st, AdminRole, caller) ==> r == Err(Unauthorized))
      && (HasRole(st, AdminRole, caller) && !EvidenceExists(st, id) ==> r == Err(NotFound))
      && ((HasRole(st, AdminRole, caller) && EvidenceExists(st, id) && !st.evidences[id - 1].isActive)
            ==> r == Err(InvalidTransition))
      && (r.Err? ==> st' == st)
      && st'.orgIdOf == st.orgIdOf
      && (r.Ok? ==>
            st'.evidences == st.evidences[id - 1 := st.evidences[id - 1].(status := Destroyed, isActive := false)]
            && ChainOfCustody(st', id)
                 == ChainOfCustody(st, id) + [CustodyRecord(id, caller, "Evidence Destroyed", reason, now, OrgNameOf(st, caller))]
            && (forall k :: k != id ==> ChainOfCustody(st', k) == ChainOfCustody(st, k)))
  {
  }

  /** Integrity holds exactly when the candidate equals the stored content hash; an unknown id is NotFound. */
  lemma IntegrityIff(st: LedgerState, id: nat, candidate: string)
    ensures VerifyIntegrity(st, id, candidate).Err? <==> !EvidenceExists(st, id)
    ensures VerifyIntegrity(st, id, candidate).Err? ==> VerifyIntegrity(st, id, candidate).error == NotFound
    ensures EvidenceExists(st, id) ==>
              (VerifyIntegrity(st, id, candidate) == Ok(true) <==> st.evidences[id - 1].ipfsHash == candidate)
  {
  }

  /** getEvidenceByCase returns exactly the items of that case. */
  lemma {:induction false} ByCaseMembers(evs: seq<Evidence>, caseId: string)
    ensures forall e :: e in EvidenceByCase(evs, caseId) <==> e in evs && e.caseId == caseId
  {
    if |evs| > 0 {
      ByCaseMembers(evs[..|evs| - 1], caseId);
      assert evs == evs[..|evs| - 1] + [evs[|evs| - 1]];
    }
  }

  /** Ids strictly increase along `evs`. */
  ghost predicate IdsIncreasing(evs: seq<Evidence>)
  {
    forall i, j :: 0 <= i < j < |evs| ==> evs[i].id < evs[j].id
  }

  /** getEvidenceByCase keeps creation order: its ids strictly increase. */
  lemma {:induction false} ByCaseInOrder(evs: seq<Evidence>, caseId: string)
    requires IdsIncreasing(evs)
    ensures IdsIncreasing(EvidenceByCase(evs, caseId))
  {
    if |evs| > 0 {
      var init := evs[..|evs| - 1];
      ByCaseInOrder(init, caseId);
      ByCaseMembers(init, caseId);
      var r := EvidenceByCase(evs, caseId);
      var r0 := EvidenceByCase(init, caseId);
      forall i, j | 0 <= i < j < |r| ensures r[i].id < r[j].id {
        if j == |r0| {
          assert r[i] in init;
        } else {
          assert r[i] == r0[i] && r[j] == r0[j];
        }
      }
    }
  }

  /** A case with no items gives an empty answer, never an error. */
  lemma ByCaseUnknown(evs: seq<Evidence>, caseId: string)
    requires forall e :: e in evs ==> e.caseId != caseId
    ensures EvidenceByCase(evs, caseId) == []
  {
    ByCaseMembers(evs, caseId);
    if EvidenceByCase(evs, caseId) != [] {
      assert EvidenceByCase(evs, caseId)[0] in EvidenceByCase(evs, caseId);
    }
  }

  /** The ledger's evidence table is in id order, so the query answers in creation order. */
  lemma ByCaseOfLedger(st: LedgerState, caseId: string)
    requires Valid(st)
    ensures IdsIncreasing(EvidenceByCase(st.evidences, caseId))
    ensures forall e :: e in EvidenceByCase(st.evidences, caseId) <==> e in st.evidences && e.caseId == caseId
  {
    ByCaseInOrder(st.evidences, caseId);
    ByCaseMembers(st.evidences, caseId);
  }

  /**
   * The lifecycle: the forensic lab moves Collected -> Under Analysis ->
   * Analyzed, the court moves Analyzed -> In Court -> Archived, nothing else
   * is an update edge, and no edge leaves Archived or Destroyed.
   */
  lemma LifecycleEdges(from: Status, to: Status)
    ensures AllowedEdge(from, to) && UpdaterOf(to) == Some(ForensicLabRole) <==>
              (from, to) == (Collected, UnderAnalysis) || (from, to) == (UnderAnalysis, Analyzed)
    ensures AllowedEdge(from, to) && UpdaterOf(to) == Some(CourtRole) <==>
              (from, to) == (Analyzed, InCourt) || (from, to) == (InCourt, Archived)
    ensures AllowedEdge(from, to) ==> StatusOrdinal(from) < StatusOrdinal(to) && from != Archived && from != Destroyed
  {
  }
}
