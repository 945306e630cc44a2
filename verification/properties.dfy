/**
 * Properties of the evidence ledger state machine: every operation keeps the
 * ledger invariant, the ledger only ever grows (ids are never reused, custody
 * logs are append-only, statuses only move forward, destroyed evidence is
 * frozen), each custody log counts exactly the mutations applied to its item,
 * and the effects each scenario of the contract's test suite asserts.
 */
module LedgerProperties {
  import opened EvidenceLedger

  /** One transaction sent to the ledger. */
  datatype Op =
    | RegisterOp(caller: Address, name: string, orgType: nat, wallet: Address, now: nat)
    | VerifyOp(caller: Address, orgId: nat)
    | CollectOp(caller: Address, caseId: string, description: string, evidenceType: string,
                ipfsHash: string, location: string, now: nat)
    | TransferOp(caller: Address, evidenceId: nat, to: Address, notes: string, now: nat)
    | UpdateStatusOp(caller: Address, evidenceId: nat, newStatus: nat, notes: string, now: nat)
    | DestroyOp(caller: Address, evidenceId: nat, reason: string, now: nat)

  /** Whether `op` succeeds in `st`, and the state after it (unchanged when it reverts). */
  function Apply(st: LedgerState, op: Op): (out: (bool, LedgerState))
    requires |st.custody| == |st.evidences|
    ensures |out.1.custody| == |out.1.evidences|
  {
    match op
    case RegisterOp(c, n, t, w, now) => var (r, s) := Register(st, c, n, t, w, now); (r.Ok?, s)
    case VerifyOp(c, id) => var (r, s) := Verify(st, c, id); (r.Ok?, s)
    case CollectOp(c, k, d, t, h, l, now) => var (r, s) := Collect(st, c, k, d, t, h, l, now); (r.Ok?, s)
    case TransferOp(c, id, to, n, now) => var (r, s) := Transfer(st, c, id, to, n, now); (r.Ok?, s)
    case UpdateStatusOp(c, id, ns, n, now) => var (r, s) := UpdateStatus(st, c, id, ns, n, now); (r.Ok?, s)
    case DestroyOp(c, id, n, now) => var (r, s) := Destroy(st, c, id, n, now); (r.Ok?, s)
  }

  /** The state after applying `ops` in order. */
  function Run(st: LedgerState, ops: seq<Op>): (st': LedgerState)
    requires |st.custody| == |st.evidences|
    ensures |st'.custody| == |st'.evidences|
    decreases |ops|
  {
    if ops == [] then st else Run(Apply(st, ops[0]).1, ops[1..])
  }

  /** The evidence id whose custody log `op` writes to when it succeeds in `st`. */
  function Target(st: LedgerState, op: Op): Option<nat>
  {
    match op
    case CollectOp(_, _, _, _, _, _, _) => Some(|st.evidences| + 1)
    case TransferOp(_, id, _, _, _) => Some(id)
    case UpdateStatusOp(_, id, _, _, _) => Some(id)
    case DestroyOp(_, id, _, _) => Some(id)
    case _ => None
  }

  /** The number of operations of `ops`, run from `st`, that succeed and write to the log of `id`. */
  function Mutations(st: LedgerState, ops: seq<Op>, id: nat): nat
    requires |st.custody| == |st.evidences|
    decreases |ops|
  {
    if ops == [] then 0
    else
      var (ok, next) := Apply(st, ops[0]);
      (if ok && Target(st, ops[0]) == Some(id) then 1 else 0) + Mutations(next, ops[1..], id)
  }

  // ---------------------------------------------------------------- growth

  /** `o'` is `o` after some steps: only the verified flag may change, and only to true. */
  ghost predicate OrgGrows(o: Organization, o': Organization)
  {
    o' == o.(isVerified := o'.isVerified) && (o.isVerified ==> o'.isVerified)
  }

  /**
   * `e'` is `e` after some steps: identity, case, content hash, collector,
   * collection time and location never change; the status ordinal never goes
   * down; an inactive item never changes again.
   */
  ghost predicate EvidenceGrows(e: Evidence, e': Evidence)
  {
    e' == e.(status := e'.status, isActive := e'.isActive)
    && StatusOrdinal(e.status) <= StatusOrdinal(e'.status)
    && (!e.isActive ==> e' == e)
  }

  /** Everything `st` recorded is still in `st'`; logs only grow, and only for active items. */
  ghost predicate Grows(st: LedgerState, st': LedgerState)
  {
    st'.admin == st.admin
    && st.grants <= st'.grants
    && |st.organizations| <= |st'.organizations|
    && (forall i :: 0 <= i < |st.organizations| ==> OrgGrows(st.organizations[i], st'.organizations[i]))
    && |st.evidences| <= |st'.evidences|
    && (forall i :: 0 <= i < |st.evidences| ==> EvidenceGrows(st.evidences[i], st'.evidences[i]))
    && |st.custody| <= |st'.custody|
    && (forall i :: 0 <= i < |st.custody| ==> st.custody[i] <= st'.custody[i])
    && (forall i :: 0 <= i < |st.custody| && i < |st.evidences| && !st.evidences[i].isActive ==>
          st'.custody[i] == st.custody[i])
  }

  lemma GrowsTransitive(a: LedgerState, b: LedgerState, c: LedgerState)
    requires Grows(a, b) && Grows(b, c)
    ensures Grows(a, c)
  {
    forall i | 0 <= i < |a.custody| && i < |a.evidences| && !a.evidences[i].isActive
      ensures c.custody[i] == a.custody[i]
    {
      assert b.evidences[i] == a.evidences[i];
    }
  }

  /** Registering appends an unverified organization and grants nothing. */
  lemma {:induction false} VouchedKept(orgs: seq<Organization>, orgs': seq<Organization>, g: Grant)
    requires |orgs| <= |orgs'|
    requires forall i :: 0 <= i < |orgs| ==> OrgGrows(orgs[i], orgs'[i])
    requires Vouched(orgs, g)
    ensures Vouched(orgs', g)
  {
    var i :| 0 <= i < |orgs| && orgs[i].isVerified && orgs[i].walletAddress == g.who
             && RoleFor(orgs[i].orgType) == g.role;
    assert OrgGrows(orgs[i], orgs'[i]);
  }

  /** Appending one entry about item k+1 to its log keeps every log well formed and only extends log k. */
  lemma AppendKeepsLogs(logs: seq<seq<CustodyRecord>>, logs': seq<seq<CustodyRecord>>, k: nat, entry: CustodyRecord)
    requires k < |logs| && entry.evidenceId == k + 1 && logs' == logs[k := logs[k] + [entry]]
    requires forall i :: 0 <= i < |logs| ==> WellFormedLog(logs[i], i + 1)
    ensures forall i :: 0 <= i < |logs'| ==> WellFormedLog(logs'[i], i + 1) && logs[i] <= logs'[i]
  {
    forall i | 0 <= i < |logs'| ensures WellFormedLog(logs'[i], i + 1) && logs[i] <= logs'[i] {
      assert WellFormedLog(logs[i], i + 1);
      if i == k {
        assert logs'[i][0] == logs[i][0];
      }
    }
  }

  /**
   * A step that rewrites active item k in place, as a status change may, and
   * appends one entry about it to its log keeps the invariant and only grows
   * the ledger.
   */
  lemma ItemStepKeepsValid(st: LedgerState, k: nat, e: Evidence, entry: CustodyRecord)
    requires Valid(st) && k < |st.evidences| && st.evidences[k].isActive
    requires EvidenceGrows(st.evidences[k], e) && (e.isActive <==> e.status != Destroyed)
    requires entry.evidenceId == k + 1
    ensures var st' := st.(evidences := st.evidences[k := e], custody := st.custody[k := st.custody[k] + [entry]]);
      Valid(st') && Grows(st, st')
  {
    var st' := st.(evidences := st.evidences[k := e], custody := st.custody[k := st.custody[k] + [entry]]);
    AppendKeepsLogs(st.custody, st'.custody, k, entry);
    assert Valid(st');
  }

  lemma GrowsReflexive(st: LedgerState)
    ensures Grows(st, st)
  {
  }

  /** Appending a fresh active item with a one-entry log opened by the collection entry keeps the invariant. */
  lemma NewItemKeepsValid(st: LedgerState, e: Evidence, entry: CustodyRecord)
    requires Valid(st) && e.id == |st.evidences| + 1 && e.isActive && e.status == Collected
    requires entry.evidenceId == e.id && entry.action == CollectedAction
    ensures var st' := st.(evidences := st.evidences + [e], custody := st.custody + [[entry]]);
      Valid(st') && Grows(st, st')
  {
    var st' := st.(evidences := st.evidences + [e], custody := st.custody + [[entry]]);
    assert forall i :: 0 <= i < |st.custody| ==> st'.custody[i] == st.custody[i];
    assert WellFormedLog(st'.custody[|st.custody|], |st.custody| + 1);
  }

  // ---------------------------------------------------------------- the invariant

  /** Deployment: the deployer, and only the deployer, is admin; the invariant holds. */
  lemma DeployValid(deployer: Address)
    ensures Valid(Deploy(deployer))
    ensures forall a :: HasRole(Deploy(deployer), AdminRole, a) <==> a == deployer
    ensures |Deploy(deployer).organizations| == 0 && |Deploy(deployer).evidences| == 0
  {
  }

  lemma RegisterPreservesValid(st: LedgerState, caller: Address, name: string, orgType: nat, wallet: Address, now: nat)
    requires Valid(st)
    ensures Valid(Register(st, caller, name, orgType, wallet, now).1)
    ensures Grows(st, Register(st, caller, name, orgType, wallet, now).1)
  {
    var st' := Register(st, caller, name, orgType, wallet, now).1;
    if st' != st {
      forall g | g in st'.grants && g.role != AdminRole ensures Vouched(st'.organizations, g) {
        VouchedKept(st.organizations, st'.organizations, g);
      }
    } else {
      GrowsReflexive(st);
    }
  }

  lemma VerifyPreservesValid(st: LedgerState, caller: Address, orgId: nat)
    requires Valid(st)
    ensures Valid(Verify(st, caller, orgId).1)
    ensures Grows(st, Verify(st, caller, orgId).1)
  {
    var (r, st') := Verify(st, caller, orgId);
    if r.Ok? {
      var k := orgId - 1;
      var org := st.organizations[k];
      forall g | g in st'.grants && g.role != AdminRole ensures Vouched(st'.organizations, g) {
        if g == Grant(org.walletAddress, RoleFor(org.orgType)) {
          assert st'.organizations[k].isVerified;
        } else {
          VouchedKept(st.organizations, st'.organizations, g);
        }
      }
    } else {
      GrowsReflexive(st);
    }
  }

  lemma CollectPreservesValid(st: LedgerState, caller: Address, caseId: string, description: string,
                              evidenceType: string, ipfsHash: string, location: string, now: nat)
    requires Valid(st)
    ensures Valid(Collect(st, caller, caseId, description, evidenceType, ipfsHash, location, now).1)
    ensures Grows(st, Collect(st, caller, caseId, description, evidenceType, ipfsHash, location, now).1)
  {
    var (r, st') := Collect(st, caller, caseId, description, evidenceType, ipfsHash, location, now);
    if r.Ok? {
      NewItemKeepsValid(st, st'.evidences[|st.evidences|], st'.custody[|st.custody|][0]);
    } else {
      GrowsReflexive(st);
    }
  }

  lemma TransferPreservesValid(st: LedgerState, caller: Address, id: nat, to: Address, notes: string, now: nat)
    requires Valid(st)
    ensures Valid(Transfer(st, caller, id, to, notes, now).1)
    ensures Grows(st, Transfer(st, caller, id, to, notes, now).1)
  {
    var (r, st') := Transfer(st, caller, id, to, notes, now);
    if r.Ok? {
      var k := id - 1;
      assert st.evidences[k := st.evidences[k]] == st.evidences;
      ItemStepKeepsValid(st, k, st.evidences[k], st'.custody[k][|st.custody[k]|]);
    } else {
      GrowsReflexive(st);
    }
  }

  lemma UpdateStatusPreservesValid(st: LedgerState, caller: Address, id: nat, newStatus: nat, notes: string, now: nat)
    requires Valid(st)
    ensures Valid(UpdateStatus(st, caller, id, newStatus, notes, now).1)
    ensures Grows(st, UpdateStatus(st, caller, id, newStatus, notes, now).1)
  {
    var (r, st') := UpdateStatus(st, caller, id, newStatus, notes, now);
    if r.Ok? {
      var k := id - 1;
      var target := StatusFromOrdinal(newStatus).value;
      assert target != Destroyed;
      ItemStepKeepsValid(st, k, st.evidences[k].(status := target), st'.custody[k][|st.custody[k]|]);
    } else {
      GrowsReflexive(st);
    }
  }

  lemma DestroyPreservesValid(st: LedgerState, caller: Address, id: nat, reason: string, now: nat)
    requires Valid(st)
    ensures Valid(Destroy(st, caller, id, reason, now).1)
    ensures Grows(st, Destroy(st, caller, id, reason, now).1)
  {
    var (r, st') := Destroy(st, caller, id, reason, now);
    if r.Ok? {
      var k := id - 1;
      ItemStepKeepsValid(st, k, st.evidences[k].(status := Destroyed, isActive := false), st'.custody[k][|st.custody[k]|]);
    } else {
      GrowsReflexive(st);
    }
  }

  lemma ApplyPreservesValid(st: LedgerState, op: Op)
    requires Valid(st)
    ensures Valid(Apply(st, op).1)
    ensures Grows(st, Apply(st, op).1)
  {
    match op
    case RegisterOp(c, n, t, w, now) => RegisterPreservesValid(st, c, n, t, w, now);
    case VerifyOp(c, id) => VerifyPreservesValid(st, c, id);
    case CollectOp(c, k, d, t, h, l, now) => CollectPreservesValid(st, c, k, d, t, h, l, now);
    case TransferOp(c, id, to, n, now) => TransferPreservesValid(st, c, id, to, n, now);
    case UpdateStatusOp(c, id, ns, n, now) => UpdateStatusPreservesValid(st, c, id, ns, n, now);
    case DestroyOp(c, id, n, now) => DestroyPreservesValid(st, c, id, n, now);
  }

  /**
   * Any sequence of transactions keeps the invariant, and the ledger only
   * grows: ids are never reused, logs are append-only, statuses never move
   * back, verification and role grants are never withdrawn, and a destroyed
   * item and its log never change again.
   */
  lemma {:induction false} RunPreservesValid(st: LedgerState, ops: seq<Op>)
    requires Valid(st)
    ensures Valid(Run(st, ops))
    ensures Grows(st, Run(st, ops))
    decreases |ops|
  {
    if ops != [] {
      var next := Apply(st, ops[0]).1;
      ApplyPreservesValid(st, ops[0]);
      RunPreservesValid(next, ops[1..]);
      GrowsTransitive(st, next, Run(next, ops[1..]));
    }
  }

  // ---------------------------------------------------------------- custody counts

  /** One transaction writes exactly one entry, to the log of its target, when it succeeds, and none otherwise. */
  lemma ApplyCustodyDelta(st: LedgerState, op: Op, id: nat)
    requires |st.custody| == |st.evidences|
    ensures |ChainOfCustody(Apply(st, op).1, id)| ==
            |ChainOfCustody(st, id)| + (if Apply(st, op).0 && Target(st, op) == Some(id) then 1 else 0)
  {
  }

  /**
   * The length of the custody log of `id` grows by exactly the number of
   * successful transactions aimed at `id`.
   */
  lemma {:induction false} RunCustodyCount(st: LedgerState, ops: seq<Op>, id: nat)
    requires |st.custody| == |st.evidences|
    ensures |ChainOfCustody(Run(st, ops), id)| == |ChainOfCustody(st, id)| + Mutations(st, ops, id)
    decreases |ops|
  {
    if ops != [] {
      var next := Apply(st, ops[0]).1;
      ApplyCustodyDelta(st, ops[0], id);
      RunCustodyCount(next, ops[1..], id);
    }
  }

  /** From deployment on, each item's log holds one entry per mutation applied to it, opened by its collection. */
  lemma CustodyLogCountsMutations(deployer: Address, ops: seq<Op>, id: nat)
    ensures |ChainOfCustody(Run(Deploy(deployer), ops), id)| == Mutations(Deploy(deployer), ops, id)
    ensures 1 <= id <= |Run(Deploy(deployer), ops).evidences| ==>
              |ChainOfCustody(Run(Deploy(deployer), ops), id)| >= 1 &&
              ChainOfCustody(Run(Deploy(deployer), ops), id)[0].action == CollectedAction
  {
    DeployValid(deployer);
    RunCustodyCount(Deploy(deployer), ops, id);
    RunPreservesValid(Deploy(deployer), ops);
    var st := Run(Deploy(deployer), ops);
    if 1 <= id <= |st.evidences| {
      assert WellFormedLog(st.custody[id - 1], id);
    }
  }
}
