/**
 Two-step control of the TipJar over whole runs: the admin role, the fee
 collector role and the code upgrade.

 All three follow one protocol: a proposal is stored, and later either carried
 out or dropped. The protocol is studied once on its history of events; each of
 the three then adds who may propose, who may carry out, and when.
 */
module TipJarGovernance {
  import opened Host
  import opened TipJar

  // ------------------------------------------------------------------ the protocol

  /** `bound` is the ledger a proposal is stored with: an expiry, or an unlock. */
  datatype Event<T> =
    | Proposed(item: T, bound: nat)
    | CarriedOut(item: T)
    | Dropped
    | Nothing

  datatype Stored<T> = Stored(item: T, bound: nat)

  function After<T>(s: Option<Stored<T>>, e: Event<T>): Option<Stored<T>> {
    match e
    case Proposed(item, bound) => Some(Stored(item, bound))
    case CarriedOut(_) => None
    case Dropped => None
    case Nothing => s
  }

  /** What the contract checks before an event: one proposal at a time, and only the stored one is carried out. */
  predicate Legal<T(==)>(s: Option<Stored<T>>, e: Event<T>) {
    && (e.Proposed? ==> s.None?)
    && (e.CarriedOut? ==> s.Some? && s.value.item == e.item)
    && (e.Dropped? ==> s.Some?)
  }

  /** Before point `i`, the proposal made at `j` is the open one: nothing happened since. */
  ghost predicate Open<T>(es: seq<Event<T>>, i: int, j: int) {
    0 <= j < i <= |es| && es[j].Proposed? && forall m :: j < m < i ==> es[m].Nothing?
  }

  ghost predicate Explained<T>(s: Option<Stored<T>>, es: seq<Event<T>>, i: int) {
    match s
    case None => forall j :: !Open(es, i, j)
    case Some(p) => exists j :: Open(es, i, j) && p == Stored(es[j].item, es[j].bound)
  }

  ghost predicate Follows<T>(ss: seq<Option<Stored<T>>>, es: seq<Event<T>>) {
    && |ss| == |es| + 1 && ss[0].None?
    && forall i :: 0 <= i < |es| ==> ss[i + 1] == After(ss[i], es[i]) && Legal(ss[i], es[i])
  }

  lemma ExplainedStep<T>(s: Option<Stored<T>>, es: seq<Event<T>>, i: nat)
    requires i < |es| && Explained(s, es, i) && Legal(s, es[i])
    ensures Explained(After(s, es[i]), es, i + 1)
  {
    var n := i + 1;
    match es[i]
    case Proposed(_, _) =>
      assert Open(es, n, i);
    case Nothing =>
      forall j | Open(es, n, j) ensures Open(es, i, j) {
      }
      if s.Some? {
        var j :| Open(es, i, j) && s.value == Stored(es[j].item, es[j].bound);
        assert Open(es, n, j);
      }
    case _ =>
  }

  lemma {:induction false} StoredExplained<T>(ss: seq<Option<Stored<T>>>, es: seq<Event<T>>, i: nat)
    requires Follows(ss, es) && i <= |es|
    ensures Explained(ss[i], es, i)
  {
    if i > 0 {
      StoredExplained(ss, es, i - 1);
      ExplainedStep(ss[i - 1], es, i - 1);
    }
  }

  /** Whatever is carried out was proposed, and nothing happened to the proposal in between. */
  lemma CarriedOutWasOpen<T>(ss: seq<Option<Stored<T>>>, es: seq<Event<T>>, i: nat) returns (j: nat)
    requires Follows(ss, es) && i < |es| && es[i].CarriedOut?
    ensures Open(es, i, j) && es[j].item == es[i].item && ss[i] == Some(Stored(es[j].item, es[j].bound))
  {
    StoredExplained(ss, es, i);
    j :| Open(es, i, j) && ss[i].value == Stored(es[j].item, es[j].bound);
  }

  // -------------------------------------------------------- the two roles and the upgrade

  datatype Office = AdminOffice | CollectorOffice | UpgradeOffice

  /** Items are addresses, or the hash of new code. */
  datatype Item = Who(who: Address) | Code(hash: nat)

  function StoredOf(o: Office, r: Roles): Option<Stored<Item>> {
    match o
    case AdminOffice =>
      if r.pendingAdmin.None? then None else Some(Stored(Who(r.pendingAdmin.value.who), r.pendingAdmin.value.expiry))
    case CollectorOffice =>
      if r.pendingCollector.None? then None
      else Some(Stored(Who(r.pendingCollector.value.who), r.pendingCollector.value.expiry))
    case UpgradeOffice =>
      if r.pendingUpgrade.None? then None
      else Some(Stored(Code(r.pendingUpgrade.value.hash), r.pendingUpgrade.value.unlock))
  }

  /** Who, or what code, currently holds the office. */
  function HolderOf(o: Office, r: Roles): Option<Item> {
    match o
    case AdminOffice => if r.admin.None? then None else Some(Who(r.admin.value))
    case CollectorOffice => if r.collector.None? then None else Some(Who(r.collector.value))
    case UpgradeOffice => if r.replacedBy.None? then None else Some(Code(r.replacedBy.value))
  }

  function CallEvent(o: Office, r: Roles, env: Env, call: RoleCall): Event<Item> {
    match (o, call)
    case (AdminOffice, ProposeAdmin(_, who)) => Proposed(Who(who), AddU32(env.ledger, ADMIN_TRANSFER_EXPIRY_LEDGERS))
    case (AdminOffice, AcceptAdmin(who)) => CarriedOut(Who(who))
    case (AdminOffice, CancelAdminTransfer(_)) => Dropped
    case (CollectorOffice, ProposeFeeCollector(_, who)) =>
      Proposed(Who(who), AddU32(env.ledger, ADMIN_TRANSFER_EXPIRY_LEDGERS))
    case (CollectorOffice, AcceptFeeCollector(who)) => CarriedOut(Who(who))
    case (CollectorOffice, CancelFeeCollectorTransfer(_)) => Dropped
    case (UpgradeOffice, ProposeUpgrade(_, hash)) => Proposed(Code(hash), AddU32(env.ledger, r.timelock.UnwrapOr(0)))
    case (UpgradeOffice, CancelUpgrade(_)) => Dropped
    case (UpgradeOffice, ExecuteUpgrade) =>
      if r.pendingUpgrade.None? then Nothing else CarriedOut(Code(r.pendingUpgrade.value.hash))
    case _ => Nothing
  }

  /** Who may act, and when, in terms of the stored bound. */
  predicate Permitted(o: Office, r: Roles, env: Env, e: Event<Item>) {
    && (e.Proposed? || e.Dropped? ==> r.admin.Some? && r.admin.value in env.auth)
    && (e.CarriedOut? ==>
          && StoredOf(o, r).Some?
          && (e.item.Who? ==> e.item.who in env.auth && env.ledger <= StoredOf(o, r).value.bound)
          && (e.item.Code? ==> env.ledger >= StoredOf(o, r).value.bound))
  }

  lemma RoleCallFollows(o: Office, r: Roles, env: Env, call: RoleCall)
    requires RolesStep(r, env, call).Ok?
    ensures var e, next := CallEvent(o, r, env, call), RolesStep(r, env, call).value;
            && StoredOf(o, next) == After(StoredOf(o, r), e) && Legal(StoredOf(o, r), e)
            && Permitted(o, r, env, e)
            && HolderOf(o, next) == (if e.CarriedOut? then Some(e.item) else HolderOf(o, r))
            && next.timelock == r.timelock
  {
  }

  // ------------------------------------------------------------------------- runs

  function StepEvent(o: Office, jar: Address, w: World, step: Step): Event<Item> {
    if step.call.OnRoles? && Exec(jar, w, step.env, step.call).Ok?
    then CallEvent(o, w.roles, step.env, step.call.role) else Nothing
  }

  /** Only role calls change roles; `init` sets the first admin and the timelock, once. */
  lemma OtherCallsKeepRoles(jar: Address, w: World, env: Env, call: Call)
    requires Perform(jar, w, env, call).Ok? && !call.OnRoles?
    ensures var v := Perform(jar, w, env, call).value.world;
            && (v.roles == w.roles || (call.Init? && w.roles.admin.None? &&
                  v.roles == w.roles.(admin := Some(call.admin), timelock := Some(call.timelock))))
  {
  }

  /** One step of a run moves each office by its event, as permitted. */
  lemma StepFollows(o: Office, jar: Address, w: World, step: Step)
    ensures var e, next := StepEvent(o, jar, w, step), Next(jar, w, step);
            && StoredOf(o, next.roles) == After(StoredOf(o, w.roles), e) && Legal(StoredOf(o, w.roles), e)
            && Permitted(o, w.roles, step.env, e)
            && (w.roles.admin.Some? ==>
                  && HolderOf(o, next.roles) == (if e.CarriedOut? then Some(e.item) else HolderOf(o, w.roles))
                  && next.roles.admin.Some? && next.roles.timelock == w.roles.timelock)
  {
    if Exec(jar, w, step.env, step.call).Ok? {
      if step.call.OnRoles? {
        RoleCallFollows(o, w.roles, step.env, step.call.role);
        RoleCallFollows(AdminOffice, w.roles, step.env, step.call.role);
      } else {
        OtherCallsKeepRoles(jar, w, step.env, Delegate(w, step.call).value);
      }
    }
  }

  ghost predicate IsEvent(o: Office, jar: Address, r: Run, i: int, e: Event<Item>) {
    0 <= i < |r.steps| && i < |r.states| && e == StepEvent(o, jar, r.states[i], r.steps[i])
  }

  /** `es` is the history of the office in the run. */
  ghost predicate IsHistory(o: Office, jar: Address, r: Run, es: seq<Event<Item>>) {
    && |es| == |r.steps|
    && forall i {:trigger IsEvent(o, jar, r, i, es[i])} :: 0 <= i < |es| ==> IsEvent(o, jar, r, i, es[i])
  }

  lemma HistoryExists(o: Office, jar: Address, r: Run) returns (es: seq<Event<Item>>)
    requires |r.states| == |r.steps| + 1
    ensures IsHistory(o, jar, r, es)
  {
    es := seq(|r.steps|, i requires 0 <= i < |r.steps| => StepEvent(o, jar, r.states[i], r.steps[i]));
  }

  lemma HistoryStep(o: Office, jar: Address, r: Run, es: seq<Event<Item>>, i: nat)
    requires IsRun(jar, r) && IsHistory(o, jar, r, es) && i < |es|
    ensures var u, v := r.states[i].roles, r.states[i + 1].roles;
            && StoredOf(o, v) == After(StoredOf(o, u), es[i]) && Legal(StoredOf(o, u), es[i])
            && Permitted(o, u, r.steps[i].env, es[i])
            && (u.admin.Some? ==>
                  && HolderOf(o, v) == (if es[i].CarriedOut? then Some(es[i].item) else HolderOf(o, u))
                  && v.admin.Some? && v.timelock == u.timelock)
  {
    assert IsEvent(o, jar, r, i, es[i]);
    StepFollows(o, jar, r.states[i], r.steps[i]);
  }

  /** The bound a proposal is stored with. */
  lemma ProposalBound(o: Office, jar: Address, r: Run, es: seq<Event<Item>>, j: nat)
    requires IsRun(jar, r) && IsHistory(o, jar, r, es) && j < |es| && es[j].Proposed?
    ensures es[j].bound == AddU32(r.Ledger(j), if o.UpgradeOffice? then r.states[j].roles.timelock.UnwrapOr(0)
                                               else ADMIN_TRANSFER_EXPIRY_LEDGERS)
    ensures es[j].item.Code? <==> o.UpgradeOffice?
  {
    assert IsEvent(o, jar, r, j, es[j]);
  }

  /** Between two points of a run with nothing carried out, the office does not change hands. */
  lemma {:induction false} HolderStays(o: Office, jar: Address, r: Run, es: seq<Event<Item>>, j: nat, i: nat)
    requires IsRun(jar, r) && IsHistory(o, jar, r, es) && j <= i <= |es| && r.states[j].roles.admin.Some?
    requires forall m :: j <= m < i ==> !es[m].CarriedOut?
    ensures HolderOf(o, r.states[i].roles) == HolderOf(o, r.states[j].roles)
    ensures r.states[i].roles.admin.Some? && r.states[i].roles.timelock == r.states[j].roles.timelock
    decreases i
  {
    if j < i {
      HolderStays(o, jar, r, es, j, i - 1);
      HistoryStep(o, jar, r, es, i - 1);
    }
  }

  lemma OpenProposal(o: Office, jar: Address, r: Run, es: seq<Event<Item>>, i: nat) returns (j: nat)
    requires IsRun(jar, r) && IsHistory(o, jar, r, es) && StoredOf(o, r.states[0].roles).None?
    requires i < |es| && es[i].CarriedOut?
    ensures Open(es, i, j) && es[j].item == es[i].item
    ensures StoredOf(o, r.states[i].roles) == Some(Stored(es[j].item, es[j].bound))
    ensures r.states[j].roles.admin.Some? && r.states[j].roles.admin.value in r.steps[j].env.auth
    ensures HolderOf(o, r.states[i].roles) == HolderOf(o, r.states[j].roles)
    ensures r.states[i].roles.admin.Some? && r.states[i].roles.timelock == r.states[j].roles.timelock
  {
    var ss := seq(|r.states|, n requires 0 <= n < |r.states| => StoredOf(o, r.states[n].roles));
    forall n | 0 <= n < |es| ensures ss[n + 1] == After(ss[n], es[n]) && Legal(ss[n], es[n]) {
      HistoryStep(o, jar, r, es, n);
    }
    j := CarriedOutWasOpen(ss, es, i);
    HistoryStep(o, jar, r, es, j);
    HolderStays(o, jar, r, es, j, i);
  }

  /**
   A role changes hands only when the proposed address itself accepts, no later
   than 34,560 ledgers after the then-admin proposed it, with no
   cancellation and no other proposal in between.
   */
  lemma RoleHandover(o: Office, jar: Address, r: Run, es: seq<Event<Item>>, i: nat) returns (j: nat)
    requires IsRun(jar, r) && IsHistory(o, jar, r, es) && StoredOf(o, r.states[0].roles).None?
    requires !o.UpgradeOffice? && i < |es| && r.states[i].roles.admin.Some?
    requires HolderOf(o, r.states[i + 1].roles) != HolderOf(o, r.states[i].roles)
    ensures Open(es, i, j) && es[i] == CarriedOut(es[j].item)
    ensures HolderOf(o, r.states[i + 1].roles) == Some(es[j].item)
    ensures es[j].item.Who? && es[j].item.who in r.steps[i].env.auth
    ensures r.states[j].roles.admin.Some? && r.states[j].roles.admin.value in r.steps[j].env.auth
    ensures r.Ledger(j) <= r.Ledger(i) <= r.Ledger(j) + 34560
    ensures o.AdminOffice? ==> r.states[j].roles.admin == r.states[i].roles.admin
  {
    HistoryStep(o, jar, r, es, i);
    j := OpenProposal(o, jar, r, es, i);
    ProposalBound(o, jar, r, es, j);
  }

  /** Step `k` of the run is the successful `init` with this timelock. */
  predicate InitAt(jar: Address, r: Run, k: nat, timelock: nat) {
    && k < |r.steps| && k < |r.states| && r.states[k].roles.admin.None?
    && r.steps[k].call.Init? && r.Ok(jar, k) && r.steps[k].call.timelock == timelock
  }

  lemma InitSets(jar: Address, w: World, step: Step)
    requires w.roles.admin.None? && Next(jar, w, step).roles.admin.Some?
    ensures step.call.OnRoles? || (step.call.Init? && Exec(jar, w, step.env, step.call).Ok?
                                   && Next(jar, w, step).roles.timelock == Some(step.call.timelock))
  {
    if Exec(jar, w, step.env, step.call).Ok? && !step.call.OnRoles? {
      OtherCallsKeepRoles(jar, w, step.env, Delegate(w, step.call).value);
    }
  }

  /** Nothing can be accepted before there is an admin to propose it. */
  lemma NoAdminNoProposal(jar: Address, w: World, step: Step)
    requires w.roles.admin.None? && w.roles.pendingAdmin.None?
    ensures Next(jar, w, step).roles.pendingAdmin.None?
    ensures step.call.OnRoles? ==> Next(jar, w, step).roles.admin.None?
  {
    if Exec(jar, w, step.env, step.call).Ok? && !step.call.OnRoles? {
      OtherCallsKeepRoles(jar, w, step.env, Delegate(w, step.call).value);
    }
  }

  lemma {:induction false} NothingPending(jar: Address, r: Run, i: nat)
    requires IsRun(jar, r) && i <= |r.steps| && r.states[i].roles.admin.None?
    requires r.states[0].roles.pendingAdmin.None?
    ensures r.states[i].roles.pendingAdmin.None?
  {
    if i > 0 {
      StepFollows(AdminOffice, jar, r.states[i - 1], r.steps[i - 1]);
      NothingPending(jar, r, i - 1);
      NoAdminNoProposal(jar, r.states[i - 1], r.steps[i - 1]);
    }
  }

  /** Once there is an admin, the timelock is the one given to the one successful `init`. */
  lemma {:induction false} TimelockFromInit(jar: Address, r: Run, i: nat) returns (k: nat, timelock: nat)
    requires IsRun(jar, r) && i <= |r.steps| && r.states[i].roles.admin.Some?
    requires r.states[0].roles.admin.None? && r.states[0].roles.pendingAdmin.None?
    ensures k < i && InitAt(jar, r, k, timelock) && r.states[i].roles.timelock == Some(timelock)
    decreases i
  {
    var w, step := r.states[i - 1], r.steps[i - 1];
    if w.roles.admin.Some? {
      k, timelock := TimelockFromInit(jar, r, i - 1);
      StepFollows(AdminOffice, jar, w, step);
    } else {
      NothingPending(jar, r, i - 1);
      NoAdminNoProposal(jar, w, step);
      InitSets(jar, w, step);
      k, timelock := i - 1, step.call.timelock;
    }
  }

  /**
   Code is replaced only by a hash the then-admin proposed, with no cancellation
   in between, once the ledger stored with the proposal is reached. In a run from
   before `init` that is the proposal's ledger plus the timelock given to `init`,
   unless the sum wraps.
   */
  lemma UpgradeTimelock(jar: Address, r: Run, es: seq<Event<Item>>, i: nat) returns (j: nat, timelock: nat)
    requires IsRun(jar, r) && IsHistory(UpgradeOffice, jar, r, es) && StoredOf(UpgradeOffice, r.states[0].roles).None?
    requires i < |es| && es[i].CarriedOut?
    ensures Open(es, i, j) && es[j].item == es[i].item
    ensures r.states[j].roles.admin.Some? && r.states[j].roles.admin.value in r.steps[j].env.auth
    ensures r.states[i].roles.timelock == r.states[j].roles.timelock
    ensures timelock == r.states[j].roles.timelock.UnwrapOr(0)
    ensures r.states[0].roles.admin.None? && r.states[0].roles.pendingAdmin.None? ==>
              exists k: nat :: k < j && InitAt(jar, r, k, timelock)
    ensures r.Ledger(i) >= AddU32(r.Ledger(j), timelock)
    ensures r.Ledger(j) + timelock < U32_SIZE ==> r.Ledger(j) + timelock <= r.Ledger(i)
  {
    HistoryStep(UpgradeOffice, jar, r, es, i);
    j := OpenProposal(UpgradeOffice, jar, r, es, i);
    ProposalBound(UpgradeOffice, jar, r, es, j);
    timelock := r.states[j].roles.timelock.UnwrapOr(0);
    if r.states[0].roles.admin.None? && r.states[0].roles.pendingAdmin.None? {
      var k, given := TimelockFromInit(jar, r, j);
    }
  }

  /** An upgrade stays locked for its whole timelock exactly when the ledger sum does not wrap. */
  lemma UpgradeTimelockExact(r: Roles, env: Env, admin: Address, hash: nat)
    requires env.ledger < U32_SIZE && RolesStep(r, env, ProposeUpgrade(admin, hash)).Ok?
    requires 0 < r.timelock.value < U32_SIZE
    ensures var next := RolesStep(r, env, ProposeUpgrade(admin, hash)).value;
            (forall later: Env :: env.ledger <= later.ledger < env.ledger + r.timelock.value ==>
               RolesStep(next, later, ExecuteUpgrade).Err?)
            <==> env.ledger + r.timelock.value < U32_SIZE
  {
    var next := RolesStep(r, env, ProposeUpgrade(admin, hash)).value;
    if env.ledger + r.timelock.value >= U32_SIZE {
      assert RolesStep(next, env, ExecuteUpgrade).Ok?;
    }
  }
}
