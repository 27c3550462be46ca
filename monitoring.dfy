/**
  The monitoring product reconciler's pass: the operator namespace and the
  product namespace, then the operator subscription and its install plan, then
  the ApplicationMonitoring custom resource, then the alert-manager config secret.
  The first step that does not complete cleanly ends the pass and its phase and
  error become the pass's result. Nothing records how far a pass got: every pass
  starts again from the first step and re-reads the cluster.
 */
module Monitoring {
  import opened Wrappers
  import opened Status
  import opened Cluster
  import opened Product
  import opened AlertManager

  const ApplicationMonitoringName: string := "middleware-monitoring"

  // ---------------------------------------------------------------------------
  // Namespaces

  /**
    One namespace: create it when it is missing (the pass waits for it); wait while
    it is terminating; refuse one another installation owns; otherwise go on.
   */
  function NamespaceStep(name: string, owner: string, s: State): (res: (Outcome, State))
    ensures res.0.phase == InProgress ==> res.0.err == None
    ensures res.0.phase == Failed <==>
              name in s.namespaces && s.namespaces[name].phase == Active && s.namespaces[name].owner != Some(owner)
    ensures res.0.phase == Failed ==> res.0.err == Some(NamespaceNotOwned(name))
    ensures name in s.namespaces && s.namespaces[name].phase == Terminating ==> res == (Outcome(InProgress, None), s)
    ensures res.0.Proceed() <==> name in s.namespaces && s.namespaces[name] == Namespace(Active, Some(owner))
    ensures name in s.namespaces ==> res.1 == s
    ensures name !in s.namespaces ==>
              res.0.phase == InProgress && res.1 == s.(namespaces := s.namespaces[name := Namespace(Active, Some(owner))])
  {
    if name !in s.namespaces then
      (Outcome(InProgress, None), s.(namespaces := s.namespaces[name := Namespace(Active, Some(owner))]))
    else if s.namespaces[name].phase.Terminating? then
      (Outcome(InProgress, None), s)
    else if s.namespaces[name].owner != Some(owner) then
      (Outcome(Failed, Some(NamespaceNotOwned(name))), s)
    else
      (Outcome(Completed, None), s)
  }

  method ReconcileNamespace(name: string, owner: string, store: Store) returns (o: Outcome)
    modifies store
    ensures (o, store.Snapshot()) == NamespaceStep(name, owner, old(store.Snapshot()))
  {
    if name !in store.namespaces {
      store.CreateNamespace(name, owner);
      return Outcome(InProgress, None);
    }
    var ns := store.namespaces[name];
    if ns.phase.Terminating? {
      return Outcome(InProgress, None);
    }
    if ns.owner != Some(owner) {
      return Outcome(Failed, Some(NamespaceNotOwned(name)));
    }
    o := Outcome(Completed, None);
  }

  // ---------------------------------------------------------------------------
  // Subscription and install plan

  datatype InstallPlanPhase = Planning | RequiresApproval | Installing | Complete | PlanFailed

  datatype InstallPlan = InstallPlan(name: string, phase: InstallPlanPhase, message: string)

  /** A subscription's status: the install plan it references, if any yet. */
  datatype Subscription = Subscription(installPlanRef: Option<string>)

  datatype LookupError = NotFound | LookupFailed(cause: string)

  /**
    What the marketplace answers in one pass: the error of installing the
    operator (None on success), and the install-plan list with the subscription.
   */
  datatype Marketplace = Marketplace(
    installOperator: Option<string>,
    installPlans: Result<(seq<InstallPlan>, Subscription), LookupError>)

  /** The first plan of the list with the given name. */
  function FindPlan(plans: seq<InstallPlan>, name: string): (r: Option<InstallPlan>)
    ensures r.Some? ==> r.value in plans && r.value.name == name
    ensures r.None? ==> forall p :: p in plans ==> p.name != name
  {
    if plans == [] then None
    else if plans[0].name == name then Some(plans[0])
    else FindPlan(plans[1..], name)
  }

  /** Scans the plan list for the referenced plan: the index of the first match, or the list's length. */
  method FindInstallPlan(plans: seq<InstallPlan>, name: string) returns (i: nat)
    ensures i <= |plans|
    ensures forall j :: 0 <= j < i ==> plans[j].name != name
    ensures i < |plans| ==> plans[i].name == name && FindPlan(plans, name) == Some(plans[i])
    ensures i == |plans| ==> FindPlan(plans, name) == None
  {
    i := 0;
    while i < |plans| && plans[i].name != name
      invariant i <= |plans|
      invariant forall j :: 0 <= j < i ==> plans[j].name != name
      invariant FindPlan(plans, name) == FindPlan(plans[i..], name)
    {
      assert plans[i..][1..] == plans[i + 1..];
      i := i + 1;
    }
  }

  /**
    Install the operator, then look at the plan the subscription references: wait
    while the subscription or the plan is not there yet or the plan is still
    running; fail on an install error, a lookup error or a failed plan; go on once
    the plan is complete.
   */
  function SubscriptionStep(m: Marketplace): (o: Outcome)
    ensures o.phase == InProgress ==> o.err == None
    ensures o.phase == Failed ==> o.err.Some?
    ensures o.Proceed() <==>
              && m.installOperator.None?
              && m.installPlans.Ok?
              && m.installPlans.value.1.installPlanRef.Some?
              && var plan := FindPlan(m.installPlans.value.0, m.installPlans.value.1.installPlanRef.value);
                 plan.Some? && plan.value.phase == Complete
    // an install error fails the step, whatever the plan lookup answers
    ensures m.installOperator.Some? ==> o == Outcome(Failed, Some(InstallOperatorFailed(m.installOperator.value)))
    // no subscription yet: wait
    ensures m.installOperator.None? && m.installPlans == Err(NotFound) ==> o == Outcome(InProgress, None)
    ensures m.installOperator.None? && m.installPlans.Err? && m.installPlans.error.LookupFailed? ==>
              o == Outcome(Failed, Some(InstallPlanLookupFailed(m.installPlans.error.cause)))
    ensures m.installOperator.None? && m.installPlans.Ok? && m.installPlans.value.1.installPlanRef.None? ==>
              o == Outcome(InProgress, None)
    ensures m.installOperator.None? && m.installPlans.Ok? && m.installPlans.value.1.installPlanRef.Some? ==>
              var name := m.installPlans.value.1.installPlanRef.value;
              var plan := FindPlan(m.installPlans.value.0, name);
              && (plan.None? ==> o == Outcome(InProgress, None))
              && (plan.Some? && plan.value.phase == PlanFailed ==>
                    o == Outcome(Failed, Some(InstallPlanFailed(name, plan.value.message))))
              && (plan.Some? && plan.value.phase != Complete && plan.value.phase != PlanFailed ==>
                    o == Outcome(InProgress, None))
  {
    if m.installOperator.Some? then
      Outcome(Failed, Some(InstallOperatorFailed(m.installOperator.value)))
    else
      match m.installPlans
      case Err(NotFound) => Outcome(InProgress, None)
      case Err(LookupFailed(c)) => Outcome(Failed, Some(InstallPlanLookupFailed(c)))
      case Ok((plans, sub)) =>
        match sub.installPlanRef
        case None => Outcome(InProgress, None)
        case Some(name) =>
          match FindPlan(plans, name)
          case None => Outcome(InProgress, None)
          case Some(plan) =>
            match plan.phase
            case Complete => Outcome(Completed, None)
            case PlanFailed => Outcome(Failed, Some(InstallPlanFailed(name, plan.message)))
            case _ => Outcome(InProgress, None)
  }

  method ReconcileSubscription(m: Marketplace) returns (o: Outcome)
    ensures o == SubscriptionStep(m)
  {
    if m.installOperator.Some? {
      return Outcome(Failed, Some(InstallOperatorFailed(m.installOperator.value)));
    }
    if m.installPlans.Err? {
      match m.installPlans.error
      case NotFound => return Outcome(InProgress, None);
      case LookupFailed(c) => return Outcome(Failed, Some(InstallPlanLookupFailed(c)));
    }
    var (plans, sub) := m.installPlans.value;
    if sub.installPlanRef.None? {
      return Outcome(InProgress, None);
    }
    var name := sub.installPlanRef.value;
    var i := FindInstallPlan(plans, name);
    if i == |plans| {
      return Outcome(InProgress, None);
    }
    match plans[i].phase
    case Complete => o := Outcome(Completed, None);
    case PlanFailed => o := Outcome(Failed, Some(InstallPlanFailed(name, plans[i].message)));
    case _ => o := Outcome(InProgress, None);
  }

  // ---------------------------------------------------------------------------
  // ApplicationMonitoring custom resource

  function MonitorKey(r: Reconciler): ObjectKey {
    ObjectKey(r.operatorNamespace, ApplicationMonitoringName)
  }

  /**
    Create-or-update of the ApplicationMonitoring resource. `writeFault` is the
    cluster API's answer to the write: None when it succeeds.
   */
  function ComponentsStep(r: Reconciler, s: State, desired: string, writeFault: Option<string>): (res: (Outcome, State))
    ensures res.0.phase != InProgress
    ensures res.0.phase == Failed <==> writeFault.Some?
    ensures res.0.phase == Failed ==> res.0.err == Some(CustomResourceWriteFailed(writeFault.value)) && res.1 == s
    ensures res.0.phase == Completed ==>
              && res.0.err == None
              && res.1 == s.(monitors := res.1.monitors)
              && res.1.monitors.Keys == s.monitors.Keys + {MonitorKey(r)}
              && res.1.monitors[MonitorKey(r)] == desired
              && forall k :: k in s.monitors && k != MonitorKey(r) ==> res.1.monitors[k] == s.monitors[k]
  {
    if writeFault.Some? then
      (Outcome(Failed, Some(CustomResourceWriteFailed(writeFault.value))), s)
    else
      (Outcome(Completed, None), s.(monitors := s.monitors[MonitorKey(r) := desired]))
  }

  method ReconcileComponents(r: Reconciler, store: Store, desired: string, writeFault: Option<string>) returns (o: Outcome)
    modifies store
    ensures (o, store.Snapshot()) == ComponentsStep(r, old(store.Snapshot()), desired, writeFault)
  {
    if writeFault.Some? {
      return Outcome(Failed, Some(CustomResourceWriteFailed(writeFault.value)));
    }
    store.WriteMonitor(MonitorKey(r), desired);
    o := Outcome(Completed, None);
  }

  // ---------------------------------------------------------------------------
  // The pass

  /** Everything a pass takes from outside the cluster store. */
  datatype Externals = Externals(
    marketplace: Marketplace,
    desiredMonitoring: string,
    monitoringWriteFault: Option<string>,
    toAddressOverride: Option<string>,
    render: Renderer)

  function ReconcileSpec(r: Reconciler, s: State, ext: Externals): (res: (Outcome, State))
    ensures res.0.phase == InProgress ==> res.0.err == None
    ensures res.0.phase == Failed ==> res.0.err.Some?
    ensures res.0.phase == Completed ==> res.0.err == None
  {
    var (o1, s1) := NamespaceStep(r.operatorNamespace, r.installation.uid, s);
    if !o1.Proceed() then (o1, s1) else
    var (o2, s2) := NamespaceStep(r.namespace, r.installation.uid, s1);
    if !o2.Proceed() then (o2, s2) else
    var o3 := SubscriptionStep(ext.marketplace);
    if !o3.Proceed() then (o3, s2) else
    var (o4, s4) := ComponentsStep(r, s2, ext.desiredMonitoring, ext.monitoringWriteFault);
    if !o4.Proceed() then (o4, s4) else
    var (o5, s5) := AlertStep(r, s4, ext.toAddressOverride, ext.render);
    if !o5.Proceed() then (o5, s5) else
    (Outcome(Completed, None), s5)
  }

  method Reconcile(r: Reconciler, store: Store, ext: Externals) returns (o: Outcome)
    modifies store
    ensures (o, store.Snapshot()) == ReconcileSpec(r, old(store.Snapshot()), ext)
  {
    o := ReconcileNamespace(r.operatorNamespace, r.installation.uid, store);
    if !o.Proceed() {
      return;
    }
    o := ReconcileNamespace(r.namespace, r.installation.uid, store);
    if !o.Proceed() {
      return;
    }
    o := ReconcileSubscription(ext.marketplace);
    if !o.Proceed() {
      return;
    }
    o := ReconcileComponents(r, store, ext.desiredMonitoring, ext.monitoringWriteFault);
    if !o.Proceed() {
      return;
    }
    o := ReconcileAlertManagerConfigSecret(r, store, ext.toAddressOverride, ext.render);
    if !o.Proceed() {
      return;
    }
    o := Outcome(Completed, None);
  }

  // ---------------------------------------------------------------------------
  // Properties of a pass

  /** The namespace is there, active, and labelled as this installation's. */
  predicate NamespaceReady(r: Reconciler, s: State, name: string) {
    name in s.namespaces && s.namespaces[name] == Namespace(Active, Some(r.installation.uid))
  }

  predicate NamespacesReady(r: Reconciler, s: State) {
    NamespaceReady(r, s, r.operatorNamespace) && NamespaceReady(r, s, r.namespace)
  }

  /** The namespace is there and either terminating (whatever its label) or ready. */
  predicate NamespaceSettled(r: Reconciler, s: State, name: string) {
    name in s.namespaces && (s.namespaces[name].phase == Terminating || NamespaceReady(r, s, name))
  }

  /**
    A terminating namespace makes the pass wait: `InProgress`, no error, and
    nothing written, even though the later steps' dependencies are missing.
   */
  lemma TerminatingNamespaceWaits(r: Reconciler, s: State, ext: Externals)
    requires NamespaceSettled(r, s, r.operatorNamespace) && NamespaceSettled(r, s, r.namespace)
    requires s.namespaces[r.operatorNamespace].phase == Terminating || s.namespaces[r.namespace].phase == Terminating
    ensures ReconcileSpec(r, s, ext) == (Outcome(InProgress, None), s)
  {
  }

  /**
    With both namespaces ready and the operator installed, a subscription that
    references no install plan yet, or one missing from the plan list, makes the
    pass wait: `InProgress`, no error, nothing written.
   */
  lemma PendingInstallPlanWaits(r: Reconciler, s: State, ext: Externals)
    requires NamespacesReady(r, s)
    requires ext.marketplace.installOperator.None? && ext.marketplace.installPlans.Ok?
    requires var (plans, sub) := ext.marketplace.installPlans.value;
             sub.installPlanRef.None? || forall p :: p in plans ==> p.name != sub.installPlanRef.value
    ensures ReconcileSpec(r, s, ext) == (Outcome(InProgress, None), s)
  {
  }

  /** The checks read only the secrets and the routes. */
  lemma ChecksReadSecretsAndRoutes(r: Reconciler, s1: State, s2: State)
    requires s1.secrets == s2.secrets && s1.routes == s2.routes
    ensures CheckDependencies(r, s1) == CheckDependencies(r, s2)
  {
  }

  /**
    A full pass: namespaces ready, the referenced install plan complete, the
    custom resource written and every alerting dependency present. The pass
    completes with no error; afterwards the ApplicationMonitoring resource has
    the desired spec, the config secret holds the rendered template, and
    nothing else has changed.
   */
  lemma {:induction false} FullPassCompletes(r: Reconciler, s: State, ext: Externals)
    requires NamespacesReady(r, s)
    requires ext.marketplace.installOperator.None? && ext.marketplace.installPlans.Ok?
    requires ext.marketplace.installPlans.value.1.installPlanRef.Some?
    requires var (plans, sub) := ext.marketplace.installPlans.value;
             && (exists p :: p in plans && p.name == sub.installPlanRef.value)
             && (forall p :: p in plans && p.name == sub.installPlanRef.value ==> p.phase == Complete)
    requires ext.monitoringWriteFault.None?
    requires forall i :: 0 <= i < CheckCount ==> CheckPasses(r, s, i)
    ensures CheckDependencies(r, s).Ok?
    ensures ReconcileSpec(r, s, ext) ==
      (Outcome(Completed, None),
       s.(monitors := s.monitors[MonitorKey(r) := ext.desiredMonitoring],
          secrets := s.secrets[ConfigSecretKey(r) :=
            ConfigSecretData(CheckDependencies(r, s).value, ext.toAddressOverride, ext.render)]))
  {
    ChecksPassExactly(r, s);
    var (plans, sub) := ext.marketplace.installPlans.value;
    var found := FindPlan(plans, sub.installPlanRef.value);
    assert found.Some?;
    assert SubscriptionStep(ext.marketplace) == Outcome(Completed, None);
    assert NamespaceStep(r.operatorNamespace, r.installation.uid, s) == (Outcome(Completed, None), s);
    assert NamespaceStep(r.namespace, r.installation.uid, s) == (Outcome(Completed, None), s);
    var s4 := s.(monitors := s.monitors[MonitorKey(r) := ext.desiredMonitoring]);
    ChecksReadSecretsAndRoutes(r, s, s4);
  }

  /**
    An installation never takes over an active namespace labelled for another
    owner (or not labelled at all): the pass fails with that error and changes nothing.
   */
  lemma ForeignNamespaceRefused(r: Reconciler, s: State, ext: Externals)
    requires r.operatorNamespace in s.namespaces
    requires s.namespaces[r.operatorNamespace].phase == Active
    requires s.namespaces[r.operatorNamespace].owner != Some(r.installation.uid)
    ensures ReconcileSpec(r, s, ext) == (Outcome(Failed, Some(NamespaceNotOwned(r.operatorNamespace))), s)
  {
  }

  /**
    The same for the product namespace: behind a ready operator namespace, an
    active product namespace labelled for another owner fails the pass and
    nothing is changed.
   */
  lemma ForeignProductNamespaceRefused(r: Reconciler, s: State, ext: Externals)
    requires NamespaceReady(r, s, r.operatorNamespace)
    requires r.namespace in s.namespaces
    requires s.namespaces[r.namespace].phase == Active
    requires s.namespaces[r.namespace].owner != Some(r.installation.uid)
    ensures ReconcileSpec(r, s, ext) == (Outcome(Failed, Some(NamespaceNotOwned(r.namespace))), s)
  {
  }

  /** No partial write: a pass that does not complete leaves the secrets as they were. */
  lemma IncompletePassKeepsSecrets(r: Reconciler, s: State, ext: Externals)
    requires ReconcileSpec(r, s, ext).0.phase != Completed
    ensures ReconcileSpec(r, s, ext).1.secrets == s.secrets
  {
  }

  /**
    A completed pass is a fixed point: the next pass over the cluster it left
    completes again and writes nothing new.
   */
  lemma {:induction false} CompletedPassIsFixpoint(r: Reconciler, s: State, ext: Externals)
    requires ConfigSecretIsSeparate(r)
    requires ReconcileSpec(r, s, ext).0.phase == Completed
    ensures ReconcileSpec(r, ReconcileSpec(r, s, ext).1, ext) == ReconcileSpec(r, s, ext)
  {
    var uid := r.installation.uid;
    var (o1, s1) := NamespaceStep(r.operatorNamespace, uid, s);
    var (o2, s2) := NamespaceStep(r.namespace, uid, s1);
    var (o4, s4) := ComponentsStep(r, s2, ext.desiredMonitoring, ext.monitoringWriteFault);
    var (o5, s5) := AlertStep(r, s4, ext.toAddressOverride, ext.render);
    assert s1 == s && s2 == s;
    assert ReconcileSpec(r, s, ext) == (Outcome(Completed, None), s5);
    // the second pass: the namespaces and the subscription are as before
    assert s5.namespaces == s.namespaces;
    assert NamespaceStep(r.operatorNamespace, uid, s5) == (Outcome(Completed, None), s5);
    assert NamespaceStep(r.namespace, uid, s5) == (Outcome(Completed, None), s5);
    // the custom resource already has the desired spec
    var k := MonitorKey(r);
    assert s5.monitors == s4.monitors && s4.monitors[k] == ext.desiredMonitoring;
    assert s5.monitors[k := ext.desiredMonitoring] == s5.monitors;
    assert ComponentsStep(r, s5, ext.desiredMonitoring, ext.monitoringWriteFault) == (Outcome(Completed, None), s5);
    // and the config secret already holds the rendered template
    RerunIsNoOp(r, s4, ext.toAddressOverride, ext.render);
  }

  /**
    Idempotence: a pass that creates no namespace, whatever its phase, leaves a
    cluster on which the next pass reports the same outcome and writes nothing
    new. This covers the retry after a pass that wrote the custom resource and
    then failed on a missing secret or route.
   */
  lemma {:induction false} PassIdempotentUnlessNamespaceCreated(r: Reconciler, s: State, ext: Externals)
    requires ConfigSecretIsSeparate(r)
    requires ReconcileSpec(r, s, ext).1.namespaces == s.namespaces
    ensures ReconcileSpec(r, ReconcileSpec(r, s, ext).1, ext) == ReconcileSpec(r, s, ext)
  {
    var uid := r.installation.uid;
    var (o1, s1) := NamespaceStep(r.operatorNamespace, uid, s);
    if !o1.Proceed() {
      assert s1 == s;
      return;
    }
    var (o2, s2) := NamespaceStep(r.namespace, uid, s1);
    if !o2.Proceed() {
      assert s2 == s;
      return;
    }
    var o3 := SubscriptionStep(ext.marketplace);
    if !o3.Proceed() {
      return;
    }
    var (o4, s4) := ComponentsStep(r, s2, ext.desiredMonitoring, ext.monitoringWriteFault);
    if !o4.Proceed() {
      assert s4 == s;
      return;
    }
    var (o5, s5) := AlertStep(r, s4, ext.toAddressOverride, ext.render);
    if o5.Proceed() {
      CompletedPassIsFixpoint(r, s, ext);
      return;
    }
    // the alert step failed after the custom resource was written
    assert s5 == s4 && ReconcileSpec(r, s, ext) == (o5, s4);
    assert s4.namespaces == s.namespaces;
    assert NamespaceStep(r.operatorNamespace, uid, s4) == (Outcome(Completed, None), s4);
    assert NamespaceStep(r.namespace, uid, s4) == (Outcome(Completed, None), s4);
    assert s4.monitors[MonitorKey(r) := ext.desiredMonitoring] == s4.monitors;
    assert ComponentsStep(r, s4, ext.desiredMonitoring, ext.monitoringWriteFault) == (Outcome(Completed, None), s4);
    ChecksReadSecretsAndRoutes(r, s, s4);
  }
}
