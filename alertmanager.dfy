/**
  The alert-manager config-secret step: check the SMTP, PagerDuty and Dead Man's
  Snitch secrets and the alert-manager route in a fixed order, stopping at the
  first failure; build the eight-key substitution map; render the alert-manager
  config template with it; and create or overwrite the config secret with the
  rendered text under a fixed key.
 */
module AlertManager {
  import opened Wrappers
  import opened Status
  import opened Cluster
  import opened Product

  const AlertManagerRouteName: string := "alertmanager-route"
  const ConfigSecretName: string := "alertmanager-application-monitoring"
  const ConfigSecretFileName: string := "alertmanager.yaml"
  const ServiceKeyField: string := "serviceKey"
  const UrlField: string := "url"

  /** Keys of the substitution map handed to the template. */
  const SmtpHostKey: string := "SMTPHost"
  const SmtpPortKey: string := "SMTPPort"
  const RouteKeyName: string := "AlertManagerRoute"
  const SmtpUsernameKey: string := "SMTPUsername"
  const SmtpPasswordKey: string := "SMTPPassword"
  const PagerDutyServiceKeyKey: string := "PagerDutyServiceKey"
  const DeadMansSnitchUrlKey: string := "DeadMansSnitchURL"
  const ToAddressKey: string := "SMTPToAddress"

  const SubstitutionKeys: set<string> := {
    SmtpHostKey, SmtpPortKey, RouteKeyName, SmtpUsernameKey,
    SmtpPasswordKey, PagerDutyServiceKeyKey, DeadMansSnitchUrlKey, ToAddressKey
  }

  /** The template engine with the alert-manager template loaded: substitution map to text. */
  type Renderer = map<string, string> -> string

  function SmtpKey(r: Reconciler): ObjectKey {
    ObjectKey(r.installation.namespace, r.installation.smtpSecret)
  }

  function PagerDutyKey(r: Reconciler): ObjectKey {
    ObjectKey(r.installation.namespace, r.installation.pagerDutySecret)
  }

  function DeadMansSnitchKey(r: Reconciler): ObjectKey {
    ObjectKey(r.installation.namespace, r.installation.deadMansSnitchSecret)
  }

  function RouteKey(r: Reconciler): ObjectKey {
    ObjectKey(r.operatorNamespace, AlertManagerRouteName)
  }

  function ConfigSecretKey(r: Reconciler): ObjectKey {
    ObjectKey(r.operatorNamespace, ConfigSecretName)
  }

  /** The config secret is none of the three credential secrets it is built from. */
  predicate ConfigSecretIsSeparate(r: Reconciler) {
    ConfigSecretKey(r) !in {SmtpKey(r), PagerDutyKey(r), DeadMansSnitchKey(r)}
  }

  /** What the checks extract: the SMTP secret's data, the two keys, and the route host. */
  datatype Dependencies = Dependencies(
    smtp: SecretData,
    pagerDutyServiceKey: string,
    deadMansSnitchUrl: string,
    routeHost: string)

  /** The six dependency checks, numbered in the order the step makes them. */
  const CheckCount: nat := 6

  predicate CheckPasses(r: Reconciler, s: State, i: nat) {
    match i
    case 0 => SmtpKey(r) in s.secrets
    case 1 => PagerDutyKey(r) in s.secrets
    case 2 => PagerDutyKey(r) in s.secrets && ServiceKeyField in s.secrets[PagerDutyKey(r)]
    case 3 => DeadMansSnitchKey(r) in s.secrets
    case 4 => DeadMansSnitchKey(r) in s.secrets && UrlField in s.secrets[DeadMansSnitchKey(r)]
    case 5 => RouteKey(r) in s.routes
    case _ => true
  }

  /** The error check `i` reports when it fails. */
  function CheckError(r: Reconciler, i: nat): Error
    requires i < CheckCount
  {
    match i
    case 0 => SmtpSecretNotFound(r.installation.smtpSecret)
    case 1 => PagerDutySecretNotFound(r.installation.pagerDutySecret)
    case 2 => PagerDutyServiceKeyUndefined
    case 3 => DeadMansSnitchSecretNotFound(r.installation.deadMansSnitchSecret)
    case 4 => DeadMansSnitchUrlUndefined
    case 5 => AlertManagerRouteNotFound(AlertManagerRouteName)
  }

  /** The fail-fast validation chain: the first missing dependency decides the error. */
  function CheckDependencies(r: Reconciler, s: State): (res: Result<Dependencies, Error>)
    ensures res.Err? ==> res.error.IsConfigSecretError()
    ensures res.Ok? ==>
      && SmtpKey(r) in s.secrets && PagerDutyKey(r) in s.secrets
      && DeadMansSnitchKey(r) in s.secrets && RouteKey(r) in s.routes
      && res.value.smtp == s.secrets[SmtpKey(r)]
      && ServiceKeyField in s.secrets[PagerDutyKey(r)]
      && res.value.pagerDutyServiceKey == s.secrets[PagerDutyKey(r)][ServiceKeyField]
      && UrlField in s.secrets[DeadMansSnitchKey(r)]
      && res.value.deadMansSnitchUrl == s.secrets[DeadMansSnitchKey(r)][UrlField]
      && res.value.routeHost == s.routes[RouteKey(r)]
  {
    if SmtpKey(r) !in s.secrets then
      Err(SmtpSecretNotFound(r.installation.smtpSecret))
    else if PagerDutyKey(r) !in s.secrets then
      Err(PagerDutySecretNotFound(r.installation.pagerDutySecret))
    else if ServiceKeyField !in s.secrets[PagerDutyKey(r)] then
      Err(PagerDutyServiceKeyUndefined)
    else if DeadMansSnitchKey(r) !in s.secrets then
      Err(DeadMansSnitchSecretNotFound(r.installation.deadMansSnitchSecret))
    else if UrlField !in s.secrets[DeadMansSnitchKey(r)] then
      Err(DeadMansSnitchUrlUndefined)
    else if RouteKey(r) !in s.routes then
      Err(AlertManagerRouteNotFound(AlertManagerRouteName))
    else
      Ok(Dependencies(
        s.secrets[SmtpKey(r)],
        s.secrets[PagerDutyKey(r)][ServiceKeyField],
        s.secrets[DeadMansSnitchKey(r)][UrlField],
        s.routes[RouteKey(r)]))
  }

  /**
    The substitution map: the SMTP fields, the route host, the two keys, and the
    address alerts are sent to, which is the override when one is given and
    `noreply@<route host>` otherwise.
   */
  function Substitutions(d: Dependencies, toAddressOverride: Option<string>): (m: map<string, string>)
    ensures m.Keys == SubstitutionKeys
    ensures toAddressOverride.None? ==> m[ToAddressKey] == "noreply@" + d.routeHost
    ensures toAddressOverride.Some? ==> m[ToAddressKey] == toAddressOverride.value
  {
    map[
      SmtpHostKey := Field(d.smtp, "host"),
      SmtpPortKey := Field(d.smtp, "port"),
      RouteKeyName := d.routeHost,
      SmtpUsernameKey := Field(d.smtp, "username"),
      SmtpPasswordKey := Field(d.smtp, "password"),
      PagerDutyServiceKeyKey := d.pagerDutyServiceKey,
      DeadMansSnitchUrlKey := d.deadMansSnitchUrl,
      ToAddressKey := match toAddressOverride case Some(v) => v case None => "noreply@" + d.routeHost
    ]
  }

  /** The config secret's data: the rendered template under the fixed file key, and nothing else. */
  function ConfigSecretData(d: Dependencies, toAddressOverride: Option<string>, render: Renderer): SecretData {
    map[ConfigSecretFileName := render(Substitutions(d, toAddressOverride))]
  }

  /** The step on a snapshot: its outcome and the cluster afterwards. */
  function AlertStep(r: Reconciler, s: State, toAddressOverride: Option<string>, render: Renderer): (res: (Outcome, State))
    ensures res.0.phase != InProgress
    ensures res.0.phase == Failed ==> res.0.err.Some? && res.1 == s
    ensures res.0.phase == Completed ==>
      && res.0.err == None
      && CheckDependencies(r, s).Ok?
      && res.1 == s.(secrets := s.secrets[ConfigSecretKey(r) :=
                       ConfigSecretData(CheckDependencies(r, s).value, toAddressOverride, render)])
  {
    match CheckDependencies(r, s)
    case Err(e) => (Outcome(Failed, Some(e)), s)
    case Ok(d) =>
      (Outcome(Completed, None),
       s.(secrets := s.secrets[ConfigSecretKey(r) := ConfigSecretData(d, toAddressOverride, render)]))
  }

  /** The step on the live cluster. */
  method ReconcileAlertManagerConfigSecret(r: Reconciler, store: Store, toAddressOverride: Option<string>, render: Renderer)
    returns (o: Outcome)
    modifies store
    ensures (o, store.Snapshot()) == AlertStep(r, old(store.Snapshot()), toAddressOverride, render)
  {
    var deps := CheckDependencies(r, store.Snapshot());
    if deps.Err? {
      return Outcome(Failed, Some(deps.error));
    }
    store.UpsertSecret(ConfigSecretKey(r), ConfigSecretData(deps.value, toAddressOverride, render));
    o := Outcome(Completed, None);
  }

  // ---------------------------------------------------------------------------
  // Properties

  /**
    Fail-fast order: when the first `i` checks pass and check `i` fails, the
    step reports exactly check `i`'s error, whatever else is missing.
   */
  lemma {:induction false} FailFastOrder(r: Reconciler, s: State, i: nat, toAddressOverride: Option<string>, render: Renderer)
    requires i < CheckCount
    requires forall j :: 0 <= j < i ==> CheckPasses(r, s, j)
    requires !CheckPasses(r, s, i)
    ensures CheckDependencies(r, s) == Err(CheckError(r, i))
    ensures AlertStep(r, s, toAddressOverride, render) == (Outcome(Failed, Some(CheckError(r, i))), s)
  {
    if i > 0 { assert CheckPasses(r, s, 0); }
    if i > 1 { assert CheckPasses(r, s, 1); }
    if i > 2 { assert CheckPasses(r, s, 2); }
    if i > 3 { assert CheckPasses(r, s, 3); }
    if i > 4 { assert CheckPasses(r, s, 4); }
  }

  /** The step gets past validation exactly when all six checks pass. */
  lemma {:induction false} ChecksPassExactly(r: Reconciler, s: State)
    ensures CheckDependencies(r, s).Ok? <==> forall i :: 0 <= i < CheckCount ==> CheckPasses(r, s, i)
  {
    if CheckDependencies(r, s).Ok? {
      forall i | 0 <= i < CheckCount ensures CheckPasses(r, s, i) {
      }
    } else {
      assert !CheckPasses(r, s, 0) || !CheckPasses(r, s, 1) || !CheckPasses(r, s, 2)
          || !CheckPasses(r, s, 3) || !CheckPasses(r, s, 4) || !CheckPasses(r, s, 5);
    }
  }

  /**
    With every dependency present the step completes, and the config secret then
    holds, under the file key and nothing else, the template rendered with the
    eight values taken from the secrets and the route; no other object changes.
   */
  lemma {:induction false} WritesRenderedTemplate(r: Reconciler, s: State, toAddressOverride: Option<string>, render: Renderer)
    requires forall i :: 0 <= i < CheckCount ==> CheckPasses(r, s, i)
    ensures SmtpKey(r) in s.secrets && PagerDutyKey(r) in s.secrets && DeadMansSnitchKey(r) in s.secrets
    ensures RouteKey(r) in s.routes
    ensures ServiceKeyField in s.secrets[PagerDutyKey(r)] && UrlField in s.secrets[DeadMansSnitchKey(r)]
    ensures
      var smtp := s.secrets[SmtpKey(r)];
      var host := s.routes[RouteKey(r)];
      var substitutions := map[
        "SMTPHost" := Field(smtp, "host"),
        "SMTPPort" := Field(smtp, "port"),
        "AlertManagerRoute" := host,
        "SMTPUsername" := Field(smtp, "username"),
        "SMTPPassword" := Field(smtp, "password"),
        "PagerDutyServiceKey" := s.secrets[PagerDutyKey(r)]["serviceKey"],
        "DeadMansSnitchURL" := s.secrets[DeadMansSnitchKey(r)]["url"],
        "SMTPToAddress" := if toAddressOverride.Some? then toAddressOverride.value else "noreply@" + host
      ];
      AlertStep(r, s, toAddressOverride, render) ==
        (Outcome(Completed, None),
         s.(secrets := s.secrets[ConfigSecretKey(r) := map[ConfigSecretFileName := render(substitutions)]]))
  {
    ChecksPassExactly(r, s);
    var d := CheckDependencies(r, s).value;
    var m := Substitutions(d, toAddressOverride);
    var smtp := s.secrets[SmtpKey(r)];
    var host := s.routes[RouteKey(r)];
    var substitutions := map[
      "SMTPHost" := Field(smtp, "host"),
      "SMTPPort" := Field(smtp, "port"),
      "AlertManagerRoute" := host,
      "SMTPUsername" := Field(smtp, "username"),
      "SMTPPassword" := Field(smtp, "password"),
      "PagerDutyServiceKey" := s.secrets[PagerDutyKey(r)]["serviceKey"],
      "DeadMansSnitchURL" := s.secrets[DeadMansSnitchKey(r)]["url"],
      "SMTPToAddress" := if toAddressOverride.Some? then toAddressOverride.value else "noreply@" + host
    ];
    assert m == substitutions;
  }

  /** The override replaces the to-address and leaves the other seven values as they are. */
  lemma OverrideOnlyChangesToAddress(d: Dependencies, v: string)
    ensures Substitutions(d, Some(v)) == Substitutions(d, None)[ToAddressKey := v]
    ensures forall k :: k in SubstitutionKeys && k != ToAddressKey ==>
              Substitutions(d, Some(v))[k] == Substitutions(d, None)[k]
  {
  }

  /** Two snapshots that differ at most in the config secret itself. */
  predicate SameButConfigSecret(r: Reconciler, s1: State, s2: State) {
    s1.(secrets := s1.secrets - {ConfigSecretKey(r)}) == s2.(secrets := s2.secrets - {ConfigSecretKey(r)})
  }

  /** The checks never look at the config secret. */
  lemma {:induction false} ChecksIgnoreConfigSecret(r: Reconciler, s1: State, s2: State)
    requires ConfigSecretIsSeparate(r)
    requires SameButConfigSecret(r, s1, s2)
    ensures CheckDependencies(r, s1) == CheckDependencies(r, s2)
  {
    var t := ConfigSecretKey(r);
    assert s1.routes == s2.routes;
    forall k | k != t ensures (k in s1.secrets <==> k in s2.secrets) && (k in s1.secrets ==> s1.secrets[k] == s2.secrets[k]) {
      assert k in s1.secrets <==> k in s1.secrets - {t};
      assert k in s2.secrets <==> k in s2.secrets - {t};
      if k in s1.secrets {
        assert s1.secrets[k] == (s1.secrets - {t})[k];
        assert s2.secrets[k] == (s2.secrets - {t})[k];
      }
    }
  }

  /**
    Upsert overwrites: what the config secret held before (absent, empty, or
    anything else) changes neither the outcome nor the cluster afterwards.
   */
  lemma {:induction false} PriorConfigSecretIrrelevant(r: Reconciler, s1: State, s2: State, toAddressOverride: Option<string>, render: Renderer)
    requires ConfigSecretIsSeparate(r)
    requires SameButConfigSecret(r, s1, s2)
    ensures AlertStep(r, s1, toAddressOverride, render).0 == AlertStep(r, s2, toAddressOverride, render).0
    ensures AlertStep(r, s1, toAddressOverride, render).0.phase == Completed ==>
              AlertStep(r, s1, toAddressOverride, render).1 == AlertStep(r, s2, toAddressOverride, render).1
  {
    ChecksIgnoreConfigSecret(r, s1, s2);
    var t := ConfigSecretKey(r);
    if CheckDependencies(r, s1).Ok? {
      var data := ConfigSecretData(CheckDependencies(r, s1).value, toAddressOverride, render);
      forall k | k != t ensures (k in s1.secrets <==> k in s2.secrets) && (k in s1.secrets ==> s1.secrets[k] == s2.secrets[k]) {
        assert k in s1.secrets <==> k in s1.secrets - {t};
        assert k in s2.secrets <==> k in s2.secrets - {t};
        if k in s1.secrets {
          assert s1.secrets[k] == (s1.secrets - {t})[k];
          assert s2.secrets[k] == (s2.secrets - {t})[k];
        }
      }
      assert s1.secrets[t := data] == s2.secrets[t := data];
    }
  }

  /**
    Re-running the step on the cluster it produced reports the same outcome and
    writes nothing new: the rendered data is already in place.
   */
  lemma {:induction false} RerunIsNoOp(r: Reconciler, s: State, toAddressOverride: Option<string>, render: Renderer)
    requires ConfigSecretIsSeparate(r)
    ensures var (o, after) := AlertStep(r, s, toAddressOverride, render);
            AlertStep(r, after, toAddressOverride, render) == (o, after)
  {
    var (o, after) := AlertStep(r, s, toAddressOverride, render);
    if o.phase == Completed {
      var t := ConfigSecretKey(r);
      assert after.secrets - {t} == s.secrets - {t};
      PriorConfigSecretIrrelevant(r, after, s, toAddressOverride, render);
      assert after.secrets[t := after.secrets[t]] == after.secrets;
    }
  }
}
