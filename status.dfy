/**
  The result every reconcile step returns: a coarse phase and an optional
  error, and the errors the monitoring reconciler can report.
 */
module Status {
  import opened Wrappers

  /** The product status phases the monitoring reconciler returns. */
  datatype Phase = InProgress | Completed | Failed

  /** The errors a reconcile step can return. */
  datatype Error =
    | SmtpSecretNotFound(secret: string)
    | PagerDutySecretNotFound(secret: string)
    | PagerDutyServiceKeyUndefined
    | DeadMansSnitchSecretNotFound(secret: string)
    | DeadMansSnitchUrlUndefined
    | AlertManagerRouteNotFound(route: string)
    | NamespaceNotOwned(namespace: string)
    | InstallOperatorFailed(cause: string)
    | InstallPlanLookupFailed(cause: string)
    | InstallPlanFailed(plan: string, reason: string)
    | CustomResourceWriteFailed(cause: string)
  {
    /** The six errors of the alert-manager config-secret step. */
    predicate IsConfigSecretError() {
      || SmtpSecretNotFound? || PagerDutySecretNotFound? || PagerDutyServiceKeyUndefined?
      || DeadMansSnitchSecretNotFound? || DeadMansSnitchUrlUndefined? || AlertManagerRouteNotFound?
    }

    /** The text of the error, as `err.Error()` renders it. */
    function Message(): string {
      match this
      case SmtpSecretNotFound(n) =>
        ObtainFailed("smtp credentials secret", "secrets", n)
      case PagerDutySecretNotFound(n) =>
        ObtainFailed("pagerduty credentials secret", "secrets", n)
      case PagerDutyServiceKeyUndefined =>
        "serviceKey is undefined in pager duty secret"
      case DeadMansSnitchSecretNotFound(n) =>
        ObtainFailed("dead mans snitch credentials secret", "secrets", n)
      case DeadMansSnitchUrlUndefined =>
        "url is undefined in dead mans switch secret"
      case AlertManagerRouteNotFound(n) =>
        ObtainFailed("alert manager route", "routes.route.openshift.io", n)
      case NamespaceNotOwned(n) =>
        "namespace " + n + " is not owned by this installation"
      case InstallOperatorFailed(c) =>
        "could not create subscription: " + c
      case InstallPlanLookupFailed(c) =>
        "could not retrieve installplan and subscription: " + c
      case InstallPlanFailed(p, c) =>
        "install plan " + p + " failed: " + c
      case CustomResourceWriteFailed(c) =>
        "failed to create/update applicationmonitoring custom resource: " + c
    }
  }

  /**
    A failed lookup wrapped with what was being obtained:
    `could not obtain <what>: <resource> "<name>" not found`.
   */
  function ObtainFailed(what: string, resource: string, name: string): string {
    "could not obtain " + what + ": " + resource + " \"" + name + "\" not found"
  }

  /** What one step (or a whole pass) reports. */
  datatype Outcome = Outcome(phase: Phase, err: Option<Error>) {
    /** The pipeline goes on to the next step only on `Completed` with no error. */
    predicate Proceed() {
      phase == Completed && err == None
    }
  }

  /** Two texts that share a prefix and a suffix are equal in the middle too. */
  lemma {:induction false} MiddleDetermined(p: string, a: string, b: string, q: string)
    requires p + a + q == p + b + q
    ensures a == b
  {
    var x := p + a + q;
    assert |a| == |b|;
    assert a == x[|p|..|p| + |a|];
    assert b == (p + b + q)[|p|..|p| + |b|];
  }

  /** The characters at positions 0 and 17 of each config-secret error text. */
  function Signature(e: Error): (char, char)
    requires e.IsConfigSecretError()
  {
    match e
    case SmtpSecretNotFound(_) => ('c', 's')
    case PagerDutySecretNotFound(_) => ('c', 'p')
    case PagerDutyServiceKeyUndefined => ('s', 'e')
    case DeadMansSnitchSecretNotFound(_) => ('c', 'd')
    case DeadMansSnitchUrlUndefined => ('u', 'i')
    case AlertManagerRouteNotFound(_) => ('c', 'a')
  }

  lemma {:induction false} SignatureOfMessage(e: Error)
    requires e.IsConfigSecretError()
    ensures |e.Message()| > 17 && (e.Message()[0], e.Message()[17]) == Signature(e)
  {
    match e
    case SmtpSecretNotFound(n) =>
      ObtainFailedAt17("smtp credentials secret", "secrets", n);
    case PagerDutySecretNotFound(n) =>
      ObtainFailedAt17("pagerduty credentials secret", "secrets", n);
    case PagerDutyServiceKeyUndefined =>
      assert e.Message()[17] == "serviceKey is undefined in pager duty secret"[17];
    case DeadMansSnitchSecretNotFound(n) =>
      ObtainFailedAt17("dead mans snitch credentials secret", "secrets", n);
    case DeadMansSnitchUrlUndefined =>
    case AlertManagerRouteNotFound(n) =>
      ObtainFailedAt17("alert manager route", "routes.route.openshift.io", n);
  }

  lemma ObtainFailedAt17(what: string, resource: string, name: string)
    requires what != ""
    ensures var m := ObtainFailed(what, resource, name); |m| > 17 && m[0] == 'c' && m[17] == what[0]
  {
  }

  /** Different object names give different lookup-failure texts. */
  lemma ObtainFailedInjective(what: string, resource: string, a: string, b: string)
    requires ObtainFailed(what, resource, a) == ObtainFailed(what, resource, b)
    ensures a == b
  {
    MiddleDetermined("could not obtain " + what + ": " + resource + " \"", a, b, "\" not found");
  }

  /**
    Each failure of the alert-manager config-secret step has its own error
    text: equal texts mean equal errors (same check, same object name).
   */
  lemma {:induction false} ConfigSecretMessagesDistinct(e1: Error, e2: Error)
    requires e1.IsConfigSecretError() && e2.IsConfigSecretError()
    requires e1.Message() == e2.Message()
    ensures e1 == e2
  {
    SignatureOfMessage(e1);
    SignatureOfMessage(e2);
    match e1
    case SmtpSecretNotFound(n1) =>
      ObtainFailedInjective("smtp credentials secret", "secrets", n1, e2.secret);
    case PagerDutySecretNotFound(n1) =>
      ObtainFailedInjective("pagerduty credentials secret", "secrets", n1, e2.secret);
    case DeadMansSnitchSecretNotFound(n1) =>
      ObtainFailedInjective("dead mans snitch credentials secret", "secrets", n1, e2.secret);
    case AlertManagerRouteNotFound(n1) =>
      ObtainFailedInjective("alert manager route", "routes.route.openshift.io", n1, e2.route);
    case _ =>
  }

  // The error texts of the fixture installation (SMTP secret "test-smtp",
  // PagerDuty secret "test-pd", Dead Man's Snitch secret "test-dms"). Each text
  // is written in two literals, cut after its colon.

  lemma SmtpFixtureText()
    ensures SmtpSecretNotFound("test-smtp").Message()
         == "could not obtain smtp credentials secret: " + "secrets \"test-smtp\" not found"
  {
    assert "could not obtain smtp credentials secret: " == "could not obtain " + "smtp credentials secret" + ": ";
    assert "secrets \"test-smtp\" not found" == "secrets" + " \"" + "test-smtp" + "\" not found";
  }

  lemma PagerDutyFixtureText()
    ensures PagerDutySecretNotFound("test-pd").Message()
         == "could not obtain pagerduty credentials secret: " + "secrets \"test-pd\" not found"
  {
    assert "could not obtain pagerduty credentials secret: " == "could not obtain " + "pagerduty credentials secret" + ": ";
    assert "secrets \"test-pd\" not found" == "secrets" + " \"" + "test-pd" + "\" not found";
  }

  lemma DeadMansSnitchFixtureText()
    ensures DeadMansSnitchSecretNotFound("test-dms").Message()
         == "could not obtain dead mans snitch credentials secret: " + "secrets \"test-dms\" not found"
  {
    assert "could not obtain dead mans snitch credentials secret: "
        == "could not obtain " + "dead mans snitch credentials secret" + ": ";
    assert "secrets \"test-dms\" not found" == "secrets" + " \"" + "test-dms" + "\" not found";
  }

  lemma RouteFixtureText()
    ensures AlertManagerRouteNotFound("alertmanager-route").Message()
         == "could not obtain alert manager route: " + "routes.route.openshift.io \"alertmanager-route\" not found"
  {
    assert "could not obtain alert manager route: " == "could not obtain " + "alert manager route" + ": ";
    assert "routes.route.openshift.io \"alertmanager-route\" not found"
        == "routes.route.openshift.io" + " \"" + "alertmanager-route" + "\" not found";
  }

  /** The six texts the config-secret step reports for the fixture installation. */
  lemma {:induction false} ConfigSecretMessagesMatchFixture()
    ensures SmtpSecretNotFound("test-smtp").Message()
         == "could not obtain smtp credentials secret: " + "secrets \"test-smtp\" not found"
    ensures PagerDutySecretNotFound("test-pd").Message()
         == "could not obtain pagerduty credentials secret: " + "secrets \"test-pd\" not found"
    ensures PagerDutyServiceKeyUndefined.Message() == "serviceKey is undefined in pager duty secret"
    ensures DeadMansSnitchSecretNotFound("test-dms").Message()
         == "could not obtain dead mans snitch credentials secret: " + "secrets \"test-dms\" not found"
    ensures DeadMansSnitchUrlUndefined.Message() == "url is undefined in dead mans switch secret"
    ensures AlertManagerRouteNotFound("alertmanager-route").Message()
         == "could not obtain alert manager route: " + "routes.route.openshift.io \"alertmanager-route\" not found"
  {
    SmtpFixtureText();
    PagerDutyFixtureText();
    DeadMansSnitchFixtureText();
    RouteFixtureText();
  }
}
