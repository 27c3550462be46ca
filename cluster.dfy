/**
  The part of the cluster the monitoring reconciler reads and writes: namespaces,
  secrets, routes and ApplicationMonitoring custom resources. `State` is a value
  snapshot; `Store` is the mutable cluster that the reconcile methods update in place.
 */
module Cluster {
  import opened Wrappers

  /** A namespaced object name. */
  datatype ObjectKey = ObjectKey(namespace: string, name: string)

  datatype NamespacePhase = Active | Terminating

  /** A namespace: its status phase and the value of its owner label, if any. */
  datatype Namespace = Namespace(phase: NamespacePhase, owner: Option<string>)

  /** A secret's data: field name to field value. */
  type SecretData = map<string, string>

  /** Reads a secret field the way Go reads a missing map key: as the empty value. */
  function Field(data: SecretData, field: string): string {
    if field in data then data[field] else ""
  }

  datatype State = State(
    namespaces: map<string, Namespace>,
    secrets: map<ObjectKey, SecretData>,
    // a route's spec.host
    routes: map<ObjectKey, string>,
    // an ApplicationMonitoring resource's spec
    monitors: map<ObjectKey, string>)

  class Store {
    var namespaces: map<string, Namespace>
    var secrets: map<ObjectKey, SecretData>
    var routes: map<ObjectKey, string>
    var monitors: map<ObjectKey, string>

    function Snapshot(): State
      reads this
    {
      State(namespaces, secrets, routes, monitors)
    }

    constructor (s: State)
      ensures Snapshot() == s
    {
      namespaces, secrets, routes, monitors := s.namespaces, s.secrets, s.routes, s.monitors;
    }

    /** Creates a namespace carrying the installation's owner label. */
    method CreateNamespace(name: string, owner: string)
      modifies this
      ensures namespaces == old(namespaces)[name := Namespace(Active, Some(owner))]
      ensures secrets == old(secrets) && routes == old(routes) && monitors == old(monitors)
    {
      namespaces := namespaces[name := Namespace(Active, Some(owner))];
    }

    /** Create-or-update of a secret: the whole data field is replaced. */
    method UpsertSecret(key: ObjectKey, data: SecretData)
      modifies this
      ensures secrets == old(secrets)[key := data]
      ensures namespaces == old(namespaces) && routes == old(routes) && monitors == old(monitors)
    {
      secrets := secrets[key := data];
    }

    /** Create-or-update of an ApplicationMonitoring resource. */
    method WriteMonitor(key: ObjectKey, spec: string)
      modifies this
      ensures monitors == old(monitors)[key := spec]
      ensures namespaces == old(namespaces) && secrets == old(secrets) && routes == old(routes)
    {
      monitors := monitors[key := spec];
    }
  }
}
