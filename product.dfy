/**
  The monitoring reconciler's configuration: the installation it works for, the
  product config it reads when it is constructed, and the namespaces derived from them.
 */
module Product {
  import opened Wrappers

  /** The product namespace used when the config names none (before the installation's prefix). */
  const DefaultInstallationNamespace: string := "middleware-monitoring"
  const OperatorNamespaceSuffix: string := "-operator"

  /** Keys of the monitoring product config. */
  const NamespaceKey: string := "NAMESPACE"
  const OperatorNamespaceKey: string := "OPERATOR_NAMESPACE"

  /** The fields of the installation custom resource the monitoring reconciler reads. */
  datatype Installation = Installation(
    uid: string,
    namespace: string,
    namespacePrefix: string,
    smtpSecret: string,
    pagerDutySecret: string,
    deadMansSnitchSecret: string)

  /** The monitoring product config: a string-to-string document. */
  type ProductConfig = map<string, string>

  /** A constructed reconciler: the installation and the two namespaces it manages. */
  datatype Reconciler = Reconciler(installation: Installation, namespace: string, operatorNamespace: string)

  /** A config value, empty when the key is missing. */
  function ConfigValue(config: ProductConfig, key: string): string {
    if key in config then config[key] else ""
  }

  /**
    Builds a reconciler from the outcome of reading the monitoring config. A
    read failure is returned verbatim. Otherwise an empty or missing namespace
    defaults to the installation's prefix followed by the default namespace, and
    an empty or missing operator namespace to the namespace plus "-operator".
   */
  function NewReconciler(read: Result<ProductConfig, string>, inst: Installation): (r: Result<Reconciler, string>)
    ensures r.Err? <==> read.Err?
    ensures read.Err? ==> r.error == read.error
    ensures r.Ok? ==> r.value.installation == inst
    ensures r.Ok? ==> r.value.namespace != "" && r.value.operatorNamespace != ""
    ensures r.Ok? && ConfigValue(read.value, NamespaceKey) != "" ==>
              r.value.namespace == read.value[NamespaceKey]
    ensures r.Ok? && ConfigValue(read.value, NamespaceKey) == "" ==>
              r.value.namespace == inst.namespacePrefix + DefaultInstallationNamespace
    ensures r.Ok? && ConfigValue(read.value, OperatorNamespaceKey) != "" ==>
              r.value.operatorNamespace == read.value[OperatorNamespaceKey]
    ensures r.Ok? && ConfigValue(read.value, OperatorNamespaceKey) == "" ==>
              r.value.operatorNamespace == r.value.namespace + OperatorNamespaceSuffix
  {
    match read
    case Err(e) => Err(e)
    case Ok(config) =>
      var ns := ConfigValue(config, NamespaceKey);
      var namespace := if ns != "" then ns else inst.namespacePrefix + DefaultInstallationNamespace;
      var ons := ConfigValue(config, OperatorNamespaceKey);
      var operatorNamespace := if ons != "" then ons else namespace + OperatorNamespaceSuffix;
      Ok(Reconciler(inst, namespace, operatorNamespace))
  }
}
