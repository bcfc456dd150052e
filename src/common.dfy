/**
 * Names of the Kubernetes objects the operator derives from its own name
 * (pkg/controllers/common/common.go).
 */
module Common {
  import opened Text

  /** The operator's options; the logger is not modelled. */
  datatype OperatorOptions = OperatorOptions(operatorName: string, controllerNamespace: string)

  /** Name of the collector's configuration object: the operator name and "-config". */
  function NamespacedConfigName(opts: OperatorOptions): (r: string)
    ensures HasSuffix(r, "-config")
    ensures TrimSuffix(r, "-config") == opts.operatorName
  {
    opts.operatorName + "-config"
  }

  /** Name of the collector's workload: the operator name and "-collector". */
  function NamespacedCollectorName(opts: OperatorOptions): (r: string)
    ensures HasSuffix(r, "-collector")
    ensures TrimSuffix(r, "-collector") == opts.operatorName
  {
    opts.operatorName + "-collector"
  }

  /** Both names depend on the operator name alone. */
  lemma NamesIgnoreNamespace(a: OperatorOptions, b: OperatorOptions)
    requires a.operatorName == b.operatorName
    ensures NamespacedConfigName(a) == NamespacedConfigName(b)
    ensures NamespacedCollectorName(a) == NamespacedCollectorName(b)
  {
  }

  /** Each name determines the operator name it was derived from. */
  lemma NamesInjective(a: OperatorOptions, b: OperatorOptions)
    ensures NamespacedConfigName(a) == NamespacedConfigName(b) ==> a.operatorName == b.operatorName
    ensures NamespacedCollectorName(a) == NamespacedCollectorName(b) ==> a.operatorName == b.operatorName
  {
  }

  /** A configuration name never coincides with a collector name, whatever the two operators. */
  lemma ConfigNameIsNotCollectorName(a: OperatorOptions, b: OperatorOptions)
    ensures NamespacedConfigName(a) != NamespacedCollectorName(b)
  {
    var c, d := NamespacedConfigName(a), NamespacedCollectorName(b);
    assert c[|c| - 1] == 'g' && d[|d| - 1] == 'r';
  }
}
