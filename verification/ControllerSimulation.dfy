/**
The two controllers agree: resolving a namespaced resource gives what the cluster
controller gives for the same parameters with every reference placed in the resource's
namespace, errors included.
*/
module ControllerSimulation {
  import opened Results
  import opened Parameters
  import C = ClusterResolve
  import N = NamespacedResolve

  /** Same environment, or the same first error, for every list of variables. */
  lemma EnvSimulates(keys: Keys, namespace: string, env: seq<EnvVar<LocalRef>>)
    ensures N.EnvList(keys, namespace, env) == C.EnvList(keys, LocalizeEnv(env, namespace))
  {
    var there := LocalizeEnv(env, namespace);
    forall i | 0 <= i < |env|
      ensures N.EnvEntry(keys, namespace)(env[i]) == C.EnvEntry(keys)(there[i])
    {
      assert N.RuntimeValue(keys, namespace, env[i]) == C.RuntimeValue(keys, there[i]);
    }
    CollectPointwise(N.EnvEntry(keys, namespace), env, C.EnvEntry(keys), there);
  }

  /** Same options in the same order, or the same first error, for all parameters. */
  lemma OptionsSimulate(keys: Keys, namespace: string, p: Parameters<LocalRef>)
    ensures N.OptionList(keys, namespace, p) == C.OptionList(keys, Localize(p, namespace))
  {
    var there := LocalizeVarFiles(p.varFiles, namespace);
    forall i | 0 <= i < |p.varFiles|
      ensures N.VarFileOption(keys, namespace)(p.varFiles[i]) == C.VarFileOption(keys)(there[i])
    {
    }
    CollectPointwise(N.VarFileOption(keys, namespace), p.varFiles, C.VarFileOption(keys), there);
  }
}
