/** Turning an LRP into a stateful set and its auxiliary objects (k8s/stset/desire.go).
    The collaborators are fields of `Desirer`; every call the desirer makes to
    a creator or an option is recorded, in order, in the returned trace. */
module StatefulSetDesire {
  import opened Go
  import opened Kube
  import opened Opi

  /** `shared.Option`: a hook run on the unsubmitted stateful set; it may
      change it or fail. */
  type StatefulSetOption = StatefulSet -> Result<StatefulSet>

  /** The collaborators a `Desirer` is built from. */
  datatype Desirer = Desirer(
    statefulSetName: LRP -> Result<string>,                           // utils.GetStatefulsetName
    dockerConfigJSON: PrivateRegistry -> Result<string>,               // dockerutils.NewDockerConfig(..).JSON()
    createSecret: (string, Secret) -> Option<Error>,                   // SecretsCreator.Create
    lrpToStatefulSet: (string, LRP) -> Result<StatefulSet>,            // LRPToStatefulSet
    createStatefulSet: (string, StatefulSet) -> Option<Error>,         // StatefulSetCreator.Create
    createPodDisruptionBudget: (string, string, LRP) -> Option<Error>) // createPodDisruptionBudgetFunc

  /** One call the desirer makes on a collaborator. */
  datatype Call =
    | CreateSecret(namespace: string, secret: Secret)
    | ApplyOption(index: nat, target: StatefulSet)
    | CreateStatefulSet(namespace: string, statefulSet: StatefulSet)
    | CreatePodDisruptionBudget(namespace: string, name: string)

  predicate SecretRequested(calls: seq<Call>)
  {
    exists i :: 0 <= i < |calls| && calls[i].CreateSecret?
  }

  predicate Submitted(calls: seq<Call>)
  {
    exists i :: 0 <= i < |calls| && calls[i].CreateStatefulSet?
  }

  predicate BudgetRequested(calls: seq<Call>)
  {
    exists i :: 0 <= i < |calls| && calls[i].CreatePodDisruptionBudget?
  }

  const RegistryCredentialsSuffix := "-registry-credentials"

  /** `privateRegistrySecretName`: the stateful-set name with a fixed suffix. */
  function PrivateRegistrySecretName(statefulSetName: string): (r: string)
    ensures HasPrefix(r, statefulSetName)
    ensures r[|statefulSetName|..] == "-registry-credentials"
  {
    statefulSetName + RegistryCredentialsSuffix
  }

  /** Different stateful sets never share a registry secret. */
  lemma SecretNamesDistinct(a: string, b: string)
    requires a != b
    ensures PrivateRegistrySecretName(a) != PrivateRegistrySecretName(b)
  {
  }

  /** `generateRegistryCredsSecret`: a docker-config secret holding the
      rendered registry configuration under the docker-config key. */
  function GenerateRegistryCredsSecret(d: Desirer, statefulSetName: string, registry: PrivateRegistry): (r: Result<Secret>)
    ensures r.Ok? <==> d.dockerConfigJSON(registry).Ok?
    ensures r.Ok? ==> r.value.name == PrivateRegistrySecretName(statefulSetName)
    ensures r.Ok? ==> r.value.secretType == SecretTypeDockerConfigJson
    ensures r.Ok? ==> r.value.stringData.Keys == {DockerConfigKey}
    ensures r.Ok? ==> r.value.stringData[DockerConfigKey] == d.dockerConfigJSON(registry).value
    ensures r.Err? ==> r.error == Wrapped("failed to generate privete registry config", d.dockerConfigJSON(registry).error)
  {
    match d.dockerConfigJSON(registry)
    case Err(e) => Err(Wrapped("failed to generate privete registry config", e))
    case Ok(json) =>
      Ok(Secret(PrivateRegistrySecretName(statefulSetName), SecretTypeDockerConfigJson, map[DockerConfigKey := json]))
  }

  /** The registry-secret step fails: the secret cannot be generated or its creation fails. */
  predicate SecretStepFails(d: Desirer, namespace: string, statefulSetName: string, registry: PrivateRegistry)
  {
    match GenerateRegistryCredsSecret(d, statefulSetName, registry)
    case Err(_) => true
    case Ok(secret) => d.createSecret(namespace, secret).Some?
  }

  /** The calls of the registry-secret step: one creation, when the secret can be generated. */
  function SecretCalls(d: Desirer, namespace: string, statefulSetName: string, registry: PrivateRegistry): seq<Call>
  {
    match GenerateRegistryCredsSecret(d, statefulSetName, registry)
    case Err(_) => []
    case Ok(secret) => [CreateSecret(namespace, secret)]
  }

  /** `createRegistryCredsSecret`. */
  method CreateRegistryCredsSecret(d: Desirer, namespace: string, statefulSetName: string, registry: PrivateRegistry)
    returns (err: Option<Error>, calls: seq<Call>)
    ensures err.Some? <==> SecretStepFails(d, namespace, statefulSetName, registry)
    ensures calls == SecretCalls(d, namespace, statefulSetName, registry)
    // a secret that cannot be generated is never submitted
    ensures GenerateRegistryCredsSecret(d, statefulSetName, registry).Err? ==>
              calls == [] && err == Some(Wrapped("failed to generate private registry secret for statefulset",
                                                 GenerateRegistryCredsSecret(d, statefulSetName, registry).error))
    // otherwise exactly one creation, in the desired namespace; its failure is passed on with context
    ensures GenerateRegistryCredsSecret(d, statefulSetName, registry).Ok? ==>
              var secret := GenerateRegistryCredsSecret(d, statefulSetName, registry).value;
              calls == [CreateSecret(namespace, secret)] &&
              err == Wrap("failed to create private registry secret for statefulset", d.createSecret(namespace, secret))
  {
    var secret := GenerateRegistryCredsSecret(d, statefulSetName, registry);
    if secret.Err? {
      return Some(Wrapped("failed to generate private registry secret for statefulset", secret.error)), [];
    }
    calls := [CreateSecret(namespace, secret.value)];
    err := Wrap("failed to create private registry secret for statefulset", d.createSecret(namespace, secret.value));
  }

  /** The options applied one after another, stopping at the first failure. */
  function ApplyAll(st: StatefulSet, opts: seq<StatefulSetOption>): Result<StatefulSet>
    decreases |opts|
  {
    if opts == [] then Ok(st)
    else
      match opts[0](st)
      case Err(e) => Err(e)
      case Ok(next) => ApplyAll(next, opts[1..])
  }

  /** The option calls made when the options are applied one after another,
      numbered from `from`: each runs on what the one before produced, and a
      failing option is the last one run. */
  function OptionCalls(st: StatefulSet, opts: seq<StatefulSetOption>, from: nat): seq<Call>
    decreases |opts|
  {
    if opts == [] then []
    else
      [ApplyOption(from, st)] +
      (match opts[0](st)
       case Err(_) => []
       case Ok(next) => OptionCalls(next, opts[1..], from + 1))
  }

  /** The option calls are numbered on from `from`, each option at most once;
      each runs on what the one before produced, the first on `st`; all run on
      success, and on failure the last one run is the one that failed. */
  lemma {:induction false} OptionCallsChain(st: StatefulSet, opts: seq<StatefulSetOption>, from: nat)
    ensures |OptionCalls(st, opts, from)| <= |opts|
    ensures forall i :: 0 <= i < |OptionCalls(st, opts, from)| ==>
              OptionCalls(st, opts, from)[i].ApplyOption? && OptionCalls(st, opts, from)[i].index == from + i
    ensures |OptionCalls(st, opts, from)| > 0 ==> OptionCalls(st, opts, from)[0].target == st
    ensures forall i :: 0 < i < |OptionCalls(st, opts, from)| ==>
              opts[i - 1](OptionCalls(st, opts, from)[i - 1].target) == Ok(OptionCalls(st, opts, from)[i].target)
    ensures ApplyAll(st, opts).Ok? ==> |OptionCalls(st, opts, from)| == |opts|
    ensures ApplyAll(st, opts).Err? ==>
              var calls := OptionCalls(st, opts, from);
              |calls| > 0 && opts[|calls| - 1](calls[|calls| - 1].target) == Err(ApplyAll(st, opts).error)
    decreases |opts|
  {
    if opts != [] && opts[0](st).Ok? {
      var next := opts[0](st).value;
      var rest := OptionCalls(next, opts[1..], from + 1);
      var calls := OptionCalls(st, opts, from);
      OptionCallsChain(next, opts[1..], from + 1);
      assert calls == [ApplyOption(from, st)] + rest;
      forall i | 0 < i < |calls|
        ensures opts[i - 1](calls[i - 1].target) == Ok(calls[i].target)
      {
        assert calls[i] == rest[i - 1];
        if i > 1 {
          assert calls[i - 1] == rest[i - 2] && opts[i - 1] == opts[1..][i - 2];
        }
      }
      if ApplyAll(st, opts).Err? {
        assert calls[|calls| - 1] == rest[|rest| - 1] && opts[|calls| - 1] == opts[1..][|rest| - 1];
      }
    }
  }

  /** `shared.ApplyOpts` as the desirer uses it. */
  method ApplyOpts(st: StatefulSet, opts: seq<StatefulSetOption>) returns (r: Result<StatefulSet>, calls: seq<Call>)
    ensures r == ApplyAll(st, opts)
    ensures calls == OptionCalls(st, opts, 0)
    // options run in order, each at most once, each on what the one before produced
    ensures |calls| <= |opts|
    ensures forall i :: 0 <= i < |calls| ==> calls[i].ApplyOption? && calls[i].index == i
    ensures |calls| > 0 ==> calls[0].target == st
    ensures forall i :: 0 < i < |calls| ==> opts[i - 1](calls[i - 1].target) == Ok(calls[i].target)
    // on success every option has run; on failure the last one run is the one that failed
    ensures r.Ok? ==> |calls| == |opts|
    ensures r.Err? ==> |calls| > 0 && opts[|calls| - 1](calls[|calls| - 1].target) == Err(r.error)
  {
    r, calls := ApplyInTurn(st, opts);
    OptionCallsChain(st, opts, 0);
  }

  /** One step of applying the options from position `i` on. */
  lemma ApplyStep(cur: StatefulSet, opts: seq<StatefulSetOption>, i: nat)
    requires i < |opts|
    ensures opts[i](cur).Err? ==> ApplyAll(cur, opts[i..]) == Err(opts[i](cur).error)
    ensures opts[i](cur).Err? ==> OptionCalls(cur, opts[i..], i) == [ApplyOption(i, cur)]
    ensures opts[i](cur).Ok? ==> ApplyAll(cur, opts[i..]) == ApplyAll(opts[i](cur).value, opts[i + 1..])
    ensures opts[i](cur).Ok? ==>
              OptionCalls(cur, opts[i..], i) == [ApplyOption(i, cur)] + OptionCalls(opts[i](cur).value, opts[i + 1..], i + 1)
  {
    assert opts[i..][0] == opts[i] && opts[i..][1..] == opts[i + 1..];
  }

  /** The loop of `shared.ApplyOpts`: each option in turn, stopping at the first error. */
  method ApplyInTurn(st: StatefulSet, opts: seq<StatefulSetOption>) returns (r: Result<StatefulSet>, calls: seq<Call>)
    ensures r == ApplyAll(st, opts)
    ensures calls == OptionCalls(st, opts, 0)
  {
    var cur := st;
    calls := [];
    var i := 0;
    while i < |opts|
      invariant 0 <= i <= |opts|
      invariant ApplyAll(st, opts) == ApplyAll(cur, opts[i..])
      invariant OptionCalls(st, opts, 0) == calls + OptionCalls(cur, opts[i..], i)
    {
      ApplyStep(cur, opts, i);
      ghost var before := calls;
      var call := ApplyOption(i, cur);
      calls := calls + [call];
      var outcome := opts[i](cur);
      if outcome.Err? {
        return Err(outcome.error), calls;
      }
      assert before + ([call] + OptionCalls(outcome.value, opts[i + 1..], i + 1)) ==
             calls + OptionCalls(outcome.value, opts[i + 1..], i + 1);
      cur := outcome.value;
      i := i + 1;
    }
    assert opts[i..] == [];
    assert calls + [] == calls;
    r := Ok(cur);
  }

  function WithNamespace(st: StatefulSet, namespace: string): StatefulSet
  {
    st.(meta := st.meta.(namespace := namespace))
  }

  /** The stateful set that would be submitted: the converted LRP, placed in
      the namespace, after every option. */
  function Prepared(d: Desirer, namespace: string, statefulSetName: string, lrp: LRP, opts: seq<StatefulSetOption>): Result<StatefulSet>
  {
    match d.lrpToStatefulSet(statefulSetName, lrp)
    case Err(e) => Err(e)
    case Ok(st) => ApplyAll(WithNamespace(st, namespace), opts)
  }

  /** A run of option calls numbered 0, 1, 2, ... */
  predicate OptionRun(calls: seq<Call>)
  {
    forall j :: 0 <= j < |calls| ==> calls[j].ApplyOption? && calls[j].index == j
  }

  /** The order of the desirer's calls: all options, numbered from 0, come
      right before the submission; option numbers only grow; there is at most
      one secret, one submission and one budget request; a budget request is
      the last call and follows the submission. */
  predicate CallsInOrder(calls: seq<Call>, optionCount: nat)
  {
    && (forall i :: 0 <= i < |calls| && calls[i].CreateStatefulSet? ==>
          optionCount <= i && OptionRun(calls[i - optionCount..i]))
    && (forall i, j :: 0 <= i < j < |calls| && calls[i].ApplyOption? && calls[j].ApplyOption? ==> calls[i].index < calls[j].index)
    && (forall i, j :: 0 <= i < |calls| && 0 <= j < |calls| && calls[i].CreateSecret? && calls[j].CreateSecret? ==> i == j)
    && (forall i, j :: 0 <= i < |calls| && 0 <= j < |calls| && calls[i].CreateStatefulSet? && calls[j].CreateStatefulSet? ==> i == j)
    && (forall i, j ::
          0 <= i < |calls| && 0 <= j < |calls| && calls[i].CreatePodDisruptionBudget? && calls[j].CreatePodDisruptionBudget? ==>
            i == j)
    && (BudgetRequested(calls) ==> Submitted(calls) && calls[|calls| - 1].CreatePodDisruptionBudget?)
  }

  /** Where each kind of call sits in a trace made of secret calls, then
      option calls, then the submission and the budget. */
  lemma TracePositions(pre: seq<Call>, options: seq<Call>, post: seq<Call>)
    requires forall i :: 0 <= i < |pre| ==> pre[i].CreateSecret?
    requires OptionRun(options)
    requires post != [] ==> post[0].CreateStatefulSet?
    requires |post| <= 2 && (|post| == 2 ==> post[1].CreatePodDisruptionBudget?)
    ensures forall i :: 0 <= i < |pre + options + post| && (pre + options + post)[i].CreateSecret? ==> i < |pre|
    ensures forall i :: 0 <= i < |pre + options + post| && (pre + options + post)[i].ApplyOption? ==>
              |pre| <= i < |pre| + |options| && (pre + options + post)[i].index == i - |pre|
    ensures forall i :: 0 <= i < |pre + options + post| && (pre + options + post)[i].CreateStatefulSet? ==>
              i == |pre| + |options| && (pre + options + post)[i] == post[0]
    ensures forall i :: 0 <= i < |pre + options + post| && (pre + options + post)[i].CreatePodDisruptionBudget? ==>
              i == |pre| + |options| + 1 == |pre + options + post| - 1
  {
  }

  /** Every trace the desirer can produce is in order, holds at most one
      submission, and holds each kind of call exactly when its part is there. */
  lemma {:induction false} DesireTraceInOrder(pre: seq<Call>, options: seq<Call>, post: seq<Call>, optionCount: nat)
    requires |pre| <= 1 && forall i :: 0 <= i < |pre| ==> pre[i].CreateSecret?
    requires |options| <= optionCount && OptionRun(options)
    requires post != [] ==> |options| == optionCount && post[0].CreateStatefulSet?
    requires |post| <= 2 && (|post| == 2 ==> post[1].CreatePodDisruptionBudget?)
    ensures CallsInOrder(pre + options + post, optionCount)
    ensures forall i :: 0 <= i < |pre + options + post| && (pre + options + post)[i].CreateStatefulSet? ==>
              (pre + options + post)[i] == post[0]
    ensures SecretRequested(pre + options + post) <==> pre != []
    ensures Submitted(pre + options + post) <==> post != []
    ensures BudgetRequested(pre + options + post) <==> |post| == 2
  {
    TracePositions(pre, options, post);
    var calls := pre + options + post;
    var k := |pre| + |options|;
    if pre != [] {
      assert calls[0] == pre[0];
    }
    if post != [] {
      assert calls[k] == post[0];
      assert calls[k - optionCount..k] == options;
    }
    if |post| == 2 {
      assert calls[|calls| - 1] == post[1];
    }
  }

  /** The calls of the submission: the creation, then a budget request after
      a creation that succeeded. */
  function SubmitCalls(d: Desirer, namespace: string, statefulSetName: string, st: StatefulSet): seq<Call>
  {
    [CreateStatefulSet(namespace, st)] +
    (if d.createStatefulSet(namespace, st).None? then [CreatePodDisruptionBudget(namespace, statefulSetName)] else [])
  }

  /** The calls after the registry secret: the options, on the converted
      stateful set placed in the namespace, then the submission once they all
      succeed; nothing when the conversion fails. */
  function PrepareCalls(d: Desirer, namespace: string, statefulSetName: string, lrp: LRP, opts: seq<StatefulSetOption>): seq<Call>
  {
    match d.lrpToStatefulSet(statefulSetName, lrp)
    case Err(_) => []
    case Ok(st) =>
      OptionCalls(WithNamespace(st, namespace), opts, 0) +
      (match ApplyAll(WithNamespace(st, namespace), opts)
       case Err(_) => []
       case Ok(prepared) => SubmitCalls(d, namespace, statefulSetName, prepared))
  }

  /** Every call `Desire` makes, in order: none after a naming error; the
      registry secret's creation for a private registry, stopping there when
      that step fails; then the options and the submission. */
  function DesireCalls(d: Desirer, namespace: string, lrp: LRP, opts: seq<StatefulSetOption>): seq<Call>
  {
    match d.statefulSetName(lrp)
    case Err(_) => []
    case Ok(name) =>
      match lrp.privateRegistry
      case None => PrepareCalls(d, namespace, name, lrp, opts)
      case Some(registry) =>
        if SecretStepFails(d, namespace, name, registry) then SecretCalls(d, namespace, name, registry)
        else SecretCalls(d, namespace, name, registry) + PrepareCalls(d, namespace, name, lrp, opts)
  }

  /** What the registry-secret step leaves behind: its calls and its error. */
  predicate SecretStepDone(d: Desirer, namespace: string, statefulSetName: string, registry: PrivateRegistry,
                           err: Option<Error>, calls: seq<Call>)
  {
    match GenerateRegistryCredsSecret(d, statefulSetName, registry)
    case Err(e) =>
      calls == [] && err == Some(Wrapped("failed to generate private registry secret for statefulset", e))
    case Ok(secret) =>
      calls == [CreateSecret(namespace, secret)] &&
      err == Wrap("failed to create private registry secret for statefulset", d.createSecret(namespace, secret))
  }

  /** What the steps after the registry secret leave behind. */
  predicate PrepareDone(d: Desirer, namespace: string, statefulSetName: string, lrp: LRP, opts: seq<StatefulSetOption>,
                        err: Option<Error>, options: seq<Call>, post: seq<Call>)
  {
    && OptionRun(options) && |options| <= |opts|
    && options + post == PrepareCalls(d, namespace, statefulSetName, lrp, opts)
    && (Prepared(d, namespace, statefulSetName, lrp, opts).Err? ==>
          err == Some(Prepared(d, namespace, statefulSetName, lrp, opts).error) && post == [])
    && (Prepared(d, namespace, statefulSetName, lrp, opts).Ok? ==>
          var st := Prepared(d, namespace, statefulSetName, lrp, opts).value;
          var created := d.createStatefulSet(namespace, st);
          && |options| == |opts|
          && (created.Some? ==> post == [CreateStatefulSet(namespace, st)])
          && (created.Some? && IsAlreadyExists(created.value) ==> err.None?)
          && (created.Some? && !IsAlreadyExists(created.value) ==> err == Some(Wrapped("failed to create statefulset", created.value)))
          && (created.None? ==>
                && post == [CreateStatefulSet(namespace, st), CreatePodDisruptionBudget(namespace, statefulSetName)]
                && err == Wrap("failed to create pod disruption budget", d.createPodDisruptionBudget(namespace, statefulSetName, lrp))))
  }

  /** The steps of `Desire`, one after another: naming, the registry secret
      (whose error is `secretErr`), then preparation and submission, which run
      only when the secret step did not fail. */
  predicate DesireSteps(d: Desirer, namespace: string, lrp: LRP, opts: seq<StatefulSetOption>,
                        secretErr: Option<Error>, err: Option<Error>, pre: seq<Call>, options: seq<Call>, post: seq<Call>)
  {
    match d.statefulSetName(lrp)
    case Err(e) => secretErr.None? && err == Some(e) && pre == [] && options == [] && post == []
    case Ok(name) =>
      && (lrp.privateRegistry.Some? ==> SecretStepDone(d, namespace, name, lrp.privateRegistry.value, secretErr, pre))
      && (lrp.privateRegistry.None? ==> secretErr.None? && pre == [])
      && (secretErr.Some? ==> err == secretErr && options == [] && post == [])
      && (secretErr.None? ==> PrepareDone(d, namespace, name, lrp, opts, err, options, post))
  }

  /** The shape of a trace the steps leave: secret calls, option calls, then
      the submission and the budget. */
  lemma DesireStepsShape(d: Desirer, namespace: string, lrp: LRP, opts: seq<StatefulSetOption>,
                         secretErr: Option<Error>, err: Option<Error>, pre: seq<Call>, options: seq<Call>, post: seq<Call>)
    requires DesireSteps(d, namespace, lrp, opts, secretErr, err, pre, options, post)
    ensures |pre| <= 1 && forall i :: 0 <= i < |pre| ==> pre[i].CreateSecret?
    ensures |options| <= |opts| && OptionRun(options)
    ensures post != [] ==> |options| == |opts| && post[0].CreateStatefulSet?
    ensures |post| <= 2 && (|post| == 2 ==> post[1].CreatePodDisruptionBudget?)
  {
  }

  /** The secret step reports an error exactly when there is a private
      registry and its secret cannot be generated or created. */
  lemma DesireStepsSecretError(d: Desirer, namespace: string, lrp: LRP, opts: seq<StatefulSetOption>,
                               secretErr: Option<Error>, err: Option<Error>, pre: seq<Call>, options: seq<Call>, post: seq<Call>)
    requires DesireSteps(d, namespace, lrp, opts, secretErr, err, pre, options, post)
    ensures secretErr.Some? <==>
              d.statefulSetName(lrp).Ok? && lrp.privateRegistry.Some? &&
              SecretStepFails(d, namespace, d.statefulSetName(lrp).value, lrp.privateRegistry.value)
  {
    if d.statefulSetName(lrp).Ok? && lrp.privateRegistry.Some? {
      var name, registry := d.statefulSetName(lrp).value, lrp.privateRegistry.value;
      match GenerateRegistryCredsSecret(d, name, registry)
      case Err(_) =>
      case Ok(secret) =>
        assert secretErr == Wrap("failed to create private registry secret for statefulset", d.createSecret(namespace, secret));
    }
  }

  /** The failures of `Desire` that stop before a submission. */
  lemma DesireStepsFailures(d: Desirer, namespace: string, lrp: LRP, opts: seq<StatefulSetOption>,
                            secretErr: Option<Error>, err: Option<Error>, pre: seq<Call>, options: seq<Call>, post: seq<Call>,
                            calls: seq<Call>)
    requires DesireSteps(d, namespace, lrp, opts, secretErr, err, pre, options, post)
    requires calls == pre + options + post
    ensures d.statefulSetName(lrp).Err? ==> err == Some(d.statefulSetName(lrp).error) && calls == []
    ensures d.statefulSetName(lrp).Ok? && lrp.privateRegistry.Some? &&
            GenerateRegistryCredsSecret(d, d.statefulSetName(lrp).value, lrp.privateRegistry.value).Err? ==>
              && err == Some(Wrapped("failed to generate private registry secret for statefulset",
                                     GenerateRegistryCredsSecret(d, d.statefulSetName(lrp).value, lrp.privateRegistry.value).error))
              && calls == []
    ensures d.statefulSetName(lrp).Ok? && lrp.privateRegistry.Some? &&
            GenerateRegistryCredsSecret(d, d.statefulSetName(lrp).value, lrp.privateRegistry.value).Ok? ==>
              var secret := GenerateRegistryCredsSecret(d, d.statefulSetName(lrp).value, lrp.privateRegistry.value).value;
              d.createSecret(namespace, secret).Some? ==>
                && err == Some(Wrapped("failed to create private registry secret for statefulset", d.createSecret(namespace, secret).value))
                && calls == [CreateSecret(namespace, secret)]
    ensures d.statefulSetName(lrp).Ok? &&
            !(lrp.privateRegistry.Some? && SecretStepFails(d, namespace, d.statefulSetName(lrp).value, lrp.privateRegistry.value)) &&
            Prepared(d, namespace, d.statefulSetName(lrp).value, lrp, opts).Err? ==>
              err == Some(Prepared(d, namespace, d.statefulSetName(lrp).value, lrp, opts).error) && !Submitted(calls)
  {
    DesireStepsShape(d, namespace, lrp, opts, secretErr, err, pre, options, post);
    DesireStepsSecretError(d, namespace, lrp, opts, secretErr, err, pre, options, post);
    DesireTraceInOrder(pre, options, post, |opts|);
  }

  /** The registry secret in a trace of `Desire`. */
  lemma DesireStepsSecret(d: Desirer, namespace: string, lrp: LRP, opts: seq<StatefulSetOption>,
                          secretErr: Option<Error>, err: Option<Error>, pre: seq<Call>, options: seq<Call>, post: seq<Call>,
                          calls: seq<Call>)
    requires DesireSteps(d, namespace, lrp, opts, secretErr, err, pre, options, post)
    requires calls == pre + options + post
    ensures SecretRequested(calls) <==>
              d.statefulSetName(lrp).Ok? && lrp.privateRegistry.Some? && d.dockerConfigJSON(lrp.privateRegistry.value).Ok?
    ensures SecretRequested(calls) ==>
              calls[0] == CreateSecret(namespace, GenerateRegistryCredsSecret(d, d.statefulSetName(lrp).value, lrp.privateRegistry.value).value)
  {
    DesireStepsShape(d, namespace, lrp, opts, secretErr, err, pre, options, post);
    DesireTraceInOrder(pre, options, post, |opts|);
    if pre != [] {
      assert calls[0] == pre[0];
    }
  }

  /** The submission in a trace of `Desire`: the prepared stateful set, once,
      after every option, whenever nothing failed before it. */
  lemma DesireStepsSubmission(d: Desirer, namespace: string, lrp: LRP, opts: seq<StatefulSetOption>,
                              secretErr: Option<Error>, err: Option<Error>, pre: seq<Call>, options: seq<Call>, post: seq<Call>,
                              calls: seq<Call>)
    requires DesireSteps(d, namespace, lrp, opts, secretErr, err, pre, options, post)
    requires calls == pre + options + post
    ensures forall i :: 0 <= i < |calls| && calls[i].CreateStatefulSet? ==>
              && d.statefulSetName(lrp).Ok?
              && calls[i].namespace == namespace
              && Prepared(d, namespace, d.statefulSetName(lrp).value, lrp, opts) == Ok(calls[i].statefulSet)
    ensures CallsInOrder(calls, |opts|)
    ensures d.statefulSetName(lrp).Ok? &&
            !(lrp.privateRegistry.Some? && SecretStepFails(d, namespace, d.statefulSetName(lrp).value, lrp.privateRegistry.value)) &&
            Prepared(d, namespace, d.statefulSetName(lrp).value, lrp, opts).Ok? ==>
              Submitted(calls)
  {
    DesireStepsShape(d, namespace, lrp, opts, secretErr, err, pre, options, post);
    DesireStepsSecretError(d, namespace, lrp, opts, secretErr, err, pre, options, post);
    DesireTraceInOrder(pre, options, post, |opts|);
  }

  /** The outcome of `Desire` once the stateful set is submitted. */
  lemma DesireStepsOutcome(d: Desirer, namespace: string, lrp: LRP, opts: seq<StatefulSetOption>,
                           secretErr: Option<Error>, err: Option<Error>, pre: seq<Call>, options: seq<Call>, post: seq<Call>,
                           calls: seq<Call>)
    requires DesireSteps(d, namespace, lrp, opts, secretErr, err, pre, options, post)
    requires calls == pre + options + post
    ensures Submitted(calls) ==>
              var name := d.statefulSetName(lrp).value;
              var created := d.createStatefulSet(namespace, Prepared(d, namespace, name, lrp, opts).value);
              && (created.Some? && IsAlreadyExists(created.value) ==> err.None? && !BudgetRequested(calls))
              && (created.Some? && !IsAlreadyExists(created.value) ==>
                    err == Some(Wrapped("failed to create statefulset", created.value)) && !BudgetRequested(calls))
              && (created.None? ==>
                    && calls[|calls| - 1] == CreatePodDisruptionBudget(namespace, name)
                    && err == Wrap("failed to create pod disruption budget", d.createPodDisruptionBudget(namespace, name, lrp)))
    ensures err.None? ==> Submitted(calls)
  {
    DesireStepsShape(d, namespace, lrp, opts, secretErr, err, pre, options, post);
    DesireTraceInOrder(pre, options, post, |opts|);
    if |post| == 2 {
      assert calls[|calls| - 1] == post[1];
    }
  }

  /** The steps of `Desire` make exactly the calls `DesireCalls` lists. */
  lemma DesireStepsCalls(d: Desirer, namespace: string, lrp: LRP, opts: seq<StatefulSetOption>,
                         secretErr: Option<Error>, err: Option<Error>, pre: seq<Call>, options: seq<Call>, post: seq<Call>)
    requires DesireSteps(d, namespace, lrp, opts, secretErr, err, pre, options, post)
    ensures pre + options + post == DesireCalls(d, namespace, lrp, opts)
  {
    DesireStepsSecretError(d, namespace, lrp, opts, secretErr, err, pre, options, post);
    if d.statefulSetName(lrp).Ok? {
      var name := d.statefulSetName(lrp).value;
      if lrp.privateRegistry.Some? {
        assert pre == SecretCalls(d, namespace, name, lrp.privateRegistry.value);
      }
      if secretErr.None? {
        assert pre + options + post == pre + (options + post);
      }
    }
  }

  /** `Desirer.Desire`. */
  method Desire(d: Desirer, namespace: string, lrp: LRP, opts: seq<StatefulSetOption>)
    returns (err: Option<Error>, calls: seq<Call>)
    // the calls made are exactly those of the steps that run
    ensures calls == DesireCalls(d, namespace, lrp, opts)
    // a naming error fails fast: nothing is created
    ensures d.statefulSetName(lrp).Err? ==> err == Some(d.statefulSetName(lrp).error) && calls == []
    // a registry secret is requested only for a private registry, as the first call, under the derived name
    ensures SecretRequested(calls) <==>
              d.statefulSetName(lrp).Ok? && lrp.privateRegistry.Some? && d.dockerConfigJSON(lrp.privateRegistry.value).Ok?
    ensures SecretRequested(calls) ==>
              calls[0] == CreateSecret(namespace, GenerateRegistryCredsSecret(d, d.statefulSetName(lrp).value, lrp.privateRegistry.value).value)
    // a failed secret step returns its error and makes no other call
    ensures d.statefulSetName(lrp).Ok? && lrp.privateRegistry.Some? &&
            GenerateRegistryCredsSecret(d, d.statefulSetName(lrp).value, lrp.privateRegistry.value).Err? ==>
              && err == Some(Wrapped("failed to generate private registry secret for statefulset",
                                     GenerateRegistryCredsSecret(d, d.statefulSetName(lrp).value, lrp.privateRegistry.value).error))
              && calls == []
    ensures d.statefulSetName(lrp).Ok? && lrp.privateRegistry.Some? &&
            GenerateRegistryCredsSecret(d, d.statefulSetName(lrp).value, lrp.privateRegistry.value).Ok? ==>
              var secret := GenerateRegistryCredsSecret(d, d.statefulSetName(lrp).value, lrp.privateRegistry.value).value;
              d.createSecret(namespace, secret).Some? ==>
                && err == Some(Wrapped("failed to create private registry secret for statefulset", d.createSecret(namespace, secret).value))
                && calls == [CreateSecret(namespace, secret)]
    // what is submitted is the converted stateful set, in the namespace, after all options
    ensures forall i :: 0 <= i < |calls| && calls[i].CreateStatefulSet? ==>
              && d.statefulSetName(lrp).Ok?
              && calls[i].namespace == namespace
              && Prepared(d, namespace, d.statefulSetName(lrp).value, lrp, opts) == Ok(calls[i].statefulSet)
    // every option runs exactly once, in order, right before the only submission;
    // there is at most one secret and one budget request
    ensures CallsInOrder(calls, |opts|)
    // a conversion or option failure aborts before the submission
    ensures d.statefulSetName(lrp).Ok? &&
            !(lrp.privateRegistry.Some? && SecretStepFails(d, namespace, d.statefulSetName(lrp).value, lrp.privateRegistry.value)) &&
            Prepared(d, namespace, d.statefulSetName(lrp).value, lrp, opts).Err? ==>
              err == Some(Prepared(d, namespace, d.statefulSetName(lrp).value, lrp, opts).error) && !Submitted(calls)
    // once the name, the secret step, the conversion and every option succeed, the stateful set is submitted
    ensures d.statefulSetName(lrp).Ok? &&
            !(lrp.privateRegistry.Some? && SecretStepFails(d, namespace, d.statefulSetName(lrp).value, lrp.privateRegistry.value)) &&
            Prepared(d, namespace, d.statefulSetName(lrp).value, lrp, opts).Ok? ==>
              Submitted(calls)
    // the outcome of the submission decides the rest
    ensures Submitted(calls) ==>
              var name := d.statefulSetName(lrp).value;
              var created := d.createStatefulSet(namespace, Prepared(d, namespace, name, lrp, opts).value);
              && (created.Some? && IsAlreadyExists(created.value) ==> err.None? && !BudgetRequested(calls))
              && (created.Some? && !IsAlreadyExists(created.value) ==>
                    err == Some(Wrapped("failed to create statefulset", created.value)) && !BudgetRequested(calls))
              && (created.None? ==>
                    && calls[|calls| - 1] == CreatePodDisruptionBudget(namespace, name)
                    && err == Wrap("failed to create pod disruption budget", d.createPodDisruptionBudget(namespace, name, lrp)))
    // success only after a submission
    ensures err.None? ==> Submitted(calls)
  {
    var secretErr, pre, options, post;
    secretErr, err, pre, options, post := DesireInSteps(d, namespace, lrp, opts);
    calls := pre + options + post;
    DesireStepsCalls(d, namespace, lrp, opts, secretErr, err, pre, options, post);
    DesireStepsFailures(d, namespace, lrp, opts, secretErr, err, pre, options, post, calls);
    DesireStepsSecret(d, namespace, lrp, opts, secretErr, err, pre, options, post, calls);
    DesireStepsSubmission(d, namespace, lrp, opts, secretErr, err, pre, options, post, calls);
    DesireStepsOutcome(d, namespace, lrp, opts, secretErr, err, pre, options, post, calls);
  }

  /** The body of `Desire`: name the stateful set, create the registry secret
      when there is a private registry, then prepare and submit. */
  method DesireInSteps(d: Desirer, namespace: string, lrp: LRP, opts: seq<StatefulSetOption>)
    returns (secretErr: Option<Error>, err: Option<Error>, pre: seq<Call>, options: seq<Call>, post: seq<Call>)
    ensures DesireSteps(d, namespace, lrp, opts, secretErr, err, pre, options, post)
  {
    var name := d.statefulSetName(lrp);
    secretErr, pre, options, post := None, [], [], [];
    if name.Err? {
      return None, Some(name.error), pre, options, post;
    }
    if lrp.privateRegistry.Some? {
      secretErr, pre := CreateRegistryCredsSecret(d, namespace, name.value, lrp.privateRegistry.value);
    }
    if secretErr.Some? {
      return secretErr, secretErr, pre, options, post;
    }
    err, options, post := PrepareAndSubmit(d, namespace, name.value, lrp, opts);
  }

  /** The part of `Desire` after the registry secret: convert the LRP, place
      it in the namespace, run the options, then submit it. */
  method PrepareAndSubmit(d: Desirer, namespace: string, statefulSetName: string, lrp: LRP, opts: seq<StatefulSetOption>)
    returns (err: Option<Error>, options: seq<Call>, post: seq<Call>)
    // the option calls are numbered from 0, at most one per option
    ensures OptionRun(options) && |options| <= |opts|
    ensures options + post == PrepareCalls(d, namespace, statefulSetName, lrp, opts)
    // no option runs when the conversion fails
    ensures d.lrpToStatefulSet(statefulSetName, lrp).Err? ==> options == [] && post == []
    // a conversion or option failure is returned and nothing is submitted
    ensures Prepared(d, namespace, statefulSetName, lrp, opts).Err? ==>
              err == Some(Prepared(d, namespace, statefulSetName, lrp, opts).error) && post == []
    // otherwise every option ran and the prepared stateful set is submitted
    ensures Prepared(d, namespace, statefulSetName, lrp, opts).Ok? ==>
              var st := Prepared(d, namespace, statefulSetName, lrp, opts).value;
              var created := d.createStatefulSet(namespace, st);
              && |options| == |opts|
              && (created.Some? ==> post == [CreateStatefulSet(namespace, st)])
              && (created.Some? && IsAlreadyExists(created.value) ==> err.None?)
              && (created.Some? && !IsAlreadyExists(created.value) ==> err == Some(Wrapped("failed to create statefulset", created.value)))
              && (created.None? ==>
                    && post == [CreateStatefulSet(namespace, st), CreatePodDisruptionBudget(namespace, statefulSetName)]
                    && err == Wrap("failed to create pod disruption budget", d.createPodDisruptionBudget(namespace, statefulSetName, lrp)))
  {
    options, post := [], [];
    var converted := d.lrpToStatefulSet(statefulSetName, lrp);
    if converted.Err? {
      return Some(converted.error), options, post;
    }
    var applied;
    applied, options := ApplyOpts(WithNamespace(converted.value, namespace), opts);
    if applied.Err? {
      return Some(applied.error), options, post;
    }
    err, post := Submit(d, namespace, statefulSetName, lrp, applied.value);
  }

  /** The submission and what follows it: the stateful set is created; an
      already existing one counts as success; a pod disruption budget is
      requested only after a creation that succeeded. */
  method Submit(d: Desirer, namespace: string, statefulSetName: string, lrp: LRP, st: StatefulSet)
    returns (err: Option<Error>, post: seq<Call>)
    ensures post == SubmitCalls(d, namespace, statefulSetName, st)
    ensures d.createStatefulSet(namespace, st).Some? ==> post == [CreateStatefulSet(namespace, st)]
    ensures d.createStatefulSet(namespace, st).Some? && IsAlreadyExists(d.createStatefulSet(namespace, st).value) ==>
              err.None?
    ensures d.createStatefulSet(namespace, st).Some? && !IsAlreadyExists(d.createStatefulSet(namespace, st).value) ==>
              err == Some(Wrapped("failed to create statefulset", d.createStatefulSet(namespace, st).value))
    ensures d.createStatefulSet(namespace, st).None? ==>
              && post == [CreateStatefulSet(namespace, st), CreatePodDisruptionBudget(namespace, statefulSetName)]
              && err == Wrap("failed to create pod disruption budget", d.createPodDisruptionBudget(namespace, statefulSetName, lrp))
  {
    post := [CreateStatefulSet(namespace, st)];
    var created := d.createStatefulSet(namespace, st);
    if created.Some? {
      if IsAlreadyExists(created.value) {
        return None, post;
      }
      return Some(Wrapped("failed to create statefulset", created.value)), post;
    }
    post := post + [CreatePodDisruptionBudget(namespace, statefulSetName)];
    err := Wrap("failed to create pod disruption budget", d.createPodDisruptionBudget(namespace, statefulSetName, lrp));
  }
}
