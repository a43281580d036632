/** Deleting a task's job and the registry secrets it pulled images with (k8s/jobs/delete.go).
    The collaborators are fields of `Deleter`; every deletion requested is
    recorded, in order, in the returned trace. */
module JobDelete {
  import opened Go
  import opened Kube

  /** The collaborators a `Deleter` is built from. */
  datatype Deleter = Deleter(
    getJobsByGUID: string -> Result<seq<Job>>,              // JobGetter.GetByGUID(guid, true)
    secretNamePrefix: (string, string, string) -> string,   // dockerImagePullSecretNamePrefix
    deleteSecret: (string, string) -> Option<Error>,        // SecretDeleter.Delete
    deleteJob: (string, string) -> Option<Error>)           // JobDeleter.Delete

  /** One deletion the deleter requests. */
  datatype Call =
    | DeleteSecret(namespace: string, name: string)
    | DeleteJob(namespace: string, name: string)

  /** `getJobByGUID`: the one job labelled with the task GUID. */
  function GetJobByGUID(d: Deleter, guid: string): (r: Result<Job>)
    ensures d.getJobsByGUID(guid).Err? ==> r == Err(Wrapped("failed to list jobs", d.getJobsByGUID(guid).error))
    // a job only when the listing holds exactly one, and then that one
    ensures r.Ok? <==> d.getJobsByGUID(guid).Ok? && |d.getJobsByGUID(guid).value| == 1
    ensures r.Ok? ==> r.value == d.getJobsByGUID(guid).value[0]
    // any other count is reported with the GUID and the count
    ensures d.getJobsByGUID(guid).Ok? && |d.getJobsByGUID(guid).value| != 1 ==>
              r == Err(JobCountMismatch(guid, |d.getJobsByGUID(guid).value|))
  {
    match d.getJobsByGUID(guid)
    case Err(e) => Err(Wrapped("failed to list jobs", e))
    case Ok(jobs) =>
      if |jobs| != 1 then Err(JobCountMismatch(guid, |jobs|))
      else Ok(jobs[0])
  }

  /** Whatever the listing, the job found was the only one listed. */
  lemma {:induction false} FoundJobIsTheOnlyOne(d: Deleter, guid: string, job: Job)
    requires GetJobByGUID(d, guid) == Ok(job)
    ensures d.getJobsByGUID(guid) == Ok([job])
  {
    var jobs := d.getJobsByGUID(guid).value;
    assert jobs == [jobs[0]];
  }

  /** The prefix the job's registry secrets are named with, built from the
      app-name and space-name annotations and the GUID label (each "" when absent). */
  function SecretPrefix(d: Deleter, job: Job): string
  {
    d.secretNamePrefix(
      Lookup(job.meta.annotations, AnnotationAppName),
      Lookup(job.meta.annotations, AnnotationSpaceName),
      Lookup(job.meta.labels, LabelGUID))
  }

  /** The names that start with `prefix`, in their original order. */
  function Matching(names: seq<string>, prefix: string): seq<string>
  {
    if names == [] then []
    else
      var kept := Matching(names[..|names| - 1], prefix);
      if HasPrefix(names[|names| - 1], prefix) then kept + [names[|names| - 1]] else kept
  }

  /** The image-pull secrets of the job that the deleter removes. */
  function RegistrySecrets(d: Deleter, job: Job): seq<string>
  {
    Matching(job.imagePullSecrets, SecretPrefix(d, job))
  }

  /** Exactly the names with the prefix are kept, and no more of them than there are names. */
  lemma {:induction false} MatchingMembership(names: seq<string>, prefix: string)
    ensures |Matching(names, prefix)| <= |names|
    ensures forall n :: n in Matching(names, prefix) <==> n in names && HasPrefix(n, prefix)
  {
    if names != [] {
      var init := names[..|names| - 1];
      MatchingMembership(init, prefix);
      assert names == init + [names[|names| - 1]];
    }
  }

  /** Filtering a prefix of the names gives a prefix of the filtered names. */
  lemma {:induction false} MatchingPrefix(names: seq<string>, prefix: string, i: nat)
    requires i <= |names|
    ensures |Matching(names[..i], prefix)| <= |Matching(names, prefix)|
    ensures Matching(names, prefix)[..|Matching(names[..i], prefix)|] == Matching(names[..i], prefix)
    decreases |names| - i
  {
    if i == |names| {
      assert names[..i] == names;
    } else {
      var init := names[..|names| - 1];
      assert init[..i] == names[..i];
      MatchingPrefix(init, prefix, i);
    }
  }

  /** Every deletion of these secrets succeeds. */
  predicate AllDeleted(d: Deleter, namespace: string, names: seq<string>)
  {
    forall i :: 0 <= i < |names| ==> d.deleteSecret(namespace, names[i]).None?
  }

  /** One secret deletion per name, in order. */
  function SecretDeletions(namespace: string, names: seq<string>): (r: seq<Call>)
    ensures |r| == |names|
    ensures forall i :: 0 <= i < |names| ==> r[i] == DeleteSecret(namespace, names[i])
  {
    seq(|names|, i requires 0 <= i < |names| => DeleteSecret(namespace, names[i]))
  }

  /** `deleteDockerRegistrySecret`: delete, in order, the job's image-pull
      secrets that carry its prefix, stopping at the first failure. */
  method DeleteDockerRegistrySecret(d: Deleter, job: Job) returns (err: Option<Error>, calls: seq<Call>)
    // the deletions requested are those of the first registry secrets, in order
    ensures |calls| <= |RegistrySecrets(d, job)|
    ensures calls == SecretDeletions(job.meta.namespace, RegistrySecrets(d, job)[..|calls|])
    // success exactly when every registry secret is deleted, and then all were requested
    ensures err.None? <==> AllDeleted(d, job.meta.namespace, RegistrySecrets(d, job))
    ensures err.None? ==> |calls| == |RegistrySecrets(d, job)|
    // a failure is the last deletion requested, every earlier one having succeeded
    ensures err.Some? ==>
              && |calls| > 0
              && AllDeleted(d, job.meta.namespace, RegistrySecrets(d, job)[..|calls| - 1])
              && var failed := d.deleteSecret(job.meta.namespace, RegistrySecrets(d, job)[|calls| - 1]);
                 failed.Some? && err == Some(Wrapped("failed to delete secret", failed.value))
  {
    var prefix := SecretPrefix(d, job);
    var names := job.imagePullSecrets;
    var namespace := job.meta.namespace;
    ghost var targets := Matching(names, prefix);
    calls := [];
    for i := 0 to |names|
      invariant calls == SecretDeletions(namespace, Matching(names[..i], prefix))
      invariant AllDeleted(d, namespace, Matching(names[..i], prefix))
    {
      assert names[..i + 1][..i] == names[..i];
      if !HasPrefix(names[i], prefix) {
        continue;
      }
      ghost var done := Matching(names[..i + 1], prefix);
      assert done == Matching(names[..i], prefix) + [names[i]];
      calls := calls + [DeleteSecret(namespace, names[i])];
      MatchingPrefix(names, prefix, i + 1);
      assert targets[..|done|] == done;
      var failed := d.deleteSecret(namespace, names[i]);
      if failed.Some? {
        assert done[..|done| - 1] == Matching(names[..i], prefix);
        assert !AllDeleted(d, namespace, targets) by {
          assert targets[|done| - 1] == names[i];
        }
        return Some(Wrapped("failed to delete secret", failed.value)), calls;
      }
    }
    assert names[..|names|] == names;
    err := None;
  }

  /** `delete`: the registry secrets first; then the callback URL is read, and
      a job that has an owner is left to its owner, any other is deleted. */
  method DeleteJobOf(d: Deleter, job: Job) returns (url: string, err: Option<Error>, calls: seq<Call>)
    // a failed secret deletion aborts with no URL, before the job is touched
    ensures !AllDeleted(d, job.meta.namespace, RegistrySecrets(d, job)) ==>
              && url == "" && err.Some? && err.value.Wrapped? && err.value.context == "failed to delete secret"
              && |calls| <= |RegistrySecrets(d, job)|
              && calls == SecretDeletions(job.meta.namespace, RegistrySecrets(d, job)[..|calls|])
              // the deletions stop at the first failing one, whose error is returned
              && |calls| > 0
              && AllDeleted(d, job.meta.namespace, RegistrySecrets(d, job)[..|calls| - 1])
              && var failed := d.deleteSecret(job.meta.namespace, RegistrySecrets(d, job)[|calls| - 1]);
                 failed.Some? && err == Some(Wrapped("failed to delete secret", failed.value))
    ensures AllDeleted(d, job.meta.namespace, RegistrySecrets(d, job)) ==>
              var deletions := SecretDeletions(job.meta.namespace, RegistrySecrets(d, job));
              var callback := Lookup(job.meta.annotations, AnnotationCompletionCallback);
              // an owned job is not deleted here
              && (job.meta.ownerReferences != [] ==> url == callback && err.None? && calls == deletions)
              // an unowned job is deleted, and its deletion's failure loses the URL
              && (job.meta.ownerReferences == [] ==>
                    && calls == deletions + [DeleteJob(job.meta.namespace, job.meta.name)]
                    && var deleted := d.deleteJob(job.meta.namespace, job.meta.name);
                       (deleted.None? ==> url == callback && err.None?)
                       && (deleted.Some? ==> url == "" && err == Some(Wrapped("failed to delete job", deleted.value))))
  {
    err, calls := DeleteDockerRegistrySecret(d, job);
    if err.Some? {
      return "", err, calls;
    }
    var callback := Lookup(job.meta.annotations, AnnotationCompletionCallback);
    if job.meta.ownerReferences != [] {
      return callback, None, calls;
    }
    calls := calls + [DeleteJob(job.meta.namespace, job.meta.name)];
    var deleted := d.deleteJob(job.meta.namespace, job.meta.name);
    if deleted.Some? {
      return "", Some(Wrapped("failed to delete job", deleted.value)), calls;
    }
    return callback, None, calls;
  }

  /** `Deleter.Delete`: find the task's job and delete it. */
  method Delete(d: Deleter, guid: string) returns (url: string, err: Option<Error>, calls: seq<Call>)
    ensures GetJobByGUID(d, guid).Err? ==> url == "" && err == Some(GetJobByGUID(d, guid).error) && calls == []
    // only the job found is touched: its secrets and itself, in its namespace
    ensures GetJobByGUID(d, guid).Ok? ==>
              var job := GetJobByGUID(d, guid).value;
              forall i :: 0 <= i < |calls| ==>
                calls[i].namespace == job.meta.namespace &&
                (calls[i].DeleteSecret? ==> calls[i].name in job.imagePullSecrets && HasPrefix(calls[i].name, SecretPrefix(d, job))) &&
                (calls[i].DeleteJob? ==> calls[i].name == job.meta.name && job.meta.ownerReferences == [])
    // the job found is handled as `delete` handles it: secrets first, then an unowned job itself
    ensures GetJobByGUID(d, guid).Ok? ==>
              var job := GetJobByGUID(d, guid).value;
              !AllDeleted(d, job.meta.namespace, RegistrySecrets(d, job)) ==>
                && url == "" && err.Some? && err.value.Wrapped? && err.value.context == "failed to delete secret"
                && |calls| <= |RegistrySecrets(d, job)|
                && calls == SecretDeletions(job.meta.namespace, RegistrySecrets(d, job)[..|calls|])
                && |calls| > 0
                && AllDeleted(d, job.meta.namespace, RegistrySecrets(d, job)[..|calls| - 1])
                && var failed := d.deleteSecret(job.meta.namespace, RegistrySecrets(d, job)[|calls| - 1]);
                   failed.Some? && err == Some(Wrapped("failed to delete secret", failed.value))
    ensures GetJobByGUID(d, guid).Ok? ==>
              var job := GetJobByGUID(d, guid).value;
              AllDeleted(d, job.meta.namespace, RegistrySecrets(d, job)) ==>
                var deletions := SecretDeletions(job.meta.namespace, RegistrySecrets(d, job));
                var callback := Lookup(job.meta.annotations, AnnotationCompletionCallback);
                && (job.meta.ownerReferences != [] ==> url == callback && err.None? && calls == deletions)
                && (job.meta.ownerReferences == [] ==>
                      && calls == deletions + [DeleteJob(job.meta.namespace, job.meta.name)]
                      && var deleted := d.deleteJob(job.meta.namespace, job.meta.name);
                         (deleted.None? ==> url == callback && err.None?)
                         && (deleted.Some? ==> url == "" && err == Some(Wrapped("failed to delete job", deleted.value))))
    // a URL is returned only on success, and then it is the job's callback annotation
    ensures url != "" ==> err.None?
    ensures err.None? ==>
              GetJobByGUID(d, guid).Ok? &&
              url == Lookup(GetJobByGUID(d, guid).value.meta.annotations, AnnotationCompletionCallback)
  {
    var job := GetJobByGUID(d, guid);
    if job.Err? {
      return "", Some(job.error), [];
    }
    url, err, calls := DeleteJobOf(d, job.value);
    ghost var targets := RegistrySecrets(d, job.value);
    MatchingMembership(job.value.imagePullSecrets, SecretPrefix(d, job.value));
    forall i | 0 <= i < |calls| && calls[i].DeleteSecret?
      ensures calls[i].name in targets
    {
      if AllDeleted(d, job.value.meta.namespace, targets) {
        assert i < |targets| && calls[i] == DeleteSecret(job.value.meta.namespace, targets[i]);
      } else {
        assert calls[i] == DeleteSecret(job.value.meta.namespace, targets[..|calls|][i]);
      }
    }
  }
}
