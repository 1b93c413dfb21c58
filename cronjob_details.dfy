/** Manual Job spawning, the owned-Jobs list and the suspend/resume toggle of the CronJob
    details page (frontend/src/components/cronjob/Details.tsx). */
module CronJobDetails {
  import opened Wrappers
  import opened Text

  // ---------------------------------------------------------------------------
  // Kubernetes objects, as far as the page reads or writes them
  // ---------------------------------------------------------------------------

  datatype OwnerReference = OwnerReference(
    apiVersion: string,
    kind: string,
    name: string,
    uid: string,
    controller: Option<bool>,
    blockOwnerDeletion: Option<bool>)

  /** Object metadata; every field may be missing. `labels` stands for the fields the page
      never touches. */
  datatype ObjectMeta = ObjectMeta(
    name: Option<string>,
    namespace: Option<string>,
    annotations: Option<map<string, string>>,
    ownerReferences: Option<seq<OwnerReference>>,
    labels: Option<map<string, string>>)

  const EmptyMeta := ObjectMeta(None, None, None, None, None)

  /** The Job spec, carried through unchanged. */
  datatype JobSpec = JobSpec(fields: map<string, string>)

  /** A Job-shaped object: the CronJob's `spec.jobTemplate`, and the Job built from it. */
  datatype JobObject = JobObject(
    kind: Option<string>,
    apiVersion: Option<string>,
    metadata: Option<ObjectMeta>,
    spec: JobSpec)

  /** A Job as listed from the cluster. */
  datatype Job = Job(metadata: ObjectMeta)

  datatype TypeMeta = TypeMeta(apiVersion: string, kind: string)

  datatype CronJobMeta = CronJobMeta(name: string, namespace: Option<string>, uid: string)

  datatype CronJobSpec = CronJobSpec(suspend: Option<bool>, jobTemplate: JobObject)

  /** A fetched CronJob; `jsonData` is the raw object the client keeps, when it has one. */
  datatype CronJob = CronJob(metadata: CronJobMeta, spec: CronJobSpec, jsonData: Option<TypeMeta>)

  // ---------------------------------------------------------------------------
  // Default Job name
  // ---------------------------------------------------------------------------

  /** The longest name Kubernetes accepts for a Job: a DNS label (section 2.3.4 of RFC 1035). */
  const MaxNameLength := 63

  /** The suffix of a spawned Job's name; `unique` is the time-and-random string. */
  function SpawnSuffix(unique: string): (suffix: string) {
    "-manual-spawn-" + unique
  }

  /** The dialog's initial Job name: the CronJob name cut so that the name and the suffix fit
      in 63 characters, then the suffix. */
  function DefaultJobName(cronJobName: string, suffix: string): (name: string) {
    Substring(cronJobName, 0, MaxNameLength - |suffix|) + suffix
  }

  /** The default name is a prefix of the CronJob name of length min(|name|, max(0, 63 - |suffix|)),
      followed by the suffix. */
  lemma DefaultJobNameShape(cronJobName: string, suffix: string)
    ensures var keep := if MaxNameLength - |suffix| < 0 then 0
                        else if MaxNameLength - |suffix| > |cronJobName| then |cronJobName|
                        else MaxNameLength - |suffix|;
      DefaultJobName(cronJobName, suffix) == cronJobName[..keep] + suffix
  {
  }

  /** The default name always ends with the suffix and fits in 63 characters whenever the
      suffix does; a name that has to be cut is cut to exactly 63 characters, and a short
      name is kept whole. */
  lemma DefaultJobNameFits(cronJobName: string, suffix: string)
    ensures var n := DefaultJobName(cronJobName, suffix);
      && |n| >= |suffix| && n[|n| - |suffix|..] == suffix
      && n[..|n| - |suffix|] <= cronJobName
      && (|suffix| <= MaxNameLength ==> |n| <= MaxNameLength)
      && (|suffix| <= MaxNameLength && |cronJobName| + |suffix| > MaxNameLength ==> |n| == MaxNameLength)
      && (|cronJobName| + |suffix| <= MaxNameLength ==> n == cronJobName + suffix)
  {
    DefaultJobNameShape(cronJobName, suffix);
  }

  // ---------------------------------------------------------------------------
  // The spawned Job
  // ---------------------------------------------------------------------------

  const InstantiateAnnotation := "cronjob.kubernetes.io/instantiate"

  /** The single owner reference a spawned Job gets when the CronJob's raw data is known. */
  function SpawnOwnerReference(cronJob: CronJob): (r: OwnerReference)
    requires cronJob.jsonData.Some?
    ensures r.controller == Some(true) && r.blockOwnerDeletion == Some(true)
    ensures r.name == cronJob.metadata.name && r.uid == cronJob.metadata.uid
    ensures r.kind == cronJob.jsonData.value.kind && r.apiVersion == cronJob.jsonData.value.apiVersion
  {
    OwnerReference(
      apiVersion := cronJob.jsonData.value.apiVersion,
      blockOwnerDeletion := Some(true),
      controller := Some(true),
      kind := cronJob.jsonData.value.kind,
      name := cronJob.metadata.name,
      uid := cronJob.metadata.uid)
  }

  /** `job` is the Job spawned by hand from `cronJob` under the name `jobName`: a copy of the
      template with kind, apiVersion, namespace, name, the manual-instantiation annotation and
      (when the raw CronJob is known) the owner reference set; everything else is the template's. */
  predicate SpawnedFrom(job: JobObject, cronJob: CronJob, jobName: string) {
    var tmpl := cronJob.spec.jobTemplate.metadata.GetOr(EmptyMeta);
    && job.kind == Some("Job") && job.apiVersion == Some("batch/v1")
    && job.spec == cronJob.spec.jobTemplate.spec
    && job.metadata.Some?
    && var meta := job.metadata.value;
    && meta.name == Some(jobName)
    && meta.namespace == cronJob.metadata.namespace
    && meta.labels == tmpl.labels
    && meta.annotations.Some?
    && InstantiateAnnotation in meta.annotations.value
    && meta.annotations.value[InstantiateAnnotation] == "manual"
    && (forall k :: k in tmpl.annotations.GetOr(map[]) && k != InstantiateAnnotation ==>
          k in meta.annotations.value && meta.annotations.value[k] == tmpl.annotations.value[k])
    && meta.annotations.value.Keys == tmpl.annotations.GetOr(map[]).Keys + {InstantiateAnnotation}
    && (cronJob.jsonData.Some? ==> meta.ownerReferences == Some([SpawnOwnerReference(cronJob)]))
    && (cronJob.jsonData.None? ==> meta.ownerReferences == tmpl.ownerReferences)
  }

  /** The dialog that spawns a Job from a CronJob by hand. */
  class SpawnJobDialog {
    const cronJob: CronJob
    /** The Job name in the dialog's text field. */
    var jobName: string

    constructor (cronJob: CronJob, unique: string)
      ensures this.cronJob == cronJob
      ensures jobName == DefaultJobName(cronJob.metadata.name, SpawnSuffix(unique))
    {
      this.cronJob := cronJob;
      jobName := DefaultJobName(cronJob.metadata.name, SpawnSuffix(unique));
    }

    /** The text field's `onChange`. */
    method SetJobName(value: string)
      modifies this
      ensures jobName == value
    {
      jobName := value;
    }

    /** The Job `handleSpawn` hands to `apply`. */
    method BuildJob() returns (job: JobObject)
      ensures SpawnedFrom(job, cronJob, jobName)
    {
      job := cronJob.spec.jobTemplate;
      job := job.(kind := Some("Job"));
      var meta := job.metadata.GetOr(EmptyMeta);
      meta := meta.(namespace := cronJob.metadata.namespace);
      job := job.(apiVersion := Some("batch/v1"));
      meta := meta.(name := Some(jobName));
      meta := meta.(annotations := Some(meta.annotations.GetOr(map[])[InstantiateAnnotation := "manual"]));
      if cronJob.jsonData.Some? {
        meta := meta.(ownerReferences := Some([SpawnOwnerReference(cronJob)]));
      }
      job := job.(metadata := Some(meta));
    }

    /** `handleSpawn`: closes the dialog and returns the Job whose `apply` is dispatched.
        The CronJob and the dialog's name are left as they were. */
    method HandleSpawn(page: CronJobPage) returns (job: JobObject)
      modifies page
      ensures !page.isSpawnDialogOpen
      ensures page.isPendingSuspend == old(page.isPendingSuspend)
      ensures SpawnedFrom(job, cronJob, jobName)
      ensures jobName == old(jobName)
    {
      job := BuildJob();
      page.CloseSpawnDialog();
    }
  }

  // ---------------------------------------------------------------------------
  // Owned Jobs
  // ---------------------------------------------------------------------------

  /** An owner reference to the CronJob called `name`. */
  predicate RefersToCronJob(ref: OwnerReference, name: string) {
    ref.kind == "CronJob" && ref.name == name
  }

  /** A Job with some owner reference to the CronJob called `name`. */
  predicate OwnedBy(job: Job, name: string) {
    job.metadata.ownerReferences.Some? &&
    exists i :: 0 <= i < |job.metadata.ownerReferences.value| &&
                RefersToCronJob(job.metadata.ownerReferences.value[i], name)
  }

  /** The Jobs of a list that are owned by the CronJob called `name`, in list order. */
  function FilterOwned(jobs: seq<Job>, name: string): (r: seq<Job>)
    ensures |r| <= |jobs|
    ensures forall j :: j in r ==> j in jobs && OwnedBy(j, name)
    ensures forall j :: j in jobs && OwnedBy(j, name) ==> j in r
  {
    if jobs == [] then []
    else if OwnedBy(jobs[0], name) then [jobs[0]] + FilterOwned(jobs[1..], name)
    else FilterOwned(jobs[1..], name)
  }

  /** `ownedJobs`: the listed Jobs owned by the CronJob, or nothing while the list is missing. */
  function OwnedJobs(jobs: Option<seq<Job>>, name: string): (r: seq<Job>)
    ensures jobs.None? ==> r == []
    ensures jobs.Some? ==> r == FilterOwned(jobs.value, name)
  {
    match jobs
    case None => []
    case Some(list) => FilterOwned(list, name)
  }

  /** The filter keeps order: filtering a concatenation concatenates the filtered parts. */
  lemma {:induction false} FilterOwnedAppend(a: seq<Job>, b: seq<Job>, name: string)
    ensures FilterOwned(a + b, name) == FilterOwned(a, name) + FilterOwned(b, name)
  {
    if a == [] {
      assert a + b == b;
    } else {
      assert (a + b)[1..] == a[1..] + b;
      FilterOwnedAppend(a[1..], b, name);
    }
  }

  /** Filtering twice is filtering once. */
  lemma {:induction false} FilterOwnedIdempotent(jobs: seq<Job>, name: string)
    ensures FilterOwned(FilterOwned(jobs, name), name) == FilterOwned(jobs, name)
  {
    if jobs != [] {
      FilterOwnedIdempotent(jobs[1..], name);
    }
  }

  /** A spawned Job whose owner reference names a CronJob of kind "CronJob" shows up among
      that CronJob's Jobs; one built from a CronJob of another kind does not. */
  lemma SpawnedJobIsOwned(job: JobObject, cronJob: CronJob, jobName: string)
    requires SpawnedFrom(job, cronJob, jobName) && cronJob.jsonData.Some?
    ensures OwnedBy(Job(job.metadata.value), cronJob.metadata.name) <==> cronJob.jsonData.value.kind == "CronJob"
  {
    var meta := job.metadata.value;
    if cronJob.jsonData.value.kind == "CronJob" {
      assert RefersToCronJob(meta.ownerReferences.value[0], cronJob.metadata.name);
    }
  }

  // ---------------------------------------------------------------------------
  // Suspend / resume
  // ---------------------------------------------------------------------------

  /** The body of the suspend patch: `{ spec: { suspend } }` and nothing else. */
  datatype SuspendPatch = SuspendPatch(suspend: bool)

  /** The action the button offers for the current `spec.suspend`. */
  datatype SuspendAction = Resume | Suspend

  function ButtonAction(suspend: Option<bool>): (r: SuspendAction)
    ensures r == Resume <==> suspend == Some(true)
  {
    if suspend == Some(true) then Resume else Suspend
  }

  /** The suspend value the button asks for: the negation of the current `spec.suspend`,
      an unset value counting as not suspended. */
  function RequestedSuspend(suspend: Option<bool>): (r: bool)
    ensures r <==> suspend != Some(true)
  {
    !(suspend == Some(true))
  }

  /** The request agrees with the label: "Resume" asks for `false`, "Suspend" for `true`. */
  lemma ActionMatchesRequest(suspend: Option<bool>)
    ensures ButtonAction(suspend) == Resume ==> !RequestedSuspend(suspend)
    ensures ButtonAction(suspend) == Suspend ==> RequestedSuspend(suspend)
  {
  }

  /** The CronJob after the patch has been merged: only `spec.suspend` changes. */
  function Patched(cronJob: CronJob, patch: SuspendPatch): (r: CronJob)
    ensures r.spec.suspend == Some(patch.suspend)
    ensures r.metadata == cronJob.metadata && r.jsonData == cronJob.jsonData
    ensures r.spec.jobTemplate == cronJob.spec.jobTemplate
  {
    cronJob.(spec := cronJob.spec.(suspend := Some(patch.suspend)))
  }

  /** Two successful presses bring a CronJob with a set `spec.suspend` back to where it was. */
  lemma ToggleTwiceRestores(cronJob: CronJob)
    requires cronJob.spec.suspend.Some?
    ensures var once := Patched(cronJob, SuspendPatch(RequestedSuspend(cronJob.spec.suspend)));
      Patched(once, SuspendPatch(RequestedSuspend(once.spec.suspend))) == cronJob
  {
    var b := cronJob.spec.suspend.value;
    assert RequestedSuspend(Some(RequestedSuspend(Some(b)))) == b;
  }

  /** The page state that the action buttons change. */
  class CronJobPage {
    var isSpawnDialogOpen: bool
    var isPendingSuspend: bool

    constructor ()
      ensures !isSpawnDialogOpen && !isPendingSuspend
    {
      isSpawnDialogOpen := false;
      isPendingSuspend := false;
    }

    /** The suspend/resume button is disabled while a request is pending. */
    predicate SuspendButtonDisabled()
      reads this
    {
      isPendingSuspend
    }

    method OpenSpawnDialog()
      modifies this
      ensures isSpawnDialogOpen && isPendingSuspend == old(isPendingSuspend)
    {
      isSpawnDialogOpen := true;
    }

    method CloseSpawnDialog()
      modifies this
      ensures !isSpawnDialogOpen && isPendingSuspend == old(isPendingSuspend)
    {
      isSpawnDialogOpen := false;
    }

    /** `applySuspend`: marks the request pending and returns the patch to dispatch. */
    method ApplySuspend(suspend: bool) returns (patch: SuspendPatch)
      modifies this
      ensures isPendingSuspend
      ensures patch == SuspendPatch(suspend)
      ensures isSpawnDialogOpen == old(isSpawnDialogOpen)
    {
      isPendingSuspend := true;
      patch := SuspendPatch(suspend);
    }

    /** A press of the suspend/resume button: a disabled button dispatches nothing and changes
        nothing; an enabled one asks for the negation of the current `spec.suspend`. */
    method PressSuspendButton(cronJob: CronJob) returns (patch: Option<SuspendPatch>)
      modifies this
      ensures old(isPendingSuspend) ==> patch.None? && isPendingSuspend
      ensures !old(isPendingSuspend) ==>
        patch == Some(SuspendPatch(RequestedSuspend(cronJob.spec.suspend))) && isPendingSuspend
      ensures isSpawnDialogOpen == old(isSpawnDialogOpen)
    {
      if SuspendButtonDisabled() {
        return None;
      }
      var p := ApplySuspend(RequestedSuspend(cronJob.spec.suspend));
      patch := Some(p);
    }

    /** The patch request finished, successfully or not (`finally`). */
    method PatchSettled()
      modifies this
      ensures !isPendingSuspend && isSpawnDialogOpen == old(isSpawnDialogOpen)
    {
      isPendingSuspend := false;
    }

    /** The dispatched action was cancelled before it ran (`cancelCallback`). */
    method SuspendCancelled()
      modifies this
      ensures !isPendingSuspend && isSpawnDialogOpen == old(isSpawnDialogOpen)
    {
      isPendingSuspend := false;
    }
  }
}
