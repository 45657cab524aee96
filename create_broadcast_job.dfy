/** `kubectl-kruise create broadcastJob` (pkg/cmd/create/create_broadcast_job.go):
    option checks, and the BroadcastJob built either from an image and command or
    from the BroadcastJob template of an AdvancedCronJob. */
module CreateBroadcastJob {
  import opened Wrappers

  datatype Container = Container(name: string, image: string, command: Option<seq<string>>)
  datatype PodSpec = PodSpec(containers: seq<Container>, restartPolicy: string)
  datatype OwnerReference = OwnerReference(apiVersion: string, kind: string, name: string, uid: string)

  /** The BroadcastJob fields the command fills; an unset namespace is "". */
  datatype BroadcastJob = BroadcastJob(apiVersion: string, kind: string, name: string, namespace: string,
                                       annotations: map<string, string>, labels: map<string, string>,
                                       ownerReferences: seq<OwnerReference>, spec: PodSpec)

  /** An AdvancedCronJob's BroadcastJob template: metadata and the job's pod spec. */
  datatype BroadcastJobTemplate = BroadcastJobTemplate(annotations: map<string, string>, labels: map<string, string>,
                                                       spec: PodSpec)

  datatype CreateBroadcastJobOptions = CreateBroadcastJobOptions(name: string, image: string, from: string,
                                                                 command: Option<seq<string>>,
                                                                 namespace: string, enforceNamespace: bool)

  const BatchV1 := "batch/v1"
  const KruiseAppsV1alpha1 := "apps.kruise.io/v1alpha1"
  const AdvancedCronJobKind := "AdvancedCronJob"
  const RestartPolicyNever := "Never"
  const InstantiateAnnotation := "cronjob.kubernetes.io/instantiate"
  const BroadcastJobTemplateType := "BroadcastJob"

  // ---------------------------------------------------------------- Complete and Validate

  /** The command of `Complete`: every argument after the job name, or none. */
  function CommandFromArgs(args: seq<string>): (r: Option<seq<string>>)
    ensures r.Some? <==> |args| > 1
    ensures r.Some? ==> [args[0]] + r.value == args
  {
    if |args| > 1 then Some(args[1..]) else None
  }

  const ImageOrFromError := "either --image or --from must be specified"
  const CommandWithFromError := "cannot specify --from and command"

  /** `Validate`: exactly one of `--image` and `--from`, and no command with `--from`. */
  function Validate(o: CreateBroadcastJobOptions): (r: Option<string>)
    ensures r == Some(ImageOrFromError) <==> (o.image == "" <==> o.from == "")
    ensures r == Some(CommandWithFromError) <==>
              (o.image == "" <==> o.from != "") && o.command.Some? && o.command.value != [] && o.from != ""
    ensures r.None? <==> (o.image == "" <==> o.from != "") && (o.from != "" ==> o.command.None? || o.command.value == [])
  {
    if (|o.image| == 0 && |o.from| == 0) || (|o.image| != 0 && |o.from| != 0) then Some(ImageOrFromError)
    else if o.command.Some? && |o.command.value| != 0 && |o.from| != 0 then Some(CommandWithFromError)
    else None
  }

  /** A job created from a cron job never carries a command given on the command line. */
  lemma FromJobsTakeNoCommand(o: CreateBroadcastJobOptions, args: seq<string>)
    requires o.command == CommandFromArgs(args) && o.from != ""
    ensures Validate(o).None? ==> |args| <= 1
  {
  }

  // ---------------------------------------------------------------- building the job

  function NamespaceOf(o: CreateBroadcastJobOptions): (r: string)
    ensures r == (if o.enforceNamespace then o.namespace else "")
  {
    if o.enforceNamespace then o.namespace else ""
  }

  /** `createBroadcastJob`: one container named after the job running the given image and
      command, never restarted. The type meta is written as `batch/v1` with kind
      AdvancedCronJob. */
  function JobFromImage(o: CreateBroadcastJobOptions): (job: BroadcastJob)
    ensures job.name == o.name && job.namespace == NamespaceOf(o)
    ensures job.spec.containers == [Container(o.name, o.image, o.command)]
    ensures job.spec.restartPolicy == RestartPolicyNever
    ensures job.annotations == map[] && job.labels == map[] && job.ownerReferences == []
    ensures job.apiVersion == BatchV1 && job.kind == AdvancedCronJobKind
  {
    BroadcastJob(BatchV1, AdvancedCronJobKind, o.name, NamespaceOf(o), map[], map[], [],
                 PodSpec([Container(o.name, o.image, o.command)], RestartPolicyNever))
  }

  /** The annotations of a job made from a template: the template's annotations, plus
      instantiate=manual unless the template already sets that key. */
  function MergedAnnotations(template: map<string, string>): (r: map<string, string>)
    ensures r.Keys == template.Keys + {InstantiateAnnotation}
    ensures forall k :: k in template ==> r[k] == template[k]
    ensures InstantiateAnnotation !in template ==> r[InstantiateAnnotation] == "manual"
  {
    map[InstantiateAnnotation := "manual"] + template
  }

  /** Those three facts pin the annotations down: any map with them is the merge. */
  lemma MergedAnnotationsUnique(template: map<string, string>, a: map<string, string>)
    requires a.Keys == template.Keys + {InstantiateAnnotation}
    requires forall k :: k in template ==> a[k] == template[k]
    requires InstantiateAnnotation !in template ==> a[InstantiateAnnotation] == "manual"
    ensures a == MergedAnnotations(template)
  {
    var m := MergedAnnotations(template);
    forall k | k in a ensures a[k] == m[k] {
      if k !in template { assert k == InstantiateAnnotation; }
    }
  }

  /** `createBroadcastJobFromBroadcastJobTemplate`'s annotation loop: instantiate=manual
      first, then every template annotation copied over it, one key at a time. */
  method TemplateAnnotations(template: map<string, string>) returns (annotations: map<string, string>)
    ensures annotations == MergedAnnotations(template)
  {
    annotations := map[InstantiateAnnotation := "manual"];
    var remaining := template.Keys;
    while remaining != {}
      invariant remaining <= template.Keys
      invariant annotations.Keys == (template.Keys - remaining) + {InstantiateAnnotation}
      invariant forall k :: k in template && k !in remaining ==> annotations[k] == template[k]
      invariant InstantiateAnnotation in remaining || InstantiateAnnotation !in template ==>
                  annotations[InstantiateAnnotation] == "manual"
      decreases |remaining|
    {
      var k :| k in remaining;
      annotations := annotations[k := template[k]];
      remaining := remaining - {k};
    }
    MergedAnnotationsUnique(template, annotations);
  }

  /** The job made from an AdvancedCronJob's template. */
  function TemplateJob(o: CreateBroadcastJobOptions, ownerName: string, ownerUid: string,
                       template: BroadcastJobTemplate): BroadcastJob
  {
    BroadcastJob(BatchV1, "Job", o.name, NamespaceOf(o), MergedAnnotations(template.annotations), template.labels,
                 [OwnerReference(KruiseAppsV1alpha1, AdvancedCronJobKind, ownerName, ownerUid)], template.spec)
  }

  /** `createBroadcastJobFromBroadcastJobTemplate`: template labels and spec, the merged
      annotations, and the cron job as the single owner. */
  method JobFromTemplate(o: CreateBroadcastJobOptions, ownerName: string, ownerUid: string,
                         template: BroadcastJobTemplate) returns (job: BroadcastJob)
    ensures job == TemplateJob(o, ownerName, ownerUid, template)
    ensures job.name == o.name && job.namespace == NamespaceOf(o)
    ensures job.apiVersion == BatchV1 && job.kind == "Job"
    ensures job.labels == template.labels && job.spec == template.spec
    ensures job.ownerReferences == [OwnerReference(KruiseAppsV1alpha1, AdvancedCronJobKind, ownerName, ownerUid)]
    ensures job.annotations.Keys == template.annotations.Keys + {InstantiateAnnotation}
    ensures forall k :: k in template.annotations ==> job.annotations[k] == template.annotations[k]
    ensures InstantiateAnnotation !in template.annotations ==> job.annotations[InstantiateAnnotation] == "manual"
  {
    var annotations := TemplateAnnotations(template.annotations);
    job := BroadcastJob(BatchV1, "Job", o.name, "", annotations, template.labels,
                        [OwnerReference(KruiseAppsV1alpha1, AdvancedCronJobKind, ownerName, ownerUid)],
                        template.spec);
    if o.enforceNamespace {
      job := job.(namespace := o.namespace);
    }
  }

  /** What `--from` resolved to: an AdvancedCronJob (with its status type and template)
      or an object of some other Go type. */
  datatype FromObject =
    | AdvancedCronJob(name: string, uid: string, statusType: string, template: BroadcastJobTemplate)
    | OtherObject(goType: string)

  const NotOneCronJobError := "from must be an existing advancedCronJob"

  /** The job-building part of `Run`: the image path, or the single resolved
      AdvancedCronJob whose status type is BroadcastJob. */
  method BuildJob(o: CreateBroadcastJobOptions, lookup: Result<seq<FromObject>>) returns (r: Result<BroadcastJob>)
    ensures |o.image| > 0 ==> r == Ok(JobFromImage(o))
    ensures |o.image| == 0 && lookup.Err? ==> r == Err(lookup.error)
    ensures |o.image| == 0 && lookup.Ok? && |lookup.value| != 1 ==> r == Err(NotOneCronJobError)
    ensures |o.image| == 0 && lookup.Ok? && |lookup.value| == 1 && lookup.value[0].OtherObject? ==>
              r == Err("unknown object type " + lookup.value[0].goType)
    ensures |o.image| == 0 && lookup.Ok? && |lookup.value| == 1 && lookup.value[0].AdvancedCronJob? ==>
              (r.Ok? <==> lookup.value[0].statusType == BroadcastJobTemplateType)
    ensures |o.image| == 0 && lookup.Ok? && |lookup.value| == 1 && lookup.value[0].AdvancedCronJob? && r.Err? ==>
              r.error == "from must be a broadcastJob template, but got " + lookup.value[0].statusType
    ensures |o.image| == 0 && r.Ok? ==>
              lookup.Ok? && |lookup.value| == 1 && lookup.value[0].AdvancedCronJob?
              && r.value == TemplateJob(o, lookup.value[0].name, lookup.value[0].uid, lookup.value[0].template)
  {
    if |o.image| > 0 {
      return Ok(JobFromImage(o));
    }
    if lookup.Err? {
      return Err(lookup.error);
    }
    if |lookup.value| != 1 {
      return Err(NotOneCronJobError);
    }
    match lookup.value[0]
    case OtherObject(t) =>
      return Err("unknown object type " + t);
    case AdvancedCronJob(name, uid, statusType, template) =>
      if statusType != BroadcastJobTemplateType {
        return Err("from must be a broadcastJob template, but got " + statusType);
      }
      var job := JobFromTemplate(o, name, uid, template);
      return Ok(job);
  }
}
