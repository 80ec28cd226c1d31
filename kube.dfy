/** The Kubernetes objects the operator builds and reads, reduced to the fields the core
    sets or inspects. */
module Kube {
  import opened Common
  import opened Api

  /** v1.DockerConfigJsonKey: the key of a kubernetes.io/dockerconfigjson secret. */
  const DockerConfigJsonKey := ".dockerconfigjson"

  datatype KeyToPath = KeyToPath(key: string, path: string)

  datatype DownwardApiFile = DownwardApiFile(path: string, fieldPath: string)

  datatype VolumeSource =
    | DownwardApi(files: seq<DownwardApiFile>)
    | SecretSource(secretName: string, items: seq<KeyToPath>)

  datatype Volume = Volume(name: string, source: VolumeSource)

  datatype VolumeMount = VolumeMount(name: string, readOnly: bool, mountPath: string)

  function VolumeNames(vs: seq<Volume>): seq<string>
  {
    seq(|vs|, i requires 0 <= i < |vs| => vs[i].name)
  }

  function MountNames(ms: seq<VolumeMount>): seq<string>
  {
    seq(|ms|, i requires 0 <= i < |ms| => ms[i].name)
  }

  datatype Container = Container(
    name: string,
    image: string,
    args: seq<string>,
    volumeMounts: seq<VolumeMount>)

  datatype RestartPolicy = Always | OnFailure | Never

  datatype OwnerReference = OwnerReference(
    apiVersion: string,
    kind: string,
    name: string,
    uid: string,
    controller: bool)

  /** The counters of a batch/v1 JobStatus. */
  datatype JobStatus = JobStatus(active: int, succeeded: int, failed: int)

  /** A batch/v1 Job; `annotations` are those of its pod template. */
  datatype Job = Job(
    generateName: string,
    namespace: string,
    labels: Labels,
    ownerReferences: seq<OwnerReference>,
    completions: int,
    annotations: Labels,
    containers: seq<Container>,
    restartPolicy: RestartPolicy,
    volumes: seq<Volume>,
    status: JobStatus)

  /** A Node: its labels and the kernel it reports in Status.NodeInfo.KernelVersion. */
  datatype Node = Node(name: string, labels: Labels, kernelVersion: string)

  /** The owner reference controllerutil.SetControllerReference writes for `mod`. */
  function ControllerReference(mod: Module): OwnerReference
  {
    OwnerReference(mod.apiVersion, mod.kind, mod.name, mod.uid, true)
  }

  /** A file at `path` reaches a container: some mount of it at directory D names a
      secret volume with an item at relative path P, and D + "/" + P == path. */
  predicate SecretFileMounted(volumes: seq<Volume>, mounts: seq<VolumeMount>, path: string)
  {
    exists i, j, k ::
      0 <= i < |mounts| && 0 <= j < |volumes| &&
      volumes[j].name == mounts[i].name && volumes[j].source.SecretSource? &&
      0 <= k < |volumes[j].source.items| &&
      mounts[i].mountPath + "/" + volumes[j].source.items[k].path == path
  }
}
