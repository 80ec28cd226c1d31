/** The Module custom resource and the label keys the operator writes.
    Field shapes follow the Module API types; the `Sign` section, the module-level `Build`
    and the module-level `ImagePullSecret` are taken from the code that reads them. */
module Api {
  import opened Common

  /** Label carrying the owning Module's name, on jobs and on DaemonSets. */
  const ModuleNameLabel := "oot.node.kubernetes.io/module.name"
  /** Label carrying the target kernel on jobs (constants.TargetKernelTarget). */
  const TargetKernelLabel := "oot.node.kubernetes.io/target-kernel"
  /** Label carrying the pipeline stage on jobs made by the stage-aware job manager. */
  const BuildStageLabel := "ooto.sigs.k8s.io/build-stage"

  datatype PullOptions = PullOptions(insecure: bool, insecureSkipTlsVerify: bool)

  datatype PushOptions = PushOptions(insecure: bool, insecureSkipTlsVerify: bool)

  datatype BuildArg = BuildArg(name: string, value: string)

  /** A v1.LocalObjectReference: the name of a Secret in the same namespace. */
  datatype SecretRef = SecretRef(name: string)

  datatype BuildConfig = BuildConfig(
    buildArgs: seq<BuildArg>,
    dockerfile: string,
    pull: PullOptions,
    push: PushOptions,
    secrets: seq<SecretRef>)

  datatype SignConfig = SignConfig(
    unsignedImage: string,
    signedImage: string,
    pull: PullOptions,
    imagePullSecret: Option<SecretRef>,
    keySecret: Option<SecretRef>,
    certSecret: Option<SecretRef>,
    filesToSign: seq<string>)

  /** One kernel mapping; `literal` and `regexp` are kept for shape only, since matching
      kernels against mappings is not part of this model. */
  datatype KernelMapping = KernelMapping(
    build: Option<BuildConfig>,
    sign: Option<SignConfig>,
    containerImage: string,
    literal: string,
    regexp: string)

  datatype ModuleSpec = ModuleSpec(
    selector: Labels,
    kernelMappings: seq<KernelMapping>,
    build: Option<BuildConfig>,
    imagePullSecret: Option<SecretRef>)

  /** A Module object: type metadata, object metadata and spec. */
  datatype Module = Module(
    apiVersion: string,
    kind: string,
    name: string,
    namespace: string,
    uid: string,
    spec: ModuleSpec)
}
