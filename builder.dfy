/** The "Build" stage of the stage-aware job manager: a kaniko job that builds the kernel
    module image from the Dockerfile of the relevant build configuration and pushes it. */
module Builder {
  import opened Common
  import opened Api
  import opened Kube
  import opened BuildResult
  import opened Correlation

  const Name := "Build"
  const KanikoImage := "gcr.io/kaniko-project/executor:latest"
  const DockerfileVolumeName := "dockerfile"
  const DockerfileFieldPath := "metadata.annotations['Dockerfile']"
  const KernelVersionArg := "KERNEL_VERSION"

  /** build.Helper. Its implementation is not part of this model, so its two operations
      are parameters: the build configuration that applies to a (module, mapping) pair,
      and the override of one build argument in a list of them. */
  datatype Helper = Helper(
    relevantBuild: (Module, KernelMapping) -> BuildConfig,
    applyBuildArgOverrides: (seq<BuildArg>, BuildArg) -> seq<BuildArg>)

  /** The stage runs when a build section exists at the module or at the mapping level. */
  predicate ShouldRun(mod: Module, km: KernelMapping)
  {
    !(mod.spec.build.None? && km.build.None?)
  }

  /** PullOptions as written: it reads the mapping's own build section, which is absent
      when only the module carries one. */
  function PullOptionsAsWritten(km: KernelMapping): PullOptions
    requires km.build.Some?
  {
    km.build.value.pull
  }

  /** PullOptions as intended: the mapping's own pull options, as written, whenever the
      mapping has a build section; otherwise those of the build that applies, where the
      code as written dereferences the absent section. */
  function PullOptions(helper: Helper, mod: Module, km: KernelMapping): (p: PullOptions)
    ensures km.build.Some? ==> p == PullOptionsAsWritten(km)
    ensures km.build.None? ==> p == helper.relevantBuild(mod, km).pull
  {
    if km.build.Some? then km.build.value.pull else helper.relevantBuild(mod, km).pull
  }

  /** A module whose build section sits at the module level: the stage runs, yet the
      as-written pull options would dereference the mapping's absent build section. */
  lemma ModuleLevelBuildOutsidePullOptionsAsWritten(helper: Helper, mod: Module, km: KernelMapping)
    requires mod.spec.build.Some? && km.build.None?
    ensures ShouldRun(mod, km) && !km.build.Some?
    ensures PullOptions(helper, mod, km) == helper.relevantBuild(mod, km).pull
  {
  }

  /** GetOutputImage as written: it reads km.Sign unconditionally. */
  function OutputImageAsWritten(km: KernelMapping): Result<string, MakeError>
    requires km.sign.Some?
  {
    if km.sign.value.unsignedImage != "" then Ok(km.sign.value.unsignedImage)
    else if km.containerImage != "" then Ok(km.containerImage)
    else Err(NoOutputImage)
  }

  /** GetOutputImage as intended: the unsigned image of a signing section when one is
      given, else the mapping's container image. */
  function OutputImage(km: KernelMapping): (r: Result<string, MakeError>)
    ensures km.sign.Some? ==> r == OutputImageAsWritten(km)
  {
    if km.sign.Some? && km.sign.value.unsignedImage != "" then Ok(km.sign.value.unsignedImage)
    else if km.containerImage != "" then Ok(km.containerImage)
    else Err(NoOutputImage)
  }

  /** The builder pushes to a non-empty name: the unsigned image when signing names one,
      otherwise the container image; it fails exactly when neither is given. */
  lemma OutputImagePreference(km: KernelMapping)
    ensures OutputImage(km).Ok? ==> OutputImage(km).value != ""
    ensures OutputImage(km).Err? <==>
      (km.sign.None? || km.sign.value.unsignedImage == "") && km.containerImage == ""
    ensures km.sign.Some? && km.sign.value.unsignedImage != "" ==>
      OutputImage(km) == Ok(km.sign.value.unsignedImage)
    ensures (km.sign.None? || km.sign.value.unsignedImage == "") && km.containerImage != "" ==>
      OutputImage(km) == Ok(km.containerImage)
  {
  }

  /** A build-only mapping: the stage runs, the as-written GetOutputImage would dereference
      the absent signing section, and the intended one yields the container image. */
  lemma BuildOnlyMappingOutsideOutputImageAsWritten(mod: Module, bc: BuildConfig, image: string)
    requires image != ""
    ensures
      var km := KernelMapping(Some(bc), None, image, "", "");
      ShouldRun(mod, km) && !km.sign.Some? && OutputImage(km) == Ok(image)
  {
  }

  /** volumeNameFromSecretRef. */
  function VolumeName(ref: SecretRef): string
  {
    "secret-" + ref.name
  }

  /** The two flags per build argument, in the order of the arguments. */
  function BuildArgFlags(args: seq<BuildArg>): (r: seq<string>)
    ensures |r| == 2 * |args|
    ensures forall i :: 0 <= i < |args| ==>
      r[2 * i] == "--build-arg" && r[2 * i + 1] == args[i].name + "=" + args[i].value
  {
    if |args| == 0 then []
    else
      var last := args[|args| - 1];
      BuildArgFlags(args[..|args| - 1]) + ["--build-arg", last.name + "=" + last.value]
  }

  /** The registry flags, in the order pull-insecure, pull-skip-tls, push-insecure,
      push-skip-tls. */
  function InsecureFlags(pull: PullOptions, push: PushOptions): seq<string>
  {
    (if pull.insecure then ["--insecure-pull"] else []) +
    (if pull.insecureSkipTlsVerify then ["--skip-tls-verify-pull"] else []) +
    (if push.insecure then ["--insecure"] else []) +
    (if push.insecureSkipTlsVerify then ["--skip-tls-verify"] else [])
  }

  /** Each flag is present exactly when its option is set, and nothing else is added. */
  lemma InsecureFlagsExact(pull: PullOptions, push: PushOptions)
    ensures ("--insecure-pull" in InsecureFlags(pull, push)) <==> pull.insecure
    ensures ("--skip-tls-verify-pull" in InsecureFlags(pull, push)) <==> pull.insecureSkipTlsVerify
    ensures ("--insecure" in InsecureFlags(pull, push)) <==> push.insecure
    ensures ("--skip-tls-verify" in InsecureFlags(pull, push)) <==> push.insecureSkipTlsVerify
    ensures |InsecureFlags(pull, push)| ==
      (if pull.insecure then 1 else 0) + (if pull.insecureSkipTlsVerify then 1 else 0) +
      (if push.insecure then 1 else 0) + (if push.insecureSkipTlsVerify then 1 else 0)
  {
    var a := if pull.insecure then ["--insecure-pull"] else [];
    var b := if pull.insecureSkipTlsVerify then ["--skip-tls-verify-pull"] else [];
    var c := if push.insecure then ["--insecure"] else [];
    var d := if push.insecureSkipTlsVerify then ["--skip-tls-verify"] else [];
    assert InsecureFlags(pull, push) == a + b + c + d;
    assert "--insecure-pull" != "--skip-tls-verify-pull" && "--insecure-pull" != "--insecure";
    assert "--insecure-pull" != "--skip-tls-verify" && "--insecure" != "--skip-tls-verify";
    assert "--insecure" != "--skip-tls-verify-pull" && "--skip-tls-verify" != "--skip-tls-verify-pull";
  }

  /** The kaniko command line. */
  function KanikoArgs(image: string, buildArgs: seq<BuildArg>, bc: BuildConfig): seq<string>
  {
    ["--destination", image] + BuildArgFlags(buildArgs) + InsecureFlags(bc.pull, bc.push)
  }

  const DockerfileVolume := Volume(DockerfileVolumeName,
    DownwardApi([DownwardApiFile("Dockerfile", DockerfileFieldPath)]))

  const DockerfileMount := VolumeMount(DockerfileVolumeName, true, "/workspace")

  /** makeImagePullSecretVolume for a present reference. */
  function PullSecretVolume(ref: SecretRef): Volume
  {
    Volume(VolumeName(ref), SecretSource(ref.name, [KeyToPath(DockerConfigJsonKey, "config.json")]))
  }

  /** makeImagePullSecretVolumeMount for a present reference. */
  function PullSecretMount(ref: SecretRef): VolumeMount
  {
    VolumeMount(VolumeName(ref), true, "/kaniko/.docker")
  }

  function BuildSecretVolume(ref: SecretRef): Volume
  {
    Volume(VolumeName(ref), SecretSource(ref.name, []))
  }

  function BuildSecretMount(ref: SecretRef): VolumeMount
  {
    VolumeMount(VolumeName(ref), true, "/run/secrets/" + ref.name)
  }

  function BuildSecretVolumes(refs: seq<SecretRef>): seq<Volume>
  {
    seq(|refs|, i requires 0 <= i < |refs| => BuildSecretVolume(refs[i]))
  }

  function BuildSecretMounts(refs: seq<SecretRef>): seq<VolumeMount>
  {
    seq(|refs|, i requires 0 <= i < |refs| => BuildSecretMount(refs[i]))
  }

  /** makeBuildSecretVolumes: one secret volume per reference, in order. */
  method MakeBuildSecretVolumes(refs: seq<SecretRef>) returns (volumes: seq<Volume>)
    ensures volumes == BuildSecretVolumes(refs)
  {
    volumes := [];
    for i := 0 to |refs|
      invariant volumes == BuildSecretVolumes(refs[..i])
    {
      volumes := volumes + [BuildSecretVolume(refs[i])];
    }
    assert refs[..|refs|] == refs;
  }

  /** makeBuildSecretVolumeMounts: one read-only mount per reference, in order. */
  method MakeBuildSecretVolumeMounts(refs: seq<SecretRef>) returns (mounts: seq<VolumeMount>)
    ensures mounts == BuildSecretMounts(refs)
  {
    mounts := [];
    for i := 0 to |refs|
      invariant mounts == BuildSecretMounts(refs[..i])
    {
      mounts := mounts + [BuildSecretMount(refs[i])];
    }
    assert refs[..|refs|] == refs;
  }

  function PullSecretVolumes(ref: Option<SecretRef>): seq<Volume>
  {
    if ref.Some? then [PullSecretVolume(ref.value)] else []
  }

  function PullSecretMounts(ref: Option<SecretRef>): seq<VolumeMount>
  {
    if ref.Some? then [PullSecretMount(ref.value)] else []
  }

  function BuildVolumes(mod: Module, bc: BuildConfig): seq<Volume>
  {
    [DockerfileVolume] + PullSecretVolumes(mod.spec.imagePullSecret) + BuildSecretVolumes(bc.secrets)
  }

  function BuildMounts(mod: Module, bc: BuildConfig): seq<VolumeMount>
  {
    [DockerfileMount] + PullSecretMounts(mod.spec.imagePullSecret) + BuildSecretMounts(bc.secrets)
  }

  /** The job MakeJob returns, or why it fails; `registersModule` says whether the scheme
      knows the Module kind, the one way SetControllerReference fails on a fresh job. */
  function BuildJob(helper: Helper, mod: Module, km: KernelMapping, kernel: string, registersModule: bool)
    : Result<Job, MakeError>
  {
    var bc := helper.relevantBuild(mod, km);
    match OutputImage(km)
    case Err(e) => Err(e)
    case Ok(image) =>
      if !registersModule then Err(OwnerReferenceFailed)
      else
        var buildArgs := helper.applyBuildArgOverrides(bc.buildArgs, BuildArg(KernelVersionArg, kernel));
        Ok(Job(
          mod.name + "-build-", mod.namespace, StageLabels(mod, kernel, Name),
          [ControllerReference(mod)], 1, map["Dockerfile" := bc.dockerfile],
          [Container("kaniko", KanikoImage, KanikoArgs(image, buildArgs, bc), BuildMounts(mod, bc))],
          OnFailure, BuildVolumes(mod, bc), JobStatus(0, 0, 0)))
  }

  /** MakeJob fails exactly when no output image is named or the owner reference cannot
      be set, and the output-image error takes precedence. */
  lemma BuildJobFailure(helper: Helper, mod: Module, km: KernelMapping, kernel: string, registersModule: bool)
    ensures BuildJob(helper, mod, km, kernel, registersModule).Err? <==>
      OutputImage(km).Err? || !registersModule
    ensures OutputImage(km).Err? ==>
      BuildJob(helper, mod, km, kernel, registersModule) == Err(NoOutputImage)
    ensures OutputImage(km).Ok? && !registersModule ==>
      BuildJob(helper, mod, km, kernel, registersModule) == Err(OwnerReferenceFailed)
  {
  }

  /** The made job: named after the module, in the module's namespace, labelled with the
      module/kernel/"Build" triple, controlled by the module, one completion, restarted on
      failure, one kaniko container, no status yet, and it is the job the stage's lookup
      finds. */
  lemma BuildJobIdentity(helper: Helper, mod: Module, km: KernelMapping, kernel: string, registersModule: bool)
    requires BuildJob(helper, mod, km, kernel, registersModule).Ok?
    ensures
      var j := BuildJob(helper, mod, km, kernel, registersModule).value;
      j.generateName == mod.name + "-build-" && j.namespace == mod.namespace &&
      j.labels == StageLabels(mod, kernel, Name) &&
      j.ownerReferences == [ControllerReference(mod)] && j.ownerReferences[0].controller &&
      j.completions == 1 && j.restartPolicy == OnFailure && j.status == JobStatus(0, 0, 0) &&
      |j.containers| == 1 && j.containers[0].name == "kaniko" && j.containers[0].image == KanikoImage &&
      Jobs.JobMatches(j, StageLabels(mod, kernel, Name), mod.namespace)
  {
  }

  /** The kaniko arguments: the destination is the output image, then one --build-arg pair
      per overridden build argument in order, then the registry flags the relevant build
      asks for. */
  lemma BuildJobArgs(helper: Helper, mod: Module, km: KernelMapping, kernel: string, registersModule: bool)
    requires BuildJob(helper, mod, km, kernel, registersModule).Ok?
    ensures
      var j := BuildJob(helper, mod, km, kernel, registersModule).value;
      var bc := helper.relevantBuild(mod, km);
      var buildArgs := helper.applyBuildArgOverrides(bc.buildArgs, BuildArg(KernelVersionArg, kernel));
      var args := j.containers[0].args;
      var n := 2 + 2 * |buildArgs|;
      |args| == n + |InsecureFlags(bc.pull, bc.push)| &&
      args[0] == "--destination" && args[1] == OutputImage(km).value &&
      (forall i :: 0 <= i < |buildArgs| ==>
         args[2 + 2 * i] == "--build-arg" &&
         args[3 + 2 * i] == buildArgs[i].name + "=" + buildArgs[i].value) &&
      args[n..] == InsecureFlags(bc.pull, bc.push)
  {
    var j := BuildJob(helper, mod, km, kernel, registersModule).value;
    var bc := helper.relevantBuild(mod, km);
    var buildArgs := helper.applyBuildArgOverrides(bc.buildArgs, BuildArg(KernelVersionArg, kernel));
    var flags := BuildArgFlags(buildArgs);
    var args := j.containers[0].args;
    assert args == ["--destination", OutputImage(km).value] + flags + InsecureFlags(bc.pull, bc.push);
    forall i | 0 <= i < |buildArgs|
      ensures args[2 + 2 * i] == "--build-arg" &&
              args[3 + 2 * i] == buildArgs[i].name + "=" + buildArgs[i].value
    {
      assert args[2 + 2 * i] == flags[2 * i];
      assert args[3 + 2 * i] == flags[2 * i + 1];
    }
  }

  /** Every mount names the volume at the same position, so each mount has its volume,
      and every mount is read-only. */
  lemma BuildVolumesMatchMounts(mod: Module, bc: BuildConfig)
    ensures |BuildVolumes(mod, bc)| == 1 + (if mod.spec.imagePullSecret.Some? then 1 else 0) + |bc.secrets|
    ensures MountNames(BuildMounts(mod, bc)) == VolumeNames(BuildVolumes(mod, bc))
    ensures forall i :: 0 <= i < |BuildMounts(mod, bc)| ==> BuildMounts(mod, bc)[i].readOnly
  {
  }

  /** The Dockerfile reaches kaniko's workspace: the pod annotation holds the relevant
      Dockerfile, and the first volume projects that annotation to the file "Dockerfile"
      of the read-only mount at /workspace. */
  lemma BuildJobDeliversDockerfile(helper: Helper, mod: Module, km: KernelMapping, kernel: string, registersModule: bool)
    requires BuildJob(helper, mod, km, kernel, registersModule).Ok?
    ensures
      var j := BuildJob(helper, mod, km, kernel, registersModule).value;
      var v := j.volumes[0];
      var m := j.containers[0].volumeMounts[0];
      j.annotations == map["Dockerfile" := helper.relevantBuild(mod, km).dockerfile] &&
      v.name == m.name && m.mountPath == "/workspace" && m.readOnly &&
      v.source == DownwardApi([DownwardApiFile("Dockerfile", DockerfileFieldPath)])
  {
  }

  /** Registry credentials: with a module pull secret, its docker config is readable at
      /kaniko/.docker/config.json; without one, no volume carries the docker config key. */
  lemma BuildJobMountsPullSecret(helper: Helper, mod: Module, km: KernelMapping, kernel: string, registersModule: bool)
    requires BuildJob(helper, mod, km, kernel, registersModule).Ok?
    ensures
      var j := BuildJob(helper, mod, km, kernel, registersModule).value;
      mod.spec.imagePullSecret.Some? ==>
        SecretFileMounted(j.volumes, j.containers[0].volumeMounts, "/kaniko/.docker/config.json") &&
        j.volumes[1].source == SecretSource(mod.spec.imagePullSecret.value.name,
                                            [KeyToPath(DockerConfigJsonKey, "config.json")])
    ensures
      var j := BuildJob(helper, mod, km, kernel, registersModule).value;
      mod.spec.imagePullSecret.None? ==>
        forall v :: v in j.volumes && v.source.SecretSource? ==> v.source.items == []
  {
    var j := BuildJob(helper, mod, km, kernel, registersModule).value;
    if mod.spec.imagePullSecret.Some? {
      var vols := j.volumes;
      var mounts := j.containers[0].volumeMounts;
      assert vols[1] == PullSecretVolume(mod.spec.imagePullSecret.value);
      assert mounts[1] == PullSecretMount(mod.spec.imagePullSecret.value);
      assert vols[1].source.items[0].path == "config.json";
      assert mounts[1].mountPath + "/" + vols[1].source.items[0].path == "/kaniko/.docker/config.json";
    }
  }

  /** Every build secret of the relevant build is mounted read-only under /run/secrets,
      in a directory named after it, from a volume of that secret. */
  lemma BuildJobMountsBuildSecrets(helper: Helper, mod: Module, km: KernelMapping, kernel: string, registersModule: bool)
    requires BuildJob(helper, mod, km, kernel, registersModule).Ok?
    ensures
      var j := BuildJob(helper, mod, km, kernel, registersModule).value;
      var secrets := helper.relevantBuild(mod, km).secrets;
      var off := 1 + (if mod.spec.imagePullSecret.Some? then 1 else 0);
      forall i :: 0 <= i < |secrets| ==>
        j.volumes[off + i].source == SecretSource(secrets[i].name, []) &&
        j.containers[0].volumeMounts[off + i] ==
          VolumeMount(j.volumes[off + i].name, true, "/run/secrets/" + secrets[i].name)
  {
  }

  /** The loop of MakeJob that appends two flags per build argument. */
  method AppendBuildArgFlags(prefix: seq<string>, buildArgs: seq<BuildArg>) returns (args: seq<string>)
    ensures args == prefix + BuildArgFlags(buildArgs)
  {
    args := prefix;
    for i := 0 to |buildArgs|
      invariant args == prefix + BuildArgFlags(buildArgs[..i])
    {
      assert buildArgs[..i + 1][..i] == buildArgs[..i];
      args := args + ["--build-arg", buildArgs[i].name + "=" + buildArgs[i].value];
    }
    assert buildArgs[..|buildArgs|] == buildArgs;
  }

  /** The four conditional registry flags of MakeJob. */
  method AppendInsecureFlags(prefix: seq<string>, pull: PullOptions, push: PushOptions) returns (args: seq<string>)
    ensures args == prefix + InsecureFlags(pull, push)
  {
    var flags: seq<string> := [];
    if pull.insecure {
      flags := flags + ["--insecure-pull"];
    }
    if pull.insecureSkipTlsVerify {
      flags := flags + ["--skip-tls-verify-pull"];
    }
    if push.insecure {
      flags := flags + ["--insecure"];
    }
    if push.insecureSkipTlsVerify {
      flags := flags + ["--skip-tls-verify"];
    }
    args := prefix + flags;
  }

  /** The argument list of MakeJob. */
  method MakeKanikoArgs(image: string, buildArgs: seq<BuildArg>, bc: BuildConfig) returns (args: seq<string>)
    ensures args == KanikoArgs(image, buildArgs, bc)
  {
    args := AppendBuildArgFlags(["--destination", image], buildArgs);
    args := AppendInsecureFlags(args, bc.pull, bc.push);
  }

  /** The volumes of MakeJob and their mounts: the Dockerfile, the optional pull secret,
      then the build secrets. */
  method MakeVolumes(mod: Module, bc: BuildConfig) returns (volumes: seq<Volume>, mounts: seq<VolumeMount>)
    ensures volumes == BuildVolumes(mod, bc)
    ensures mounts == BuildMounts(mod, bc)
  {
    volumes := [DockerfileVolume];
    mounts := [DockerfileMount];
    if mod.spec.imagePullSecret.Some? {
      volumes := volumes + [PullSecretVolume(mod.spec.imagePullSecret.value)];
      mounts := mounts + [PullSecretMount(mod.spec.imagePullSecret.value)];
    }
    var secretVolumes := MakeBuildSecretVolumes(bc.secrets);
    var secretMounts := MakeBuildSecretVolumeMounts(bc.secrets);
    volumes := volumes + secretVolumes;
    mounts := mounts + secretMounts;
  }

  /** The builder: immutable, it holds the helper and what its scheme knows. */
  class Builder {
    const helper: Helper
    const registersModule: bool

    constructor (helper: Helper, registersModule: bool)
      ensures this.helper == helper && this.registersModule == registersModule
    {
      this.helper := helper;
      this.registersModule := registersModule;
    }

    /** MakeJob: the output image first, then the arguments and the volumes, then the
        owner reference. */
    method MakeJob(mod: Module, km: KernelMapping, kernel: string) returns (r: Result<Job, MakeError>)
      ensures r == BuildJob(helper, mod, km, kernel, registersModule)
    {
      var bc := helper.relevantBuild(mod, km);
      var image := OutputImage(km);
      if image.Err? {
        return Err(image.error);
      }
      var buildArgs := helper.applyBuildArgOverrides(bc.buildArgs, BuildArg(KernelVersionArg, kernel));
      var args := MakeKanikoArgs(image.value, buildArgs, bc);
      var volumes, mounts := MakeVolumes(mod, bc);
      var job := Job(
        mod.name + "-build-", mod.namespace, StageLabels(mod, kernel, Name),
        [], 1, map["Dockerfile" := bc.dockerfile],
        [Container("kaniko", KanikoImage, args, mounts)],
        OnFailure, volumes, JobStatus(0, 0, 0));
      if !registersModule {
        return Err(OwnerReferenceFailed);
      }
      job := job.(ownerReferences := job.ownerReferences + [ControllerReference(mod)]);
      assert job.ownerReferences == [ControllerReference(mod)];
      r := Ok(job);
    }
  }
}
