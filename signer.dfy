/** The "Sign" stage of the stage-aware job manager: a job running the kmod signer over an
    unsigned image, with the signing key, the certificate and optionally registry
    credentials mounted from secrets. */
module Signer {
  import opened Common
  import opened Api
  import opened Kube
  import opened BuildResult
  import opened Correlation
  import Builder

  const Name := "Sign"
  const SignerImage := "quay.io/chrisp262/kmod-signer:latest"
  const PullSecretPath := "/docker_config/config.json"
  const KeyPath := "/signingkey/key.priv"
  const CertPath := "/signingcert/public.der"

  /** The stage runs when the mapping has a signing section. */
  predicate ShouldRun(km: KernelMapping)
  {
    km.sign.Some?
  }

  /** The signing section's pull options; the section must exist (the stage only runs
      when it does). */
  function PullOptions(km: KernelMapping): (p: PullOptions)
    requires km.sign.Some?
    ensures p == km.sign.value.pull
  {
    km.sign.value.pull
  }

  /** GetOutputImage: the signed image when named, else the container image. */
  function OutputImage(km: KernelMapping): Result<string, MakeError>
    requires km.sign.Some?
  {
    if km.sign.value.signedImage != "" then Ok(km.sign.value.signedImage)
    else if km.containerImage != "" then Ok(km.containerImage)
    else Err(NoOutputImage)
  }

  /** The signer pushes to a non-empty name, preferring the signed image, and fails
      exactly when neither the signed image nor the container image is named. */
  lemma OutputImagePreference(km: KernelMapping)
    requires km.sign.Some?
    ensures OutputImage(km).Ok? ==> OutputImage(km).value != ""
    ensures OutputImage(km).Err? <==> km.sign.value.signedImage == "" && km.containerImage == ""
    ensures km.sign.value.signedImage != "" ==> OutputImage(km) == Ok(km.sign.value.signedImage)
    ensures km.sign.value.signedImage == "" && km.containerImage != "" ==>
      OutputImage(km) == Ok(km.containerImage)
  {
  }

  /** The signer's command line. */
  function SignArgs(signedImage: string, unsignedImage: string, files: seq<string>): seq<string>
  {
    ["-signedimage", signedImage, "-unsignedimage", unsignedImage,
     "-pullsecret", PullSecretPath, "-key", KeyPath, "-cert", CertPath,
     "-filestosign", Join(files, ":")]
  }

  /** Six flag/value pairs; the file list is colon-joined, so it splits back into the
      configured files when none of them contains a colon. */
  lemma SignArgsLayout(signedImage: string, unsignedImage: string, files: seq<string>)
    ensures var a := SignArgs(signedImage, unsignedImage, files);
      |a| == 12 &&
      a[0] == "-signedimage" && a[1] == signedImage &&
      a[2] == "-unsignedimage" && a[3] == unsignedImage &&
      a[4] == "-pullsecret" && a[5] == PullSecretPath &&
      a[6] == "-key" && a[7] == KeyPath &&
      a[8] == "-cert" && a[9] == CertPath &&
      a[10] == "-filestosign" && a[11] == Join(files, ":")
    ensures |files| >= 1 && (forall i :: 0 <= i < |files| ==> ':' !in files[i]) ==>
      Split(SignArgs(signedImage, unsignedImage, files)[11], ':') == files
  {
    if |files| >= 1 && (forall i :: 0 <= i < |files| ==> ':' !in files[i]) {
      SplitJoinRoundTrip(files, ':');
    }
  }

  /** A function from a secret reference to the name of the volume that carries it;
      this signer uses volumeNameFromSecretRef, the legacy one a helper of its package. */
  type VolumeNaming = SecretRef -> string

  /** makeImageSigningSecretVolume: one item of the secret, under a fixed file name. */
  function SigningSecretVolume(name: VolumeNaming, ref: SecretRef, key: string, path: string): Volume
  {
    Volume(name(ref), SecretSource(ref.name, [KeyToPath(key, path)]))
  }

  /** makeImageSigningSecretVolumeMount. */
  function SigningSecretMount(name: VolumeNaming, ref: SecretRef, mountPoint: string): VolumeMount
  {
    VolumeMount(name(ref), true, mountPoint)
  }

  /** makeImagePullSecretVolume for a present reference. */
  function PullSecretVolume(name: VolumeNaming, ref: SecretRef): Volume
  {
    Volume(name(ref), SecretSource(ref.name, [KeyToPath(DockerConfigJsonKey, "config.json")]))
  }

  /** makeImagePullSecretVolumeMount for a present reference. */
  function PullSecretMount(name: VolumeNaming, ref: SecretRef): VolumeMount
  {
    VolumeMount(name(ref), true, "/docker_config")
  }

  /** A signing section whose key and certificate secrets are both named. */
  predicate HasSigningSecrets(sc: SignConfig)
  {
    sc.keySecret.Some? && sc.certSecret.Some?
  }

  /** Volumes: the optional pull secret, then the key, then the certificate. */
  function SignVolumes(name: VolumeNaming, sc: SignConfig): seq<Volume>
    requires HasSigningSecrets(sc)
  {
    (if sc.imagePullSecret.Some? then [PullSecretVolume(name, sc.imagePullSecret.value)] else []) +
    [SigningSecretVolume(name, sc.keySecret.value, "key", "key.priv"),
     SigningSecretVolume(name, sc.certSecret.value, "cert", "public.der")]
  }

  /** Mounts: the optional pull secret, then the certificate, then the key. */
  function SignMounts(name: VolumeNaming, sc: SignConfig): seq<VolumeMount>
    requires HasSigningSecrets(sc)
  {
    (if sc.imagePullSecret.Some? then [PullSecretMount(name, sc.imagePullSecret.value)] else []) +
    [SigningSecretMount(name, sc.certSecret.value, "/signingcert"),
     SigningSecretMount(name, sc.keySecret.value, "/signingkey")]
  }

  /** What MakeJob dereferences: the signing section, and the key and certificate
      secrets once an output image has been found. */
  predicate CanMakeJob(km: KernelMapping)
  {
    km.sign.Some? && (OutputImage(km).Ok? ==> HasSigningSecrets(km.sign.value))
  }

  /** The job MakeJob returns, or why it fails; `registersModule` as for the builder. */
  function SignJob(mod: Module, km: KernelMapping, kernel: string, registersModule: bool)
    : Result<Job, MakeError>
    requires CanMakeJob(km)
  {
    var sc := km.sign.value;
    match OutputImage(km)
    case Err(e) => Err(e)
    case Ok(image) =>
      if !registersModule then Err(OwnerReferenceFailed)
      else
        Ok(Job(
          mod.name + "-sign-", mod.namespace, StageLabels(mod, kernel, Name),
          [ControllerReference(mod)], 1, map[],
          [Container("signimage", SignerImage, SignArgs(image, sc.unsignedImage, sc.filesToSign),
                     SignMounts(Builder.VolumeName, sc))],
          OnFailure, SignVolumes(Builder.VolumeName, sc), JobStatus(0, 0, 0)))
  }

  /** MakeJob fails exactly when no output image is named or the owner reference cannot
      be set, and the output-image error takes precedence. */
  lemma SignJobFailure(mod: Module, km: KernelMapping, kernel: string, registersModule: bool)
    requires CanMakeJob(km)
    ensures SignJob(mod, km, kernel, registersModule).Err? <==>
      OutputImage(km).Err? || !registersModule
    ensures OutputImage(km).Err? ==> SignJob(mod, km, kernel, registersModule) == Err(NoOutputImage)
    ensures OutputImage(km).Ok? && !registersModule ==>
      SignJob(mod, km, kernel, registersModule) == Err(OwnerReferenceFailed)
  {
  }

  /** The made job: named after the module, in the module's namespace, labelled with the
      module/kernel/"Sign" triple, controlled by the module, one completion, restarted on
      failure, one signer container whose arguments sign the configured unsigned image
      into the output image, no status yet, and it is the job the stage's lookup finds. */
  lemma SignJobIdentity(mod: Module, km: KernelMapping, kernel: string, registersModule: bool)
    requires CanMakeJob(km)
    requires SignJob(mod, km, kernel, registersModule).Ok?
    ensures
      var j := SignJob(mod, km, kernel, registersModule).value;
      j.generateName == mod.name + "-sign-" && j.namespace == mod.namespace &&
      j.labels == StageLabels(mod, kernel, Name) &&
      j.ownerReferences == [ControllerReference(mod)] &&
      j.completions == 1 && j.restartPolicy == OnFailure && j.status == JobStatus(0, 0, 0) &&
      |j.containers| == 1 && j.containers[0].name == "signimage" && j.containers[0].image == SignerImage &&
      j.containers[0].args[1] == OutputImage(km).value &&
      j.containers[0].args[3] == km.sign.value.unsignedImage &&
      Jobs.JobMatches(j, StageLabels(mod, kernel, Name), mod.namespace)
  {
  }

  /** The key and certificate files the arguments point at are there, each from the
      configured secret, whatever the volume naming. */
  lemma SignJobMountsSigningFiles(name: VolumeNaming, sc: SignConfig)
    requires HasSigningSecrets(sc)
    ensures SecretFileMounted(SignVolumes(name, sc), SignMounts(name, sc), KeyPath)
    ensures SecretFileMounted(SignVolumes(name, sc), SignMounts(name, sc), CertPath)
    ensures var off := if sc.imagePullSecret.Some? then 1 else 0;
      SignVolumes(name, sc)[off].source == SecretSource(sc.keySecret.value.name, [KeyToPath("key", "key.priv")]) &&
      SignVolumes(name, sc)[off + 1].source == SecretSource(sc.certSecret.value.name, [KeyToPath("cert", "public.der")]) &&
      SignMounts(name, sc)[off + 1] == VolumeMount(SignVolumes(name, sc)[off].name, true, "/signingkey") &&
      SignMounts(name, sc)[off] == VolumeMount(SignVolumes(name, sc)[off + 1].name, true, "/signingcert")
  {
    var vols := SignVolumes(name, sc);
    var mounts := SignMounts(name, sc);
    var off := if sc.imagePullSecret.Some? then 1 else 0;
    assert mounts[off + 1].mountPath + "/" + vols[off].source.items[0].path == KeyPath;
    assert mounts[off].mountPath + "/" + vols[off + 1].source.items[0].path == CertPath;
  }

  /** The registry credentials the arguments point at are there exactly when the signing
      section names a pull secret. */
  lemma SignJobMountsPullSecret(name: VolumeNaming, sc: SignConfig)
    requires HasSigningSecrets(sc)
    ensures SecretFileMounted(SignVolumes(name, sc), SignMounts(name, sc), PullSecretPath)
        <==> sc.imagePullSecret.Some?
  {
    var vols := SignVolumes(name, sc);
    var mounts := SignMounts(name, sc);
    if sc.imagePullSecret.Some? {
      assert mounts[0].mountPath + "/" + vols[0].source.items[0].path == PullSecretPath;
    } else {
      assert |mounts| == 2 && mounts[0].mountPath == "/signingcert" && mounts[1].mountPath == "/signingkey";
      forall i, j, k | 0 <= i < |mounts| && 0 <= j < |vols| && vols[j].source.SecretSource? &&
                       0 <= k < |vols[j].source.items|
        ensures mounts[i].mountPath + "/" + vols[j].source.items[k].path != PullSecretPath
      {
        var p := mounts[i].mountPath + "/" + vols[j].source.items[k].path;
        assert p[1] == 's';
      }
    }
  }

  /** Mounts and volumes pair up by name, although in a different order: the pull
      secret first, then the key before the certificate among the volumes and the
      certificate before the key among the mounts. */
  lemma SignVolumesMatchMounts(name: VolumeNaming, sc: SignConfig)
    requires HasSigningSecrets(sc)
    ensures
      var pull := if sc.imagePullSecret.Some? then [name(sc.imagePullSecret.value)] else [];
      var key := name(sc.keySecret.value);
      var cert := name(sc.certSecret.value);
      VolumeNames(SignVolumes(name, sc)) == pull + [key, cert] &&
      MountNames(SignMounts(name, sc)) == pull + [cert, key]
    ensures multiset(VolumeNames(SignVolumes(name, sc))) == multiset(MountNames(SignMounts(name, sc)))
  {
    var pull := if sc.imagePullSecret.Some? then [name(sc.imagePullSecret.value)] else [];
    var key := name(sc.keySecret.value);
    var cert := name(sc.certSecret.value);
    assert VolumeNames(SignVolumes(name, sc)) == pull + [key, cert];
    assert MountNames(SignMounts(name, sc)) == pull + [cert, key];
    assert multiset([key, cert]) == multiset([cert, key]);
  }

  /** Volume names derive from secret names only, so the pod's volume names are pairwise
      distinct exactly when the key, certificate and pull secrets are distinct secrets. */
  lemma SignVolumeNamesDistinct(sc: SignConfig)
    requires HasSigningSecrets(sc)
    ensures (forall a, b :: 0 <= a < b < |SignVolumes(Builder.VolumeName, sc)| ==> SignVolumes(Builder.VolumeName, sc)[a].name != SignVolumes(Builder.VolumeName, sc)[b].name)
      <==>
      sc.keySecret.value.name != sc.certSecret.value.name &&
      (sc.imagePullSecret.Some? ==>
         sc.imagePullSecret.value.name != sc.keySecret.value.name &&
         sc.imagePullSecret.value.name != sc.certSecret.value.name)
  {
    var vols := SignVolumes(Builder.VolumeName, sc);
    var off := if sc.imagePullSecret.Some? then 1 else 0;
    VolumeNameInjective(sc.keySecret.value, sc.certSecret.value);
    assert vols[off].name == Builder.VolumeName(sc.keySecret.value);
    assert vols[off + 1].name == Builder.VolumeName(sc.certSecret.value);
    if sc.imagePullSecret.Some? {
      VolumeNameInjective(sc.imagePullSecret.value, sc.keySecret.value);
      VolumeNameInjective(sc.imagePullSecret.value, sc.certSecret.value);
      assert vols[0].name == Builder.VolumeName(sc.imagePullSecret.value);
    }
  }

  lemma VolumeNameInjective(a: SecretRef, b: SecretRef)
    ensures Builder.VolumeName(a) == Builder.VolumeName(b) <==> a.name == b.name
  {
    if Builder.VolumeName(a) == Builder.VolumeName(b) {
      assert a.name == Builder.VolumeName(a)[7..];
      assert b.name == Builder.VolumeName(b)[7..];
    }
  }

  /** The signer reads the image the builder pushes: when the signing section names an
      unsigned image, the builder's output is that image and it is the -unsignedimage
      argument. When neither the unsigned nor the signed image is named, both stages
      target the container image, so the Sign stage's probe finds the builder's unsigned
      push and no signing job is made. */
  lemma StagesChainThroughUnsignedImage(km: KernelMapping)
    requires km.sign.Some?
    ensures km.sign.value.unsignedImage != "" ==>
      Builder.OutputImage(km) == Ok(km.sign.value.unsignedImage) &&
      SignArgs(km.containerImage, km.sign.value.unsignedImage, km.sign.value.filesToSign)[3]
        == Builder.OutputImage(km).value
    ensures km.sign.value.unsignedImage == "" && km.sign.value.signedImage == "" ==>
      OutputImage(km) == Builder.OutputImage(km)
  {
  }

  /** The signer: immutable, it holds what its scheme knows. */
  class Signer {
    const registersModule: bool

    constructor (registersModule: bool)
      ensures this.registersModule == registersModule
    {
      this.registersModule := registersModule;
    }

    /** MakeJob: the output image, the arguments, the volumes and mounts, then the owner
        reference. */
    method MakeJob(mod: Module, km: KernelMapping, kernel: string) returns (r: Result<Job, MakeError>)
      requires CanMakeJob(km)
      ensures r == SignJob(mod, km, kernel, registersModule)
    {
      var sc := km.sign.value;
      var image := OutputImage(km);
      if image.Err? {
        return Err(image.error);
      }
      var args := ["-signedimage", image.value];
      args := args + ["-unsignedimage", sc.unsignedImage];
      args := args + ["-pullsecret", PullSecretPath];
      args := args + ["-key", KeyPath];
      args := args + ["-cert", CertPath];
      args := args + ["-filestosign", Join(sc.filesToSign, ":")];
      var volumes: seq<Volume> := [];
      var mounts: seq<VolumeMount> := [];
      if sc.imagePullSecret.Some? {
        volumes := volumes + [PullSecretVolume(Builder.VolumeName, sc.imagePullSecret.value)];
        mounts := mounts + [PullSecretMount(Builder.VolumeName, sc.imagePullSecret.value)];
      }
      volumes := volumes + [SigningSecretVolume(Builder.VolumeName, sc.keySecret.value, "key", "key.priv")];
      volumes := volumes + [SigningSecretVolume(Builder.VolumeName, sc.certSecret.value, "cert", "public.der")];
      mounts := mounts + [SigningSecretMount(Builder.VolumeName, sc.certSecret.value, "/signingcert")];
      mounts := mounts + [SigningSecretMount(Builder.VolumeName, sc.keySecret.value, "/signingkey")];
      assert args == SignArgs(image.value, sc.unsignedImage, sc.filesToSign);
      assert volumes == SignVolumes(Builder.VolumeName, sc);
      assert mounts == SignMounts(Builder.VolumeName, sc);
      var job := Job(
        mod.name + "-sign-", mod.namespace, StageLabels(mod, kernel, Name),
        [], 1, map[],
        [Container("signimage", SignerImage, args, mounts)],
        OnFailure, volumes, JobStatus(0, 0, 0));
      if !registersModule {
        return Err(OwnerReferenceFailed);
      }
      job := job.(ownerReferences := job.ownerReferences + [ControllerReference(mod)]);
      assert job.ownerReferences == [ControllerReference(mod)];
      r := Ok(job);
    }
  }
}
