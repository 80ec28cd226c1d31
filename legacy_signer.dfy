/** The earlier signer (package internal/build/job): the same signing pod as the stage-aware
    signer, but with the output image handed in by the caller and the job's labels and
    the volume names computed by package helpers that are not part of this model, so they
    are parameters here. */
module LegacySigner {
  import opened Common
  import opened Api
  import opened Kube
  import opened BuildResult
  import Builder
  import Signer
  import Correlation

  /** The package's two-argument labels(mod, targetKernel). */
  type LabelsOf = (Module, string) -> Labels

  /** The job MakeJob returns for a caller-chosen `containerImage`, or why it fails. */
  function SignJob(
    labelsOf: LabelsOf, volumeName: Signer.VolumeNaming, registersModule: bool,
    mod: Module, km: KernelMapping, kernel: string, containerImage: string): Result<Job, MakeError>
    requires km.sign.Some? && Signer.HasSigningSecrets(km.sign.value)
  {
    var sc := km.sign.value;
    if !registersModule then Err(OwnerReferenceFailed)
    else
      Ok(Job(
        mod.name + "-sign-", mod.namespace, labelsOf(mod, kernel), [ControllerReference(mod)], 1, map[],
        [Container("signimage", Signer.SignerImage, Signer.SignArgs(containerImage, sc.unsignedImage, sc.filesToSign),
                   Signer.SignMounts(volumeName, sc))],
        OnFailure, Signer.SignVolumes(volumeName, sc), JobStatus(0, 0, 0)))
  }

  /** MakeJob fails only when the owner reference cannot be set; otherwise the job signs
      the mapping's unsigned image into the image the caller asked for, and the key, the
      certificate and (exactly when named) the registry credentials its arguments point
      at are mounted from their secrets. */
  lemma SignJobContents(
    labelsOf: LabelsOf, volumeName: Signer.VolumeNaming, registersModule: bool,
    mod: Module, km: KernelMapping, kernel: string, containerImage: string)
    requires km.sign.Some? && Signer.HasSigningSecrets(km.sign.value)
    ensures SignJob(labelsOf, volumeName, registersModule, mod, km, kernel, containerImage).Err?
        <==> !registersModule
    ensures SignJob(labelsOf, volumeName, registersModule, mod, km, kernel, containerImage).Ok? ==>
      var j := SignJob(labelsOf, volumeName, registersModule, mod, km, kernel, containerImage).value;
      var c := j.containers[0];
      j.labels == labelsOf(mod, kernel) && j.namespace == mod.namespace &&
      j.generateName == mod.name + "-sign-" && j.ownerReferences == [ControllerReference(mod)] &&
      j.completions == 1 && j.restartPolicy == OnFailure && j.status == JobStatus(0, 0, 0) &&
      |j.containers| == 1 && c.name == "signimage" && c.image == Signer.SignerImage &&
      c.args == Signer.SignArgs(containerImage, km.sign.value.unsignedImage, km.sign.value.filesToSign) &&
      j.volumes == Signer.SignVolumes(volumeName, km.sign.value) &&
      c.volumeMounts == Signer.SignMounts(volumeName, km.sign.value) &&
      c.args[1] == containerImage && c.args[3] == km.sign.value.unsignedImage &&
      SecretFileMounted(j.volumes, c.volumeMounts, Signer.KeyPath) &&
      SecretFileMounted(j.volumes, c.volumeMounts, Signer.CertPath) &&
      (SecretFileMounted(j.volumes, c.volumeMounts, Signer.PullSecretPath) <==> km.sign.value.imagePullSecret.Some?)
  {
    var sc := km.sign.value;
    Signer.SignJobMountsSigningFiles(volumeName, sc);
    Signer.SignJobMountsPullSecret(volumeName, sc);
  }

  /** The stage-aware signer's job is this one with its own output-image choice, the
      stage label triple and the "secret-" volume naming. */
  lemma StageSignerRefinesSignJob(
    labelsOf: LabelsOf, volumeName: Signer.VolumeNaming, mod: Module, km: KernelMapping, kernel: string)
    requires km.sign.Some? && Signer.HasSigningSecrets(km.sign.value)
    requires Signer.OutputImage(km).Ok?
    requires forall ref :: volumeName(ref) == Builder.VolumeName(ref)
    ensures Signer.CanMakeJob(km)
    ensures Signer.SignJob(mod, km, kernel, true) ==
      Ok(SignJob(labelsOf, volumeName, true, mod, km, kernel, Signer.OutputImage(km).value).value
           .(labels := Correlation.StageLabels(mod, kernel, Signer.Name)))
  {
    var sc := km.sign.value;
    assert Signer.SignVolumes(volumeName, sc) == Signer.SignVolumes(Builder.VolumeName, sc);
    assert Signer.SignMounts(volumeName, sc) == Signer.SignMounts(Builder.VolumeName, sc);
  }

  /** signer, the Maker of package internal/build/job. */
  class Maker {
    const registersModule: bool
    const labelsOf: LabelsOf
    const volumeName: Signer.VolumeNaming

    constructor (registersModule: bool, labelsOf: LabelsOf, volumeName: Signer.VolumeNaming)
      ensures this.registersModule == registersModule
      ensures this.labelsOf == labelsOf && this.volumeName == volumeName
    {
      this.registersModule := registersModule;
      this.labelsOf := labelsOf;
      this.volumeName := volumeName;
    }

    /** PullOptions: the signing section's pull options (the section must be present). */
    method PullOptions(km: KernelMapping) returns (p: PullOptions)
      requires km.sign.Some?
      ensures p == Signer.PullOptions(km) && p == km.sign.value.pull
    {
      p := km.sign.value.pull;
    }

    /** MakeJob, appending arguments, volumes and mounts in the order the signer pod uses. */
    method MakeJob(mod: Module, km: KernelMapping, kernel: string, containerImage: string)
      returns (r: Result<Job, MakeError>)
      requires km.sign.Some? && Signer.HasSigningSecrets(km.sign.value)
      ensures r == SignJob(labelsOf, volumeName, registersModule, mod, km, kernel, containerImage)
    {
      var sc := km.sign.value;
      var args := ["-signedimage", containerImage];
      args := args + ["-unsignedimage", sc.unsignedImage];
      args := args + ["-pullsecret", Signer.PullSecretPath];
      args := args + ["-key", Signer.KeyPath];
      args := args + ["-cert", Signer.CertPath];
      args := args + ["-filestosign", Join(sc.filesToSign, ":")];
      assert args == Signer.SignArgs(containerImage, sc.unsignedImage, sc.filesToSign);

      var volumes: seq<Volume> := [];
      var mounts: seq<VolumeMount> := [];
      if sc.imagePullSecret.Some? {
        volumes := volumes + [Signer.PullSecretVolume(volumeName, sc.imagePullSecret.value)];
        mounts := mounts + [Signer.PullSecretMount(volumeName, sc.imagePullSecret.value)];
      }
      volumes := volumes + [Signer.SigningSecretVolume(volumeName, sc.keySecret.value, "key", "key.priv")];
      volumes := volumes + [Signer.SigningSecretVolume(volumeName, sc.certSecret.value, "cert", "public.der")];
      mounts := mounts + [Signer.SigningSecretMount(volumeName, sc.certSecret.value, "/signingcert")];
      mounts := mounts + [Signer.SigningSecretMount(volumeName, sc.keySecret.value, "/signingkey")];
      assert volumes == Signer.SignVolumes(volumeName, sc);
      assert mounts == Signer.SignMounts(volumeName, sc);

      var job := Job(
        mod.name + "-sign-", mod.namespace, labelsOf(mod, kernel), [], 1, map[],
        [Container("signimage", Signer.SignerImage, args, mounts)],
        OnFailure, volumes, JobStatus(0, 0, 0));
      if !registersModule {
        return Err(OwnerReferenceFailed);
      }
      r := Ok(job.(ownerReferences := [ControllerReference(mod)]));
    }
  }
}
