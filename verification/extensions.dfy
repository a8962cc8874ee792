/** The BackupBucket resource of gardener's extensions API, as far as the core reads and writes it. */
module Extensions {
  import opened Wrappers

  /** corev1.SecretReference: a secret named by (name, namespace). */
  datatype SecretReference = SecretReference(name: string, namespace: string)

  /** The bucket's status sub-resource; observedGeneration stands for the fields the core never touches. */
  datatype BackupBucketStatus = BackupBucketStatus(observedGeneration: int, generatedSecretRef: Option<SecretReference>)

  /** An in-memory BackupBucket object; the core assigns its status in place. */
  class BackupBucket {
    const name: string
    const region: string
    var status: BackupBucketStatus

    constructor (name: string, region: string, status: BackupBucketStatus)
      ensures this.name == name && this.region == region && this.status == status
    {
      this.name := name;
      this.region := region;
      this.status := status;
    }
  }
}
