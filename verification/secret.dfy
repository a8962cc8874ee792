/**
 * pkg/controller/backupbucket/secret.go: the generated secret that holds a bucket's storage
 * credentials, the bucket's reference to it, and the decision to rotate it.
 */
module BackupBucketSecret {
  import opened Wrappers
  import opened Strings
  import opened Utils
  import opened Extensions

  // ---------------------------------------------------------------------------------------------
  // Names and data
  // ---------------------------------------------------------------------------------------------

  const GeneratedSecretNamePrefix := "generated-bucket-"
  const GeneratedSecretNamespace := "garden"
  /** How many hex characters of the timestamp's digest the secret name keeps. */
  const TimestampHashLength := 4

  /** The name of the secret generated for a bucket at a time, given as its RFC 3339 text. */
  function GeneratedSecretName(sha256: Sha256Hex, bucketName: string, timestamp: string): (r: string)
    ensures |r| == |GeneratedSecretNamePrefix| + |bucketName| + 1 + TimestampHashLength
    ensures HasPrefix(r, GeneratedSecretNamePrefix + bucketName + "-")
    ensures IsLowerHex(r[|r| - TimestampHashLength..])
    ensures r[|r| - TimestampHashLength..] == sha256(timestamp)[..TimestampHashLength]
  {
    var digest := sha256(timestamp);
    assert IsLowerHex(digest[..TimestampHashLength]);
    var r := GeneratedSecretNamePrefix + bucketName + "-" + digest[..TimestampHashLength];
    assert r[|r| - TimestampHashLength..] == digest[..TimestampHashLength];
    r
  }

  /**
   * The suffix has a fixed length, so a generated secret's name gives its bucket away: secrets
   * generated for different buckets never share a name.
   */
  lemma GeneratedSecretNameDeterminesBucket(sha256: Sha256Hex, a: string, ta: string, b: string, tb: string)
    requires GeneratedSecretName(sha256, a, ta) == GeneratedSecretName(sha256, b, tb)
    ensures a == b
  {
    var n := GeneratedSecretName(sha256, a, ta);
    var p := |GeneratedSecretNamePrefix|;
    assert |a| == |b|;
    assert (GeneratedSecretNamePrefix + a + "-")[p..p + |a|] == a;
    assert (GeneratedSecretNamePrefix + b + "-")[p..p + |b|] == b;
    assert n[p..p + |a|] == a;
  }

  /** The keys of a generated secret's data: azure.StorageAccount, azure.StorageKey, azure.StorageDomain. */
  datatype DataKey = StorageAccount | StorageKey | StorageDomain

  /** A corev1.Secret: its name, namespace, data and the time the store created it (in seconds). */
  datatype Secret = Secret(name: string, namespace: string, data: map<DataKey, string>, creationTimestamp: int)

  /** The data the generated secret holds. */
  function GeneratedSecretData(storageAccountName: string, storageKey: string, storageDomain: string)
    : map<DataKey, string>
  {
    map[StorageAccount := storageAccountName, StorageKey := storageKey, StorageDomain := storageDomain]
  }

  // ---------------------------------------------------------------------------------------------
  // The secret store
  // ---------------------------------------------------------------------------------------------

  /** The errors the Kubernetes client reports, and the one the core raises itself. */
  datatype Error = NotFound | ApiError(reason: string) | NilSecretRef

  /** client.IgnoreNotFound */
  function IgnoreNotFound(err: Option<Error>): (r: Option<Error>)
    ensures r.None? <==> err.None? || err.value.NotFound?
    ensures r.Some? ==> r == err
  {
    if err.Some? && err.value.NotFound? then None else err
  }

  /** The requests the core sends to the Kubernetes API. */
  datatype Request =
    | CreateOrUpdateSecret(upserted: SecretReference)
    | GetSecret(read: SecretReference)
    | DeleteSecret(deleted: SecretReference)
    | PatchBucketStatus(bucketName: string)

  /** A secret is stored under its own name and namespace. */
  ghost predicate WellKeyed(secrets: map<SecretReference, Secret>) {
    forall ref :: ref in secrets ==> secrets[ref].name == ref.name && secrets[ref].namespace == ref.namespace
  }

  /** What CreateOrUpdate stores: an existing secret gets the new data, a new one is created now. */
  function Upserted(secrets: map<SecretReference, Secret>, ref: SecretReference, data: map<DataKey, string>, now: int)
    : Secret
  {
    if ref in secrets then secrets[ref].(data := data) else Secret(ref.name, ref.namespace, data, now)
  }

  /**
   * The Kubernetes API as the core sees it: the secrets, the persisted status of each bucket, and
   * the failures the environment injects per request.
   */
  class Client {
    var secrets: map<SecretReference, Secret>
    var bucketStatuses: map<string, BackupBucketStatus>
    const fault: Request -> Option<Error>

    ghost predicate Valid()
      reads this
    {
      WellKeyed(secrets)
    }

    constructor (fault: Request -> Option<Error>, secrets: map<SecretReference, Secret>, bucketStatuses: map<string, BackupBucketStatus>)
      requires WellKeyed(secrets)
      ensures Valid()
      ensures this.fault == fault && this.secrets == secrets && this.bucketStatuses == bucketStatuses
    {
      this.fault := fault;
      this.secrets := secrets;
      this.bucketStatuses := bucketStatuses;
    }

    /** controllerutil.CreateOrUpdate whose mutation sets the secret's data. */
    method CreateOrUpdate(ref: SecretReference, data: map<DataKey, string>, now: int) returns (err: Option<Error>)
      requires Valid()
      modifies this
      ensures Valid() && bucketStatuses == old(bucketStatuses)
      ensures err == fault(CreateOrUpdateSecret(ref))
      ensures err.Some? ==> secrets == old(secrets)
      ensures err.None? ==> secrets == old(secrets)[ref := Upserted(old(secrets), ref, data, now)]
    {
      err := fault(CreateOrUpdateSecret(ref));
      if err.None? {
        secrets := secrets[ref := Upserted(secrets, ref, data, now)];
      }
    }

    /** kutil.GetSecretByReference */
    method Get(ref: SecretReference) returns (secret: Option<Secret>, err: Option<Error>)
      ensures fault(GetSecret(ref)).Some? ==> secret.None? && err == fault(GetSecret(ref))
      ensures fault(GetSecret(ref)).None? && ref !in secrets ==> secret.None? && err == Some(NotFound)
      ensures fault(GetSecret(ref)).None? && ref in secrets ==> secret == Some(secrets[ref]) && err.None?
    {
      if fault(GetSecret(ref)).Some? {
        return None, fault(GetSecret(ref));
      }
      if ref !in secrets {
        return None, Some(NotFound);
      }
      return Some(secrets[ref]), None;
    }

    /**
     * kutil.DeleteSecretByReference: the delete's error with not-found ignored, so deleting a secret
     * that is already gone (or is reported gone) succeeds and never answers not-found.
     */
    method Delete(ref: SecretReference) returns (err: Option<Error>)
      requires Valid()
      modifies this
      ensures Valid() && bucketStatuses == old(bucketStatuses)
      ensures err == IgnoreNotFound(fault(DeleteSecret(ref)))
      ensures err.Some? ==> !err.value.NotFound? && secrets == old(secrets)
      ensures err.None? ==> secrets == old(secrets) - {ref}
    {
      err := IgnoreNotFound(fault(DeleteSecret(ref)));
      if err.None? {
        secrets := secrets - {ref};
      }
    }

    /** Status().Patch with a merge patch that only sets the generated-secret reference. */
    method PatchStatus(bucketName: string, ref: Option<SecretReference>) returns (err: Option<Error>)
      requires Valid()
      modifies this
      ensures Valid() && secrets == old(secrets)
      ensures fault(PatchBucketStatus(bucketName)).Some? ==>
        err == fault(PatchBucketStatus(bucketName)) && bucketStatuses == old(bucketStatuses)
      ensures fault(PatchBucketStatus(bucketName)).None? && bucketName !in old(bucketStatuses) ==>
        err == Some(NotFound) && bucketStatuses == old(bucketStatuses)
      ensures fault(PatchBucketStatus(bucketName)).None? && bucketName in old(bucketStatuses) ==>
        && err.None?
        && bucketStatuses == old(bucketStatuses)[bucketName := old(bucketStatuses)[bucketName].(generatedSecretRef := ref)]
    {
      err := fault(PatchBucketStatus(bucketName));
      if err.None? {
        if bucketName !in bucketStatuses {
          err := Some(NotFound);
        } else {
          bucketStatuses := bucketStatuses[bucketName := bucketStatuses[bucketName].(generatedSecretRef := ref)];
        }
      }
    }
  }

  // ---------------------------------------------------------------------------------------------
  // The lifecycle of the generated secret
  // ---------------------------------------------------------------------------------------------

  /** The reference to the secret generated for a bucket at a time. */
  function GeneratedSecretRef(sha256: Sha256Hex, bucketName: string, timestamp: string): (r: SecretReference)
    ensures r.namespace == GeneratedSecretNamespace
  {
    SecretReference(GeneratedSecretName(sha256, bucketName, timestamp), GeneratedSecretNamespace)
  }

  /**
   * createBackupBucketGeneratedSecret: upsert the secret named after the bucket and the current
   * time with the three credentials; only if that succeeds, point the bucket's status at it and
   * patch the persisted status. The error of the first failing request is returned.
   */
  method CreateBackupBucketGeneratedSecret(
    c: Client, bucket: BackupBucket, sha256: Sha256Hex, rfc3339: int -> string, now: int,
    storageAccountName: string, storageKey: string, storageDomain: string)
    returns (err: Option<Error>)
    requires c.Valid()
    modifies c, bucket
    ensures c.Valid()
    ensures var ref := GeneratedSecretRef(sha256, bucket.name, rfc3339(now));
      var data := GeneratedSecretData(storageAccountName, storageKey, storageDomain);
      && (c.fault(CreateOrUpdateSecret(ref)).Some? ==>
            && err == c.fault(CreateOrUpdateSecret(ref))
            && c.secrets == old(c.secrets)
            && c.bucketStatuses == old(c.bucketStatuses)
            && bucket.status == old(bucket.status))
      && (c.fault(CreateOrUpdateSecret(ref)).None? ==>
            && c.secrets == old(c.secrets)[ref := Upserted(old(c.secrets), ref, data, now)]
            && bucket.status == old(bucket.status).(generatedSecretRef := Some(ref))
            && err == (if c.fault(PatchBucketStatus(bucket.name)).Some? then c.fault(PatchBucketStatus(bucket.name))
                       else if bucket.name !in old(c.bucketStatuses) then Some(NotFound)
                       else None)
            && (err.None? ==>
                  && bucket.name in old(c.bucketStatuses)
                  && c.bucketStatuses == old(c.bucketStatuses)[bucket.name :=
                       old(c.bucketStatuses)[bucket.name].(generatedSecretRef := Some(ref))])
            && (err.Some? ==> c.bucketStatuses == old(c.bucketStatuses)))
  {
    var timestampHash := sha256(rfc3339(now))[..4];
    var name := "generated-bucket-" + bucket.name + "-" + timestampHash;
    var ref := SecretReference(name, "garden");
    var data := map[StorageAccount := storageAccountName, StorageKey := storageKey, StorageDomain := storageDomain];

    err := c.CreateOrUpdate(ref, data, now);
    if err.Some? {
      return err;
    }

    bucket.status := bucket.status.(generatedSecretRef := Some(ref));
    err := c.PatchStatus(bucket.name, Some(ref));
  }

  /** deleteBackupBucketGeneratedSecret: nothing to do without a reference, else delete by reference. */
  method DeleteBackupBucketGeneratedSecret(c: Client, bucket: BackupBucket) returns (err: Option<Error>)
    requires c.Valid()
    modifies c
    ensures c.Valid() && c.bucketStatuses == old(c.bucketStatuses)
    ensures bucket.status.generatedSecretRef.None? ==> err.None? && c.secrets == old(c.secrets)
    ensures bucket.status.generatedSecretRef.Some? ==>
      var ref := bucket.status.generatedSecretRef.value;
      && err == IgnoreNotFound(c.fault(DeleteSecret(ref)))
      && c.secrets == (if err.None? then old(c.secrets) - {ref} else old(c.secrets))
  {
    if bucket.status.generatedSecretRef.None? {
      return None;
    }
    err := DeleteBackupBucketGeneratedSecretByRef(c, bucket.status.generatedSecretRef);
  }

  /** deleteBackupBucketGeneratedSecretByRef: a nil reference is an error; otherwise delete it. */
  method DeleteBackupBucketGeneratedSecretByRef(c: Client, secretRef: Option<SecretReference>) returns (err: Option<Error>)
    requires c.Valid()
    modifies c
    ensures c.Valid() && c.bucketStatuses == old(c.bucketStatuses)
    ensures secretRef.None? ==> err == Some(NilSecretRef) && c.secrets == old(c.secrets)
    ensures secretRef.Some? ==>
      && err == IgnoreNotFound(c.fault(DeleteSecret(secretRef.value)))
      && c.secrets == (if err.None? then old(c.secrets) - {secretRef.value} else old(c.secrets))
  {
    if secretRef.None? {
      return Some(NilSecretRef);
    }
    err := c.Delete(secretRef.value);
  }

  /**
   * What reading the generated secret through a reference yields: absent without a reference or
   * when the secret is gone, the lookup's error when it fails otherwise, else the stored secret.
   */
  function LookupGeneratedSecret(secrets: map<SecretReference, Secret>, fault: Request -> Option<Error>, ref: Option<SecretReference>)
    : (r: (Option<Secret>, Option<Error>))
    ensures r.1.Some? ==> r.0.None? && !r.1.value.NotFound? && ref.Some? && r.1 == fault(GetSecret(ref.value))
    ensures r.0.Some? ==> ref.Some? && ref.value in secrets && r.0.value == secrets[ref.value] && r.1.None?
    ensures ref.Some? && fault(GetSecret(ref.value)).Some? && !fault(GetSecret(ref.value)).value.NotFound? ==>
      r == (None, fault(GetSecret(ref.value)))
    ensures r == (None, None) <==>
      || ref.None?
      || fault(GetSecret(ref.value)) == Some(NotFound)
      || (fault(GetSecret(ref.value)).None? && ref.value !in secrets)
  {
    if ref.None? then (None, None)
    else if fault(GetSecret(ref.value)).Some? then (None, IgnoreNotFound(fault(GetSecret(ref.value))))
    else if ref.value !in secrets then (None, None)
    else (Some(secrets[ref.value]), None)
  }

  /** getBackupBucketGeneratedSecret */
  method GetBackupBucketGeneratedSecret(c: Client, bucket: BackupBucket) returns (secret: Option<Secret>, err: Option<Error>)
    ensures (secret, err) == LookupGeneratedSecret(c.secrets, c.fault, bucket.status.generatedSecretRef)
    ensures err.Some? ==> secret.None? && !err.value.NotFound?
  {
    if bucket.status.generatedSecretRef.None? {
      return None, None;
    }
    var s, e := c.Get(bucket.status.generatedSecretRef.value);
    if e.Some? {
      return None, IgnoreNotFound(e);
    }
    return s, None;
  }

  /**
   * Reading back: once the secret has been upserted under a reference, a lookup through that
   * reference that is not itself failed answers the generated secret with exactly the credentials
   * written; a secret that already existed keeps its creation time.
   */
  lemma UpsertedSecretIsReadBack(
    secrets: map<SecretReference, Secret>, fault: Request -> Option<Error>, ref: SecretReference, now: int,
    storageAccountName: string, storageKey: string, storageDomain: string)
    requires WellKeyed(secrets)
    requires fault(GetSecret(ref)).None?
    ensures var data := GeneratedSecretData(storageAccountName, storageKey, storageDomain);
      var (secret, err) := LookupGeneratedSecret(secrets[ref := Upserted(secrets, ref, data, now)], fault, Some(ref));
      && err.None? && secret.Some?
      && secret.value.name == ref.name && secret.value.namespace == ref.namespace
      && secret.value.data.Keys == {StorageAccount, StorageKey, StorageDomain}
      && secret.value.data[StorageAccount] == storageAccountName
      && secret.value.data[StorageKey] == storageKey
      && secret.value.data[StorageDomain] == storageDomain
      && secret.value.creationTimestamp == (if ref in secrets then secrets[ref].creationTimestamp else now)
  {
  }

  /** Deleting through a reference makes a later lookup through it answer "absent" without error. */
  lemma DeletedSecretReadsAbsent(secrets: map<SecretReference, Secret>, fault: Request -> Option<Error>, ref: SecretReference)
    requires fault(GetSecret(ref)).None?
    ensures LookupGeneratedSecret(secrets - {ref}, fault, Some(ref)) == (None, None)
  {
  }

  // ---------------------------------------------------------------------------------------------
  // Rotation
  // ---------------------------------------------------------------------------------------------

  /** Fourteen days, in seconds. */
  const RotationPeriod: int := 14 * 24 * 60 * 60

  /** shouldBeRotated: the secret was created before the instant fourteen days before now. */
  function ShouldBeRotated(secret: Secret, now: int): (r: (bool, Option<Error>))
    ensures r.1.None?
    ensures r.0 <==> now - secret.creationTimestamp > RotationPeriod
  {
    (secret.creationTimestamp < now - RotationPeriod, None)
  }

  /** Once a secret is due for rotation it stays due as time goes on. */
  lemma RotationStaysDue(secret: Secret, now: int, later: int)
    requires ShouldBeRotated(secret, now).0 && now <= later
    ensures ShouldBeRotated(secret, later).0
  {
  }

  /** A secret created now is not due; one created fifteen days ago is; at exactly fourteen days it is not yet. */
  lemma RotationThreshold(secret: Secret, now: int)
    ensures secret.creationTimestamp == now ==> !ShouldBeRotated(secret, now).0
    ensures secret.creationTimestamp == now - 15 * 24 * 60 * 60 ==> ShouldBeRotated(secret, now).0
    ensures secret.creationTimestamp == now - RotationPeriod ==> !ShouldBeRotated(secret, now).0
  {
  }
}
