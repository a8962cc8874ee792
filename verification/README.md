# Azure backup-bucket core, modelled in Dafny

This project models the decision logic behind the Azure provider extension's backup buckets.
A backup bucket is where a managed cluster's state backups go. The model has three parts:

- **Cloud realm resolution and error classification** (`pkg/azure/client/helper.go`, module
  `AzureClientHelper`). An explicit cloud configuration or a region is mapped to one of three Azure
  realms: public, government or China. A realm is mapped to the SDK cloud and to the environment
  variable that the upstream controllers read. Error values from three generations of Azure client
  libraries are classified as "not found" or "unauthorized".
- **Storage-account naming and provisioning** (`pkg/controller/backupbucket/backupbucket.go`, module
  `BackupBucketProvisioning`). The storage-account name is `"bkp"` followed by 15 hex characters of
  the SHA-256 of the bucket name. `ensureBackupBucket` upserts the resource group, creates the
  account and lists its key. `rotateStorageAccountCredentials` asks the provider to rotate the key.
  Both run against an abstract provider (class `Provider`). It has resource groups and storage
  accounts with upsert semantics, a log of every call made, and failures injected per call.
- **The generated credentials secret** (`pkg/controller/backupbucket/secret.go`, module
  `BackupBucketSecret`). The core creates the secret that mirrors the account's credentials and
  points the bucket's status at it. It also reads and deletes it through that reference, and decides
  from the secret's age whether the key must be rotated. The Kubernetes API is an abstract client
  (class `Client`). It holds a map of secrets keyed by (name, namespace) and the persisted bucket
  statuses, and injects failures per request.

Support modules: `Wrappers` (Option and Result, standing for nil and Go's `(value, error)`),
`Strings` (`strings.ToLower`, `HasPrefix` and `EqualFold` over ASCII), `Utils` (the shape of
`utils.ComputeSHA256Hex`: 64 lower-case hex characters) and `Extensions` (the `BackupBucket` object,
a class because `createBackupBucketGeneratedSecret` assigns its status in place).

Inputs the source takes from its surroundings are parameters:
- the SHA-256 hex function (`sha256: Sha256Hex`, left uninterpreted);
- the current time (`now`, in seconds) and its RFC 3339 rendering (`rfc3339`);
- the region prefix lists and realm-name constants of `pkg/apis/azure` (`AzureConstants`).
  `StandardNames` states that the realm names equal the literals used by
  `cloudEnvVarNameFromCloudConfiguration`.

Three behaviours of the secret code are modelled as written:
- `getBackupBucketGeneratedSecret` suppresses not-found with controller-runtime's `IgnoreNotFound`,
  not with the Azure classifier (`pkg/controller/backupbucket/secret.go:74`).
- `deleteBackupBucketGeneratedSecret` with no status reference returns no error
  (`pkg/controller/backupbucket/secret.go:53-55`). Only `deleteBackupBucketGeneratedSecretByRef`
  rejects a nil reference.
- A secret is due for rotation only when it is strictly older than 14 days. At exactly 14 days it is
  not due yet (`pkg/controller/backupbucket/secret.go:80`, `RotationThreshold`).

One as-written behaviour is worth knowing. The type switch in `isAzureAPIStatusError` looks only at
the error itself. An `azcore.ResponseError` or `autorest.DetailedError` that reaches the classifier
wrapped by another error is therefore not classified by its status. A `CallErr` is found at any
depth (`WrappedResponseErrorIsNotClassified`, `StatusErrorCharacterised`).

## Model

| member | source | states |
|---|---|---|
| `AzureClientHelper.FilterNotFoundError` | pkg/azure/client/helper.go:22-31 | the result is nil exactly when the input is nil or a not-found error; otherwise it is the input unchanged |
| `AzureClientHelper.FilterNotFoundErrorIdempotent` | pkg/azure/client/helper.go:23-31 | filtering an already filtered error changes nothing |
| `AzureClientHelper.FilterNotFoundErrorExamples` | pkg/azure/client/helper.go:23-31 | 404 errors are filtered in each shape: legacy typed code, legacy response, current SDK, MSAL call found by unwrapping; 401 and a CallErr without response pass through; a legacy error with no status of its own is filtered iff the MSAL call under it answered 404 |
| `AzureClientHelper.AsCallErr` | pkg/azure/client/helper.go:48-49 | `errors.As` for a CallErr: finds the CallErr on the unwrap chain when there is one, and answers none only when the chain holds no CallErr |
| `AzureClientHelper.OnChainSingleCallErr` | pkg/azure/client/helper.go:48-50 | an unwrap chain holds at most one CallErr, so the one `errors.As` finds is the only candidate |
| `AzureClientHelper.AsAuthenticationFailed` | pkg/azure/client/helper.go:67-68 | `errors.As` for an AuthenticationFailedError is true exactly when one is on the unwrap chain |
| `AzureClientHelper.IsAzureAPIStatusError` | pkg/azure/client/helper.go:33-54 | a match is always backed by a status carried by the error itself or by a CallErr on its unwrap chain (the converse is `StatusErrorCharacterised`) |
| `AzureClientHelper.StatusErrorCharacterised` | pkg/azure/client/helper.go:33-54 | a status matches iff the error itself carries it (DetailedError typed int code or response code, ResponseError code, CallErr response) or a CallErr reached by unwrapping has a response with that code |
| `AzureClientHelper.StatusErrorIsSound` | pkg/azure/client/helper.go:33-54 | every match is backed by an error on the chain that really carries that status |
| `AzureClientHelper.NilCallErrResponseMatchesNothing` | pkg/azure/client/helper.go:48-53 | a CallErr with nil Resp never matches any status unless the outer error is itself a legacy or SDK error |
| `AzureClientHelper.UnrecognisedErrorsMatchNothing` | pkg/azure/client/helper.go:34-53 | an error of unrecognised shape, wrapped or not, and an authentication failure match no status |
| `AzureClientHelper.WrappedResponseErrorIsNotClassified` | pkg/azure/client/helper.go:34-46 | the type switch does not unwrap: a ResponseError matches its code, the same error wrapped does not |
| `AzureClientHelper.IsAzureAPINotFoundError` | pkg/azure/client/helper.go:56-59 | not found iff the error itself carries 404 or a CallErr reached by unwrapping it answered 404 |
| `AzureClientHelper.IsAzureAPIUnauthorized` | pkg/azure/client/helper.go:61-69 | unauthorized iff the error itself carries 401, or a CallErr reached by unwrapping answered 401, or an AuthenticationFailedError is anywhere on the unwrap chain |
| `AzureClientHelper.HasAnyPrefix` | pkg/azure/client/helper.go:156-164 | true iff some prefix, lower-cased, is a prefix of the lower-cased string; false for an empty list |
| `AzureClientHelper.CloudConfigurationFromRegion` | pkg/azure/client/helper.go:92-102 | any government prefix match gives the government realm even if a China prefix also matches; otherwise a China prefix match gives China; every other region is public |
| `AzureClientHelper.RegionResolutionIgnoresCase` | pkg/azure/client/helper.go:92-102 | lower-casing the region does not change the realm it resolves to |
| `AzureClientHelper.ResolveCloudConfiguration` | pkg/azure/client/helper.go:73-80 | an explicit configuration is returned unchanged whatever the region; else a region gives its derived realm; it fails iff both are nil |
| `AzureClientHelper.AzureCloudFromCloudConfiguration` | pkg/azure/client/helper.go:104-122 | nil is the public cloud; a name equal to the public realm name ignoring case selects the public cloud, and the government or China cloud is selected only for a name equal to that realm's name ignoring case; a name fails exactly when it equals none of the three realm names ignoring case, and the error names it |
| `AzureClientHelper.AzureCloudConfiguration` | pkg/azure/client/helper.go:82-90 | it fails with the missing-input error exactly when both inputs are nil; every other failure is an unknown realm name |
| `AzureClientHelper.AzureCloudConfigurationPrecedence` | pkg/azure/client/helper.go:84-90 | the SDK cloud comes from the explicit configuration when there is one, else from the region's realm; with neither it fails with the missing-input error |
| `AzureClientHelper.AzureCloudTable` | pkg/azure/client/helper.go:105-122 | with the standard realm names, nil is public and every name equal to "AzurePublic", "AzureGovernment" or "AzureChina" ignoring case selects the public, government or China cloud; a name equal to none of them, ignoring case, is an unknown-name error naming it |
| `AzureClientHelper.CloudEnvVarNameFromCloudConfiguration` | pkg/azure/client/helper.go:137-154 | the answer is one of the three realm variables; a name fails exactly when it equals none of "AzurePublic", "AzureGovernment", "AzureChina" ignoring case, and the error names it |
| `AzureClientHelper.AzureCloudEnvVarName` | pkg/azure/client/helper.go:124-135 | it fails with its own missing-input error exactly when both inputs are nil; every other failure is an unknown realm name |
| `AzureClientHelper.EnvVarNamePrecedence` | pkg/azure/client/helper.go:126-135 | the env-var name comes from the explicit configuration when there is one, else from the region's realm; with neither it fails with its own missing-input error |
| `AzureClientHelper.EnvVarTable` | pkg/azure/client/helper.go:138-154 | nil gives AZUREPUBLICCLOUD; every name equal to "AzurePublic", "AzureGovernment" or "AzureChina" ignoring case gives AZUREPUBLICCLOUD, AZUREUSGOVERNMENT or AZURECHINACLOUD; every other name is an error naming it |
| `AzureClientHelper.EnvVarNameIgnoresCase` | pkg/azure/client/helper.go:138-154 | lower-casing the realm name changes neither whether the lookup succeeds nor its result |
| `AzureClientHelper.RealmNamesDistinct` | pkg/azure/client/helper.go:144-153 | no name matches two of the three realm names, so the order of the cases does not matter |
| `AzureClientHelper.EnvVarAgreesWithAzureCloud` | pkg/azure/client/helper.go:105-154 | with the standard realm names, the env-var name and the SDK cloud succeed on the same inputs, name the same realm, and fail alike on unknown names |
| `AzureClientHelper.RegionOnlyNeverFails` | pkg/azure/client/helper.go:76-77 | with the standard realm names, a region alone always resolves to an SDK cloud and to an env-var name |
| `BackupBucketProvisioning.GetStorageAccountName` | pkg/controller/backupbucket/backupbucket.go:19-21 | the name is "bkp" followed by a 15-character prefix of the bucket name's digest: 18 characters, a valid Azure storage-account name |
| `BackupBucketProvisioning.Step` | pkg/controller/backupbucket/backupbucket.go:27-50 | every provider call is logged; a faulted call answers its fault and changes nothing else; an unfaulted call fails only with not-found for a missing group or account, and then without effect |
| `BackupBucketProvisioning.RunCalls` | pkg/controller/backupbucket/backupbucket.go:27-50 | a non-empty call sequence makes between one and all of its calls and only appends to the log |
| `BackupBucketProvisioning.Provider.Invoke` | pkg/controller/backupbucket/backupbucket.go:27-50 | a provider call records itself and changes the provider's state as the abstract step says |
| `BackupBucketProvisioning.RunCallsStopsAtFirstFailure` | pkg/controller/backupbucket/backupbucket.go:27-50 | a call sequence makes its first k calls for some k >= 1: the first k - 1 succeed, the result is the k-th call's state and reply, and it stops before the end only when that call failed |
| `BackupBucketProvisioning.RunCallsSplits` | pkg/controller/backupbucket/backupbucket.go:27-50 | a failure among the first k calls ends the run there with that failure; otherwise the rest runs from the state the first k left |
| `BackupBucketProvisioning.EnsurePlan` | pkg/controller/backupbucket/backupbucket.go:24-50 | five calls: the group named after the bucket is upserted at the region, the account is created in that group at that location, and the key listed is that account's, whose name is a valid storage-account name |
| `BackupBucketProvisioning.RotatePlan` | pkg/controller/backupbucket/backupbucket.go:56-70 | two calls; the key rotated is the caller's, of the account ensure creates for the same bucket, in the group named after it |
| `BackupBucketProvisioning.EnsureBackupBucket` | pkg/controller/backupbucket/backupbucket.go:23-53 | the new provider state is that of the five calls run until the first failure; a failure returns ("", "", that error); success returns the derived account name and the listed key |
| `BackupBucketProvisioning.EnsureOutcome` | pkg/controller/backupbucket/backupbucket.go:23-53 | ensure answers a key or an error; it succeeds iff none of its calls is faulted; then the group named after the bucket is at the bucket's region, the account is inside it at that region, the key returned is the account's first, every other storage account is left as it was, and all five calls were made in order |
| `BackupBucketProvisioning.EnsureFailure` | pkg/controller/backupbucket/backupbucket.go:27-50 | when the j-th call is the first faulted one, ensure answers exactly that fault and the calls made are the first j + 1 |
| `BackupBucketProvisioning.EnsureIdempotent` | pkg/controller/backupbucket/backupbucket.go:23-53 | a second ensure after a successful one answers the same account name and key and leaves groups and accounts unchanged |
| `BackupBucketProvisioning.RotateStorageAccountCredentials` | pkg/controller/backupbucket/backupbucket.go:55-71 | rotation acquires the account client, then rotates the key of the account getStorageAccountName derives, in the group named after the bucket, passing the caller's key; the provider's answer is returned unchanged |
| `BackupBucketProvisioning.RotateTargetsEnsuredAccount` | pkg/controller/backupbucket/backupbucket.go:62-70 | rotation addresses the group and account that ensure created; after a successful ensure an unfaulted rotation succeeds, answers the key it generated and keeps the caller's current key |
| `BackupBucketSecret.GeneratedSecretName` | pkg/controller/backupbucket/secret.go:24-28 | the name is "generated-bucket-", the bucket name, "-" and the first four (lower-case hex) characters of the SHA-256 of the RFC 3339 timestamp |
| `BackupBucketSecret.GeneratedSecretNameDeterminesBucket` | pkg/controller/backupbucket/secret.go:24-28 | secrets generated for different buckets never share a name |
| `BackupBucketSecret.GeneratedSecretRef` | pkg/controller/backupbucket/secret.go:25-29 | the generated secret lives in namespace "garden" |
| `BackupBucketSecret.IgnoreNotFound` | pkg/controller/backupbucket/secret.go:73-75 | a not-found error becomes nil; any other error is kept |
| `BackupBucketSecret.Client.CreateOrUpdate` | pkg/controller/backupbucket/secret.go:32-41 | a failed upsert changes nothing; a successful one stores the secret with exactly the given data, keeping the creation time of a secret that already existed |
| `BackupBucketSecret.Client.Get` | pkg/controller/backupbucket/secret.go:72 | a lookup answers its fault, not-found for a missing secret, or the stored secret |
| `BackupBucketSecret.Client.Delete` | pkg/controller/backupbucket/secret.go:64 | a delete answers its fault with not-found ignored: a not-found or no fault removes the secret and answers nil; any other fault is returned and changes nothing |
| `BackupBucketSecret.Client.PatchStatus` | pkg/controller/backupbucket/secret.go:43-48 | the merge patch sets only the persisted generated-secret reference; it fails without effect on a fault or a missing bucket |
| `BackupBucketSecret.CreateBackupBucketGeneratedSecret` | pkg/controller/backupbucket/secret.go:23-49 | if the upsert fails its error is returned and the secrets, the bucket's status and the persisted status are unchanged; otherwise the secret holds the three credentials, the bucket's reference is the secret's (name, namespace) with no other status field changed, the status patch is always sent, and the result is the patch's fault, not-found for a missing bucket, or nil with the persisted reference updated |
| `BackupBucketSecret.DeleteBackupBucketGeneratedSecret` | pkg/controller/backupbucket/secret.go:52-57 | with no status reference it returns nil and deletes nothing; otherwise it deletes the referenced secret, succeeding when it is already gone and returning any other failure |
| `BackupBucketSecret.DeleteBackupBucketGeneratedSecretByRef` | pkg/controller/backupbucket/secret.go:60-65 | a nil reference is an error and deletes nothing; otherwise the referenced secret is deleted; not-found counts as success and any other failure is returned with nothing deleted |
| `BackupBucketSecret.LookupGeneratedSecret` | pkg/controller/backupbucket/secret.go:68-77 | a failed lookup whose error is not not-found answers exactly that error and no secret; an error is never not-found; a secret is the one stored under the reference; absent without error exactly for a nil reference, a not-found failure, or a missing secret |
| `BackupBucketSecret.GetBackupBucketGeneratedSecret` | pkg/controller/backupbucket/secret.go:68-77 | (nil, nil) for a nil reference and for a missing secret; a failed lookup's error is propagated unless it is not-found; otherwise the stored secret; it never returns a not-found error |
| `BackupBucketSecret.UpsertedSecretIsReadBack` | pkg/controller/backupbucket/secret.go:32-38 | after the upsert, reading through the reference answers a secret with exactly the keys StorageAccount, StorageKey and StorageDomain holding the supplied values |
| `BackupBucketSecret.DeletedSecretReadsAbsent` | pkg/controller/backupbucket/secret.go:68-77 | after a delete, reading through the stale reference answers "absent" without error |
| `BackupBucketSecret.ShouldBeRotated` | pkg/controller/backupbucket/secret.go:79-81 | true iff the secret is more than 14 days old at now; never an error |
| `BackupBucketSecret.RotationStaysDue` | pkg/controller/backupbucket/secret.go:79-81 | a secret that is due for rotation stays due as time goes on |
| `BackupBucketSecret.RotationThreshold` | pkg/controller/backupbucket/secret.go:79-81 | a secret created now is not due; one created 15 days ago is; one exactly 14 days old is not |

## Left out

- Go's `strings.ToLower` and `strings.EqualFold` apply Unicode case mapping. The model lower-cases only ASCII letters. For `EqualFold` against the three realm literals this changes nothing, because those literals contain no letter (k, s) that a non-ASCII character folds to. Region prefixes compared after Unicode lower-casing of non-ASCII characters are not modelled.
- The endpoints inside the SDK's `cloud.Configuration` values: the three realms are an enumeration (`AzureCloud`).
- The concrete region prefix lists and realm-name constants of `pkg/apis/azure`, which is not part of this model: they are the parameter `AzureConstants`.
- Unwrapping: `Wrapped` and a `DetailedError`'s original error unwrap. `CallErr`, `ResponseError` and `AuthenticationFailedError` are taken not to wrap anything. An `*http.Response` is reduced to its status code.
- A `*autorest.DetailedError` (the pointer form) is not matched by the type switch, but `errors.As` descends through it into its original error, because `Unwrap` has a value receiver. It is encoded as `Wrapped(original)`, or as `OtherError` when it has no original error. A `*CallErr` and errors with custom `As` methods fall under `OtherError`.
- Error trees: `errors.As` also walks errors that unwrap to several errors (`errors.Join`, `fmt.Errorf` with several `%w`), taking the first match in pre-order. `Error` has no such variant, so the model covers single-unwrap chains only. `OnChainSingleCallErr` (at most one CallErr on a chain) does not hold for trees, which may hold several CallErrs.
- SHA-256 and `utils.ComputeSHA256Hex`: an uninterpreted function returning 64 lower-case hex characters. Collision resistance of the truncated digests is not modelled.
- The Azure SDK clients (`factory.Group()`, `factory.StorageAccount()`, `CreateStorageAccount`, `ListStorageAccountKey`, `RotateKey`) are not part of this model. They are an abstract provider with injected failures. Its semantics are chosen as follows: upserts; creating an account needs its group; a new account gets two generated keys; listing answers the first key; rotation regenerates the key other than the caller's current one.
- Location changes: the abstract provider accepts a new location for an existing resource group or storage account and moves it in place, where Azure would reject the move. `EnsureOutcome`'s "succeeds iff no call is faulted" and its resulting group and account locations rely on this. Provider errors other than injected faults and not-found are not modelled.
- `controllerutil.CreateOrUpdate`, `client.MergeFrom`, `Status().Patch` and `kutil.Get/DeleteSecretByReference` are map operations. `DeleteSecretByReference` is taken to ignore not-found, so deleting an absent secret succeeds and never answers not-found. Optimistic concurrency, and decoding the patch response back into the in-memory bucket, are not modelled.
- `context.Context` cancellation and deadlines, and concurrent reconciliations of the same bucket.
- `time.Now()`, RFC 3339 formatting and `AddDate`: `now` is an integer number of seconds, `rfc3339` a parameter, and 14 days a fixed span of 1,209,600 seconds. Calendar and daylight-saving effects and sub-second precision are not modelled.
- Secret data keys are the enumeration `DataKey`. The string values of `azure.StorageAccount`, `azure.StorageKey` and `azure.StorageDomain` are defined in a package that is not part of this model. Values are strings rather than byte slices.
- The rotation procedure that combines `shouldBeRotated`, key rotation and a new secret lives in the actuator, which is not part of this model.
