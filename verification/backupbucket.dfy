/**
 * pkg/controller/backupbucket/backupbucket.go: the storage-account name of a bucket, and the call
 * sequences that provision the bucket's storage and rotate its key, against an abstract Azure
 * provider whose calls may fail.
 */
module BackupBucketProvisioning {
  import opened Wrappers
  import opened Strings
  import opened Utils
  import opened Extensions
  import AzureClientHelper

  type Error = AzureClientHelper.Error

  // ---------------------------------------------------------------------------------------------
  // Naming
  // ---------------------------------------------------------------------------------------------

  const StorageAccountNamePrefix := "bkp"
  /** How many hex characters of the digest the account name keeps. */
  const DigestPrefixLength := 15

  predicate IsLowerAlphanumeric(c: char) {
    '0' <= c <= '9' || 'a' <= c <= 'z'
  }

  /** Azure's rule for storage-account names: 3 to 24 lower-case letters and digits. */
  predicate IsValidStorageAccountName(name: string) {
    3 <= |name| <= 24 && forall i :: 0 <= i < |name| ==> IsLowerAlphanumeric(name[i])
  }

  /** getStorageAccountName: "bkp" and the first 15 hex characters of the SHA-256 of the bucket name. */
  function GetStorageAccountName(sha256: Sha256Hex, bucketName: string): (r: string)
    ensures |r| == 18 && IsValidStorageAccountName(r)
    ensures HasPrefix(r, StorageAccountNamePrefix) && HasPrefix(sha256(bucketName), r[|StorageAccountNamePrefix|..])
  {
    var digest := sha256(bucketName);
    assert forall i :: 0 <= i < |digest| ==> IsLowerHexChar(digest[i]);
    StorageAccountNamePrefix + digest[..DigestPrefixLength]
  }

  // ---------------------------------------------------------------------------------------------
  // The abstract provider
  // ---------------------------------------------------------------------------------------------

  datatype AccountId = AccountId(resourceGroup: string, name: string)

  /** A storage account with its location and its two access keys. */
  datatype StorageAccount = StorageAccount(location: string, key1: string, key2: string)

  /** The calls the core makes on the client factory and on the clients it hands out. */
  datatype Call =
    | GroupClient
    | CreateOrUpdateGroup(groupName: string, location: string)
    | StorageAccountClient
    | CreateStorageAccount(resourceGroup: string, accountName: string, accountLocation: string)
    | ListStorageAccountKey(listGroup: string, listAccount: string)
    | RotateKey(rotateGroup: string, rotateAccount: string, currentKey: string)

  /** What a call answers: nothing, a key, or an error. */
  datatype Reply = Done | Key(key: string) | Failed(error: Error)

  /**
   * The environment outside the core's control: which calls fail (the same call always fails the
   * same way) and the key material the cloud generates.
   */
  datatype Env = Env(fault: Call -> Option<Error>, keyGen: nat -> string)

  /** The provider's state: resource groups with their location, storage accounts, the calls made so far. */
  datatype Cloud = Cloud(
    groups: map<string, string>,
    accounts: map<AccountId, StorageAccount>,
    calls: seq<Call>,
    generated: nat)

  /** The error a resource that does not exist is reported with. */
  const ResourceNotFound: Error := AzureClientHelper.ResponseError(AzureClientHelper.StatusNotFound)

  /**
   * One call on the provider. Every call is recorded. An injected fault fails it without effect;
   * otherwise groups and accounts are created or updated in place (an existing account keeps its
   * keys), a missing group or account is reported as not found, listing answers the first key, and
   * rotation regenerates the key that is not the caller's current one and answers it.
   * So a call that is not faulted fails only on a missing group or account, and then without effect.
   */
  function Step(env: Env, s: Cloud, c: Call): (r: (Cloud, Reply))
    ensures r.0.calls == s.calls + [c]
    ensures env.fault(c).Some? ==> r == (s.(calls := s.calls + [c]), Failed(env.fault(c).value))
    ensures env.fault(c).None? && r.1.Failed? ==>
      r == (s.(calls := s.calls + [c]), Failed(ResourceNotFound))
  {
    var s1 := s.(calls := s.calls + [c]);
    match env.fault(c)
    case Some(e) => (s1, Failed(e))
    case None =>
      match c
      case GroupClient => (s1, Done)
      case StorageAccountClient => (s1, Done)
      case CreateOrUpdateGroup(name, location) => (s1.(groups := s.groups[name := location]), Done)
      case CreateStorageAccount(group, name, location) =>
        var id := AccountId(group, name);
        if group !in s.groups then (s1, Failed(ResourceNotFound))
        else if id in s.accounts then
          (s1.(accounts := s.accounts[id := s.accounts[id].(location := location)]), Done)
        else
          var account := StorageAccount(location, env.keyGen(s.generated), env.keyGen(s.generated + 1));
          (s1.(accounts := s.accounts[id := account], generated := s.generated + 2), Done)
      case ListStorageAccountKey(group, name) =>
        var id := AccountId(group, name);
        if id !in s.accounts then (s1, Failed(ResourceNotFound)) else (s1, Key(s.accounts[id].key1))
      case RotateKey(group, name, current) =>
        var id := AccountId(group, name);
        if id !in s.accounts then (s1, Failed(ResourceNotFound))
        else
          var newKey := env.keyGen(s.generated);
          var account :=
            if s.accounts[id].key1 == current then s.accounts[id].(key2 := newKey) else s.accounts[id].(key1 := newKey);
          (s1.(accounts := s.accounts[id := account], generated := s.generated + 1), Key(newKey))
  }

  /**
   * Runs calls in order and stops at the first that fails; the reply is that of the last call made.
   * A non-empty plan makes at least one and at most all of its calls, and only appends to the log.
   */
  function RunCalls(env: Env, s: Cloud, plan: seq<Call>): (r: (Cloud, Reply))
    ensures plan != [] ==>
      && |s.calls| < |r.0.calls| <= |s.calls| + |plan|
      && r.0.calls[..|s.calls|] == s.calls
    decreases |plan|
  {
    if plan == [] then (s, Done)
    else
      var (s1, reply) := Step(env, s, plan[0]);
      if reply.Failed? || |plan| == 1 then (s1, reply) else RunCalls(env, s1, plan[1..])
  }

  /**
   * The run of a plan is its first k calls: the first k - 1 of them succeed in turn, the run's state
   * and reply are those of the k-th call made after them, and the run stops before the end of the
   * plan only when that call failed.
   */
  ghost predicate StopsAfter(env: Env, s: Cloud, plan: seq<Call>, k: int) {
    && 1 <= k <= |plan|
    && RunCalls(env, s, plan).0.calls == s.calls + plan[..k]
    && (k < |plan| ==> RunCalls(env, s, plan).1.Failed?)
    && (forall j :: 1 <= j < k ==> !RunCalls(env, s, plan[..j]).1.Failed?)
    && RunCalls(env, s, plan) == Step(env, RunCalls(env, s, plan[..k - 1]).0, plan[k - 1])
  }

  /** After a first call that succeeds, a prefix of the plan runs as the rest of that prefix from the new state. */
  lemma RunCallsPrefixUnfolds(env: Env, s: Cloud, plan: seq<Call>, j: int)
    requires 2 <= j <= |plan| && !Step(env, s, plan[0]).1.Failed?
    ensures RunCalls(env, s, plan[..j]) == RunCalls(env, Step(env, s, plan[0]).0, plan[1..][..j - 1])
  {
    assert plan[..j][0] == plan[0];
    assert plan[..j][1..] == plan[1..][..j - 1];
  }

  /** Running a plan stops after the first call that fails, with that call's state and reply. */
  lemma {:induction false} RunCallsStopsAtFirstFailure(env: Env, s: Cloud, plan: seq<Call>)
    requires plan != []
    ensures exists k :: StopsAfter(env, s, plan, k)
    decreases |plan|
  {
    var next := Step(env, s, plan[0]);
    assert plan[..0] == [];
    assert plan[..1] == [plan[0]];
    if next.1.Failed? || |plan| == 1 {
      assert RunCalls(env, s, plan) == next;
      assert StopsAfter(env, s, plan, 1);
    } else {
      var rest := plan[1..];
      assert RunCalls(env, s, plan) == RunCalls(env, next.0, rest);
      RunCallsStopsAtFirstFailure(env, next.0, rest);
      var k :| StopsAfter(env, next.0, rest, k);
      assert plan[..k + 1] == [plan[0]] + rest[..k];
      forall j | 1 <= j < k + 1
        ensures !RunCalls(env, s, plan[..j]).1.Failed?
      {
        if j > 1 {
          RunCallsPrefixUnfolds(env, s, plan, j);
        }
      }
      if k == 1 {
        assert rest[..0] == [];
      } else {
        RunCallsPrefixUnfolds(env, s, plan, k);
      }
      assert StopsAfter(env, s, plan, k + 1);
    }
  }

  /**
   * A plan splits at any point: a failure among its first k calls ends the run there with that
   * failure; otherwise the rest of the plan runs from the state the first k calls left.
   */
  lemma {:induction false} RunCallsSplits(env: Env, s: Cloud, plan: seq<Call>, k: nat)
    requires 1 <= k < |plan|
    ensures var (mid, reply) := RunCalls(env, s, plan[..k]);
      RunCalls(env, s, plan) == (if reply.Failed? then (mid, reply) else RunCalls(env, mid, plan[k..]))
    decreases k
  {
    var (s1, r1) := Step(env, s, plan[0]);
    assert plan[..k][0] == plan[0];
    if r1.Failed? {
      assert RunCalls(env, s, plan[..k]) == (s1, r1);
      assert RunCalls(env, s, plan) == (s1, r1);
    } else if k == 1 {
      assert plan[..1] == [plan[0]];
      assert RunCalls(env, s, plan) == RunCalls(env, s1, plan[1..]);
    } else {
      assert plan[..k][1..] == plan[1..][..k - 1];
      assert RunCalls(env, s, plan[..k]) == RunCalls(env, s1, plan[1..][..k - 1]);
      assert RunCalls(env, s, plan) == RunCalls(env, s1, plan[1..]);
      RunCallsSplits(env, s1, plan[1..], k - 1);
      assert plan[1..][k - 1..] == plan[k..];
    }
  }

  /** The Azure provider: its state is changed in place by every call. */
  class Provider {
    var groups: map<string, string>
    var accounts: map<AccountId, StorageAccount>
    var calls: seq<Call>
    var generated: nat
    const env: Env

    function State(): Cloud
      reads this
    {
      Cloud(groups, accounts, calls, generated)
    }

    constructor (env: Env, groups: map<string, string>, accounts: map<AccountId, StorageAccount>)
      ensures this.env == env && State() == Cloud(groups, accounts, [], 0)
    {
      this.env := env;
      this.groups := groups;
      this.accounts := accounts;
      this.calls := [];
      this.generated := 0;
    }

    /** Makes one call. */
    method Invoke(c: Call) returns (reply: Reply)
      modifies this
      ensures (State(), reply) == Step(env, old(State()), c)
    {
      var next;
      next, reply := Step(env, State(), c).0, Step(env, State(), c).1;
      groups, accounts, calls, generated := next.groups, next.accounts, next.calls, next.generated;
    }
  }

  // ---------------------------------------------------------------------------------------------
  // ensureBackupBucket and rotateStorageAccountCredentials
  // ---------------------------------------------------------------------------------------------

  /**
   * The calls ensureBackupBucket makes, in order, when none fails: the account is created in the
   * group just upserted and at its location, and the key listed is that account's.
   */
  function EnsurePlan(sha256: Sha256Hex, bucketName: string, region: string): (r: seq<Call>)
    ensures |r| == 5 && r[1].CreateOrUpdateGroup? && r[3].CreateStorageAccount? && r[4].ListStorageAccountKey?
    ensures r[1].groupName == bucketName && r[1].location == region
    ensures r[3] == CreateStorageAccount(r[1].groupName, r[4].listAccount, r[1].location)
    ensures r[4].listGroup == r[1].groupName && IsValidStorageAccountName(r[4].listAccount)
  {
    var accountName := GetStorageAccountName(sha256, bucketName);
    [GroupClient,
     CreateOrUpdateGroup(bucketName, region),
     StorageAccountClient,
     CreateStorageAccount(bucketName, accountName, region),
     ListStorageAccountKey(bucketName, accountName)]
  }

  /**
   * The calls rotateStorageAccountCredentials makes, in order, when none fails: the key rotated is
   * the caller's, of the account ensure creates for the same bucket, in the group named after it.
   */
  function RotatePlan(sha256: Sha256Hex, bucketName: string, storageAccountKey: string): (r: seq<Call>)
    ensures |r| == 2 && r[1].RotateKey?
    ensures forall region ::
      (EnsurePlan(sha256, bucketName, region)[3] == CreateStorageAccount(r[1].rotateGroup, r[1].rotateAccount, region))
    ensures r[1].currentKey == storageAccountKey
  {
    [StorageAccountClient,
     RotateKey(bucketName, GetStorageAccountName(sha256, bucketName), storageAccountKey)]
  }

  /**
   * ensureBackupBucket: upsert the resource group named after the bucket at its region, create the
   * storage account in it, and answer the account name with its first key; any failure aborts with
   * empty strings and that error.
   */
  method EnsureBackupBucket(p: Provider, sha256: Sha256Hex, bucket: BackupBucket)
    returns (storageAccountName: string, storageAccountKey: string, err: Option<Error>)
    modifies p
    ensures var (after, reply) := RunCalls(p.env, old(p.State()), EnsurePlan(sha256, bucket.name, bucket.region));
      && p.State() == after
      && (reply.Failed? ==> storageAccountName == "" && storageAccountKey == "" && err == Some(reply.error))
      && (!reply.Failed? ==>
            reply.Key? && err.None? && storageAccountKey == reply.key
            && storageAccountName == GetStorageAccountName(sha256, bucket.name))
  {
    ghost var plan := EnsurePlan(sha256, bucket.name, bucket.region);
    ghost var s0 := p.State();
    var accountName := GetStorageAccountName(sha256, bucket.name);

    var reply := p.Invoke(GroupClient);
    if reply.Failed? {
      return "", "", Some(reply.error);
    }
    assert RunCalls(p.env, s0, plan) == RunCalls(p.env, p.State(), plan[1..]);

    reply := p.Invoke(CreateOrUpdateGroup(bucket.name, bucket.region));
    if reply.Failed? {
      return "", "", Some(reply.error);
    }
    assert RunCalls(p.env, s0, plan) == RunCalls(p.env, p.State(), plan[2..]);

    reply := p.Invoke(StorageAccountClient);
    if reply.Failed? {
      return "", "", Some(reply.error);
    }
    assert RunCalls(p.env, s0, plan) == RunCalls(p.env, p.State(), plan[3..]);

    reply := p.Invoke(CreateStorageAccount(bucket.name, accountName, bucket.region));
    if reply.Failed? {
      return "", "", Some(reply.error);
    }
    assert RunCalls(p.env, s0, plan) == RunCalls(p.env, p.State(), plan[4..]);

    reply := p.Invoke(ListStorageAccountKey(bucket.name, accountName));
    if reply.Failed? {
      return "", "", Some(reply.error);
    }
    return accountName, reply.key, None;
  }

  /**
   * rotateStorageAccountCredentials: the bucket name is the resource group and the account name is
   * derived as in getStorageAccountName; the provider's answer is returned as it is.
   */
  method RotateStorageAccountCredentials(p: Provider, sha256: Sha256Hex, bucket: BackupBucket, storageAccountKey: string)
    returns (newKey: string, err: Option<Error>)
    modifies p
    ensures var (after, reply) := RunCalls(p.env, old(p.State()), RotatePlan(sha256, bucket.name, storageAccountKey));
      && p.State() == after
      && (reply.Failed? ==> newKey == "" && err == Some(reply.error))
      && (!reply.Failed? ==> reply.Key? && err.None? && newKey == reply.key)
  {
    var resourceGroupName := bucket.name;
    var backupBucketNameSha := sha256(bucket.name);
    var storageAccountName := "bkp" + backupBucketNameSha[..15];

    var reply := p.Invoke(StorageAccountClient);
    if reply.Failed? {
      return "", Some(reply.error);
    }
    reply := p.Invoke(RotateKey(resourceGroupName, storageAccountName, storageAccountKey));
    if reply.Failed? {
      return "", Some(reply.error);
    }
    return reply.key, None;
  }

  // ---------------------------------------------------------------------------------------------
  // Properties of the two sequences
  // ---------------------------------------------------------------------------------------------

  /** No fault on the planned calls: ensuring cannot fail for a reason of its own making. */
  predicate NoFault(env: Env, plan: seq<Call>) {
    forall i :: 0 <= i < |plan| ==> env.fault(plan[i]).None?
  }

  /**
   * Ensure succeeds exactly when none of its calls is faulted; then the group named after the bucket
   * sits at the bucket's region, the derived account exists inside it at the same region, the key
   * answered is the account's first key, and all five calls were made.
   */
  lemma EnsureOutcome(env: Env, s: Cloud, sha256: Sha256Hex, bucketName: string, region: string)
    ensures var plan := EnsurePlan(sha256, bucketName, region);
      var (after, reply) := RunCalls(env, s, plan);
      var id := AccountId(bucketName, GetStorageAccountName(sha256, bucketName));
      && (reply.Key? || reply.Failed?)
      && (reply.Key? <==> NoFault(env, plan))
      && (reply.Key? ==>
            && after.groups == s.groups[bucketName := region]
            && id in after.accounts && after.accounts[id].location == region
            && after.accounts == s.accounts[id := after.accounts[id]]
            && reply.key == after.accounts[id].key1
            && after.calls == s.calls + plan)
  {
    var plan := EnsurePlan(sha256, bucketName, region);
    var id := AccountId(bucketName, GetStorageAccountName(sha256, bucketName));
    var (t1, r1) := Step(env, s, plan[0]);
    if r1.Failed? {
      assert RunCalls(env, s, plan) == (t1, r1);
      return;
    }
    assert RunCalls(env, s, plan) == RunCalls(env, t1, plan[1..]);
    var (t2, r2) := Step(env, t1, plan[1]);
    if r2.Failed? {
      assert RunCalls(env, s, plan) == (t2, r2);
      return;
    }
    assert t2.groups == s.groups[bucketName := region];
    assert RunCalls(env, s, plan) == RunCalls(env, t2, plan[2..]);
    var (t3, r3) := Step(env, t2, plan[2]);
    if r3.Failed? {
      assert RunCalls(env, s, plan) == (t3, r3);
      return;
    }
    assert RunCalls(env, s, plan) == RunCalls(env, t3, plan[3..]);
    var (t4, r4) := Step(env, t3, plan[3]);
    assert bucketName in t3.groups;
    if r4.Failed? {
      assert RunCalls(env, s, plan) == (t4, r4);
      return;
    }
    assert id in t4.accounts && t4.accounts[id].location == region && t4.groups == t2.groups;
    assert RunCalls(env, s, plan) == RunCalls(env, t4, plan[4..]);
    assert plan[4..] == [plan[4]];
    var (t5, r5) := Step(env, t4, plan[4]);
    assert RunCalls(env, s, plan) == (t5, r5);
    assert t5.calls == s.calls + [plan[0], plan[1], plan[2], plan[3], plan[4]];
    assert [plan[0], plan[1], plan[2], plan[3], plan[4]] == plan;
  }

  /**
   * Ensure fails with the error of its first faulted call: the calls before it succeed, it is the
   * last call made, and ("", "", its error) is what ensureBackupBucket returns.
   */
  lemma EnsureFailure(env: Env, s: Cloud, sha256: Sha256Hex, bucketName: string, region: string, j: nat)
    requires j < |EnsurePlan(sha256, bucketName, region)|
    requires env.fault(EnsurePlan(sha256, bucketName, region)[j]).Some?
    requires forall i :: 0 <= i < j ==> env.fault(EnsurePlan(sha256, bucketName, region)[i]).None?
    ensures var plan := EnsurePlan(sha256, bucketName, region);
      var (after, reply) := RunCalls(env, s, plan);
      && reply == Failed(env.fault(plan[j]).value)
      && after.calls == s.calls + plan[..j + 1]
  {
    var plan := EnsurePlan(sha256, bucketName, region);
    var (t1, r1) := Step(env, s, plan[0]);
    if j == 0 {
      assert RunCalls(env, s, plan) == (t1, r1);
      assert plan[..1] == [plan[0]];
      return;
    }
    assert RunCalls(env, s, plan) == RunCalls(env, t1, plan[1..]);
    var (t2, r2) := Step(env, t1, plan[1]);
    if j == 1 {
      assert RunCalls(env, s, plan) == (t2, r2);
      assert plan[..2] == [plan[0], plan[1]];
      return;
    }
    assert RunCalls(env, s, plan) == RunCalls(env, t2, plan[2..]);
    var (t3, r3) := Step(env, t2, plan[2]);
    if j == 2 {
      assert RunCalls(env, s, plan) == (t3, r3);
      assert plan[..3] == [plan[0], plan[1], plan[2]];
      return;
    }
    assert bucketName in t3.groups;
    assert RunCalls(env, s, plan) == RunCalls(env, t3, plan[3..]);
    var (t4, r4) := Step(env, t3, plan[3]);
    if j == 3 {
      assert RunCalls(env, s, plan) == (t4, r4);
      assert plan[..4] == [plan[0], plan[1], plan[2], plan[3]];
      return;
    }
    assert RunCalls(env, s, plan) == RunCalls(env, t4, plan[4..]);
    assert plan[4..] == [plan[4]];
    assert plan[..5] == [plan[0], plan[1], plan[2], plan[3], plan[4]];
  }

  /**
   * Ensure is idempotent: running it again on the state a successful run left, with the same
   * environment, succeeds with the same account name and key and leaves groups and accounts as they were.
   */
  lemma EnsureIdempotent(env: Env, s: Cloud, sha256: Sha256Hex, bucketName: string, region: string)
    requires RunCalls(env, s, EnsurePlan(sha256, bucketName, region)).1.Key?
    ensures var plan := EnsurePlan(sha256, bucketName, region);
      var (once, first) := RunCalls(env, s, plan);
      var (twice, second) := RunCalls(env, once, plan);
      && second == first
      && twice.groups == once.groups
      && twice.accounts == once.accounts
      && twice.generated == once.generated
  {
    var plan := EnsurePlan(sha256, bucketName, region);
    var id := AccountId(bucketName, GetStorageAccountName(sha256, bucketName));
    EnsureOutcome(env, s, sha256, bucketName, region);
    var (once, first) := RunCalls(env, s, plan);
    assert env.fault(plan[0]).None? && env.fault(plan[1]).None? && env.fault(plan[2]).None?;
    assert env.fault(plan[3]).None? && env.fault(plan[4]).None?;
    var t1 := Step(env, once, plan[0]).0;
    assert RunCalls(env, once, plan) == RunCalls(env, t1, plan[1..]);
    var t2 := Step(env, t1, plan[1]).0;
    assert t2.groups == once.groups;
    assert RunCalls(env, once, plan) == RunCalls(env, t2, plan[2..]);
    var t3 := Step(env, t2, plan[2]).0;
    assert RunCalls(env, once, plan) == RunCalls(env, t3, plan[3..]);
    var t4 := Step(env, t3, plan[3]).0;
    assert t4.accounts == once.accounts && t4.generated == once.generated;
    assert RunCalls(env, once, plan) == RunCalls(env, t4, plan[4..]);
    assert plan[4..] == [plan[4]];
  }

  /**
   * Rotation addresses the account ensure provisioned: the same resource group and account name.
   * After a successful ensure, a rotation whose calls are not faulted succeeds, answers the key it
   * generated, and keeps the key the caller passed as current.
   */
  lemma RotateTargetsEnsuredAccount(env: Env, s: Cloud, sha256: Sha256Hex, bucketName: string, region: string)
    requires RunCalls(env, s, EnsurePlan(sha256, bucketName, region)).1.Key?
    ensures var (ensured, reply) := RunCalls(env, s, EnsurePlan(sha256, bucketName, region));
      var plan := RotatePlan(sha256, bucketName, reply.key);
      var (rotated, rotation) := RunCalls(env, ensured, plan);
      var id := AccountId(bucketName, GetStorageAccountName(sha256, bucketName));
      && EnsurePlan(sha256, bucketName, region)[3] == CreateStorageAccount(plan[1].rotateGroup, plan[1].rotateAccount, region)
      && (NoFault(env, plan) ==>
            && rotation == Key(env.keyGen(ensured.generated))
            && id in rotated.accounts
            && rotated.accounts[id].key1 == reply.key
            && rotated.accounts[id].key2 == rotation.key)
  {
    EnsureOutcome(env, s, sha256, bucketName, region);
    var plan := RotatePlan(sha256, bucketName, RunCalls(env, s, EnsurePlan(sha256, bucketName, region)).1.key);
    if NoFault(env, plan) {
      assert env.fault(plan[0]).None? && env.fault(plan[1]).None?;
    }
  }
}
