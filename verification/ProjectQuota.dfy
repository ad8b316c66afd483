/** Crash-safe project-quota allocation: a durable manifest, a directory tree and the kernel's quota
    table, changed one write at a time. */
module ProjectQuota {

  import opened Outcomes
  import opened Resources

  const QUOTA_BLOCK_BYTES: nat := 1024
  const MIN_PROJECT_ID: nat := 1_000_000_000
  const MAX_PROJECT_ID: nat := 2_000_000_000
  const PROJECT_ATTEMPTS: nat := 64

  /** The result of an operation that the process may not live to finish. */
  datatype Outcome<+T> = Done(value: T) | Failed(code: string) | Crashed {

    predicate IsFailure() { !Done? }

    function PropagateFailure<U>(): Outcome<U>
      requires !Done?
    {
      if Crashed? then Crashed else Failed(code)
    }

    function Extract(): T
      requires Done?
    {
      value
    }
  }

  // ---------------------------------------------------------------- request and policy

  /** The part of a run's request that is bound to this backend. */
  datatype Request = Request(run: string, resources: map<string, nat>, bindings: map<string, Binding>)

  ghost predicate RequestValid(request: Request) {
    && request.resources.Keys == request.bindings.Keys
    && (forall name :: name in request.resources ==> request.resources[name] > 0)
  }

  datatype Policy = Policy(storageName: string, inodeName: string, hardBytes: nat, hardInodes: nat)

  /** One storage binding and one inode binding of the same mode, with whole blocks, and nothing else. */
  ghost predicate Grants(request: Request, policy: Policy) {
    && request.bindings.Keys == {policy.storageName, policy.inodeName} == request.resources.Keys
    && (forall name :: name in request.bindings ==> request.bindings[name].backend == Some(QUOTA_BACKEND))
    && request.bindings[policy.storageName].kind == Storage && request.bindings[policy.storageName].unit == Bytes
    && request.bindings[policy.inodeName].kind == Inodes && request.bindings[policy.inodeName].unit == InodeCount
    && request.bindings[policy.storageName].mode == request.bindings[policy.inodeName].mode
    && policy.hardBytes == request.resources[policy.storageName]
       && policy.hardInodes == request.resources[policy.inodeName]
    && policy.hardBytes >= QUOTA_BLOCK_BYTES && policy.hardBytes % QUOTA_BLOCK_BYTES == 0
  }

  lemma PolicyIsUnique(request: Request, a: Policy, b: Policy)
    requires Grants(request, a) && Grants(request, b)
    ensures a == b
  {
    assert b.storageName in request.bindings && b.inodeName in request.bindings;
  }

  predicate StorageBinding(binding: Binding) {
    binding.backend == Some(QUOTA_BACKEND) && binding.kind == Storage && binding.unit == Bytes
  }

  predicate InodeBinding(binding: Binding) {
    binding.backend == Some(QUOTA_BACKEND) && binding.kind == Inodes && binding.unit == InodeCount
  }

  ghost function StorageNames(request: Request): set<string> {
    set name | name in request.bindings && StorageBinding(request.bindings[name])
  }

  ghost function InodeNames(request: Request): set<string> {
    set name | name in request.bindings && InodeBinding(request.bindings[name])
  }

  lemma GrantsNames(request: Request, policy: Policy)
    requires Grants(request, policy)
    ensures StorageNames(request) == {policy.storageName} && InodeNames(request) == {policy.inodeName}
    ensures StorageNames(request) + InodeNames(request) == request.bindings.Keys
  {
  }

  /** Another backend's binding makes a request invalid, and another kind or unit makes it unsupported. */
  ghost predicate Refuses(binding: Binding, code: string) {
    if binding.backend != Some(QUOTA_BACKEND) then code == "quota-request-invalid"
    else !StorageBinding(binding) && !InodeBinding(binding) && code == "quota-request-unsupported"
  }

  /** The names bound to storage and to inodes, when every binding is one or the other. */
  method SortBindings(request: Request) returns (code: Option<string>, storage: set<string>, inodes: set<string>)
    ensures code.None? <==> StorageNames(request) + InodeNames(request) == request.bindings.Keys
    ensures code.None? ==> storage == StorageNames(request) && inodes == InodeNames(request)
    ensures code.Some? ==>
              exists name :: name in request.bindings && Refuses(request.bindings[name], code.value)
  {
    storage, inodes := {}, {};
    var remaining := request.bindings.Keys;
    while remaining != {}
      invariant remaining <= request.bindings.Keys
      invariant storage == StorageNames(request) - remaining && inodes == InodeNames(request) - remaining
      invariant storage + inodes == request.bindings.Keys - remaining
      decreases remaining
    {
      var name :| name in remaining;
      var binding := request.bindings[name];
      if binding.backend != Some(QUOTA_BACKEND) {
        return Some("quota-request-invalid"), {}, {};
      }
      if StorageBinding(binding) {
        storage := storage + {name};
      } else if InodeBinding(binding) {
        inodes := inodes + {name};
      } else {
        return Some("quota-request-unsupported"), {}, {};
      }
      remaining := remaining - {name};
    }
    assert storage == StorageNames(request) && inodes == InodeNames(request);
    return None, storage, inodes;
  }

  /** The names decide everything about a granted policy. */
  lemma GrantedNames(request: Request)
    ensures forall granted :: Grants(request, granted) ==>
              && StorageNames(request) == {granted.storageName} && InodeNames(request) == {granted.inodeName}
              && StorageNames(request) + InodeNames(request) == request.bindings.Keys
  {
    forall granted | Grants(request, granted)
      ensures StorageNames(request) == {granted.storageName} && InodeNames(request) == {granted.inodeName}
      ensures StorageNames(request) + InodeNames(request) == request.bindings.Keys
    {
      GrantsNames(request, granted);
    }
  }

  /** `policy`. */
  method SelectPolicy(request: Request) returns (policy: Result<Policy>)
    requires RequestValid(request)
    ensures policy.Ok? ==> Grants(request, policy.value)
    ensures policy.Err? ==> forall granted :: !Grants(request, granted)
  {
    GrantedNames(request);
    var code, storage, inodes := SortBindings(request);
    if code.Some? {
      return Err(code.value);
    }
    if |storage| != 1 || |inodes| != 1 {
      return Err("quota-policy-incomplete");
    }
    var storageName := OnlyName(storage);
    var inodeName := OnlyName(inodes);
    policy := PolicyFor(request, storageName, inodeName);
  }

  /** The checks on the two bindings a policy rests on. */
  method PolicyFor(request: Request, storageName: string, inodeName: string) returns (policy: Result<Policy>)
    requires RequestValid(request)
    requires StorageNames(request) == {storageName} && InodeNames(request) == {inodeName}
    requires request.bindings.Keys == {storageName, inodeName}
    ensures policy.Ok? ==> Grants(request, policy.value)
    ensures policy.Err? ==> forall granted :: !Grants(request, granted)
  {
    GrantedNames(request);
    assert storageName in StorageNames(request) && inodeName in InodeNames(request);
    if request.bindings[storageName].mode != request.bindings[inodeName].mode {
      return Err("quota-mode-mismatch");
    }
    var hardBytes := request.resources[storageName];
    if hardBytes < QUOTA_BLOCK_BYTES || hardBytes % QUOTA_BLOCK_BYTES != 0 {
      return Err("quota-byte-alignment-invalid");
    }
    return Ok(Policy(storageName, inodeName, hardBytes, request.resources[inodeName]));
  }

  method OnlyName(names: set<string>) returns (name: string)
    requires |names| == 1
    ensures names == {name}
  {
    name :| name in names;
    assert |names - {name}| == 0;
    assert names == names - {name} + {name};
  }

  // ---------------------------------------------------------------- durable state

  datatype Attributes = Attributes(project: nat, inherit: bool)

  /** Limits and usage of one project, as the kernel reports them together. */
  datatype Usage = Usage(hardBytes: nat, hardInodes: nat, usedBytes: nat, usedInodes: nat)

  const NO_QUOTA := Usage(0, 0, 0, 0)

  datatype Path = Path(run: string, token: string)

  /** A directory under `runs`. `genuine` says it is a real directory owned by the broker at its own
      canonical path; `bytes` and `inodes` count the directory and everything in it. */
  datatype Tree = Tree(device: nat, inode: nat, genuine: bool, closed: bool, attributes: Attributes, bytes: nat,
                       inodes: nat)

  datatype Phase = Allocating | Allocated | Ready | Cleaning

  /** The identity fields a manifest records together once its directory exists. */
  datatype Identity = Identity(device: nat, inode: nat, original: Attributes)

  datatype Manifest = Manifest(resources: map<string, nat>, bindings: map<string, Binding>, phase: Phase, token: string,
                               project: nat, path: Path, identity: Option<Identity>, mount: string,
                               hardBytes: nat, hardInodes: nat)

  datatype Handle = Handle(token: string, project: nat, path: Path, device: nat, inode: nat, mount: string,
                           hardBytes: nat, hardInodes: nat)

  /** `directoryBytes` is what an empty directory occupies on this file system, and `inherited` what a
      new directory takes over from the one that holds all run directories. */
  datatype Disk = Disk(mount: string, directoryBytes: nat, inherited: Attributes, manifests: map<string, Manifest>,
                       trees: map<Path, Tree>, quotas: map<nat, Usage>)

  function Quota(disk: Disk, project: nat): Usage {
    if project in disk.quotas then disk.quotas[project] else NO_QUOTA
  }

  function HandleOf(manifest: Manifest): Handle
    requires manifest.identity.Some?
  {
    Handle(manifest.token, manifest.project, manifest.path, manifest.identity.value.device,
           manifest.identity.value.inode,
           manifest.mount, manifest.hardBytes, manifest.hardInodes)
  }

  function Selected(manifest: Manifest): Attributes {
    Attributes(manifest.project, true)
  }

  predicate InRange(project: nat) {
    MIN_PROJECT_ID <= project < MAX_PROJECT_ID
  }

  /** What `validate_manifest` accepts for this request. */
  predicate ManifestValid(request: Request, policy: Policy, manifest: Manifest, mount: string) {
    && manifest.resources == request.resources && manifest.bindings == request.bindings
    && InRange(manifest.project) && manifest.mount == mount
    && manifest.hardBytes == policy.hardBytes && manifest.hardInodes == policy.hardInodes
    && manifest.path.token == manifest.token
  }

  predicate HandleValid(handle: Handle) {
    && InRange(handle.project) && handle.path.token == handle.token
    && handle.device > 0 && handle.inode > 0 && handle.hardBytes > 0 && handle.hardInodes > 0
  }

  /** The recorded directory is still the one on disk. */
  predicate SameTree(manifest: Manifest, tree: Tree) {
    manifest.identity.Some? && tree.genuine && tree.device == manifest.identity.value.device
        && tree.inode == manifest.identity.value.inode
  }

  /** No two manifests name the same project. */
  ghost predicate ProjectsDistinct(disk: Disk) {
    forall a, b :: a in disk.manifests && b in disk.manifests && a != b ==>
        disk.manifests[a].project != disk.manifests[b].project
  }

  /** Nothing that belongs to another run or another path differs, and no other project's limits do. */
  ghost predicate OthersKept(before: Disk, after: Disk, run: string, path: Path, project: nat) {
    && after.mount == before.mount && after.directoryBytes == before.directoryBytes
       && after.inherited == before.inherited
    && after.manifests - {run} == before.manifests - {run}
    && after.trees - {path} == before.trees - {path}
    && forall other :: other != project ==> SameLimits(Quota(before, other), Quota(after, other))
  }

  ghost predicate LimitsKeptExcept(before: Disk, after: Disk, own: nat) {
    forall other :: other != own ==> SameLimits(Quota(before, other), Quota(after, other))
  }

  /** The project a run's manifest names, or one it may take when it has no manifest. */
  ghost predicate OwnProject(disk: Disk, run: string, project: nat) {
    if run in disk.manifests then disk.manifests[run].project == project else Available(disk, project)
  }

  predicate SameLimits(a: Usage, b: Usage) {
    a.hardBytes == b.hardBytes && a.hardInodes == b.hardInodes
  }

  /** Something is charged to the project. */
  ghost predicate Charged(disk: Disk, project: nat) {
    Quota(disk, project).usedBytes != 0 || Quota(disk, project).usedInodes != 0
  }

  predicate HasLimits(usage: Usage) {
    usage.hardBytes != 0 || usage.hardInodes != 0
  }

  /** Limits that are set stay as they are. */
  ghost predicate KeepsLimits(before: Disk, after: Disk) {
    forall project :: HasLimits(Quota(before, project)) ==> SameLimits(Quota(before, project), Quota(after, project))
  }

  /** Limits that a write took away, and the usage at that moment. */
  datatype Cleared = Cleared(project: nat, usage: Usage)

  ghost function Vanished(before: Disk, after: Disk): set<Cleared> {
    set project | project in before.quotas && HasLimits(Quota(before, project)) && !HasLimits(Quota(after, project)) ::
      Cleared(project, Quota(before, project))
  }

  lemma NothingVanishes(before: Disk, after: Disk)
    requires KeepsLimits(before, after)
    ensures Vanished(before, after) == {}
  {
  }

  lemma OneVanishes(disk: Disk, project: nat)
    requires HasLimits(Quota(disk, project))
    ensures Vanished(disk, WithQuota(disk, project, NO_QUOTA)) == {Cleared(project, Quota(disk, project))}
    ensures multiset(Vanished(disk, WithQuota(disk, project, NO_QUOTA)))
              == multiset{Cleared(project, Quota(disk, project))}
  {
  }

  /** At most one write took limits away: the recorded ones, of this project, while nothing was charged to it. */
  ghost predicate ClearedUnused(before: multiset<Cleared>, after: multiset<Cleared>, project: nat, hardBytes: nat,
                                hardInodes: nat) {
    after == before || after == before + multiset{Cleared(project, Usage(hardBytes, hardInodes, 0, 0))}
  }

  /** Limits that are gone were the recorded ones, and a write on record took them away. */
  ghost predicate OnlyRecordedGone(before: Disk, after: Disk, log: multiset<Cleared>, cleared: multiset<Cleared>,
                                   project: nat,
                                   hardBytes: nat, hardInodes: nat)
  {
    HasLimits(Quota(before, project)) && !HasLimits(Quota(after, project)) ==>
      SameLimits(Quota(before, project), Usage(hardBytes, hardInodes, 0, 0)) && cleared != log
  }

  /** The directory at this path was changed or removed. */
  ghost predicate Touched(before: Disk, after: Disk, path: Path) {
    path in before.trees && !(path in after.trees && after.trees[path] == before.trees[path])
  }

  /** The directory is a real one, closed, and the one with these numbers. */
  ghost predicate IsTree(disk: Disk, path: Path, device: nat, inode: nat) {
    && path in disk.trees
    && var tree := disk.trees[path];
       tree.genuine && tree.closed && tree.device == device && tree.inode == inode
  }

  /** The checks on what is read from disk and from the caller, field by field. */
  lemma ChecksMean(request: Request, policy: Policy, manifest: Manifest, mount: string, handle: Handle, tree: Tree)
    ensures ManifestValid(request, policy, manifest, mount) <==>
              && manifest.resources == request.resources && manifest.bindings == request.bindings
              && 1_000_000_000 <= manifest.project < 2_000_000_000 && manifest.path.token == manifest.token
              && manifest.mount == mount
              && manifest.hardBytes == policy.hardBytes && manifest.hardInodes == policy.hardInodes
    ensures HandleValid(handle) <==>
              && 1_000_000_000 <= handle.project < 2_000_000_000 && handle.path.token == handle.token
              && handle.device != 0 && handle.inode != 0 && handle.hardBytes != 0 && handle.hardInodes != 0
    ensures manifest.identity.Some? ==>
              (SameTree(manifest, tree) <==>
                 tree.genuine && tree.device == HandleOf(manifest).device && tree.inode == HandleOf(manifest).inode)
    ensures manifest.identity.Some? ==>
              (handle == HandleOf(manifest) <==>
                 && handle.token == manifest.token && handle.project == manifest.project && handle.path == manifest.path
                 && handle.device == manifest.identity.value.device && handle.inode == manifest.identity.value.inode
                 && handle.mount == manifest.mount && handle.hardBytes == manifest.hardBytes
                 && handle.hardInodes == manifest.hardInodes)
  {
  }

  // ---------------------------------------------------------------- stages of an allocation

  ghost predicate Recorded(disk: Disk, request: Request, policy: Policy, manifest: Manifest) {
    && request.run in disk.manifests && disk.manifests[request.run] == manifest
    && ManifestValid(request, policy, manifest, disk.mount)
  }

  ghost predicate EmptyDirectory(disk: Disk, tree: Tree) {
    tree.genuine && tree.bytes == disk.directoryBytes && tree.inodes == 1 && tree.device > 0 && tree.inode > 0
  }

  /** Allocated in the manifest only; the directory may have been made but is not yet recorded. */
  ghost predicate Unplaced(disk: Disk, manifest: Manifest) {
    && manifest.identity.None? && manifest.phase == Allocating && disk.inherited.project != manifest.project
    && Quota(disk, manifest.project) == NO_QUOTA
    && (manifest.path in disk.trees ==>
        EmptyDirectory(disk, disk.trees[manifest.path])
            && disk.trees[manifest.path].attributes.project != manifest.project)
  }

  ghost predicate Placed(disk: Disk, manifest: Manifest) {
    && manifest.path in disk.trees
    && EmptyDirectory(disk, disk.trees[manifest.path])
    && disk.trees[manifest.path].closed
    && SameTree(manifest, disk.trees[manifest.path])
    && manifest.identity.value.original.project != manifest.project
    && (manifest.phase == Allocated || manifest.phase == Ready)
  }

  /** Something else than an empty directory stands where the directory is to be made. */
  ghost predicate Collides(disk: Disk, manifest: Manifest) {
    && manifest.identity.None? && manifest.path in disk.trees
    && (!disk.trees[manifest.path].genuine || disk.trees[manifest.path].inodes != 1)
  }

  /** The directory is recorded; the limits may be set, the project is not yet on the directory. */
  ghost predicate Untagged(disk: Disk, manifest: Manifest) {
    && Placed(disk, manifest)
    && disk.trees[manifest.path].attributes == manifest.identity.value.original
    && (Quota(disk, manifest.project) == NO_QUOTA
        || Quota(disk, manifest.project) == Usage(manifest.hardBytes, manifest.hardInodes, 0, 0))
  }

  /** The limits are set and nothing is charged to the project yet. */
  ghost predicate Limited(disk: Disk, manifest: Manifest) {
    Untagged(disk, manifest) && Quota(disk, manifest.project) == Usage(manifest.hardBytes, manifest.hardInodes, 0, 0)
  }

  /** Limits and project attributes are in force, and the empty directory is charged to the project. */
  ghost predicate Tagged(disk: Disk, manifest: Manifest) {
    && Placed(disk, manifest)
    && disk.trees[manifest.path].attributes == Selected(manifest)
    && Quota(disk, manifest.project)
       == Usage(manifest.hardBytes, manifest.hardInodes, disk.trees[manifest.path].bytes,
                disk.trees[manifest.path].inodes)
  }

  /** A state that a crash between any two writes of `prepare` can leave once the manifest exists. */
  ghost predicate Resumable(disk: Disk, request: Request, policy: Policy) {
    && request.run in disk.manifests
    && var manifest := disk.manifests[request.run];
       && ManifestValid(request, policy, manifest, disk.mount)
       && Staged(disk, manifest)
  }

  /** The empty directory itself fits into the run's limits. */
  predicate DirectoryFits(disk: Disk, policy: Policy) {
    disk.directoryBytes <= policy.hardBytes && 1 <= policy.hardInodes
  }

  /** Every limit and attribute of the policy is in force on the run's own directory. */
  ghost predicate Enforced(disk: Disk, handle: Handle) {
    && handle.path in disk.trees
    && disk.trees[handle.path].attributes == Attributes(handle.project, true)
    && var quota := Quota(disk, handle.project);
       && quota.hardBytes == handle.hardBytes && quota.hardInodes == handle.hardInodes
       && quota.usedBytes <= quota.hardBytes && quota.usedInodes <= quota.hardInodes
  }

  /** The directory is gone and at most the limits remain: the way out of `rollback` and `cleanup`. */
  ghost predicate Retiring(disk: Disk, manifest: Manifest) {
    && manifest.identity.Some? && manifest.path !in disk.trees
    && (Quota(disk, manifest.project) == NO_QUOTA
        || Quota(disk, manifest.project) == Usage(manifest.hardBytes, manifest.hardInodes, 0, 0))
  }

  /** Nothing of the allocation is left. */
  ghost predicate Gone(disk: Disk, run: string, path: Path, project: nat) {
    run !in disk.manifests && path !in disk.trees && Quota(disk, project) == NO_QUOTA
  }

  /** Once a directory is recorded for the run, only the one with these numbers is changed or removed. */
  ghost predicate RecordedKept(before: Disk, after: Disk, run: string) {
    run in before.manifests && before.manifests[run].identity.Some? ==>
      var manifest := before.manifests[run];
      Touched(before, after, manifest.path) ==>
        && before.trees[manifest.path].device == manifest.identity.value.device
        && before.trees[manifest.path].inode == manifest.identity.value.inode
  }

  /** The manifest is stored, and something else stands where its directory is to be made, charged to another
      project. */
  ghost predicate Collided(disk: Disk, request: Request, policy: Policy) {
    && request.run in disk.manifests
    && var manifest := disk.manifests[request.run];
       && ManifestValid(request, policy, manifest, disk.mount) && Collides(disk, manifest)
       && Quota(disk, manifest.project) == NO_QUOTA
       && disk.trees[manifest.path].attributes.project != manifest.project
  }

  /** Nothing is left of the run's allocation. */
  ghost predicate GoneFor(before: Disk, after: Disk, run: string) {
    run in before.manifests && Gone(after, run, before.manifests[run].path, before.manifests[run].project)
  }

  /** One of the stages of `prepare`. */
  ghost predicate Staged(disk: Disk, manifest: Manifest) {
    Unplaced(disk, manifest) || Untagged(disk, manifest) || Tagged(disk, manifest)
  }

  /** A state that `prepare`, `rollback`, or a crash in either can leave. */
  ghost predicate Interrupted(disk: Disk, manifest: Manifest) {
    Staged(disk, manifest) || Retiring(disk, manifest)
  }

  /** What identifies one allocation for its whole life. */
  ghost predicate SameAllocation(a: Manifest, b: Manifest) {
    && a.project == b.project && a.token == b.token && a.path == b.path
    && a.hardBytes == b.hardBytes && a.hardInodes == b.hardInodes
  }

  // ---------------------------------------------------------------- durable writes

  function WithManifest(disk: Disk, run: string, manifest: Manifest): Disk {
    disk.(manifests := disk.manifests[run := manifest])
  }

  function WithTree(disk: Disk, path: Path, tree: Tree): Disk {
    disk.(trees := disk.trees[path := tree])
  }

  function WithQuota(disk: Disk, project: nat, quota: Usage): Disk {
    disk.(quotas := disk.quotas[project := quota])
  }

  function Minus(a: nat, b: nat): nat {
    if a < b then 0 else a - b
  }

  /** The kernel moves a directory's charge when its project changes or it is removed. */
  function Release(disk: Disk, project: nat, bytes: nat, inodes: nat): Disk {
    var quota := Quota(disk, project);
    WithQuota(disk, project, quota.(usedBytes := Minus(quota.usedBytes, bytes),
                                    usedInodes := Minus(quota.usedInodes, inodes)))
  }

  function Charge(disk: Disk, project: nat, bytes: nat, inodes: nat): Disk {
    var quota := Quota(disk, project);
    WithQuota(disk, project, quota.(usedBytes := quota.usedBytes + bytes, usedInodes := quota.usedInodes + inodes))
  }

  function WithAttributes(disk: Disk, path: Path, selected: Attributes): Disk
    requires path in disk.trees
  {
    var tree := disk.trees[path];
    Charge(Release(WithTree(disk, path, tree.(attributes := selected)), tree.attributes.project, tree.bytes,
                   tree.inodes),
           selected.project, tree.bytes, tree.inodes)
  }

  function WithoutTree(disk: Disk, path: Path): Disk
    requires path in disk.trees
  {
    var tree := disk.trees[path];
    Release(disk.(trees := disk.trees - {path}), tree.attributes.project, tree.bytes, tree.inodes)
  }

  /** An attempted write either takes effect or does not, never partly; a crash precedes it. */
  ghost predicate Attempted(result: Outcome<()>, before: Disk, after: Disk, target: Disk) {
    && (after == before || after == target)
    && (result.Done? ==> after == target)
    && (result.Crashed? ==> after == before)
  }

  type Positive = n: nat | n > 0 witness 1

  /** A directory just made by `create_dir`, charged to the project it inherits. */
  function WithNewDirectory(disk: Disk, path: Path, device: Positive, inode: Positive): Disk {
    Charge(WithTree(disk, path, Tree(device, inode, true, false, disk.inherited, disk.directoryBytes, 1)),
           disk.inherited.project, disk.directoryBytes, 1)
  }

  function Closed(disk: Disk, path: Path): Disk
    requires path in disk.trees
  {
    WithTree(disk, path, disk.trees[path].(closed := true))
  }

  /** The broker's view of one machine. The process dies when it has made `writes` further durable
      writes. On a healthy machine no call fails; on any other machine every call may. */
  class Backend {
    var disk: Disk
    var writes: nat
    var nextInode: Positive
    /** Every time that limits were taken away, with what was charged to their project then. */
    ghost var cleared: multiset<Cleared>
    const device: Positive
    const healthy: bool

    constructor (disk: Disk, writes: nat, device: Positive, nextInode: Positive, healthy: bool)
      ensures this.disk == disk && this.writes == writes && this.healthy == healthy
    {
      this.disk, this.writes, this.nextInode := disk, writes, nextInode;
      this.device, this.healthy := device, healthy;
    }

    /** One durable write. */
    method Commit(target: Disk) returns (result: Outcome<()>)
      modifies this
      ensures cleared == old(cleared) + multiset(Vanished(old(disk), disk))
      ensures Attempted(result, old(disk), disk, target)
      ensures healthy ==> !result.Failed?
      ensures result.Crashed? <==> old(writes) == 0
      ensures writes == Minus(old(writes), 1)
    {
      NothingVanishes(disk, disk);
      if writes == 0 {
        return Crashed;
      }
      writes := writes - 1;
      if !healthy {
        if * {
          return Failed("quota-operation-failed");
        } else if * {
          cleared, disk := cleared + multiset(Vanished(disk, target)), target;
          return Failed("quota-operation-failed");
        }
      }
      cleared, disk := cleared + multiset(Vanished(disk, target)), target;
      return Done(());
    }

    /** Every other write leaves limits that are set as they are. */
    method Write(target: Disk) returns (result: Outcome<()>)
      requires KeepsLimits(disk, target)
      modifies this
      ensures cleared == old(cleared) && KeepsLimits(old(disk), disk)
      ensures Attempted(result, old(disk), disk, target)
      ensures healthy ==> !result.Failed?
      ensures result.Crashed? <==> old(writes) == 0
      ensures writes == Minus(old(writes), 1)
    {
      NothingVanishes(disk, target);
      NothingVanishes(disk, disk);
      result := Commit(target);
    }

    /** Any read may fail on an unhealthy machine. */
    method Read<T>(value: T) returns (result: Outcome<T>)
      ensures result.Done? ==> result.value == value
      ensures !result.Crashed?
      ensures healthy ==> result.Done?
    {
      if !healthy {
        if * {
          return Failed("quota-operation-failed");
        }
      }
      return Done(value);
    }

    /** Make the recorded directory, or adopt the empty one an earlier attempt made, and close it. */
    method MakeTree(ghost run: string, manifest: Manifest) returns (made: Outcome<()>)
      requires manifest.identity.None?
      modifies this
      ensures cleared == old(cleared) && KeepsLimits(old(disk), disk)
      ensures disk.manifests == old(disk).manifests
      ensures OthersKept(old(disk), disk, run, manifest.path, manifest.project)
      ensures made.Done? ==> manifest.path in disk.trees
      ensures healthy && old(Unplaced(disk, manifest)) ==>
                !made.Failed? && Unplaced(disk, manifest) && (made.Done? ==> disk.trees[manifest.path].closed)
      // A directory that is not an empty one of its own is left alone.
      ensures old(Collides(disk, manifest)) ==> made.Failed? && disk == old(disk) && writes == old(writes)
      ensures old(writes) >= 2 ==> !made.Crashed?
      ensures writes >= Minus(old(writes), 2)
    {
      var path := manifest.path;
      if path !in disk.trees {
        NewDirectory(disk, run, manifest, device, nextInode);
        var _ :- Write(WithNewDirectory(disk, path, device, nextInode));
        nextInode := nextInode + 1;
      } else if !disk.trees[path].genuine || disk.trees[path].inodes != 1 {
        return Failed("quota-tree-collision");
      }
      ClosedDirectory(disk, run, manifest);
      made := Write(Closed(disk, path));
    }

    /** The first part of `complete_manifest`: make the directory and record its identity. */
    method Place(ghost request: Request, ghost policy: Policy, run: string, recorded: Manifest)
      returns (placed: Outcome<Manifest>)
      requires run == request.run && Recorded(disk, request, policy, recorded)
      modifies this
      ensures cleared == old(cleared) && KeepsLimits(old(disk), disk)
      ensures OthersKept(old(disk), disk, run, recorded.path, recorded.project)
      ensures run in disk.manifests && SameAllocation(recorded, disk.manifests[run])
      ensures placed.Done? ==> Recorded(disk, request, policy, placed.value) && placed.value.identity.Some?
      ensures healthy && old(Unplaced(disk, recorded)) ==>
                && !placed.Failed?
                && (placed.Crashed? ==> Recorded(disk, request, policy, recorded) && Unplaced(disk, recorded))
                && (placed.Done? ==> Untagged(disk, placed.value))
      ensures recorded.identity.Some? ==> placed == Done(recorded) && disk == old(disk)
      ensures old(Collides(disk, recorded)) ==> placed.Failed? && disk == old(disk) && writes == old(writes)
      ensures old(writes) >= 3 ==> !placed.Crashed?
      ensures writes >= Minus(old(writes), 3)
    {
      if recorded.identity.Some? {
        return Done(recorded);
      }
      var path := recorded.path;
      var _ :- MakeTree(run, recorded);
      var tree := disk.trees[path];
      var original :- Read(tree.attributes);
      var manifest := recorded.(phase := Allocated, identity := Some(Identity(tree.device, tree.inode, original)));
      var _ :- Write(WithManifest(disk, run, manifest));
      return Done(manifest);
    }

    /** `validate_tree`. */
    method ValidateTree(manifest: Manifest) returns (valid: Outcome<()>)
      ensures valid.Done? ==>
                manifest.path in disk.trees && SameTree(manifest, disk.trees[manifest.path])
                && disk.trees[manifest.path].closed
      ensures !valid.Crashed?
      ensures healthy && manifest.path in disk.trees && SameTree(manifest, disk.trees[manifest.path])
                && disk.trees[manifest.path].closed
              ==> valid.Done?
    {
      var _ :- Read(());
      if manifest.path !in disk.trees {
        return Failed("quota-tree-missing");
      }
      if !SameTree(manifest, disk.trees[manifest.path]) {
        return Failed("quota-tree-reused");
      }
      if !disk.trees[manifest.path].closed {
        return Failed("quota-tree-permissions-changed");
      }
      return Done(());
    }

    /** The second part of `complete_manifest`: set the limits of a project that has none. */
    method SetLimits(ghost run: string, manifest: Manifest) returns (set_: Outcome<()>)
      modifies this
      ensures cleared == old(cleared) && KeepsLimits(old(disk), disk)
      ensures disk.manifests == old(disk).manifests && disk.trees == old(disk).trees
      ensures OthersKept(old(disk), disk, run, manifest.path, manifest.project)
      ensures healthy && old(Untagged(disk, manifest)) ==>
                && !set_.Failed? && Untagged(disk, manifest)
                && (set_.Done? ==> Limited(disk, manifest))
      ensures healthy && old(Tagged(disk, manifest)) ==> disk == old(disk) && !set_.Crashed?
      ensures healthy && old(Tagged(disk, manifest)) ==>
                (set_.Done? <==>
                   && manifest.hardBytes >= disk.trees[manifest.path].bytes
                   && manifest.hardInodes >= disk.trees[manifest.path].inodes)
      // The limits are those of the manifest; others that are set already are not touched.
      ensures set_.Done? ==>
                SameLimits(Quota(disk, manifest.project), Usage(manifest.hardBytes, manifest.hardInodes, 0, 0))
      ensures old(Quota(disk, manifest.project)) != NO_QUOTA ==> disk == old(disk)
      ensures set_.Done? && old(Quota(disk, manifest.project)) != NO_QUOTA ==>
                Quota(disk, manifest.project).usedBytes <= manifest.hardBytes
                && Quota(disk, manifest.project).usedInodes <= manifest.hardInodes
      ensures old(writes) >= 1 ==> !set_.Crashed?
      ensures writes >= Minus(old(writes), 1)
    {
      var quota :- Read(Quota(disk, manifest.project));
      if quota == NO_QUOTA {
        set_ := Write(WithQuota(disk, manifest.project,
                                Usage(manifest.hardBytes, manifest.hardInodes, quota.usedBytes, quota.usedInodes)));
      } else if quota.hardBytes != manifest.hardBytes || quota.hardInodes != manifest.hardInodes
                || quota.usedBytes > quota.hardBytes || quota.usedInodes > quota.hardInodes {
        set_ := Failed("quota-project-collision");
      } else {
        set_ := Done(());
      }
    }

    /** The third part: put the project on the directory. */
    method SetProject(ghost run: string, manifest: Manifest) returns (tagged: Outcome<()>)
      requires manifest.identity.Some? && manifest.path in disk.trees
      modifies this
      ensures cleared == old(cleared) && KeepsLimits(old(disk), disk)
      ensures disk.manifests == old(disk).manifests && manifest.path in disk.trees
      ensures OthersKept(old(disk), disk, run, manifest.path, manifest.project)
      ensures healthy && old(Limited(disk, manifest)) ==>
                && !tagged.Failed?
                && (tagged.Crashed? ==> Untagged(disk, manifest))
                && (tagged.Done? ==> Tagged(disk, manifest))
      ensures healthy && old(Tagged(disk, manifest)) ==> disk == old(disk) && tagged.Done?
      // Only a directory with the recorded attributes gets the project's.
      ensures tagged.Done? ==> disk.trees[manifest.path].attributes == Attributes(manifest.project, true)
      ensures old(disk.trees[manifest.path].attributes) != manifest.identity.value.original ==> disk == old(disk)
      ensures old(writes) >= 1 ==> !tagged.Crashed?
      ensures writes >= Minus(old(writes), 1)
    {
      var attributes :- Read(disk.trees[manifest.path].attributes);
      if attributes == manifest.identity.value.original {
        TaggedDirectory(disk, run, manifest);
        tagged := Write(WithAttributes(disk, manifest.path, Selected(manifest)));
      } else if attributes != Selected(manifest) {
        tagged := Failed("quota-tree-attributes-changed");
      } else {
        tagged := Done(());
      }
    }

    /** The middle of `complete_manifest`: the recorded directory gets its limits, its project, and a sync. */
    method Enforce(ghost run: string, manifest: Manifest) returns (enforced: Outcome<()>)
      requires manifest.identity.Some?
      modifies this
      ensures cleared == old(cleared) && KeepsLimits(old(disk), disk)
      ensures disk.manifests == old(disk).manifests
      ensures OthersKept(old(disk), disk, run, manifest.path, manifest.project)
      ensures enforced.Done? ==> manifest.path in disk.trees
      ensures old(manifest.path !in disk.trees) ==> enforced.Failed? && disk == old(disk)
      // Anything is changed only for the recorded directory.
      ensures disk != old(disk) || enforced.Done? ==>
                IsTree(old(disk), manifest.path, manifest.identity.value.device, manifest.identity.value.inode)
      ensures healthy && old(Untagged(disk, manifest)) ==>
                && !enforced.Failed?
                && (enforced.Crashed? ==> Untagged(disk, manifest))
                && (enforced.Done? ==> Tagged(disk, manifest))
      ensures healthy && old(Tagged(disk, manifest)) ==>
                && disk == old(disk) && !enforced.Crashed?
                && (enforced.Failed? ==>
                    !(manifest.hardBytes >= disk.trees[manifest.path].bytes
                      && manifest.hardInodes >= disk.trees[manifest.path].inodes))
      ensures old(writes) >= 2 ==> !enforced.Crashed?
      ensures writes >= Minus(old(writes), 2)
    {
      var _ :- ValidateTree(manifest);
      var _ :- SetLimits(run, manifest);
      var _ :- SetProject(run, manifest);
      enforced := Read(());
    }

    /** The last part: check that everything is in force, then mark the manifest ready. */
    method Confirm(ghost request: Request, ghost policy: Policy, run: string, manifest: Manifest)
      returns (ready: Outcome<Handle>)
      requires run == request.run && Recorded(disk, request, policy, manifest)
      requires manifest.identity.Some? && manifest.path in disk.trees
      modifies this
      ensures cleared == old(cleared) && KeepsLimits(old(disk), disk)
      ensures OthersKept(old(disk), disk, run, manifest.path, manifest.project)
      ensures disk.trees == old(disk).trees && disk.quotas == old(disk).quotas
      ensures run in disk.manifests && (disk.manifests[run] == manifest
                                        || disk.manifests[run] == manifest.(phase := Ready))
      ensures ready.Done? ==>
                ready.value == HandleOf(manifest) && Enforced(disk, ready.value)
                && disk.manifests[run] == manifest.(phase := Ready)
      ensures healthy && old(Tagged(disk, manifest)) ==> Tagged(disk, disk.manifests[run])
      ensures healthy && old(Tagged(disk, manifest)) ==>
                (ready.Failed? <==>
                 !(manifest.hardBytes >= disk.trees[manifest.path].bytes
                   && manifest.hardInodes >= disk.trees[manifest.path].inodes))
      ensures old(writes) >= 1 ==> !ready.Crashed?
      ensures writes >= Minus(old(writes), 1)
    {
      var quota :- Read(Quota(disk, manifest.project));
      var attributes :- Read(disk.trees[manifest.path].attributes);
      if quota.hardBytes != manifest.hardBytes || quota.hardInodes != manifest.hardInodes
         || quota.usedBytes > quota.hardBytes || quota.usedInodes > quota.hardInodes
         || attributes != Selected(manifest) {
        return Failed("quota-enforcement-unverified");
      }
      var _ :- Write(WithManifest(disk, run, manifest.(phase := Ready)));
      return Done(HandleOf(manifest));
    }

    /** `complete_manifest`: carry a recorded allocation to ready, from whatever stage it is in. */
    method CompleteManifest(ghost request: Request, ghost policy: Policy, run: string, recorded: Manifest)
      returns (ready: Outcome<Handle>)
      requires run == request.run && Recorded(disk, request, policy, recorded)
      modifies this
      ensures cleared == old(cleared) && KeepsLimits(old(disk), disk)
      ensures OthersKept(old(disk), disk, run, recorded.path, recorded.project)
      ensures run in disk.manifests && SameAllocation(recorded, disk.manifests[run])
      ensures ready.Done? ==>
                && Recorded(disk, request, policy, disk.manifests[run])
                && disk.manifests[run].identity.Some? && disk.manifests[run].phase == Ready
                && ready.value == HandleOf(disk.manifests[run]) && Enforced(disk, ready.value)
      ensures healthy && old(Staged(disk, recorded)) ==>
                Recorded(disk, request, policy, disk.manifests[run]) && Staged(disk, disk.manifests[run])
      ensures healthy && old(Staged(disk, recorded)) ==>
                (ready.Done? ==> DirectoryFits(disk, policy)) && (ready.Failed? ==> !DirectoryFits(disk, policy))
      ensures old(Retiring(disk, recorded)) ==> ready.Failed? && disk == old(disk)
      // A recorded directory that was replaced is left alone, and so is one that is not empty and not recorded.
      ensures recorded.identity.Some? && (disk != old(disk) || ready.Done?) ==>
                IsTree(old(disk), recorded.path, recorded.identity.value.device, recorded.identity.value.inode)
      ensures old(Collides(disk, recorded)) ==> ready.Failed? && disk == old(disk) && writes == old(writes)
      ensures old(writes) >= 6 ==> !ready.Crashed?
      ensures writes >= Minus(old(writes), 6)
    {
      var manifest :- Place(request, policy, run, recorded);
      ready := EnforceAndConfirm(request, policy, run, manifest);
    }

    /** The rest of `complete_manifest`, once the directory is recorded. */
    method EnforceAndConfirm(ghost request: Request, ghost policy: Policy, run: string, manifest: Manifest)
      returns (ready: Outcome<Handle>)
      requires run == request.run && Recorded(disk, request, policy, manifest) && manifest.identity.Some?
      modifies this
      ensures cleared == old(cleared) && KeepsLimits(old(disk), disk)
      ensures OthersKept(old(disk), disk, run, manifest.path, manifest.project)
      ensures run in disk.manifests && SameAllocation(manifest, disk.manifests[run])
      ensures ready.Done? ==>
                && Recorded(disk, request, policy, disk.manifests[run])
                && disk.manifests[run].identity.Some? && disk.manifests[run].phase == Ready
                && ready.value == HandleOf(disk.manifests[run]) && Enforced(disk, ready.value)
      ensures healthy && old(Untagged(disk, manifest) || Tagged(disk, manifest)) ==>
                && Recorded(disk, request, policy, disk.manifests[run]) && Staged(disk, disk.manifests[run])
                && (ready.Done? ==> DirectoryFits(disk, policy)) && (ready.Failed? ==> !DirectoryFits(disk, policy))
      ensures old(manifest.path !in disk.trees) ==> ready.Failed? && disk == old(disk)
      ensures disk != old(disk) || ready.Done? ==>
                IsTree(old(disk), manifest.path, manifest.identity.value.device, manifest.identity.value.inode)
      ensures old(writes) >= 3 ==> !ready.Crashed?
      ensures writes >= Minus(old(writes), 3)
    {
      var _ :- Enforce(run, manifest);
      ready := Confirm(request, policy, run, manifest);
    }

    /** `allocate_project`: a random id that no manifest names and the kernel has no quota for. */
    method AllocateProject(randoms: seq<nat>) returns (chosen: Outcome<nat>)
      requires |randoms| == PROJECT_ATTEMPTS
      ensures !chosen.Crashed?
      ensures chosen.Done? ==> Available(disk, chosen.value)
      ensures healthy && chosen.Failed? ==> forall i :: 0 <= i < |randoms| ==> !Available(disk, ProjectOf(randoms[i]))
    {
      var occupied: set<nat> := {};
      var remaining := disk.manifests.Keys;
      while remaining != {}
        invariant remaining <= disk.manifests.Keys
        invariant occupied == set run | run in disk.manifests.Keys - remaining :: disk.manifests[run].project
        decreases remaining
      {
        var run :| run in remaining;
        var manifest :- Read(disk.manifests[run]);
        remaining := remaining - {run};
        occupied := occupied + {manifest.project};
      }
      for attempt := 0 to PROJECT_ATTEMPTS
        invariant forall i :: 0 <= i < attempt ==> !Available(disk, ProjectOf(randoms[i]))
      {
        var candidate := ProjectOf(randoms[attempt]);
        if candidate !in occupied {
          var quota :- Read(Quota(disk, candidate));
          if quota == NO_QUOTA {
            return Done(candidate);
          }
        }
      }
      return Failed("quota-project-id-exhausted");
    }

    /** Take away the limits of a project that still has exactly the recorded ones and uses nothing. */
    method ClearQuota(project: nat, hardBytes: nat, hardInodes: nat) returns (result: Outcome<()>)
      requires Quota(disk, project) == Usage(hardBytes, hardInodes, 0, 0)
      modifies this
      ensures Attempted(result, old(disk), disk, WithQuota(old(disk), project, NO_QUOTA))
      ensures ClearedUnused(old(cleared), cleared, project, hardBytes, hardInodes)
      ensures OnlyRecordedGone(old(disk), disk, old(cleared), cleared, project, hardBytes, hardInodes)
      ensures healthy ==> !result.Failed?
      ensures result.Crashed? <==> old(writes) == 0
      ensures writes == Minus(old(writes), 1)
    {
      NothingVanishes(disk, disk);
      if hardBytes == 0 && hardInodes == 0 {
        NothingVanishes(disk, WithQuota(disk, project, NO_QUOTA));
      } else {
        OneVanishes(disk, project);
      }
      result := Commit(WithQuota(disk, project, NO_QUOTA));
    }

    /** `remove_dir_all`: the contents first, then the directory. */
    method RemoveTree(ghost run: string, path: Path, ghost project: nat) returns (removed: Outcome<()>)
      requires path in disk.trees
      modifies this
      ensures cleared == old(cleared) && KeepsLimits(old(disk), disk)
      ensures disk.manifests == old(disk).manifests
      ensures OthersKept(old(disk), disk, run, path, project)
      ensures removed.Done? ==> path !in disk.trees
      ensures path in disk.trees ==> disk == old(disk) || disk == Emptied(old(disk), path)
      ensures path !in disk.trees ==> disk == WithoutTree(Emptied(old(disk), path), path)
      ensures healthy ==> !removed.Failed?
      ensures old(writes) >= 2 ==> !removed.Crashed?
      ensures writes >= Minus(old(writes), 2)
    {
      var _ :- Write(Emptied(disk, path));
      removed := Write(WithoutTree(disk, path));
    }

    /** The end of `rollback` and `cleanup`: clear the limits of an unused project and forget the manifest. */
    method Retire(run: string, ghost path: Path, project: nat, hardBytes: nat, hardInodes: nat)
      returns (retired: Outcome<()>)
      requires path !in disk.trees
      modifies this
      ensures disk.trees == old(disk).trees
      ensures OthersKept(old(disk), disk, run, path, project)
      ensures ClearedUnused(old(cleared), cleared, project, hardBytes, hardInodes)
      ensures OnlyRecordedGone(old(disk), disk, old(cleared), cleared, project, hardBytes, hardInodes)
      ensures run in disk.manifests ==> run in old(disk).manifests && disk.manifests[run] == old(disk).manifests[run]
      ensures run !in disk.manifests && run in old(disk).manifests ==> Gone(disk, run, path, project)
      ensures retired.Done? ==> Gone(disk, run, path, project)
      ensures !old(Charged(disk, project)) ==> !Charged(disk, project)
      ensures healthy && old(Quota(disk, project)) in {NO_QUOTA, Usage(hardBytes, hardInodes, 0, 0)} ==>
                !retired.Failed? && Quota(disk, project) in {NO_QUOTA, Usage(hardBytes, hardInodes, 0, 0)}
      ensures old(Quota(disk, project)) == NO_QUOTA ==> Quota(disk, project) == NO_QUOTA
      ensures old(writes) >= 2 ==> !retired.Crashed?
    {
      var _ :- ReleaseLimits(project, hardBytes, hardInodes);
      if run in disk.manifests {
        retired := Write(disk.(manifests := disk.manifests - {run}));
      } else {
        retired := Done(());
      }
    }

    /** Clear the limits of an unused project, and check that they are gone. */
    method ReleaseLimits(project: nat, hardBytes: nat, hardInodes: nat) returns (released: Outcome<()>)
      modifies this
      ensures disk == old(disk) || disk == WithQuota(old(disk), project, NO_QUOTA)
      ensures ClearedUnused(old(cleared), cleared, project, hardBytes, hardInodes)
      ensures OnlyRecordedGone(old(disk), disk, old(cleared), cleared, project, hardBytes, hardInodes)
      ensures released.Done? ==> Quota(disk, project) == NO_QUOTA
      ensures healthy && old(Quota(disk, project)) in {NO_QUOTA, Usage(hardBytes, hardInodes, 0, 0)} ==>
                !released.Failed?
      ensures old(writes) >= 1 ==> !released.Crashed?
      ensures writes >= Minus(old(writes), 1)
    {
      var quota :- Read(Quota(disk, project));
      if quota.usedBytes != 0 || quota.usedInodes != 0 {
        return Failed("quota-usage-still-live");
      }
      if quota.hardBytes == hardBytes && quota.hardInodes == hardInodes {
        var _ :- ClearQuota(project, hardBytes, hardInodes);
      } else if quota.hardBytes != 0 || quota.hardInodes != 0 {
        return Failed("quota-enforcement-changed");
      }
      var after :- Read(Quota(disk, project));
      if after != NO_QUOTA {
        return Failed("quota-cleanup-unverified");
      }
      return Done(());
    }

    /** `rollback`. It refuses a directory that is not the recorded one. */
    method Rollback(run: string, manifest: Manifest) returns (undone: Outcome<()>)
      requires run in disk.manifests && disk.manifests[run] == manifest
      modifies this
      ensures OthersKept(old(disk), disk, run, manifest.path, manifest.project)
      ensures ClearedUnused(old(cleared), cleared, manifest.project, manifest.hardBytes, manifest.hardInodes)
      ensures OnlyRecordedGone(old(disk), disk, old(cleared), cleared, manifest.project, manifest.hardBytes,
                               manifest.hardInodes)
      ensures run in disk.manifests ==> disk.manifests[run] == manifest
      ensures run !in disk.manifests ==> Gone(disk, run, manifest.path, manifest.project)
      ensures undone.Done? ==> run !in disk.manifests
      // A directory with other numbers than the recorded ones is left alone; without a record any directory goes.
      ensures Touched(old(disk), disk, manifest.path) && manifest.identity.Some? ==>
                && old(disk).trees[manifest.path].device == manifest.identity.value.device
                && old(disk).trees[manifest.path].inode == manifest.identity.value.inode
      ensures healthy && old(writes) >= 4 && old(Collides(disk, manifest))
                && old(Quota(disk, manifest.project)) == NO_QUOTA
                && old(disk).trees[manifest.path].attributes.project != manifest.project ==>
                undone.Done?
      ensures healthy && old(Interrupted(disk, manifest)) ==>
                && !undone.Failed?
                && (undone.Crashed? ==> Interrupted(disk, manifest))
      ensures old(writes) >= 4 ==> !undone.Crashed?
    {
      var path := manifest.path;
      if path in disk.trees {
        var tree := disk.trees[path];
        if manifest.identity.Some? && (tree.device != manifest.identity.value.device
                                       || tree.inode != manifest.identity.value.inode) {
          return Failed("quota-rollback-refused");
        }
        StagedRemoval(disk, manifest);
        var _ :- RemoveTree(run, path, manifest.project);
      }
      undone := Retire(run, path, manifest.project, manifest.hardBytes, manifest.hardInodes);
    }

    /** The manifest of this run, made new when none is stored. */
    method RecordAllocation(request: Request, policy: Policy, randoms: seq<nat>, token: string)
      returns (recorded: Outcome<Manifest>)
      requires |randoms| == PROJECT_ATTEMPTS
      modifies this
      ensures cleared == old(cleared) && KeepsLimits(old(disk), disk)
      ensures recorded.Done? ==> Recorded(disk, request, policy, recorded.value)
      ensures request.run in old(disk).manifests ==> disk == old(disk)
      ensures request.run in old(disk).manifests && recorded.Done? ==>
                recorded.value == old(disk).manifests[request.run]
      ensures healthy && old(request.run in disk.manifests
                             && ManifestValid(request, policy, disk.manifests[request.run], disk.mount)) ==>
                recorded.Done?
      ensures request.run !in old(disk).manifests && request.run in disk.manifests ==>
                && disk == WithManifest(old(disk), request.run, disk.manifests[request.run])
                && Available(old(disk), disk.manifests[request.run].project)
                && (forall manifest :: recorded == Done(manifest) ==> manifest == disk.manifests[request.run])
                && ManifestValid(request, policy, disk.manifests[request.run], disk.mount)
                && disk.manifests[request.run].path == Path(request.run, token)
                && disk.manifests[request.run].identity.None? && disk.manifests[request.run].phase == Allocating
      ensures request.run !in old(disk).manifests && request.run !in disk.manifests ==> disk == old(disk)
      ensures healthy && request.run !in old(disk).manifests && recorded.Failed? ==>
                disk == old(disk) && forall i :: 0 <= i < |randoms| ==> !Available(old(disk), ProjectOf(randoms[i]))
      ensures recorded.Crashed? ==> disk == old(disk)
      ensures writes >= Minus(old(writes), 1)
      ensures old(writes) >= 1 ==> !recorded.Crashed?
    {
      if request.run in disk.manifests {
        var stored :- Read(disk.manifests[request.run]);
        if !ManifestValid(request, policy, stored, disk.mount) {
          return Failed("quota-metadata-invalid");
        }
        return Done(stored);
      }
      var project :- AllocateProject(randoms);
      var manifest := Manifest(request.resources, request.bindings, Allocating, token, project,
                               Path(request.run, token), None,
                               disk.mount, policy.hardBytes, policy.hardInodes);
      var _ :- Write(WithManifest(disk, request.run, manifest));
      return Done(manifest);
    }

    /** `verify_enforcement`. */
    method VerifyEnforcement(handle: Handle) returns (usage: Outcome<Usage>)
      ensures usage.Done? ==> Enforced(disk, handle) && usage.value == Quota(disk, handle.project)
      ensures !usage.Crashed?
      ensures healthy && Enforced(disk, handle) ==> usage.Done?
    {
      if handle.path !in disk.trees {
        return Failed("quota-tree-unavailable");
      }
      var attributes :- Read(disk.trees[handle.path].attributes);
      if attributes != Attributes(handle.project, true) {
        return Failed("quota-tree-attributes-changed");
      }
      var quota :- Read(Quota(disk, handle.project));
      if quota.hardBytes != handle.hardBytes || quota.hardInodes != handle.hardInodes
         || quota.usedBytes > quota.hardBytes || quota.usedInodes > quota.hardInodes {
        return Failed("quota-enforcement-changed");
      }
      return Done(quota);
    }

    /** `resolve`: the handle and the manifest, when one is stored, name one allocation, and where a path is
        required its directory is the recorded one. */
    method Resolve(request: Request, policy: Policy, handle: Handle, requirePath: bool)
      returns (manifest: Outcome<Option<Manifest>>)
      ensures manifest.Done? ==> HandleValid(handle) && handle.mount == disk.mount
      ensures manifest.Done? ==> Named(disk, request, handle)
      ensures manifest.Done? ==> (manifest.value.Some? <==> request.run in disk.manifests)
      ensures manifest.Done? && manifest.value.Some? ==>
                Recorded(disk, request, policy, manifest.value.value) && manifest.value.value.identity.Some?
                    && HandleOf(manifest.value.value) == handle
      ensures manifest.Done? && manifest.value.None? ==>
                !requirePath && request.run !in disk.manifests && handle.path !in disk.trees
      ensures manifest.Done? && requirePath ==>
                && manifest.value.Some? && handle.path in disk.trees
                && SameTree(manifest.value.value, disk.trees[handle.path]) && disk.trees[handle.path].closed
      ensures !manifest.Crashed?
      ensures healthy && Cleanable(disk, request, policy, handle) && !requirePath ==> manifest.Done?
    {
      if !HandleValid(handle) {
        return Failed("quota-handle-invalid");
      }
      var mount :- Read(disk.mount);
      if handle.mount != mount {
        return Failed("quota-mount-changed");
      }
      if request.run !in disk.manifests {
        if requirePath || handle.path in disk.trees {
          return Failed("quota-manifest-missing");
        }
        return Done(None);
      }
      var stored :- Read(disk.manifests[request.run]);
      if !ManifestValid(request, policy, stored, disk.mount) {
        return Failed("quota-metadata-invalid");
      }
      if stored.identity.None? || HandleOf(stored) != handle {
        return Failed("quota-handle-mismatch");
      }
      if requirePath {
        var _ :- ValidateTree(stored);
      }
      return Done(Some(stored));
    }

    /** Wait, up to `polls` times, until nothing is charged to the project. Between polls the kernel may
        release charges, but only on a machine where removal did not release them at once. */
    method Settle(project: nat, polls: nat) returns (settled: Outcome<()>, ghost waited: nat)
      modifies this
      ensures cleared == old(cleared) && KeepsLimits(old(disk), disk)
      ensures disk.manifests == old(disk).manifests && disk.trees == old(disk).trees && disk.mount == old(disk).mount
      ensures disk.directoryBytes == old(disk).directoryBytes && disk.inherited == old(disk).inherited
      ensures forall other :: SameLimits(Quota(old(disk), other), Quota(disk, other))
      ensures settled.Done? ==> Quota(disk, project).usedBytes == 0 && Quota(disk, project).usedInodes == 0
      ensures !settled.Crashed? && writes == old(writes)
      ensures old(Quota(disk, project).usedBytes == 0 && Quota(disk, project).usedInodes == 0) ==> disk == old(disk)
      ensures healthy && old(Quota(disk, project).usedBytes == 0 && Quota(disk, project).usedInodes == 0) ==>
                settled.Done?
      ensures settled.Failed? && healthy ==> waited == polls
      ensures settled.Done? ==> !Charged(disk, project)
    {
      var polled := 0;
      waited := 0;
      while true
        invariant disk.manifests == old(disk).manifests && disk.trees == old(disk).trees
                  && disk.mount == old(disk).mount
        invariant disk.directoryBytes == old(disk).directoryBytes && disk.inherited == old(disk).inherited
        invariant forall other :: SameLimits(Quota(old(disk), other), Quota(disk, other))
        invariant cleared == old(cleared) && KeepsLimits(old(disk), disk)
        invariant writes == old(writes) && polled <= polls && waited == polled
        invariant old(Quota(disk, project).usedBytes == 0 && Quota(disk, project).usedInodes == 0) ==> disk == old(disk)
        decreases polls - polled
      {
        var read := Read(Quota(disk, project));
        if !read.Done? {
          return Failed(read.code), waited;
        }
        var quota := read.value;
        if quota.usedBytes == 0 && quota.usedInodes == 0 {
          return Done(()), waited;
        }
        if polled == polls {
          return Failed("quota-usage-still-live"), waited;
        }
        polled := polled + 1;
        waited := polled;
        if * {
          disk := WithQuota(disk, project, quota.(usedBytes := 0, usedInodes := 0));
        }
      }
    }

    /** `prepare`: from nothing, or from whatever an earlier crash left, to an enforced directory.
        A failure rolls the allocation back. */
    method Prepare(request: Request, randoms: seq<nat>, token: string) returns (ready: Outcome<Handle>)
      requires RequestValid(request) && |randoms| == PROJECT_ATTEMPTS
      modifies this
      // Whatever the machine did: a returned handle is enforced, and nothing of any other run changed.
      ensures ready.Done? ==> exists policy :: Grants(request, policy) && ReadyFor(disk, request, policy, ready.value)
      ensures disk.manifests - {request.run} == old(disk).manifests - {request.run}
      ensures disk.mount == old(disk).mount && disk.directoryBytes == old(disk).directoryBytes
                && disk.inherited == old(disk).inherited
      ensures old(ProjectsDistinct(disk)) ==> ProjectsDistinct(disk)
      // The limits of one project of the run's own may change, and are only ever cleared while it uses nothing.
      ensures (disk == old(disk) && cleared == old(cleared))
              || exists policy, own ::
                 Grants(request, policy) && OwnLimits(old(disk), disk, old(cleared), cleared, request.run, policy, own)
      // Resuming: from any state a crash can leave, a healthy machine keeps the same project, token and
      // path, and ends ready exactly when the directory fits into the limits.
      ensures forall policy :: healthy && Grants(request, policy) && old(Resumable(disk, request, policy)) ==>
                                 Resumed(old(disk), disk, request, policy, ready)
      // Starting: the first manifest is one of those states.
      ensures forall policy ::
                healthy && Grants(request, policy) && old(Unused(disk, request, token))
                && DirectoryFits(disk, policy) ==>
                                 Started(old(disk), disk, request, policy, randoms, ready)
      // A directory is changed or removed only if it is the recorded one; but until one is recorded, whatever stands
      // at its path goes when the collision with it fails the call.
      ensures RecordedKept(old(disk), disk, request.run)
      ensures forall policy ::
                healthy && Grants(request, policy) && old(writes) >= 11 && old(Collided(disk, request, policy)) ==>
                  ready.Failed? && GoneFor(old(disk), disk, request.run)
      ensures old(writes) >= 11 ==> !ready.Crashed?
    {
      var policy := SelectPolicy(request);
      forall other | Grants(request, other)
        ensures policy == Ok(other)
      {
        PolicyIsUnique(request, policy.value, other);
      }
      if policy.Err? {
        return Failed(policy.code);
      }
      ready := PrepareUnder(request, policy.value, randoms, token);
    }

    /** `prepare` under the one policy that the request grants. */
    method PrepareUnder(request: Request, policy: Policy, randoms: seq<nat>, token: string)
      returns (ready: Outcome<Handle>)
      requires Grants(request, policy) && |randoms| == PROJECT_ATTEMPTS
      modifies this
      ensures ready.Done? ==> ReadyFor(disk, request, policy, ready.value)
      ensures disk.manifests - {request.run} == old(disk).manifests - {request.run}
      ensures disk.mount == old(disk).mount && disk.directoryBytes == old(disk).directoryBytes
                && disk.inherited == old(disk).inherited
      ensures old(ProjectsDistinct(disk)) ==> ProjectsDistinct(disk)
      ensures (disk == old(disk) && cleared == old(cleared))
              || exists own :: OwnLimits(old(disk), disk, old(cleared), cleared, request.run, policy, own)
      ensures healthy && old(Resumable(disk, request, policy)) ==> Resumed(old(disk), disk, request, policy, ready)
      ensures healthy && old(Unused(disk, request, token)) && DirectoryFits(disk, policy) ==>
                Started(old(disk), disk, request, policy, randoms, ready)
      ensures RecordedKept(old(disk), disk, request.run)
      ensures healthy && old(writes) >= 11 && old(Collided(disk, request, policy)) ==>
                ready.Failed? && GoneFor(old(disk), disk, request.run)
      ensures old(writes) >= 11 ==> !ready.Crashed?
    {
      ghost var before := disk;
      var recorded := RecordAllocation(request, policy, randoms, token);
      DistinctKept(before, disk, request.run);
      if request.run in disk.manifests {
        assert OwnLimits(before, disk, cleared, cleared, request.run, policy, disk.manifests[request.run].project);
      }
      if !recorded.Done? {
        return if recorded.Crashed? then Crashed else Failed(recorded.code);
      }
      ghost var started := disk;
      if Unused(before, request, token) {
        FirstManifest(before, disk, request, policy, token);
      }
      ready := CompleteOrRollBack(request, policy, recorded.value);
      DistinctKept(started, disk, request.run);
      assert OwnLimits(before, disk, old(cleared), cleared, request.run, policy, recorded.value.project);
    }

    /** Carry the recorded allocation to ready, and when that fails undo it. */
    method CompleteOrRollBack(request: Request, policy: Policy, recorded: Manifest) returns (ready: Outcome<Handle>)
      requires Recorded(disk, request, policy, recorded)
      modifies this
      ensures OthersKept(old(disk), disk, request.run, recorded.path, recorded.project)
      ensures ClearedUnused(old(cleared), cleared, recorded.project, recorded.hardBytes, recorded.hardInodes)
      ensures OnlyRecordedGone(old(disk), disk, old(cleared), cleared, recorded.project, recorded.hardBytes,
                               recorded.hardInodes)
      ensures request.run in disk.manifests ==> SameAllocation(recorded, disk.manifests[request.run])
      ensures ready.Done? ==> ReadyFor(disk, request, policy, ready.value)
      ensures healthy && old(Staged(disk, recorded)) && ready.Crashed? && DirectoryFits(disk, policy) ==>
                Resumable(disk, request, policy)
      ensures healthy && old(Staged(disk, recorded)) ==>
                (ready.Done? ==> DirectoryFits(disk, policy)) && (ready.Failed? ==> !DirectoryFits(disk, policy))
      // A failure leaves nothing of the allocation.
      ensures healthy && old(Staged(disk, recorded)) && ready.Failed? ==>
                Gone(disk, request.run, recorded.path, recorded.project)
      ensures Touched(old(disk), disk, recorded.path) && recorded.identity.Some? ==>
                && old(disk).trees[recorded.path].device == recorded.identity.value.device
                && old(disk).trees[recorded.path].inode == recorded.identity.value.inode
      ensures healthy && old(writes) >= 10 && old(Collides(disk, recorded))
                && old(Quota(disk, recorded.project)) == NO_QUOTA
                && old(disk).trees[recorded.path].attributes.project != recorded.project ==>
                ready.Failed? && Gone(disk, request.run, recorded.path, recorded.project)
      ensures old(writes) >= 10 ==> !ready.Crashed?
    {
      ready := CompleteManifest(request, policy, request.run, recorded);
      if ready.Failed? {
        var current := Read(disk.manifests[request.run]);
        if current.Done? {
          var undone := Rollback(request.run, current.value);
          if undone.Crashed? {
            ready := Crashed;
          }
        }
      }
    }

    /** `scratch_path`: the directory of a ready allocation whose limits are still in force. */
    method ScratchPath(request: Request, handle: Handle) returns (path: Outcome<Path>)
      requires RequestValid(request)
      ensures path.Done? ==> path.value == handle.path && Enforced(disk, handle)
      ensures path.Done? ==> request.run in disk.manifests && disk.manifests[request.run].phase == Ready
                             && SameTree(disk.manifests[request.run], disk.trees[handle.path])
      ensures !path.Crashed?
    {
      var policy := SelectPolicy(request);
      if policy.Err? {
        return Failed(policy.code);
      }
      var manifest :- Resolve(request, policy.value, handle, true);
      if manifest.value.phase != Ready {
        return Failed("quota-tree-not-ready");
      }
      var _ :- VerifyEnforcement(handle);
      return Done(handle.path);
    }

    /** The part of `cleanup` before the limits are cleared: mark the manifest, then remove a directory
        that is still the recorded, enforced one. */
    method Dismantle(ghost request: Request, ghost policy: Policy, run: string, handle: Handle,
                     resolved: Option<Manifest>)
      returns (dismantled: Outcome<()>)
      requires run == request.run && HandleValid(handle) && handle.mount == disk.mount
      requires resolved.Some? ==>
                Recorded(disk, request, policy, resolved.value) && resolved.value.identity.Some?
                && HandleOf(resolved.value) == handle
      requires resolved.None? ==> run !in disk.manifests && handle.path !in disk.trees
      modifies this
      ensures cleared == old(cleared) && KeepsLimits(old(disk), disk)
      ensures OthersKept(old(disk), disk, run, handle.path, handle.project)
      ensures run in disk.manifests <==> run in old(disk).manifests
      ensures run in disk.manifests ==> SameAllocation(old(disk).manifests[run], disk.manifests[run])
      ensures resolved.None? ==> disk == old(disk)
      ensures dismantled.Done? ==> handle.path !in disk.trees
      ensures Touched(old(disk), disk, handle.path) ==>
                Removable(old(disk), handle) && run in disk.manifests && disk.manifests[run].phase == Cleaning
      ensures dismantled.Done? && resolved.Some? ==> disk.manifests[run].phase == Cleaning
      ensures healthy && old(Cleanable(disk, request, policy, handle)) ==>
                !dismantled.Failed? && Cleanable(disk, request, policy, handle)
      ensures old(writes) >= 3 ==> !dismantled.Crashed?
      ensures writes >= Minus(old(writes), 3)
    {
      if resolved.None? {
        return Done(());
      }
      var manifest := resolved.value.(phase := Cleaning);
      var _ :- Write(WithManifest(disk, run, manifest));
      dismantled := RemoveRecorded(run, handle, manifest);
    }

    /** Remove a directory that is still the recorded, enforced one. */
    method RemoveRecorded(ghost run: string, handle: Handle, manifest: Manifest) returns (removed: Outcome<()>)
      requires manifest.identity.Some? && HandleOf(manifest) == handle
      modifies this
      ensures cleared == old(cleared) && KeepsLimits(old(disk), disk)
      ensures disk.manifests == old(disk).manifests
      ensures OthersKept(old(disk), disk, run, handle.path, handle.project)
      ensures removed.Done? ==> handle.path !in disk.trees
      // Nothing but the recorded directory, with everything still in force on it, is ever removed or emptied.
      ensures disk != old(disk) ==> Removable(old(disk), handle)
      ensures healthy && old(Active(disk, manifest) || Retiring(disk, manifest)) ==>
                !removed.Failed? && (Active(disk, manifest) || Retiring(disk, manifest))
      ensures old(writes) >= 2 ==> !removed.Crashed?
      ensures writes >= Minus(old(writes), 2)
    {
      if handle.path !in disk.trees {
        return Done(());
      }
      var _ :- ValidateTree(manifest);
      var _ :- VerifyEnforcement(handle);
      if Active(disk, manifest) {
        ActiveRemoval(disk, manifest);
      }
      removed := RemoveTree(run, handle.path, handle.project);
    }

    /** `cleanup`: after any number of crashes, running it again with the same handle finishes it. */
    method Cleanup(request: Request, handle: Handle, polls: nat)
      returns (cleaned: Outcome<()>, ghost waited: Option<nat>)
      requires RequestValid(request)
      modifies this
      ensures ClearedUnused(old(cleared), cleared, handle.project, handle.hardBytes, handle.hardInodes)
      ensures OnlyRecordedGone(old(disk), disk, old(cleared), cleared, handle.project, handle.hardBytes,
                               handle.hardInodes)
      ensures OthersKept(old(disk), disk, request.run, handle.path, handle.project)
      ensures cleaned.Done? ==> Gone(disk, request.run, handle.path, handle.project)
      ensures request.run in old(disk).manifests && request.run !in disk.manifests ==>
                Gone(disk, request.run, handle.path, handle.project)
      // A manifest that is kept is still that of the same allocation.
      ensures request.run in disk.manifests ==>
                request.run in old(disk).manifests
                && SameAllocation(old(disk).manifests[request.run], disk.manifests[request.run])
      // Nothing but the recorded directory of the named allocation, with everything still in force on it, is ever
      // removed
      // or emptied, and before that the manifest says so.
      ensures Touched(old(disk), disk, handle.path) ==>
                && Removable(old(disk), handle)
                && (request.run in disk.manifests ==> disk.manifests[request.run].phase == Cleaning)
      ensures disk != old(disk) || cleaned.Done? ==>
                Named(old(disk), request, handle) && exists policy :: Grants(request, policy)
      // It waits for charges to go, and gives up only after the last poll.
      ensures cleaned.Done? ==> waited.Some?
      ensures healthy && cleaned.Failed? && waited.Some? && Charged(disk, handle.project) ==> waited == Some(polls)
      ensures old(ProjectsDistinct(disk)) ==> ProjectsDistinct(disk)
      ensures forall policy :: healthy && Grants(request, policy) && old(Cleanable(disk, request, policy, handle)) ==>
                !cleaned.Failed? && Cleanable(disk, request, policy, handle)
      ensures old(writes) >= 5 ==> !cleaned.Crashed?
    {
      ghost var before := disk;
      cleaned, waited := CleanUpAllocation(request, handle, polls);
      DistinctKept(before, disk, request.run);
    }

    /** `cleanup`, step by step. */
    method CleanUpAllocation(request: Request, handle: Handle, polls: nat)
      returns (cleaned: Outcome<()>, ghost waited: Option<nat>)
      requires RequestValid(request)
      modifies this
      ensures ClearedUnused(old(cleared), cleared, handle.project, handle.hardBytes, handle.hardInodes)
      ensures OnlyRecordedGone(old(disk), disk, old(cleared), cleared, handle.project, handle.hardBytes,
                               handle.hardInodes)
      ensures OthersKept(old(disk), disk, request.run, handle.path, handle.project)
      ensures cleaned.Done? ==> Gone(disk, request.run, handle.path, handle.project)
      ensures request.run in old(disk).manifests && request.run !in disk.manifests ==>
                Gone(disk, request.run, handle.path, handle.project)
      ensures request.run in disk.manifests ==>
                request.run in old(disk).manifests
                && SameAllocation(old(disk).manifests[request.run], disk.manifests[request.run])
      // Nothing but the recorded directory of the named allocation, with everything still in force on it, is ever
      // removed
      // or emptied, and before that the manifest says so.
      ensures Touched(old(disk), disk, handle.path) ==>
                && Removable(old(disk), handle)
                && (request.run in disk.manifests ==> disk.manifests[request.run].phase == Cleaning)
      ensures disk != old(disk) || cleaned.Done? ==>
                Named(old(disk), request, handle) && exists policy :: Grants(request, policy)
      // It waits for charges to go, and gives up only after the last poll.
      ensures cleaned.Done? ==> waited.Some?
      ensures healthy && cleaned.Failed? && waited.Some? && Charged(disk, handle.project) ==> waited == Some(polls)
      ensures forall policy :: healthy && Grants(request, policy) && old(Cleanable(disk, request, policy, handle)) ==>
                !cleaned.Failed? && Cleanable(disk, request, policy, handle)
      ensures old(writes) >= 5 ==> !cleaned.Crashed?
    {
      var policy := SelectPolicy(request);
      forall other | Grants(request, other)
        ensures policy == Ok(other)
      {
        PolicyIsUnique(request, policy.value, other);
      }
      waited := None;
      if policy.Err? {
        return Failed(policy.code), waited;
      }
      var resolved :- Resolve(request, policy.value, handle, false);
      var _ :- Dismantle(request, policy.value, request.run, handle, resolved);
      var settled: Outcome<()>;
      ghost var polled: nat;
      settled, polled := Settle(handle.project, polls);
      waited := Some(polled);
      if !settled.Done? {
        return settled, waited;
      }
      cleaned := Retire(request.run, handle.path, handle.project, handle.hardBytes, handle.hardInodes);
    }
  }

  /** A manifest just written for an available project is the first stage of an allocation. */
  lemma FirstManifest(before: Disk, after: Disk, request: Request, policy: Policy, token: string)
    requires Unused(before, request, token) && request.run in after.manifests
    requires after == WithManifest(before, request.run, after.manifests[request.run])
    requires after.manifests[request.run].identity.None? && after.manifests[request.run].phase == Allocating
    requires after.manifests[request.run].path == Path(request.run, token)
    requires Available(before, after.manifests[request.run].project)
    ensures Unplaced(after, after.manifests[request.run])
  {
  }

  /** A run that keeps its project, or takes one nobody has, keeps the projects distinct. */
  lemma DistinctKept(before: Disk, after: Disk, run: string)
    requires after.manifests - {run} == before.manifests - {run}
    requires run in after.manifests ==>
               || (run in before.manifests && after.manifests[run].project == before.manifests[run].project)
               || forall other :: other in before.manifests ==>
                  before.manifests[other].project != after.manifests[run].project
    ensures ProjectsDistinct(before) ==> ProjectsDistinct(after)
  {
    forall other | other in after.manifests && other != run
      ensures other in before.manifests && before.manifests[other] == after.manifests[other]
    {
      assert other in after.manifests - {run};
    }
  }

  /** A handle that `prepare` returned: its allocation is ready and enforced. */
  ghost predicate ReadyFor(disk: Disk, request: Request, policy: Policy, handle: Handle) {
    && Enforced(disk, handle) && request.run in disk.manifests
    && disk.manifests[request.run].phase == Ready && disk.manifests[request.run].identity.Some?
    && handle == HandleOf(disk.manifests[request.run])
    && Recorded(disk, request, policy, disk.manifests[request.run])
  }

  /** Only the limits of the run's own project, or of one it took for itself, differ; they are only taken away
      as recorded, and while nothing is charged to the project. */
  ghost predicate OwnLimits(before: Disk, after: Disk, log: multiset<Cleared>, cleared: multiset<Cleared>, run: string,
                            policy: Policy,
                            own: nat)
  {
    && LimitsKeptExcept(before, after, own) && OwnProject(before, run, own)
    && ClearedUnused(log, cleared, own, policy.hardBytes, policy.hardInodes)
    && OnlyRecordedGone(before, after, log, cleared, own, policy.hardBytes, policy.hardInodes)
  }

  ghost predicate Resumed(before: Disk, after: Disk, request: Request, policy: Policy, ready: Outcome<Handle>)
    requires request.run in before.manifests && (ready.Done? ==> request.run in after.manifests)
  {
    && (ready.Done? ==>
        DirectoryFits(after, policy) && SameAllocation(before.manifests[request.run], after.manifests[request.run]))
    && (ready.Failed? ==>
          && !DirectoryFits(after, policy)
          && Gone(after, request.run, before.manifests[request.run].path, before.manifests[request.run].project))
    && (ready.Crashed? && DirectoryFits(after, policy) ==>
          Resumable(after, request, policy) && SameAllocation(before.manifests[request.run],
                                                              after.manifests[request.run]))
  }

  ghost predicate Started(before: Disk, after: Disk, request: Request, policy: Policy, randoms: seq<nat>,
                          ready: Outcome<Handle>) {
    && (ready.Crashed? ==> after == before || Resumable(after, request, policy))
    && (ready.Failed? ==> after == before && forall i :: 0 <= i < |randoms| ==>
        !Available(before, ProjectOf(randoms[i])))
  }

  /** The run has no manifest, its new token no directory, and the directory that will hold it is
      charged to its own project, as every directory is. */
  ghost predicate Unused(disk: Disk, request: Request, token: string) {
    && request.run !in disk.manifests && Path(request.run, token) !in disk.trees
    && Quota(disk, disk.inherited.project) != NO_QUOTA
  }

  /** Emptying and removing a staged directory leaves its project unused. */
  lemma StagedRemoval(disk: Disk, manifest: Manifest)
    requires manifest.path in disk.trees
    ensures Staged(disk, manifest) ==>
              && Staged(Emptied(disk, manifest.path), manifest)
              && Interrupted(WithoutTree(Emptied(disk, manifest.path), manifest.path), manifest)
  {
  }

  lemma ActiveRemoval(disk: Disk, manifest: Manifest)
    requires manifest.path in disk.trees && Active(disk, manifest)
    ensures Active(Emptied(disk, manifest.path), manifest)
    ensures Retiring(WithoutTree(Emptied(disk, manifest.path), manifest.path), manifest)
  {
  }

  /** The directory is the one that the handle names, and everything is still in force on it. */
  ghost predicate Removable(disk: Disk, handle: Handle) {
    IsTree(disk, handle.path, handle.device, handle.inode) && Enforced(disk, handle)
  }

  /** The stored manifest is the one that the handle is for, and without one there is no directory either. */
  ghost predicate Named(disk: Disk, request: Request, handle: Handle) {
    && handle.mount == disk.mount
    && if request.run in disk.manifests then
         var manifest := disk.manifests[request.run];
         && manifest.resources == request.resources && manifest.bindings == request.bindings
         && manifest.mount == disk.mount && manifest.identity.Some?
         && handle.token == manifest.token && handle.project == manifest.project && handle.path == manifest.path
         && handle.device == manifest.identity.value.device && handle.inode == manifest.identity.value.inode
         && handle.hardBytes == manifest.hardBytes && handle.hardInodes == manifest.hardInodes
       else handle.path !in disk.trees
  }

  /** The allocation is in use or on its way out, so `cleanup` can start or start again. */
  ghost predicate Active(disk: Disk, manifest: Manifest) {
    && manifest.path in disk.trees
    && SameTree(manifest, disk.trees[manifest.path]) && disk.trees[manifest.path].closed
    && disk.trees[manifest.path].attributes == Selected(manifest)
    && Quota(disk, manifest.project)
       == Usage(manifest.hardBytes, manifest.hardInodes, disk.trees[manifest.path].bytes,
                disk.trees[manifest.path].inodes)
    && disk.trees[manifest.path].bytes <= manifest.hardBytes && disk.trees[manifest.path].inodes <= manifest.hardInodes
  }

  ghost predicate Cleanable(disk: Disk, request: Request, policy: Policy, handle: Handle) {
    && HandleValid(handle) && handle.mount == disk.mount
    && if request.run in disk.manifests then
         var manifest := disk.manifests[request.run];
         && ManifestValid(request, policy, manifest, disk.mount)
         && manifest.identity.Some? && HandleOf(manifest) == handle
         && (Active(disk, manifest) || Retiring(disk, manifest))
       else
         Gone(disk, request.run, handle.path, handle.project)
  }

  function ProjectOf(random: nat): nat {
    MIN_PROJECT_ID + random % (MAX_PROJECT_ID - MIN_PROJECT_ID)
  }

  ghost predicate Available(disk: Disk, project: nat) {
    InRange(project) && Quota(disk, project) == NO_QUOTA && forall run :: run in disk.manifests ==>
        disk.manifests[run].project != project
  }

  /** Only the directory itself is left of a tree. */
  function Emptied(disk: Disk, path: Path): Disk
    requires path in disk.trees
  {
    var tree := disk.trees[path];
    var bytes, inodes := Minus(tree.bytes, disk.directoryBytes), Minus(tree.inodes, 1);
    Release(WithTree(disk, path, tree.(bytes := tree.bytes - bytes, inodes := tree.inodes - inodes)),
            tree.attributes.project, bytes, inodes)
  }

  lemma TaggedDirectory(disk: Disk, run: string, manifest: Manifest)
    requires manifest.identity.Some? && manifest.path in disk.trees
    ensures KeepsLimits(disk, WithAttributes(disk, manifest.path, Selected(manifest)))
    ensures OthersKept(disk, WithAttributes(disk, manifest.path, Selected(manifest)), run, manifest.path,
                       manifest.project)
    ensures Limited(disk, manifest) ==> Tagged(WithAttributes(disk, manifest.path, Selected(manifest)), manifest)
  {
  }

  lemma NewDirectory(disk: Disk, run: string, manifest: Manifest, device: Positive, inode: Positive)
    requires manifest.path !in disk.trees
    ensures KeepsLimits(disk, WithNewDirectory(disk, manifest.path, device, inode))
    ensures OthersKept(disk, WithNewDirectory(disk, manifest.path, device, inode), run, manifest.path, manifest.project)
    ensures Unplaced(disk, manifest) ==> Unplaced(WithNewDirectory(disk, manifest.path, device, inode), manifest)
  {
  }

  lemma ClosedDirectory(disk: Disk, run: string, manifest: Manifest)
    requires manifest.path in disk.trees
    ensures KeepsLimits(disk, Closed(disk, manifest.path))
    ensures OthersKept(disk, Closed(disk, manifest.path), run, manifest.path, manifest.project)
    ensures Unplaced(disk, manifest) ==> Unplaced(Closed(disk, manifest.path), manifest)
  {
  }

  // ---------------------------------------------------------------- whole runs

  /** However often, and between whichever writes, the broker dies while preparing an allocation that
      fits, the restart that lives ends ready with the project, token and path the first manifest named. */
  method PrepareThroughCrashes(backend: Backend, ghost policy: Policy, request: Request, lifetimes: seq<nat>,
                               randoms: seq<nat>, token: string)
    returns (ready: Outcome<Handle>)
    requires backend.healthy && RequestValid(request) && |randoms| == PROJECT_ATTEMPTS && Grants(request, policy)
    requires Resumable(backend.disk, request, policy) && DirectoryFits(backend.disk, policy)
    modifies backend
    ensures ready.Done? && ReadyFor(backend.disk, request, policy, ready.value)
    ensures ready.value.hardBytes == policy.hardBytes && ready.value.hardInodes == policy.hardInodes
    ensures var before, after := old(backend.disk).manifests[request.run], backend.disk.manifests[request.run];
            SameAllocation(before, after) && after.phase == Ready
            && ready.value.project == before.project && ready.value.token == before.token
               && ready.value.path == before.path
  {
    for i := 0 to |lifetimes|
      invariant Resumable(backend.disk, request, policy) && DirectoryFits(backend.disk, policy)
      invariant SameAllocation(old(backend.disk).manifests[request.run], backend.disk.manifests[request.run])
    {
      backend.writes := lifetimes[i];
      ready := backend.Prepare(request, randoms, token);
      if ready.Done? {
        ReadyUnder(backend.disk, request, policy, ready.value);
        return;
      }
    }
    backend.writes := 11;
    ready := backend.Prepare(request, randoms, token);
    ReadyUnder(backend.disk, request, policy, ready.value);
  }

  lemma ReadyUnder(disk: Disk, request: Request, policy: Policy, handle: Handle)
    requires Grants(request, policy)
    requires exists granted :: Grants(request, granted) && ReadyFor(disk, request, granted, handle)
    ensures ReadyFor(disk, request, policy, handle)
    ensures handle.hardBytes == policy.hardBytes && handle.hardInodes == policy.hardInodes
  {
    var granted :| Grants(request, granted) && ReadyFor(disk, request, granted, handle);
    PolicyIsUnique(request, granted, policy);
  }

  /** A complete run of `prepare` decides: with the directory's own size within the limits it ends ready, and
      otherwise it fails. */
  method ResumeDecides(backend: Backend, ghost policy: Policy, request: Request, randoms: seq<nat>, token: string)
    returns (ready: Outcome<Handle>)
    requires backend.healthy && backend.writes >= 11
    requires RequestValid(request) && |randoms| == PROJECT_ATTEMPTS && Grants(request, policy)
    requires Resumable(backend.disk, request, policy)
    modifies backend
    ensures ready.Done? <==> DirectoryFits(old(backend.disk), policy)
    ensures ready.Failed? <==> !DirectoryFits(old(backend.disk), policy)
  {
    ready := backend.Prepare(request, randoms, token);
  }

  /** Resuming can fail for ever: a granted policy of one block is less than an empty directory takes. */
  lemma DirectoryTooLarge()
    ensures exists disk, request, policy ::
              && RequestValid(request) && Grants(request, policy)
              && Resumable(disk, request, policy) && !DirectoryFits(disk, policy)
  {
    var request, policy, manifest := OneBlock(), Policy("disk", "files", 1024, 16), OneBlockManifest();
    var disk := Disk("ext4:8:1", 4096, Attributes(7, true), map["run" := manifest], map[],
                     map[7 := Usage(0, 0, 4096, 1)]);
    assert |"disk"| != |"files"|;
    assert Grants(request, policy);
    assert Unplaced(disk, manifest);
    assert Resumable(disk, request, policy);
  }

  /** A request for one block and sixteen inodes. */
  function OneBlock(): Request {
    Request("run", map["disk" := 1024, "files" := 16],
            map["disk" := Binding(Some(QUOTA_BACKEND), Storage, Required, Bytes, false),
                "files" := Binding(Some(QUOTA_BACKEND), Inodes, Required, InodeCount, false)])
  }

  function OneBlockManifest(): Manifest {
    Manifest(OneBlock().resources, OneBlock().bindings, Allocating, "token", MIN_PROJECT_ID, Path("run", "token"), None,
             "ext4:8:1", 1024, 16)
  }

  /** A directory that stands in the way of a new one, whatever it holds, is removed by the call that it fails. */
  method CollisionIsRemoved(backend: Backend, ghost policy: Policy, request: Request, randoms: seq<nat>, token: string)
    returns (ready: Outcome<Handle>)
    requires backend.healthy && backend.writes >= 11
    requires RequestValid(request) && |randoms| == PROJECT_ATTEMPTS && Grants(request, policy)
    requires Collided(backend.disk, request, policy)
    modifies backend
    ensures ready.Failed?
    ensures var manifest := old(backend.disk).manifests[request.run];
            manifest.path in old(backend.disk).trees && manifest.path !in backend.disk.trees
            && request.run !in backend.disk.manifests
  {
    ready := backend.Prepare(request, randoms, token);
  }

  /** Such a collision is possible: a directory with three files in it. */
  lemma CollisionExists()
    ensures exists disk, request, policy ::
              && RequestValid(request) && Grants(request, policy) && Collided(disk, request, policy)
  {
    var request, policy, manifest := OneBlock(), Policy("disk", "files", 1024, 16), OneBlockManifest();
    var other := Tree(8, 41, true, true, Attributes(7, true), 12288, 4);
    var disk := Disk("ext4:8:1", 4096, Attributes(7, true), map["run" := manifest], map[manifest.path := other],
                     map[7 := Usage(0, 0, 12288, 4)]);
    assert |"disk"| != |"files"|;
    assert Grants(request, policy);
    assert Collided(disk, request, policy);
  }

  /** The same for `cleanup`: the restart that lives leaves no directory, no limits and no manifest. */
  method CleanupThroughCrashes(backend: Backend, ghost policy: Policy, request: Request, handle: Handle,
                               lifetimes: seq<nat>, polls: nat)
    requires backend.healthy && RequestValid(request) && Grants(request, policy)
    requires Cleanable(backend.disk, request, policy, handle)
    modifies backend
    ensures Gone(backend.disk, request.run, handle.path, handle.project)
  {
    for i := 0 to |lifetimes|
      invariant Cleanable(backend.disk, request, policy, handle)
    {
      backend.writes := lifetimes[i];
      ghost var waited: Option<nat>;
      var cleaned: Outcome<()>;
      cleaned, waited := backend.Cleanup(request, handle, polls);
      if cleaned.Done? {
        return;
      }
    }
    backend.writes := 5;
    ghost var waited: Option<nat>;
    var cleaned: Outcome<()>;
    cleaned, waited := backend.Cleanup(request, handle, polls);
  }

  /** One call of the broker, in a process that dies after `writes` further durable writes. */
  datatype Call =
    | Preparing(request: Request, writes: nat, randoms: seq<nat>, token: string)
    | CleaningUp(request: Request, writes: nat, handle: Handle, polls: nat)

  ghost predicate CallValid(call: Call) {
    RequestValid(call.request) && (call.Preparing? ==> |call.randoms| == PROJECT_ATTEMPTS)
  }

  /** However many runs are prepared and cleaned up, in whatever order, on however faulty a machine and with
      however many crashes, no two manifests ever name the same project, and runs that are not called keep theirs. */
  method Serve(backend: Backend, calls: seq<Call>)
    requires forall i :: 0 <= i < |calls| ==> CallValid(calls[i])
    requires ProjectsDistinct(backend.disk)
    modifies backend
    ensures ProjectsDistinct(backend.disk)
    ensures KeepsUncalled(old(backend.disk), backend.disk, calls)
  {
    for i := 0 to |calls|
      invariant ProjectsDistinct(backend.disk)
      invariant KeepsUncalled(old(backend.disk), backend.disk, calls[..i])
    {
      // Between two calls anything but the manifests may change.
      var between: Disk := *;
      if between.manifests == backend.disk.manifests {
        backend.disk := between;
      }
      ghost var before := backend.disk;
      assert KeepsUncalled(old(backend.disk), before, calls[..i]);
      backend.writes := calls[i].writes;
      match calls[i] {
        case Preparing(request, _, randoms, token) => var _ := backend.Prepare(request, randoms, token);
        case CleaningUp(request, _, handle, polls) =>
          var _, _ := backend.Cleanup(request, handle, polls);
      }
      OneMoreCall(old(backend.disk), before, backend.disk, calls, i);
    }
    assert calls[..|calls|] == calls;
  }

  ghost predicate Uncalled(calls: seq<Call>, run: string) {
    forall i :: 0 <= i < |calls| ==> calls[i].request.run != run
  }

  /** A run that no call is for has the manifest it had, or none as before. */
  ghost predicate KeepsUncalled(before: Disk, after: Disk, calls: seq<Call>) {
    forall run :: Uncalled(calls, run) ==> SameManifest(before, after, run)
  }

  ghost predicate SameManifest(before: Disk, after: Disk, run: string) {
    && (run in before.manifests <==> run in after.manifests)
    && (run in before.manifests ==> before.manifests[run] == after.manifests[run])
  }

  lemma OneMoreCall(start: Disk, before: Disk, after: Disk, calls: seq<Call>, i: nat)
    requires i < |calls| && KeepsUncalled(start, before, calls[..i])
    requires after.manifests - {calls[i].request.run} == before.manifests - {calls[i].request.run}
    ensures KeepsUncalled(start, after, calls[..i + 1])
  {
    var called := calls[i].request.run;
    forall run | Uncalled(calls[..i + 1], run)
      ensures SameManifest(start, after, run)
    {
      assert calls[..i + 1][i] == calls[i];
      assert forall k :: 0 <= k < i ==> calls[..i + 1][k] == calls[..i][k];
      assert Uncalled(calls[..i], run);
      assert run in before.manifests <==> run in before.manifests - {called};
      assert run in after.manifests <==> run in after.manifests - {called};
    }
  }

  /** A handle that `prepare` returned is one `cleanup` accepts, whatever the run has written since
      within its limits. */
  lemma ReadyIsCleanable(disk: Disk, request: Request, policy: Policy, bytes: nat, inodes: nat)
    requires Resumable(disk, request, policy) && Grants(request, policy) && RequestValid(request)
    requires Tagged(disk, disk.manifests[request.run])
    requires bytes <= policy.hardBytes && 1 <= inodes <= policy.hardInodes
    ensures var manifest := disk.manifests[request.run];
            var used := WithQuota(WithTree(disk, manifest.path,
                                           disk.trees[manifest.path].(bytes := bytes, inodes := inodes)),
                                  manifest.project, Usage(policy.hardBytes, policy.hardInodes, bytes, inodes));
            Cleanable(used, request, policy, HandleOf(manifest))
  {
  }
}
