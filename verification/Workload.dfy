/** VM specifications and workload inheritance: types/types.go and the spec side
    of ccvm/workload.go. */
module Workload {
  import opened Wrappers
  import opened KeyedMerge
  import opened WorkloadDocs

  function Guest(p: PortMapping): int { p.guest }

  function Tag(m: Mount): string { m.tag }

  function DrivePath(d: Drive): string { d.path }

  const DEFAULT_SPEC := Spec(1024, 60, 1, 0, [], [], [], [])

  const SSH: int := 22

  function OrElse(own: int, inherited: int): int {
    if own == 0 then inherited else own
  }

  /** `Merge` from a parent: own scalars win, the PARENT's list entries win. */
  function Inherit(own: Spec, parent: Spec): Spec {
    own.(memMiB := OrElse(own.memMiB, parent.memMiB),
         cpus := OrElse(own.cpus, parent.cpus),
         diskGiB := OrElse(own.diskGiB, parent.diskGiB),
         qemuport := if own.qemuport == 0 then parent.qemuport else own.qemuport,
         mounts := Merge(own.mounts, parent.mounts, Tag),
         ports := Merge(own.ports, parent.ports, Guest),
         drives := Merge(own.drives, parent.drives, DrivePath))
  }

  /** The directories that exist on the host. */
  type FileSystem = set<string>

  /** CheckDirectory. */
  predicate DirectoryOk(fs: FileSystem, dir: string) {
    dir == "" || (dir[0] == '/' && dir in fs)
  }

  predicate MountsOk(fs: FileSystem, mounts: seq<Mount>) {
    forall i :: 0 <= i < |mounts| ==> DirectoryOk(fs, mounts[i].path)
  }

  /** The scalar part of `MergeCustom`. */
  function Override(own: Spec, custom: Spec): Spec {
    own.(memMiB := OrElse(custom.memMiB, own.memMiB),
         cpus := OrElse(custom.cpus, own.cpus),
         diskGiB := OrElse(custom.diskGiB, own.diskGiB),
         qemuport := if custom.qemuport == 0 then own.qemuport else custom.qemuport,
         hostIP := if custom.hostIP == [] then own.hostIP else custom.hostIP)
  }

  function Customise(own: Spec, custom: Spec): Spec {
    Override(own, custom).(
      mounts := Merge(own.mounts, custom.mounts, Tag),
      ports := Merge(own.ports, custom.ports, Guest),
      drives := Merge(own.drives, custom.drives, DrivePath))
  }

  datatype CustomError = BadDirectory | NoHostIP

  function CustomCheck(fs: FileSystem, own: Spec, custom: Spec): Option<CustomError> {
    if !MountsOk(fs, custom.mounts) then Some(BadDirectory)
    else if Override(own, custom).hostIP == [] then Some(NoHostIP)
    else None
  }

  function SSHPortOf(ports: seq<PortMapping>): Option<int> {
    var p := First(ports, Guest, SSH);
    if p.None? then None else Some(p.value.host)
  }

  class VMSpec {
    var memMiB: int
    var diskGiB: int
    var cpus: int
    var qemuport: nat
    var ports: seq<PortMapping>
    var mounts: seq<Mount>
    var drives: seq<Drive>
    var hostIP: seq<int>

    constructor (s: Spec)
      ensures Value() == s
    {
      memMiB, diskGiB, cpus, qemuport := s.memMiB, s.diskGiB, s.cpus, s.qemuport;
      ports, mounts, drives, hostIP := s.ports, s.mounts, s.drives, s.hostIP;
    }

    function Value(): Spec
      reads this
    {
      Spec(memMiB, diskGiB, cpus, qemuport, ports, mounts, drives, hostIP)
    }

    method MergeMounts(m: seq<Mount>)
      modifies this`mounts
      ensures mounts == Merge(old(mounts), m, Tag)
    {
      var mountCount := |mounts|;
      for i := 0 to |m|
        invariant mounts == Merge(old(mounts), m[..i], Tag)
      {
        assert m[..i + 1][..i] == m[..i];
        mounts := PutEntry(mounts, mountCount, Tag, m[i]);
      }
      assert m[..|m|] == m;
    }

    method MergePorts(p: seq<PortMapping>)
      modifies this`ports
      ensures ports == Merge(old(ports), p, Guest)
    {
      var portCount := |ports|;
      for i := 0 to |p|
        invariant ports == Merge(old(ports), p[..i], Guest)
      {
        assert p[..i + 1][..i] == p[..i];
        ports := PutEntry(ports, portCount, Guest, p[i]);
      }
      assert p[..|p|] == p;
    }

    method MergeDrives(d: seq<Drive>)
      modifies this`drives
      ensures drives == Merge(old(drives), d, DrivePath)
    {
      var driveCount := |drives|;
      for i := 0 to |d|
        invariant drives == Merge(old(drives), d[..i], DrivePath)
      {
        assert d[..i + 1][..i] == d[..i];
        drives := PutEntry(drives, driveCount, DrivePath, d[i]);
      }
      assert d[..|d|] == d;
    }

    method OverrideScalars(custom: Spec)
      modifies this
      ensures Value() == Override(old(Value()), custom)
    {
      if custom.memMiB != 0 {
        memMiB := custom.memMiB;
      }
      if custom.cpus != 0 {
        cpus := custom.cpus;
      }
      if custom.diskGiB != 0 {
        diskGiB := custom.diskGiB;
      }
      if custom.qemuport != 0 {
        qemuport := custom.qemuport;
      }
      if |custom.hostIP| > 0 {
        hostIP := custom.hostIP;
      }
    }

    /** `MergeCustom`.  A bad directory leaves the spec alone; a missing host
        address is noticed only after the scalars were overridden. */
    method MergeCustom(fs: FileSystem, custom: Spec) returns (err: Option<CustomError>)
      modifies this
      ensures err == CustomCheck(fs, old(Value()), custom)
      ensures Value() == match err
                         case None => Customise(old(Value()), custom)
                         case Some(BadDirectory) => old(Value())
                         case Some(NoHostIP) => Override(old(Value()), custom)
    {
      for i := 0 to |custom.mounts|
        invariant forall j :: 0 <= j < i ==> DirectoryOk(fs, custom.mounts[j].path)
        invariant Value() == old(Value())
      {
        if !DirectoryOk(fs, custom.mounts[i].path) {
          return Some(BadDirectory);
        }
      }
      OverrideScalars(custom);
      if |hostIP| == 0 {
        return Some(NoHostIP);
      }
      MergeMounts(custom.mounts);
      MergePorts(custom.ports);
      MergeDrives(custom.drives);
      return None;
    }

    /** `SSHPort`. */
    method SSHPort() returns (r: Option<int>)
      ensures r == SSHPortOf(ports)
    {
      for i := 0 to |ports|
        invariant forall j :: 0 <= j < i ==> ports[j].guest != SSH
      {
        if ports[i].guest == SSH {
          FirstAt(ports, Guest, SSH, i);
          return Some(ports[i].host);
        }
      }
      FirstNone(ports, Guest, SSH);
      return None;
    }

    /** `Merge`. */
    method MergeParent(parent: Spec)
      modifies this
      ensures Value() == Inherit(old(Value()), parent)
    {
      if memMiB == 0 {
        memMiB := parent.memMiB;
      }
      if cpus == 0 {
        cpus := parent.cpus;
      }
      if diskGiB == 0 {
        diskGiB := parent.diskGiB;
      }
      if qemuport == 0 {
        qemuport := parent.qemuport;
      }
      MergeMounts(parent.mounts);
      MergePorts(parent.ports);
      MergeDrives(parent.drives);
    }

    /** `ensureSSHPortMapping`. */
    method EnsureSSHPortMapping()
      modifies this`ports
      ensures ports == WithSSH(old(ports))
    {
      var i := 0;
      while i < |ports|
        invariant i <= |ports| && forall j :: 0 <= j < i ==> ports[j].guest != SSH
      {
        if ports[i].guest == SSH {
          break;
        }
        i := i + 1;
      }
      if i == |ports| {
        ports := ports + [PortMapping(10022, SSH)];
      }
    }
  }

  function WithSSH(ports: seq<PortMapping>): seq<PortMapping> {
    if Has(ports, Guest, SSH) then ports else ports + [PortMapping(10022, SSH)]
  }

  // ---------- inheritance ----------

  const DEFAULT_WORKLOAD := WorkloadSpec("https://cloud-images.ubuntu.com/xenial/current/xenial-server-cloudimg-amd64-disk1.img",
                                         "Ubuntu 16.04", "", false, "", DEFAULT_SPEC, "")

  function OrText(own: string, inherited: string): string {
    if own == "" then inherited else own
  }

  /** `workload.merge`. */
  function InheritWorkload(own: WorkloadSpec, parent: WorkloadSpec): WorkloadSpec {
    own.(baseURL := OrText(own.baseURL, parent.baseURL),
         baseName := OrText(own.baseName, parent.baseName),
         nested := own.nested || parent.nested,
         vm := Inherit(own.vm, parent.vm))
  }

  /** What `createWorkload` makes of a chain asked for under `name`. */
  function Created(w: Chain, name: string): WorkloadSpec {
    var own := w.spec.(name := OrText(w.spec.name, name));
    var base := match w.parent case None => DEFAULT_WORKLOAD case Some(up) => Created(up, w.spec.inherits);
    var merged := InheritWorkload(own, base);
    merged.(vm := merged.vm.(ports := WithSSH(merged.vm.ports)))
  }

  class WorkloadObject {
    var baseURL: string
    var baseName: string
    var name: string
    var nested: bool
    const bios: string
    const inherits: string
    const vm: VMSpec

    constructor (s: WorkloadSpec)
      ensures Value() == s && fresh(vm)
    {
      baseURL, baseName, name, nested := s.baseURL, s.baseName, s.name, s.nested;
      bios, inherits := s.bios, s.inherits;
      vm := new VMSpec(s.vm);
    }

    function Value(): WorkloadSpec
      reads this, vm
    {
      WorkloadSpec(baseURL, baseName, name, nested, bios, vm.Value(), inherits)
    }

    /** `workload.merge`. */
    method MergeFrom(parent: WorkloadSpec)
      modifies this, vm
      ensures Value() == InheritWorkload(old(Value()), parent)
    {
      if baseURL == "" {
        baseURL := parent.baseURL;
      }
      if baseName == "" {
        baseName := parent.baseName;
      }
      if !nested {
        nested := parent.nested;
      }
      vm.MergeParent(parent.vm);
    }
  }

  /** `createWorkload`, from the parsed documents of the chain. */
  method CreateWorkload(w: Chain, workloadName: string) returns (wkld: WorkloadObject)
    ensures fresh(wkld) && fresh(wkld.vm)
    ensures wkld.Value() == Created(w, workloadName)
    decreases w
  {
    wkld := new WorkloadObject(w.spec);
    if wkld.name == "" {
      wkld.name := workloadName;
    }
    if w.parent.Some? {
      var parent := CreateWorkload(w.parent.value, w.spec.inherits);
      wkld.MergeFrom(parent.Value());
    } else {
      wkld.MergeFrom(DEFAULT_WORKLOAD);
    }
    wkld.vm.EnsureSSHPortMapping();
  }

  // ---------- scalars: the nearest definition ----------

  function FirstNonZero(xs: seq<int>): int {
    if xs == [] then 0 else if xs[0] != 0 then xs[0] else FirstNonZero(xs[1..])
  }

  function FirstText(xs: seq<string>): string {
    if xs == [] then "" else if xs[0] != "" then xs[0] else FirstText(xs[1..])
  }

  /** The specs of the chain from the leaf to the default. */
  function Levels(w: Chain): seq<WorkloadSpec> {
    [w.spec] + match w.parent case None => [DEFAULT_WORKLOAD] case Some(up) => Levels(up)
  }

  function Column<T>(levels: seq<WorkloadSpec>, f: WorkloadSpec -> T): seq<T> {
    seq(|levels|, i requires 0 <= i < |levels| => f(levels[i]))
  }

  lemma ColumnCons<T>(s: WorkloadSpec, levels: seq<WorkloadSpec>, f: WorkloadSpec -> T)
    ensures Column([s] + levels, f) == [f(s)] + Column(levels, f)
  {}

  lemma FirstNonZeroCons(x: int, xs: seq<int>)
    ensures FirstNonZero([x] + xs) == OrElse(x, FirstNonZero(xs))
  {}

  lemma FirstTextCons(x: string, xs: seq<string>)
    ensures FirstText([x] + xs) == OrText(x, FirstText(xs))
  {}

  function Mem(s: WorkloadSpec): int { s.vm.memMiB }

  function Cpus(s: WorkloadSpec): int { s.vm.cpus }

  function Disk(s: WorkloadSpec): int { s.vm.diskGiB }

  function Qemu(s: WorkloadSpec): int { s.vm.qemuport }

  function URL(s: WorkloadSpec): string { s.baseURL }

  function ImageName(s: WorkloadSpec): string { s.baseName }

  lemma ColumnStep(s: WorkloadSpec, levels: seq<WorkloadSpec>, f: WorkloadSpec -> int)
    ensures FirstNonZero(Column([s] + levels, f)) == OrElse(f(s), FirstNonZero(Column(levels, f)))
  {
    ColumnCons(s, levels, f);
    FirstNonZeroCons(f(s), Column(levels, f));
  }

  lemma TextStep(s: WorkloadSpec, levels: seq<WorkloadSpec>, f: WorkloadSpec -> string)
    ensures FirstText(Column([s] + levels, f)) == OrText(f(s), FirstText(Column(levels, f)))
  {
    ColumnCons(s, levels, f);
    FirstTextCons(f(s), Column(levels, f));
  }

  /** Every scalar of a created workload is the first set value from the leaf to
      the default; nested virtualisation is needed if any level needs it. */
  ghost predicate Nearest(c: WorkloadSpec, levels: seq<WorkloadSpec>) {
    && Mem(c) == FirstNonZero(Column(levels, Mem))
    && Cpus(c) == FirstNonZero(Column(levels, Cpus))
    && Disk(c) == FirstNonZero(Column(levels, Disk))
    && Qemu(c) == FirstNonZero(Column(levels, Qemu))
    && URL(c) == FirstText(Column(levels, URL))
    && ImageName(c) == FirstText(Column(levels, ImageName))
    && (c.nested <==> exists i :: 0 <= i < |levels| && levels[i].nested)
  }

  lemma NearestStep(own: WorkloadSpec, spec: WorkloadSpec, base: WorkloadSpec, levels: seq<WorkloadSpec>)
    requires Nearest(base, levels) && own == spec.(name := own.name)
    ensures Nearest(InheritWorkload(own, base), [spec] + levels)
  {
    ColumnStep(spec, levels, Mem);
    ColumnStep(spec, levels, Cpus);
    ColumnStep(spec, levels, Disk);
    ColumnStep(spec, levels, Qemu);
    TextStep(spec, levels, URL);
    TextStep(spec, levels, ImageName);
    NestedStep(spec, levels);
  }

  lemma NestedStep(spec: WorkloadSpec, levels: seq<WorkloadSpec>)
    ensures (exists i :: 0 <= i < |[spec] + levels| && ([spec] + levels)[i].nested)
        <==> spec.nested || exists i :: 0 <= i < |levels| && levels[i].nested
  {
    var all := [spec] + levels;
    if i :| 0 <= i < |levels| && levels[i].nested {
      assert all[i + 1].nested;
    }
    if spec.nested {
      assert all[0].nested;
    }
  }

  lemma NearestDefault()
    ensures Nearest(DEFAULT_WORKLOAD, [DEFAULT_WORKLOAD])
  {}

  lemma {:induction false} ScalarsNearest(w: Chain, name: string)
    ensures Nearest(Created(w, name), Levels(w))
  {
    var own := w.spec.(name := OrText(w.spec.name, name));
    match w.parent
    case None =>
      NearestDefault();
      NearestStep(own, w.spec, DEFAULT_WORKLOAD, [DEFAULT_WORKLOAD]);
    case Some(up) =>
      ScalarsNearest(up, w.spec.inherits);
      NearestStep(own, w.spec, Created(up, w.spec.inherits), Levels(up));
  }

  // ---------- SSH ----------

  lemma WithSSHHas(ports: seq<PortMapping>)
    ensures Has(WithSSH(ports), Guest, SSH)
    ensures SSHPortOf(WithSSH(ports)) == if Has(ports, Guest, SSH) then SSHPortOf(ports) else Some(10022)
  {
    FirstHas(ports, Guest, SSH);
    if !Has(ports, Guest, SSH) {
      var p := PortMapping(10022, SSH);
      assert (ports + [p])[|ports|] == p;
      FirstAppend(ports, [p], Guest, SSH);
      FirstSingle(p, Guest, SSH);
    }
  }

  /** Apply any number of accepted customisations. */
  function CustomiseAll(spec: Spec, customs: seq<Spec>): Spec {
    if customs == [] then spec else Customise(CustomiseAll(spec, customs[..|customs| - 1]), customs[|customs| - 1])
  }

  lemma CustomiseKeepsSSH(spec: Spec, custom: Spec)
    requires Has(spec.ports, Guest, SSH)
    ensures Has(Customise(spec, custom).ports, Guest, SSH)
  {
    MergeLookup(spec.ports, custom.ports, Guest, SSH);
    FirstHas(spec.ports, Guest, SSH);
    LastHas(custom.ports, Guest, SSH);
    FirstHas(Customise(spec, custom).ports, Guest, SSH);
  }

  lemma {:induction false} CustomiseAllKeepsSSH(spec: Spec, customs: seq<Spec>)
    requires Has(spec.ports, Guest, SSH)
    ensures Has(CustomiseAll(spec, customs).ports, Guest, SSH)
  {
    if customs != [] {
      CustomiseAllKeepsSSH(spec, customs[..|customs| - 1]);
      CustomiseKeepsSSH(CustomiseAll(spec, customs[..|customs| - 1]), customs[|customs| - 1]);
    }
  }

  /** Reachability over the lifecycle: whatever a workload says and however it is
      customised afterwards, SSHPort finds a port. */
  lemma SSHReachable(w: Chain, name: string, customs: seq<Spec>)
    ensures SSHPortOf(CustomiseAll(Created(w, name).vm, customs).ports).Some?
  {
    var vm := Created(w, name).vm;
    var own := w.spec.(name := OrText(w.spec.name, name));
    var base := match w.parent case None => DEFAULT_WORKLOAD case Some(up) => Created(up, w.spec.inherits);
    WithSSHHas(InheritWorkload(own, base).vm.ports);
    CustomiseAllKeepsSSH(vm, customs);
    FirstHas(CustomiseAll(vm, customs).ports, Guest, SSH);
  }

  // ---------- lists: the root decides ----------

  ghost predicate UniqueChain(w: Chain) {
    && UniqueKeys(w.spec.vm.ports, Guest) && UniqueKeys(w.spec.vm.mounts, Tag) && UniqueKeys(w.spec.vm.drives, DrivePath)
    && (w.parent.Some? ==> UniqueChain(w.parent.value))
  }

  lemma MergeKeepsUnique<T, K>(base: seq<T>, supplied: seq<T>, key: T -> K)
    requires UniqueKeys(base, key) && UniqueKeys(supplied, key)
    ensures UniqueKeys(Merge(base, supplied, key), key)
  {
    FreshUnique(base, supplied, key);
    MergeUnique(base, supplied, key);
  }

  lemma WithSSHUnique(ports: seq<PortMapping>)
    requires UniqueKeys(ports, Guest)
    ensures UniqueKeys(WithSSH(ports), Guest)
  {}

  /** Unique keys at every level give unique keys in the result. */
  lemma {:induction false} CreatedUnique(w: Chain, name: string)
    requires UniqueChain(w)
    ensures var vm := Created(w, name).vm;
            UniqueKeys(vm.ports, Guest) && UniqueKeys(vm.mounts, Tag) && UniqueKeys(vm.drives, DrivePath)
  {
    var base := match w.parent case None => DEFAULT_SPEC case Some(up) => Created(up, w.spec.inherits).vm;
    if w.parent.Some? {
      CreatedUnique(w.parent.value, w.spec.inherits);
    }
    MergeKeepsUnique(w.spec.vm.ports, base.ports, Guest);
    MergeKeepsUnique(w.spec.vm.mounts, base.mounts, Tag);
    MergeKeepsUnique(w.spec.vm.drives, base.drives, DrivePath);
    WithSSHUnique(Merge(w.spec.vm.ports, base.ports, Guest));
  }

  /** The entry for `tag` at the level nearest to the root that has one. */
  function RootMount(w: Chain, tag: string): Option<Mount> {
    var above := match w.parent case None => None case Some(up) => RootMount(up, tag);
    if above.Some? then above else First(w.spec.vm.mounts, Tag, tag)
  }

  function RootDrive(w: Chain, path: string): Option<Drive> {
    var above := match w.parent case None => None case Some(up) => RootDrive(up, path);
    if above.Some? then above else First(w.spec.vm.drives, DrivePath, path)
  }

  /** With unique keys the supplied entry wins, and that is the parent's. */
  lemma MergeUniqueLookup<T, K>(base: seq<T>, supplied: seq<T>, key: T -> K, k: K)
    requires UniqueKeys(supplied, key)
    ensures First(Merge(base, supplied, key), key, k) == if Has(supplied, key, k) then First(supplied, key, k) else First(base, key, k)
  {
    MergeLookup(base, supplied, key, k);
    UniqueLast(supplied, key, k);
  }

  /** Along a chain of any length the level nearest to the root decides every
      mount and drive, although its documentation lets the inheriting workload win. */
  lemma {:induction false} RootDecides(w: Chain, name: string, tag: string, path: string)
    requires UniqueChain(w)
    ensures First(Created(w, name).vm.mounts, Tag, tag) == RootMount(w, tag)
    ensures First(Created(w, name).vm.drives, DrivePath, path) == RootDrive(w, path)
  {
    match w.parent
    case None =>
      assert Created(w, name).vm.mounts == w.spec.vm.mounts && Created(w, name).vm.drives == w.spec.vm.drives;
    case Some(up) =>
      var base := Created(up, w.spec.inherits).vm;
      RootDecides(up, w.spec.inherits, tag, path);
      CreatedUnique(up, w.spec.inherits);
      MergeUniqueLookup(w.spec.vm.mounts, base.mounts, Tag, tag);
      MergeUniqueLookup(w.spec.vm.drives, base.drives, DrivePath, path);
      FirstHas(base.mounts, Tag, tag);
      FirstHas(base.drives, DrivePath, path);
  }

  function Root(w: Chain): Chain {
    match w.parent case None => w case Some(up) => Root(up)
  }

  /** The SSH port is the root workload's, or 10022 if the root maps none: no
      inheriting workload can change it. */
  lemma {:induction false} RootDecidesSSH(w: Chain, name: string)
    requires UniqueChain(w)
    ensures SSHPortOf(Created(w, name).vm.ports) ==
              if Has(Root(w).spec.vm.ports, Guest, SSH) then SSHPortOf(Root(w).spec.vm.ports) else Some(10022)
  {
    var ports := w.spec.vm.ports;
    match w.parent
    case None =>
      WithSSHHas(ports);
    case Some(up) =>
      var base := Created(up, w.spec.inherits).vm.ports;
      RootDecidesSSH(up, w.spec.inherits);
      CreatedUnique(up, w.spec.inherits);
      SSHReachable(up, w.spec.inherits, []);
      FirstHas(base, Guest, SSH);
      MergeUniqueLookup(ports, base, Guest, SSH);
      FirstHas(Merge(ports, base, Guest), Guest, SSH);
      WithSSHHas(Merge(ports, base, Guest));
  }
}
