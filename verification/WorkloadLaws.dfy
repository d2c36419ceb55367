/** What inheritance and customisation of VM specifications mean for a reader of the
    result, field by field and entry by entry. */
module WorkloadLaws {
  import opened Wrappers
  import opened KeyedMerge
  import opened WorkloadDocs
  import opened Workload

  // ---------- customisation ----------

  /** Whatever a customisation sets wins, and whatever it leaves open stays. */
  lemma CustomWins(own: Spec, custom: Spec, tag: string, guest: int, path: string)
    requires UniqueKeys(custom.mounts, Tag) && UniqueKeys(custom.ports, Guest) && UniqueKeys(custom.drives, DrivePath)
    ensures var c := Customise(own, custom);
            && c.memMiB == (if custom.memMiB != 0 then custom.memMiB else own.memMiB)
            && c.cpus == (if custom.cpus != 0 then custom.cpus else own.cpus)
            && c.diskGiB == (if custom.diskGiB != 0 then custom.diskGiB else own.diskGiB)
            && c.qemuport == (if custom.qemuport != 0 then custom.qemuport else own.qemuport)
            && c.hostIP == (if custom.hostIP != [] then custom.hostIP else own.hostIP)
            && First(c.mounts, Tag, tag) == (if Has(custom.mounts, Tag, tag) then First(custom.mounts, Tag, tag) else First(own.mounts, Tag, tag))
            && First(c.ports, Guest, guest) == (if Has(custom.ports, Guest, guest) then First(custom.ports, Guest, guest) else First(own.ports, Guest, guest))
            && First(c.drives, DrivePath, path) == (if Has(custom.drives, DrivePath, path) then First(custom.drives, DrivePath, path) else First(own.drives, DrivePath, path))
  {
    MergeUniqueLookup(own.mounts, custom.mounts, Tag, tag);
    MergeUniqueLookup(own.ports, custom.ports, Guest, guest);
    MergeUniqueLookup(own.drives, custom.drives, DrivePath, path);
  }

  /** The keys are the tag of a mount, the guest side of a port and the path of a drive. */
  lemma Keys(m: Mount, p: PortMapping, d: Drive)
    ensures Tag(m) == m.tag && Guest(p) == p.guest && DrivePath(d) == d.path
  {}

  /** A customisation is refused for a mount whose path is not an existing absolute
      directory, and otherwise only if no host address is known. */
  lemma CustomRefused(fs: FileSystem, own: Spec, custom: Spec)
    ensures var bad := exists i :: 0 <= i < |custom.mounts| && custom.mounts[i].path != ""
                         && (custom.mounts[i].path[0] != '/' || custom.mounts[i].path !in fs);
            && (CustomCheck(fs, own, custom) == Some(BadDirectory) <==> bad)
            && (CustomCheck(fs, own, custom) == Some(NoHostIP) <==> !bad && own.hostIP == [] && custom.hostIP == [])
            && (CustomCheck(fs, own, custom) == None <==> !bad && (own.hostIP != [] || custom.hostIP != []))
  {}

  // ---------- inheritance ----------

  /** What a workload does not inherit. */
  lemma OwnFields(w: Chain, name: string)
    ensures var c := Created(w, name);
            && c.name == (if w.spec.name != "" then w.spec.name else name)
            && c.bios == w.spec.bios && c.inherits == w.spec.inherits && c.vm.hostIP == w.spec.vm.hostIP
  {}

  /** A workload that sets nothing and inherits from nothing has the defaults. */
  lemma Defaults(name: string, userData: Config)
    ensures var c := Created(Chain(WorkloadSpec("", "", "", false, "", Spec(0, 0, 0, 0, [], [], [], []), ""), userData, None), name);
            && c.vm.memMiB == 1024 && c.vm.cpus == 1 && c.vm.diskGiB == 60 && c.vm.qemuport == 0 && !c.nested
            && c.vm.mounts == [] && c.vm.drives == [] && c.vm.ports == [PortMapping(10022, 22)]
            && c.baseName == "Ubuntu 16.04" && c.name == name
  {}

  function RootPort(w: Chain, guest: int): Option<PortMapping> {
    var above := match w.parent case None => None case Some(up) => RootPort(up, guest);
    if above.Some? then above else First(w.spec.vm.ports, Guest, guest)
  }

  lemma WithSSHOthers(ports: seq<PortMapping>, guest: int)
    requires guest != SSH
    ensures First(WithSSH(ports), Guest, guest) == First(ports, Guest, guest)
  {
    if !Has(ports, Guest, SSH) {
      var p := PortMapping(10022, SSH);
      FirstAppend(ports, [p], Guest, guest);
      FirstSingle(p, Guest, guest);
      FirstHas(ports, Guest, guest);
    }
  }

  /** Every other port, too, is decided by the level nearest to the root that maps it. */
  lemma {:induction false} RootDecidesPorts(w: Chain, name: string, guest: int)
    requires UniqueChain(w) && guest != SSH
    ensures First(Created(w, name).vm.ports, Guest, guest) == RootPort(w, guest)
  {
    var ports := w.spec.vm.ports;
    match w.parent
    case None =>
      assert Merge(ports, [], Guest) == ports;
      WithSSHOthers(ports, guest);
    case Some(up) =>
      var base := Created(up, w.spec.inherits).vm.ports;
      RootDecidesPorts(up, w.spec.inherits, guest);
      CreatedUnique(up, w.spec.inherits);
      MergeUniqueLookup(ports, base, Guest, guest);
      FirstHas(base, Guest, guest);
      WithSSHOthers(Merge(ports, base, Guest), guest);
  }
}
