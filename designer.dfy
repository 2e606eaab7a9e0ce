/** The domain designer: it holds the domain configuration being built,
    the OS, platform and capabilities it was created for, the deployment
    it looked up (once found), and one target counter per nameable bus. */
module Designer {
  import opened DomainTypes
  import opened Arch
  import opened CapabilityIndex
  import opened OsInfoQueries
  import opened DiskNaming

  class DomainDesigner {
    const os: OsInfo
    const platform: Platform
    const caps: Capabilities

    /** The configuration being built. */
    var config: DomainConfig
    /** The deployment for (os, platform), once a lookup has found it. */
    var deployment: Option<Deployment>
    /** Next free target index on each nameable bus. */
    var ide: nat
    var virtio: nat
    var sata: nat

    constructor (os: OsInfo, platform: Platform, caps: Capabilities)
      ensures this.os == os && this.platform == platform && this.caps == caps
      ensures config == EMPTY_CONFIG && deployment == None
      ensures ide == 0 && virtio == 0 && sata == 0
    {
      this.os := os;
      this.platform := platform;
      this.caps := caps;
      config := EMPTY_CONFIG;
      deployment := None;
      ide, virtio, sata := 0, 0, 0;
    }

    /** The target counter of a bus; buses without one read as 0. */
    function Counter(bus: DiskBus): (n: nat)
      reads this`ide, this`virtio, this`sata
    {
      match bus
      case Ide => ide
      case Virtio => virtio
      case Sata => sata
      case _ => 0
    }

    // ---------------------------------------------------------------
    // Capability queries

    function SupportsMachine(unameMachine: string): (b: bool)
      ensures b <==> exists g :: g in caps.guests && Qualifies(g, NativeArch(caps, unameMachine), MACHINE_OS_TYPES)
    {
      GetGuest(caps, NativeArch(caps, unameMachine)).Some?
    }

    function SupportsMachineFull(arch: string, osType: OsType): (b: bool)
      ensures b <==> exists g :: g in caps.guests && g.arch.name == arch && g.osType == osType
    {
      GetGuestFull(caps, arch, osType).Some?
    }

    function SupportsContainer(unameMachine: string): (b: bool)
      ensures b <==> exists g :: g in caps.guests && g.arch.name == NativeArch(caps, unameMachine) && g.osType == Exe
    {
      GetGuestFull(caps, NativeArch(caps, unameMachine), Exe).Some?
    }

    function SupportsContainerFull(arch: string): (b: bool)
      ensures b <==> exists g :: g in caps.guests && g.arch.name == arch && g.osType == Exe
    {
      GetGuestFull(caps, arch, Exe).Some?
    }

    // ---------------------------------------------------------------
    // Setup

    /** What a setup does with the guest its lookup found: with no guest it
        fails with `notFound`; with a guest whose arch has no variant it
        fails naming the arch; either way the configuration is untouched.
        Otherwise the OS element is replaced by the guest's OS type and
        arch, and the virt type by the best variant's; disks stay. */
    twostate predicate SetupEffect(guest: Option<Guest>, notFound: Error, r: Outcome)
      reads this
    {
      && (guest.None? ==> r == Fail(notFound))
      && (guest.Some? && |guest.value.arch.domains| == 0 ==>
            r == Fail(NoDomainForGuestArch(guest.value.arch.name)))
      && (r.Pass? <==> guest.Some? && |guest.value.arch.domains| > 0)
      && (r.Fail? ==> config == old(config))
      && (r.Pass? ==>
            config == old(config).(
              os := Some(DomainOs(guest.value.osType, guest.value.arch.name)),
              virtType := Some(BestGuestDomain(guest.value.arch).value.virtType)))
    }

    method SetupGuest(guest: Guest) returns (r: Outcome)
      modifies this`config
      ensures SetupEffect(Some(guest), NoDomainForGuestArch(guest.arch.name), r)
      ensures r.Pass? && (exists d :: d in guest.arch.domains && d.virtType == Kvm) ==>
        config.virtType == Some(Kvm)
    {
      var domain := BestGuestDomain(guest.arch);
      if domain.Err? {
        return Fail(domain.error);
      }
      var newOs := DomainOs(guest.osType, guest.arch.name);
      config := config.(virtType := Some(domain.value.virtType));
      config := config.(os := Some(newOs));
      r := Pass;
    }

    method SetupMachine(unameMachine: string) returns (r: Outcome)
      modifies this`config
      ensures SetupEffect(GetGuest(caps, NativeArch(caps, unameMachine)),
                          NoMachineForArch(NativeArch(caps, unameMachine)), r)
      ensures r.Pass? ==> SupportsMachine(unameMachine)
      ensures r.Pass? ==> config.os.value.arch == NativeArch(caps, unameMachine)
      ensures r.Pass? ==> config.os.value.osType in MACHINE_OS_TYPES
    {
      var hostArch := NativeArch(caps, unameMachine);
      var guest := GetGuest(caps, hostArch);
      if guest.None? {
        return Fail(NoMachineForArch(hostArch));
      }
      r := SetupGuest(guest.value);
    }

    method SetupMachineFull(arch: string, osType: OsType) returns (r: Outcome)
      modifies this`config
      ensures SetupEffect(GetGuestFull(caps, arch, osType), NoMachineForArch(arch), r)
      ensures r.Pass? ==> SupportsMachineFull(arch, osType)
      ensures r.Pass? ==> config.os == Some(DomainOs(osType, arch))
    {
      var guest := GetGuestFull(caps, arch, osType);
      if guest.None? {
        return Fail(NoMachineForArch(arch));
      }
      r := SetupGuest(guest.value);
    }

    method SetupContainer(unameMachine: string) returns (r: Outcome)
      modifies this`config
      ensures SetupEffect(GetGuestFull(caps, NativeArch(caps, unameMachine), Exe),
                          NoContainerForArch(NativeArch(caps, unameMachine)), r)
      ensures r.Pass? ==> SupportsContainer(unameMachine)
      ensures r.Pass? ==> config.os == Some(DomainOs(Exe, NativeArch(caps, unameMachine)))
    {
      var hostArch := NativeArch(caps, unameMachine);
      var guest := GetGuestFull(caps, hostArch, Exe);
      if guest.None? {
        return Fail(NoContainerForArch(hostArch));
      }
      r := SetupGuest(guest.value);
    }

    method SetupContainerFull(arch: string) returns (r: Outcome)
      modifies this`config
      ensures SetupEffect(GetGuestFull(caps, arch, Exe), NoContainerForArch(arch), r)
      ensures r.Pass? ==> SupportsContainerFull(arch)
      ensures r.Pass? ==> config.os == Some(DomainOs(Exe, arch))
    {
      var guest := GetGuestFull(caps, arch, Exe);
      if guest.None? {
        return Fail(NoContainerForArch(arch));
      }
      r := SetupGuest(guest.value);
    }

    // ---------------------------------------------------------------
    // Deployment and bus selection

    /** The deployment field after a lookup: kept when it was already set,
        otherwise whatever the database gives (nothing on failure). */
    twostate predicate DeploymentResolved(db: Database)
      reads this
    {
      && (old(deployment).Some? ==> deployment == old(deployment))
      && (old(deployment).None? ==> deployment == FindDeployment(db, os, platform))
    }

    method PreferredDevice(db: Database, cls: string) returns (link: Option<DeviceLink>, err: Option<Error>)
      modifies this`deployment
      ensures DeploymentResolved(db)
      ensures deployment.None? ==> link.None? && err == Some(DeploymentNotFound)
      ensures deployment.Some? ==> err.None? && link == PreferredDeviceLink(deployment.value, cls)
    {
      err := None;
      link := None;
      if deployment.None? {
        deployment := FindDeployment(db, os, platform);
        if deployment.None? {
          err := Some(DeploymentNotFound);
          return;
        }
      }
      link := PreferredDeviceLink(deployment.value, cls);
    }

    method PreferredDiskBusType(db: Database) returns (bus: Option<string>, err: Option<Error>)
      modifies this`deployment
      ensures DeploymentResolved(db)
      ensures bus == PreferredBlockBus(deployment)
      ensures err.Some? <==> deployment.None?
      ensures err.Some? ==> err.value == DeploymentNotFound
    {
      var link;
      link, err := PreferredDevice(db, "block");
      bus := None;
      if link.None? {
        return;
      }
      if link.value.target.Some? {
        bus := link.value.target.value.busType;
      }
    }

    /** Every bus type named by a block device of the OS, duplicates
        dropped; in no particular order. */
    method SupportedDiskBusTypes() returns (buses: set<string>)
      ensures forall s :: s in buses <==>
        exists d :: d in os.devices && d.deviceClass == "block" && d.busType == Some(s)
      ensures buses == BlockBusTypes(os)
    {
      var devs := DevicesByClass(os.devices, "block");
      buses := {};
      var i := 0;
      while i < |devs|
        invariant 0 <= i <= |devs|
        invariant buses == set d | d in devs[..i] && d.busType.Some? :: d.busType.value
      {
        assert devs[..i + 1] == devs[..i] + [devs[i]];
        if devs[i].busType.Some? {
          buses := buses + {devs[i].busType.value};
        }
        i := i + 1;
      }
      assert devs[..i] == devs;
    }

    // ---------------------------------------------------------------
    // Disk targets and attachment

    /** Exactly the counter of `bus` advanced by one. */
    twostate predicate TargetIssued(bus: DiskBus)
      reads this
    {
      && Counter(bus) == old(Counter(bus)) + 1
      && forall b :: b != bus ==> Counter(b) == old(Counter(b))
    }

    twostate predicate CountersUnchanged()
      reads this
    {
      ide == old(ide) && virtio == old(virtio) && sata == old(sata)
    }

    method NextDiskTarget(bus: DiskBus) returns (target: Option<string>)
      modifies this`ide, this`virtio, this`sata
      ensures target.Some? <==> TargetPrefix(bus).Some?
      ensures target.Some? ==>
        target.value == TargetName(TargetPrefix(bus).value, old(Counter(bus))) && TargetIssued(bus)
      ensures target.None? ==> CountersUnchanged()
      ensures ide >= old(ide) && virtio >= old(virtio) && sata >= old(sata)
    {
      match bus
      case Ide =>
        target := Some(TargetName("hd", ide));
        ide := ide + 1;
      case Virtio =>
        target := Some(TargetName("vd", virtio));
        virtio := virtio + 1;
      case Sata =>
        target := Some(TargetName("sd", sata));
        sata := sata + 1;
      case _ =>
        target := None;
    }

    /** A bus the attachment may pick, given the deployment now held: the
        mapped bus of the preferred block device's bus type when there is
        one, else the mapped bus of any block-device bus type of the OS. */
    ghost predicate BusChoice(bus: DiskBus)
      reads this`deployment
    {
      match PreferredBlockBus(deployment)
      case Some(s) => BusFromString(s) == Some(bus)
      case None => exists s :: s in BlockBusTypes(os) && BusFromString(s) == Some(bus)
    }

    /** The bus guess cannot fail: the preferred bus type is supported, or
        there is none and every block-device bus type of the OS is. */
    ghost predicate BusGuessSucceeds()
      reads this`deployment
    {
      match PreferredBlockBus(deployment)
      case Some(s) => s in KNOWN_BUS_STRINGS
      case None => BlockBusTypes(os) != {} && BlockBusTypes(os) <= KNOWN_BUS_STRINGS
    }

    /** The error a failed bus guess reports: the unsupported preferred bus
        type; with no preference and no block-device bus type, the
        deployment lookup's error if the lookup failed, else "no bus type";
        otherwise some unsupported block-device bus type of the OS. */
    ghost predicate BusGuessError(e: Error)
      reads this`deployment
    {
      match PreferredBlockBus(deployment)
      case Some(s) => s !in KNOWN_BUS_STRINGS && e == UnsupportedDiskBus(s)
      case None =>
        if BlockBusTypes(os) == {} then
          e == (if deployment.None? then DeploymentNotFound else NoDiskBusType)
        else
          e.UnsupportedDiskBus? && e.bus in BlockBusTypes(os) - KNOWN_BUS_STRINGS
    }

    /** Guesses the disk bus: the preferred block device's bus type, else
        any bus type of the OS's block devices, mapped to a bus kind. */
    method ChooseDiskBus(db: Database) returns (r: Result<DiskBus>)
      modifies this`deployment
      ensures DeploymentResolved(db)
      ensures r.Ok? ==> BusChoice(r.value) && TargetPrefix(r.value).Some?
      ensures r.Err? ==> BusGuessError(r.error)
      ensures BusGuessSucceeds() ==> r.Ok?
      ensures PreferredBlockBus(deployment).Some? ==> (r.Ok? <==> BusGuessSucceeds())
    {
      var busStr, err := PreferredDiskBusType(db);
      if busStr.None? {
        var buses := SupportedDiskBusTypes();
        if buses == {} {
          return Err(if err.Some? then err.value else NoDiskBusType);
        }
        // the source takes the first key of a hash set: any member will do
        var s :| s in buses;
        busStr := Some(s);
      }
      var bus := BusFromString(busStr.value);
      if bus.None? {
        return Err(UnsupportedDiskBus(busStr.value));
      }
      MappedBusHasPrefix(busStr.value);
      r := Ok(bus.value);
    }

    method AddDiskFull(db: Database, diskType: DiskType, path: string, format: Option<string>, target: Option<string>)
      returns (r: Result<Disk>)
      modifies this`config, this`deployment, this`ide, this`virtio, this`sata
      ensures DeploymentResolved(db)
      // failure: nothing appended, no counter advanced, the bus guess's error
      ensures r.Err? ==> config == old(config) && CountersUnchanged() && BusGuessError(r.error)
      ensures BusGuessSucceeds() ==> r.Ok?
      ensures PreferredBlockBus(deployment).Some? ==> (r.Ok? <==> BusGuessSucceeds())
      // success: exactly this disk appended
      ensures r.Ok? ==> config == old(config).(disks := old(config.disks) + [r.value])
      ensures r.Ok? ==>
        && r.value.diskType == diskType && r.value.source == path
        && r.value.driverName == "qemu" && r.value.driverFormat == format
        && BusChoice(r.value.bus) && TargetPrefix(r.value.bus).Some?
      ensures r.Ok? && target.Some? ==> r.value.targetDev == target.value && CountersUnchanged()
      ensures r.Ok? && target.None? ==>
        && r.value.targetDev == TargetName(TargetPrefix(r.value.bus).value, old(Counter(r.value.bus)))
        && TargetIssued(r.value.bus)
    {
      var bus := ChooseDiskBus(db);
      if bus.Err? {
        return Err(bus.error);
      }
      var targetDev: string;
      if target.Some? {
        targetDev := target.value;
      } else {
        // never None: every bus the guess yields has a name prefix, so the
        // source's "unable to generate target name" error cannot arise
        var generated := NextDiskTarget(bus.value);
        targetDev := generated.value;
      }
      var disk := Disk(diskType, path, "qemu", format, bus.value, targetDev);
      config := config.(disks := config.disks + [disk]);
      r := Ok(disk);
    }

    method AddDiskFile(db: Database, filePath: string, format: Option<string>) returns (r: Result<Disk>)
      modifies this`config, this`deployment, this`ide, this`virtio, this`sata
      ensures DeploymentResolved(db)
      ensures r.Err? ==> config == old(config) && CountersUnchanged() && BusGuessError(r.error)
      ensures BusGuessSucceeds() ==> r.Ok?
      ensures PreferredBlockBus(deployment).Some? ==> (r.Ok? <==> BusGuessSucceeds())
      ensures r.Ok? ==> config == old(config).(disks := old(config.disks) + [r.value])
      ensures r.Ok? ==>
        && r.value.diskType == File && r.value.source == filePath
        && r.value.driverName == "qemu" && r.value.driverFormat == format
        && BusChoice(r.value.bus) && TargetPrefix(r.value.bus).Some?
        && r.value.targetDev == TargetName(TargetPrefix(r.value.bus).value, old(Counter(r.value.bus)))
        && TargetIssued(r.value.bus)
    {
      r := AddDiskFull(db, File, filePath, format, None);
    }

    method AddDiskDevice(db: Database, devPath: string) returns (r: Result<Disk>)
      modifies this`config, this`deployment, this`ide, this`virtio, this`sata
      ensures DeploymentResolved(db)
      ensures r.Err? ==> config == old(config) && CountersUnchanged() && BusGuessError(r.error)
      ensures BusGuessSucceeds() ==> r.Ok?
      ensures PreferredBlockBus(deployment).Some? ==> (r.Ok? <==> BusGuessSucceeds())
      ensures r.Ok? ==> config == old(config).(disks := old(config.disks) + [r.value])
      ensures r.Ok? ==>
        && r.value.diskType == Block && r.value.source == devPath
        && r.value.driverName == "qemu" && r.value.driverFormat == Some("raw")
        && BusChoice(r.value.bus) && TargetPrefix(r.value.bus).Some?
        && r.value.targetDev == TargetName(TargetPrefix(r.value.bus).value, old(Counter(r.value.bus)))
        && TargetIssued(r.value.bus)
    {
      r := AddDiskFull(db, Block, devPath, Some("raw"), None);
    }
  }
}
