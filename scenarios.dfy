/** Client code: what a caller can conclude from the designer's contracts
    alone, on a few concrete situations. */
module Scenarios {
  import opened DomainTypes
  import opened CapabilityIndex
  import opened OsInfoQueries
  import opened Designer

  /** The best variant is the first KVM one, or else the first one. */
  lemma BestVariantExamples()
    ensures BestGuestDomain(GuestArch("x86_64", [GuestDomain(Qemu), GuestDomain(Kvm), GuestDomain(XenVirt)]))
      == Ok(GuestDomain(Kvm))
    ensures BestGuestDomain(GuestArch("x86_64", [GuestDomain(Qemu), GuestDomain(XenVirt)]))
      == Ok(GuestDomain(Qemu))
    ensures BestGuestDomain(GuestArch("ppc", [])) == Err(NoDomainForGuestArch("ppc"))
  {
  }

  /** A host reporting x86_64 with one HVM guest offering KVM and one
      aarch64 guest offering QEMU. */
  function TwoGuestCaps(): Capabilities {
    Capabilities(Some("x86_64"), [
      Guest(Hvm, GuestArch("x86_64", [GuestDomain(Kvm)])),
      Guest(Hvm, GuestArch("aarch64", [GuestDomain(Qemu)]))])
  }

  /** The machine is set up for KVM on the host arch; a second setup for
      another arch replaces the whole OS triple. */
  method SetupOverwrites() {
    var caps := TwoGuestCaps();
    var design := new DomainDesigner(OsInfo("fedora", []), Platform("kvm"), caps);

    FirstGuestIsEarliest(caps, "x86_64", MACHINE_OS_TYPES, 0);
    var setup := design.SetupMachine("ignored");
    assert setup == Pass;
    assert design.config.os == Some(DomainOs(Hvm, "x86_64"));
    assert design.config.virtType == Some(Kvm);

    FirstGuestIsEarliest(caps, "aarch64", {Hvm}, 1);
    var again := design.SetupMachineFull("aarch64", Hvm);
    assert again == Pass;
    assert design.config.os == Some(DomainOs(Hvm, "aarch64"));
    assert design.config.virtType == Some(Qemu);

    var container := design.SetupContainerFull("x86_64");
    assert container == Fail(NoContainerForArch("x86_64"));
    assert design.config.os == Some(DomainOs(Hvm, "aarch64"));
  }

  /** An OS whose only block device is on virtio and no deployment in the
      database: three disks get vda, vdb, vdc. */
  method VirtioDisks() {
    var os := OsInfo("fedora", [Device("block", Some("virtio")), Device("net", Some("pci"))]);
    var db := Database(map[]);
    var design := new DomainDesigner(os, Platform("kvm"), TwoGuestCaps());
    assert DevicesByClass(os.devices, "block") == [Device("block", Some("virtio"))];
    assert BlockBusTypes(os) == {"virtio"};

    var d1 := design.AddDiskFile(db, "/vm/disk.qcow2", Some("qcow2"));
    assert d1.Ok? && d1.value.bus == Virtio && d1.value.targetDev == "vda";
    var d2 := design.AddDiskFile(db, "/vm/disk2.qcow2", Some("qcow2"));
    assert d2.Ok? && d2.value.targetDev == "vdb";
    var d3 := design.AddDiskDevice(db, "/dev/sdb");
    assert d3.Ok? && d3.value.targetDev == "vdc" && d3.value.driverFormat == Some("raw");
    assert design.config.disks == [d1.value, d2.value, d3.value];
    assert design.deployment == None;
  }

  /** A deployment that prefers an IDE block device: the deployment is
      looked up once and kept, disks get hda, hdb, and a later change of
      the database does not matter. */
  method PreferredIde() {
    var caps := Capabilities(None, []);
    var os := OsInfo("winxp", [Device("block", Some("virtio"))]);
    var dep := Deployment(map["block" := DeviceLink(Some(Device("block", Some("ide"))))]);
    var db := Database(map[("winxp", "qemu") := dep]);
    var design := new DomainDesigner(os, Platform("qemu"), caps);

    var d1 := design.AddDiskFile(db, "/vm/a.img", None);
    assert design.deployment == Some(dep);
    assert d1.Ok? && d1.value.bus == Ide && d1.value.targetDev == "hda";
    var d2 := design.AddDiskFile(Database(map[]), "/vm/b.img", None);
    assert design.deployment == Some(dep);
    assert d2.Ok? && d2.value.targetDev == "hdb";
    assert design.Counter(Virtio) == 0;

    var explicit := design.AddDiskFull(db, File, "/vm/c.img", None, Some("hdz"));
    assert explicit.Ok? && explicit.value.targetDev == "hdz" && design.ide == 2;
  }

  /** No deployment and no block device bus: the lookup error is reported
      and nothing changes. */
  method NoBus() {
    var caps := Capabilities(None, []);
    var os := OsInfo("minimal", [Device("block", None)]);
    var design := new DomainDesigner(os, Platform("qemu"), caps);
    assert BlockBusTypes(os) == {};
    var d := design.AddDiskFile(Database(map[]), "/vm/a.img", None);
    assert d == Err(DeploymentNotFound);
    assert design.config == EMPTY_CONFIG;
  }
}
