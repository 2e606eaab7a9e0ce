/** The values the domain designer reads and writes: the capabilities
    document of a host, the libosinfo records it consults, the domain
    configuration it fills in, and the errors it reports. */
module DomainTypes {

  datatype Option<+T> = None | Some(value: T)

  /** Success with a value, or one of the designer's errors. */
  datatype Result<+T> = Ok(value: T) | Err(error: Error)

  /** Success or one of the designer's errors, for operations that only
      report whether they worked. */
  datatype Outcome = Pass | Fail(error: Error)

  /** The errors the designer raises.  The message text is not modelled,
      only the kind and the detail it names. */
  datatype Error =
    | NoMachineForArch(arch: string)
    | NoContainerForArch(arch: string)
    | NoDomainForGuestArch(arch: string)
    | DeploymentNotFound
    | NoDiskBusType
    | UnsupportedDiskBus(bus: string)

  /** The guest OS types libvirt-gconfig knows. */
  datatype OsType = Hvm | Linux | Exe | Xen | Uml

  /** The hypervisor types libvirt-gconfig knows. */
  datatype VirtType =
    | Qemu | Kqemu | Kvm | XenVirt | Lxc | UmlVirt | OpenVz | VServer
    | Ldom | Test | VMware | HyperV | VBox | One | Phyp

  /** One hypervisor variant offered for a guest architecture. */
  datatype GuestDomain = GuestDomain(virtType: VirtType)

  /** A guest architecture with its hypervisor variants, in document order. */
  datatype GuestArch = GuestArch(name: string, domains: seq<GuestDomain>)

  /** One guest entry of the capabilities document. */
  datatype Guest = Guest(osType: OsType, arch: GuestArch)

  /** A capabilities document: the host CPU architecture (absent when the
      document has no host, no CPU or no arch element) and the guests, in
      document order. */
  datatype Capabilities = Capabilities(hostCpuArch: Option<string>, guests: seq<Guest>)

  /** A libosinfo device: its class ("block", "net", ...) and its bus type,
      when it has one. */
  datatype Device = Device(deviceClass: string, busType: Option<string>)

  /** A libosinfo device link; its target device may be missing. */
  datatype DeviceLink = DeviceLink(target: Option<Device>)

  /** A libosinfo OS: its identifier and every device it supports,
      inherited ones included. */
  datatype OsInfo = OsInfo(id: string, devices: seq<Device>)

  /** A libosinfo virtualization platform. */
  datatype Platform = Platform(id: string)

  /** A libosinfo deployment: for each device class, the preferred
      device link. */
  datatype Deployment = Deployment(preferred: map<string, DeviceLink>)

  /** The libosinfo database: deployments keyed by OS and platform id. */
  datatype Database = Database(deployments: map<(string, string), Deployment>)

  /** Disk buses of libvirt-gconfig. */
  datatype DiskBus = Ide | Fdc | Scsi | Virtio | XenBus | Usb | UmlBus | Sata

  /** Where a disk's data comes from. */
  datatype DiskType = File | Block | Dir | Network

  /** A disk device of the domain configuration. */
  datatype Disk = Disk(
    diskType: DiskType,
    source: string,
    driverName: string,
    driverFormat: Option<string>,
    bus: DiskBus,
    targetDev: string)

  /** The OS element of the configuration: guest OS type and arch. */
  datatype DomainOs = DomainOs(osType: OsType, arch: string)

  /** The parts of the domain configuration the designer writes. */
  datatype DomainConfig = DomainConfig(
    os: Option<DomainOs>,
    virtType: Option<VirtType>,
    disks: seq<Disk>)

  const EMPTY_CONFIG := DomainConfig(None, None, [])
}
