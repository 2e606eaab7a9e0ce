# libvirt-designer domain designer, in Dafny

A model of the decision logic of libvirt-designer's domain designer
(`GVirDesignerDomain`). Given a libvirt capabilities document, a libosinfo
OS and platform, it builds a libvirt domain configuration:

- **Architecture names** (`Arch`): `i386`, `i486`, `i586` and `i686` are
  squashed to `i686`. The host's native arch comes from the capabilities
  document's host CPU arch, or from the running machine when that is absent.
- **Capability lookups** (`CapabilityIndex`): a first-match scan over the
  guests for an exact arch name and a set of allowed OS types. Machines
  accept {HVM, Linux, Xen, UML}, the `_full` forms accept one given type,
  and containers accept Exe. The best hypervisor variant of a guest arch is
  its first KVM variant, otherwise its first variant.
- **libosinfo queries** (`OsInfoQueries`): the OS's devices of a class, the
  deployment for an (OS, platform) pair, and a deployment's preferred
  device link. These are given as lookups in data.
- **Disk buses and target names** (`DiskNaming`): the bus-string table
  ("ide", "virtio"/"pci", "sata") and the names `hd?`, `vd?`, `sd?`.
- **The designer object** (`Designer.DomainDesigner`): a class with the
  configuration (OS type and arch, virt type, disks), the memoised
  deployment and three target counters. Its methods set up a machine or
  container and attach disks, updating those fields in place.
- `Scenarios` is client code. It shows what a caller can conclude from the
  contracts alone: `vda`, `vdb`, `vdc` on a virtio-only OS; a preferred IDE
  bus with a deployment that is looked up once; a second setup replacing
  the first; a failed attachment that changes nothing.

Inputs the designer gets from outside are parameters. `unameMachine`
stands for what `uname()` reports. `db` stands for the global libosinfo
database, passed on each disk operation so that the deployment memo can be
observed.

Two behaviours of the code are kept as written:

- The host CPU arch is used whenever the capabilities document has one,
  even an empty string: line 326 tests only for NULL.
- The fallback bus is whichever key the hash table lists first (line 818),
  and GLib leaves that order unspecified; the model allows any member of
  the bus-type set.

## Model

| member | source | states |
|---|---|---|
| `Arch.Normalize` | libvirt-designer/libvirt-designer-domain.c:298-312 | the four i?86 names give "i686"; every other name is returned unchanged; the result is in the i?86 family iff the input is |
| `Arch.NormalizeIdempotent` | libvirt-designer/libvirt-designer-domain.c:298-312 | normalising twice equals normalising once |
| `Arch.NormalizeSameFamily` | libvirt-designer/libvirt-designer-domain.c:301-311 | two names normalise alike iff they are equal or both i?86 names |
| `Arch.NativeArch` | libvirt-designer/libvirt-designer-domain.c:315-333 | the result is normalised; it is the capabilities' host CPU arch when present, otherwise the uname machine name |
| `CapabilityIndex.FindGuest` | libvirt-designer/libvirt-designer-domain.c:345-365 | the position found qualifies (exact arch name, allowed OS type) and no earlier guest qualifies; none only when no guest qualifies |
| `CapabilityIndex.FirstGuest` | libvirt-designer/libvirt-designer-domain.c:336-407 | a guest is returned iff some guest qualifies; it qualifies and is the first qualifying guest in document order |
| `CapabilityIndex.GetGuest` | libvirt-designer/libvirt-designer-domain.c:336-371 | returns a guest iff some guest has the wanted arch name and an HVM, Linux, Xen or UML OS type; that guest has that arch and such a type, and no earlier guest does |
| `CapabilityIndex.GetGuestFull` | libvirt-designer/libvirt-designer-domain.c:374-407 | returns a guest iff some guest has the wanted arch name and exactly the given OS type; it is the first such guest in document order |
| `CapabilityIndex.FirstGuestIsEarliest` | libvirt-designer/libvirt-designer-domain.c:345-362 | when several guests qualify, the earliest one in the document is returned |
| `CapabilityIndex.GetGuestFullImpliesGetGuest` | libvirt-designer/libvirt-designer-domain.c:355-359 | a guest found for one machine OS type implies the machine lookup finds one |
| `CapabilityIndex.FindKvm` | libvirt-designer/libvirt-designer-domain.c:493-504 | the position found holds a KVM variant and no earlier variant is KVM; none only when no variant is KVM |
| `CapabilityIndex.BestGuestDomain` | libvirt-designer/libvirt-designer-domain.c:481-522 | fails iff the variant list is empty, with an error naming the guest arch; otherwise the result is one of the variants: a KVM one if any exists, else the first |
| `CapabilityIndex.BestIsFirstKvm` | libvirt-designer/libvirt-designer-domain.c:491-504 | the variant returned is the first KVM variant |
| `OsInfoQueries.DevicesByClass` | libvirt-designer/libvirt-designer-domain.c:684 | the devices returned are exactly the OS's devices of the given class |
| `OsInfoQueries.PreferredBlockBus` | libvirt-designer/libvirt-designer-domain.c:740-758 | a bus type results iff there is a deployment that prefers a block device whose link has a target with a bus type; it is that bus type |
| `DiskNaming.BusFromString` | libvirt-designer/libvirt-designer-domain.c:832-843 | maps "ide" to IDE, "virtio" and "pci" to virtio, "sata" to SATA (each both ways); every other string is unsupported |
| `DiskNaming.BusName` | libvirt-designer/libvirt-designer-domain.c:832-843 | IDE, virtio and SATA, and only those, have a bus-string name |
| `DiskNaming.BusNameRoundTrip` | libvirt-designer/libvirt-designer-domain.c:832-843 | mapping a bus kind's name back gives the bus kind |
| `DiskNaming.BusFromStringInverse` | libvirt-designer/libvirt-designer-domain.c:834-836 | a string that maps to a bus is that bus's name or "pci" |
| `DiskNaming.MappedBusHasPrefix` | libvirt-designer/libvirt-designer-domain.c:767-776 | every bus the string mapping yields has a target-name prefix |
| `DiskNaming.TargetPrefix` | libvirt-designer/libvirt-designer-domain.c:767-786 | IDE, virtio and SATA, and only those, have a two-letter prefix ending in 'd' |
| `DiskNaming.Suffix` | libvirt-designer/libvirt-designer-domain.c:769-775 | below 26 the suffix is a letter 'a'..'z'; below the byte wrap its code is 'a' plus the counter |
| `DiskNaming.TargetName` | libvirt-designer/libvirt-designer-domain.c:769-775 | the name is the prefix followed by one suffix character |
| `DiskNaming.TargetNamesIncrease` | libvirt-designer/libvirt-designer-domain.c:769-775 | below the byte wrap, two names on one bus share the prefix and their last character strictly increases with the counter, so none repeats |
| `DiskNaming.TargetNamesDisjointAcrossBuses` | libvirt-designer/libvirt-designer-domain.c:767-776 | names generated for different buses never collide |
| `Designer.DomainDesigner.constructor` | libvirt-designer/libvirt-designer-domain.c:203-222 | a new designer holds the given OS, platform and capabilities, an empty configuration, no deployment and zero counters |
| `Designer.DomainDesigner.SupportsMachine` | libvirt-designer/libvirt-designer-domain.c:410-425 | true iff some guest has the native arch and a machine OS type; reads no mutable state |
| `Designer.DomainDesigner.SupportsMachineFull` | libvirt-designer/libvirt-designer-domain.c:428-443 | true iff some guest has the given arch and OS type; reads no mutable state |
| `Designer.DomainDesigner.SupportsContainer` | libvirt-designer/libvirt-designer-domain.c:445-461 | true iff some Exe guest has the native arch; reads no mutable state |
| `Designer.DomainDesigner.SupportsContainerFull` | libvirt-designer/libvirt-designer-domain.c:463-478 | true iff some Exe guest has the given arch; reads no mutable state |
| `Designer.DomainDesigner.SetupGuest` | libvirt-designer/libvirt-designer-domain.c:525-556 | fails naming the arch iff the guest arch has no variant, leaving the configuration unchanged; otherwise replaces the OS type/arch and virt type with the guest's and its best variant's, keeps the disks, and picks KVM whenever it is offered |
| `Designer.DomainDesigner.SetupMachine` | libvirt-designer/libvirt-designer-domain.c:559-585 | no machine guest for the native arch: fails naming the arch, config unchanged; otherwise the SetupGuest effect for the first such guest; on success the machine is supported and the arch written is the native arch |
| `Designer.DomainDesigner.SetupMachineFull` | libvirt-designer/libvirt-designer-domain.c:588-614 | as SetupMachine, for the given arch and OS type; on success the OS element is exactly (given type, given arch) |
| `Designer.DomainDesigner.SetupContainer` | libvirt-designer/libvirt-designer-domain.c:617-644 | as SetupMachine with Exe guests and the container error |
| `Designer.DomainDesigner.SetupContainerFull` | libvirt-designer/libvirt-designer-domain.c:647-673 | as SetupContainer, for the given arch |
| `Designer.DomainDesigner.PreferredDevice` | libvirt-designer/libvirt-designer-domain.c:706-738 | a held deployment is kept and no lookup result matters; otherwise the field becomes the lookup's result; with no deployment the result is the "not found" error and no link; else no error and the deployment's preferred link for the class |
| `Designer.DomainDesigner.PreferredDiskBusType` | libvirt-designer/libvirt-designer-domain.c:740-758 | the memo rule as above; the result is the preferred block device's bus type; an error exactly when no deployment is held |
| `Designer.DomainDesigner.SupportedDiskBusTypes` | libvirt-designer/libvirt-designer-domain.c:675-704 | the set of bus types named by the OS's block devices, duplicates dropped and devices without a bus skipped |
| `Designer.DomainDesigner.NextDiskTarget` | libvirt-designer/libvirt-designer-domain.c:760-789 | for IDE, virtio and SATA: the name is the bus prefix plus the suffix of the bus's old counter, and only that counter advances by one; for any other bus: no name and no counter changes |
| `Designer.DomainDesigner.ChooseDiskBus` | libvirt-designer/libvirt-designer-domain.c:806-843 | the bus is the mapped preferred bus type, otherwise the mapped bus type of some block device of the OS; it always has a name prefix; the errors are as BusGuessError states; it succeeds whenever every candidate string is supported |
| `Designer.DomainDesigner.AddDiskFull` | libvirt-designer/libvirt-designer-domain.c:791-870 | on failure: config and counters unchanged, with the bus-guess error. On success: exactly one disk appended, with the given type, path and format, driver "qemu", and a bus from the guess. The target is the one supplied (counters unchanged), or the next generated name (only that bus's counter advances). The deployment memo rule holds |
| `Designer.DomainDesigner.AddDiskFile` | libvirt-designer/libvirt-designer-domain.c:882-898 | as AddDiskFull for a file disk with a generated target |
| `Designer.DomainDesigner.AddDiskDevice` | libvirt-designer/libvirt-designer-domain.c:910-925 | as AddDiskFull for a block-device disk with format "raw" and a generated target |

## Left out

- The GObject type, property, finalize and class boilerplate, the getters and reference counting. They hold no decisions.
- The `uname()` call. Its answer is the `unameMachine` parameter.
- libosinfo itself. The database lookup, the preferred-link filter and the devices-by-property query are lookups in the data they are given (`FindDeployment`, `PreferredDeviceLink`, `DevicesByClass`). How libosinfo computes them is not part of this model.
- libvirt-gconfig objects. The configuration is a record of the parts the designer writes. Setting the OS element replaces OS type and arch together, as `gvir_config_domain_set_os` does with a fresh OS object.
- Error messages and the GError domain. Errors are a datatype carrying the detail the message names. The `_full` machine error carries only the arch, because the source prints a placeholder for the OS type.
- Passing a NULL error pointer, which makes the source dereference it at line 812. Also the `item->data == NULL` path at line 820: hash keys are copies of non-NULL strings, so it cannot arise.
- The "unable to generate target name" error (lines 849-853). The string mapping only yields IDE, virtio or SATA, which always get a name. `AddDiskFull` proves this, so the model has no such error kind and never produces one.
- The hash table's iteration order. The fallback picks any member of the bus-type set.
- Designer.DomainDesigner.NextDiskTarget: counters are unbounded naturals, not 32-bit unsigned ints that wrap. The suffix byte is the same either way. A suffix byte of 0 would end the C string early; that is not modelled.
- Concurrency. The designer is single-threaded, and nothing here models shared use.
