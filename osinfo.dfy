/** The libosinfo queries the designer relies on.  libosinfo is an external
    library; these functions give its answers as lookups in the data it
    was loaded with, without modelling how it computes them. */
module OsInfoQueries {
  import opened DomainTypes

  /** The devices of `devices` whose class is `cls`. */
  function DevicesByClass(devices: seq<Device>, cls: string): (r: seq<Device>)
    ensures forall d :: d in r <==> d in devices && d.deviceClass == cls
  {
    if |devices| == 0 then []
    else if devices[0].deviceClass == cls then [devices[0]] + DevicesByClass(devices[1..], cls)
    else DevicesByClass(devices[1..], cls)
  }

  /** The deployment correlating `os` and `platform`, if the database has one. */
  function FindDeployment(db: Database, os: OsInfo, platform: Platform): (r: Option<Deployment>) {
    if (os.id, platform.id) in db.deployments then Some(db.deployments[(os.id, platform.id)]) else None
  }

  /** The deployment's preferred device link for device class `cls`. */
  function PreferredDeviceLink(dep: Deployment, cls: string): (r: Option<DeviceLink>) {
    if cls in dep.preferred then Some(dep.preferred[cls]) else None
  }

  /** The bus type of the preferred block device of a deployment, when the
      deployment prefers one, its link has a target and that target names
      a bus. */
  function PreferredBlockBus(dep: Option<Deployment>): (r: Option<string>)
    ensures r.Some? <==>
      dep.Some? && "block" in dep.value.preferred &&
      dep.value.preferred["block"].target.Some? &&
      dep.value.preferred["block"].target.value.busType.Some?
    ensures r.Some? ==> r == dep.value.preferred["block"].target.value.busType
  {
    if dep.None? then None
    else match PreferredDeviceLink(dep.value, "block")
      case None => None
      case Some(link) =>
        if link.target.Some? then link.target.value.busType else None
  }

  /** The set of bus types named by the block devices of an OS. */
  ghost function BlockBusTypes(os: OsInfo): set<string> {
    set d | d in DevicesByClass(os.devices, "block") && d.busType.Some? :: d.busType.value
  }
}
