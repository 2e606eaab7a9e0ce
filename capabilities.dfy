/** Queries over a capabilities document: the first guest for an
    architecture and a set of OS types, and the best hypervisor variant of
    a guest architecture. */
module CapabilityIndex {
  import opened DomainTypes

  /** The OS types a "machine" lookup accepts. */
  const MACHINE_OS_TYPES: set<OsType> := {Hvm, Linux, Xen, Uml}

  /** A guest qualifies when its arch name equals the wanted one exactly
      (no normalisation) and its OS type is allowed. */
  predicate Qualifies(g: Guest, wantArch: string, allowed: set<OsType>) {
    g.arch.name == wantArch && g.osType in allowed
  }

  /** Position of the first qualifying guest, scanning in document order. */
  function FindGuest(guests: seq<Guest>, wantArch: string, allowed: set<OsType>): (r: Option<nat>)
    ensures r.Some? ==> r.value < |guests| && Qualifies(guests[r.value], wantArch, allowed)
    ensures r.Some? ==> forall j :: 0 <= j < r.value ==> !Qualifies(guests[j], wantArch, allowed)
    ensures r.None? ==> forall j :: 0 <= j < |guests| ==> !Qualifies(guests[j], wantArch, allowed)
  {
    if |guests| == 0 then None
    else if Qualifies(guests[0], wantArch, allowed) then Some(0)
    else
      match FindGuest(guests[1..], wantArch, allowed)
      case None => None
      case Some(i) => Some(i + 1)
  }

  /** The first guest of the document for `wantArch` whose OS type is one
      of `allowed`; the shared core of both lookups below. */
  function FirstGuest(caps: Capabilities, wantArch: string, allowed: set<OsType>): (r: Option<Guest>)
    ensures r.Some? <==> exists g :: g in caps.guests && Qualifies(g, wantArch, allowed)
    ensures r.Some? ==> Qualifies(r.value, wantArch, allowed)
    ensures r.Some? ==>
      exists i :: 0 <= i < |caps.guests| && caps.guests[i] == r.value &&
        forall j :: 0 <= j < i ==> !Qualifies(caps.guests[j], wantArch, allowed)
  {
    match FindGuest(caps.guests, wantArch, allowed)
    case None => None
    case Some(i) => Some(caps.guests[i])
  }

  /** The lookup for machines: HVM, Linux, Xen or UML guests. */
  function GetGuest(caps: Capabilities, wantArch: string): (r: Option<Guest>)
    ensures r.Some? <==> exists g :: g in caps.guests && g.arch.name == wantArch && g.osType in MACHINE_OS_TYPES
    ensures r.Some? ==> r.value in caps.guests && r.value.arch.name == wantArch
    ensures r.Some? ==> r.value.osType in {Hvm, Linux, Xen, Uml}
    ensures r.Some? ==>
      exists i :: 0 <= i < |caps.guests| && caps.guests[i] == r.value &&
        forall j :: 0 <= j < i ==> !(caps.guests[j].arch.name == wantArch && caps.guests[j].osType in MACHINE_OS_TYPES)
  {
    FirstGuest(caps, wantArch, MACHINE_OS_TYPES)
  }

  /** The lookup for one given OS type (Exe for containers). */
  function GetGuestFull(caps: Capabilities, wantArch: string, osType: OsType): (r: Option<Guest>)
    ensures r.Some? <==> exists g :: g in caps.guests && g.arch.name == wantArch && g.osType == osType
    ensures r.Some? ==> r.value in caps.guests && r.value.arch.name == wantArch && r.value.osType == osType
    ensures r.Some? ==>
      exists i :: 0 <= i < |caps.guests| && caps.guests[i] == r.value &&
        forall j :: 0 <= j < i ==> !(caps.guests[j].arch.name == wantArch && caps.guests[j].osType == osType)
  {
    FirstGuest(caps, wantArch, {osType})
  }

  /** Position of the first KVM variant. */
  function FindKvm(domains: seq<GuestDomain>): (r: Option<nat>)
    ensures r.Some? ==> r.value < |domains| && domains[r.value].virtType == Kvm
    ensures r.Some? ==> forall j :: 0 <= j < r.value ==> domains[j].virtType != Kvm
    ensures r.None? ==> forall j :: 0 <= j < |domains| ==> domains[j].virtType != Kvm
  {
    if |domains| == 0 then None
    else if domains[0].virtType == Kvm then Some(0)
    else
      match FindKvm(domains[1..])
      case None => None
      case Some(i) => Some(i + 1)
  }

  /** The best hypervisor variant of a guest arch: the first KVM one, else
      the first one; an error naming the arch when there is none. */
  function BestGuestDomain(arch: GuestArch): (r: Result<GuestDomain>)
    ensures r.Err? <==> |arch.domains| == 0
    ensures r.Err? ==> r.error == NoDomainForGuestArch(arch.name)
    ensures r.Ok? ==> r.value in arch.domains
    ensures r.Ok? && (exists d :: d in arch.domains && d.virtType == Kvm) ==>
      r.value.virtType == Kvm
    ensures r.Ok? && (forall d :: d in arch.domains ==> d.virtType != Kvm) ==>
      r.value == arch.domains[0]
  {
    match FindKvm(arch.domains)
    case Some(i) => Ok(arch.domains[i])
    case None =>
      if |arch.domains| > 0 then Ok(arch.domains[0])
      else Err(NoDomainForGuestArch(arch.name))
  }

  /** A variant list that has no KVM entry before position k and a KVM
      entry at k gives the entry at k. */
  lemma {:induction false} BestIsFirstKvm(arch: GuestArch, k: nat)
    requires k < |arch.domains| && arch.domains[k].virtType == Kvm
    requires forall j :: 0 <= j < k ==> arch.domains[j].virtType != Kvm
    ensures BestGuestDomain(arch) == Ok(arch.domains[k])
  {
  }

  /** The scan is order-dependent: when several guests qualify, the one
      earliest in the document wins. */
  lemma {:induction false} FirstGuestIsEarliest(caps: Capabilities, wantArch: string, allowed: set<OsType>, k: nat)
    requires k < |caps.guests| && Qualifies(caps.guests[k], wantArch, allowed)
    requires forall j :: 0 <= j < k ==> !Qualifies(caps.guests[j], wantArch, allowed)
    ensures FirstGuest(caps, wantArch, allowed) == Some(caps.guests[k])
  {
  }

  /** A guest found for one machine OS type means the machine lookup,
      which accepts all four, finds one too. */
  lemma {:induction false} GetGuestFullImpliesGetGuest(caps: Capabilities, wantArch: string, osType: OsType)
    requires osType in MACHINE_OS_TYPES
    requires GetGuestFull(caps, wantArch, osType).Some?
    ensures GetGuest(caps, wantArch).Some?
  {
  }
}
