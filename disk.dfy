/** Disk buses and disk target names: the mapping from libosinfo bus
    strings to libvirt bus kinds, and the names "hda", "vdb", "sdc", ...
    built from a per-bus counter. */
module DiskNaming {
  import opened DomainTypes

  /** The bus strings the designer can map to a bus kind. */
  const KNOWN_BUS_STRINGS: set<string> := {"ide", "virtio", "pci", "sata"}

  /** Maps a libosinfo bus string to the libvirt bus kind; any string
      other than "ide", "virtio", "pci" and "sata" is unsupported. */
  function BusFromString(s: string): (r: Option<DiskBus>)
    ensures r.Some? <==> s in KNOWN_BUS_STRINGS
    ensures r == Some(Ide) <==> s == "ide"
    ensures r == Some(Virtio) <==> s == "virtio" || s == "pci"
    ensures r == Some(Sata) <==> s == "sata"
  {
    if s == "ide" then Some(Ide)
    else if s == "virtio" || s == "pci" then Some(Virtio)
    else if s == "sata" then Some(Sata)
    else None
  }

  /** The canonical libosinfo name of a bus kind that has one. */
  function BusName(bus: DiskBus): (r: Option<string>)
    ensures r.Some? <==> bus in {Ide, Virtio, Sata}
  {
    match bus
    case Ide => Some("ide")
    case Virtio => Some("virtio")
    case Sata => Some("sata")
    case _ => None
  }

  /** Mapping a bus kind's name back gives the bus kind. */
  lemma {:induction false} BusNameRoundTrip(bus: DiskBus)
    requires BusName(bus).Some?
    ensures BusFromString(BusName(bus).value) == Some(bus)
  {
  }

  /** Every string that maps to a bus is that bus's name, or "pci". */
  lemma {:induction false} BusFromStringInverse(s: string)
    requires BusFromString(s).Some?
    ensures BusName(BusFromString(s).value) == Some(s) || s == "pci"
  {
  }

  /** Every bus the mapping yields is one a target name can be made for. */
  lemma {:induction false} MappedBusHasPrefix(s: string)
    requires BusFromString(s).Some?
    ensures TargetPrefix(BusFromString(s).value).Some?
  {
  }

  /** The target-name prefix of a bus: "hd" for IDE, "vd" for virtio,
      "sd" for SATA; no other bus is supported for naming. */
  function TargetPrefix(bus: DiskBus): (r: Option<string>)
    ensures r.Some? <==> bus in {Ide, Virtio, Sata}
    ensures r.Some? ==> |r.value| == 2 && r.value[1] == 'd'
  {
    match bus
    case Ide => Some("hd")
    case Virtio => Some("vd")
    case Sata => Some("sd")
    case _ => None
  }

  /** `'a' + n` printed with `%c`: the low byte of the character code. */
  function Suffix(n: nat): (c: char)
    ensures n < 26 ==> 'a' <= c <= 'z'
    ensures n < 256 - 'a' as int ==> c as int == 'a' as int + n
  {
    (('a' as int + n) % 256) as char
  }

  /** The n-th target name of a bus with the given prefix. */
  function TargetName(prefix: string, n: nat): (r: string)
    ensures |r| == |prefix| + 1 && r[..|prefix|] == prefix && r[|prefix|] == Suffix(n)
  {
    prefix + [Suffix(n)]
  }

  /** The number of counter values whose names are pairwise distinct
      (the suffix byte wraps after that). */
  const DISTINCT_TARGETS: nat := 256 - 'a' as int

  /** Below the wrap, names issued for one bus differ only in their last
      character, which strictly increases with the counter, so no name is
      issued twice. */
  lemma {:induction false} TargetNamesIncrease(prefix: string, m: nat, n: nat)
    requires m < n < DISTINCT_TARGETS
    ensures TargetName(prefix, m)[..|prefix|] == TargetName(prefix, n)[..|prefix|]
    ensures TargetName(prefix, m)[|prefix|] < TargetName(prefix, n)[|prefix|]
    ensures TargetName(prefix, m) != TargetName(prefix, n)
  {
  }

  /** Names on different buses never collide: the prefixes differ. */
  lemma {:induction false} TargetNamesDisjointAcrossBuses(b1: DiskBus, b2: DiskBus, m: nat, n: nat)
    requires TargetPrefix(b1).Some? && TargetPrefix(b2).Some? && b1 != b2
    ensures TargetName(TargetPrefix(b1).value, m) != TargetName(TargetPrefix(b2).value, n)
  {
  }
}
