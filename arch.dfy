/** Architecture names: the i?86 family is squashed to one name, and the
    host's native architecture comes from the capabilities document or,
    failing that, from the running machine. */
module Arch {
  import opened DomainTypes

  /** The 32-bit x86 names that all denote the same architecture. */
  const I86_NAMES: set<string> := {"i386", "i486", "i586", "i686"}

  function Normalize(arch: string): (r: string)
    ensures arch in I86_NAMES ==> r == "i686"
    ensures arch !in I86_NAMES ==> r == arch
    ensures r in I86_NAMES <==> arch in I86_NAMES
  {
    if arch == "i386" || arch == "i486" || arch == "i586" || arch == "i686" then "i686"
    else arch
  }

  /** A name that normalisation leaves alone. */
  predicate IsNormalized(arch: string) {
    Normalize(arch) == arch
  }

  /** Normalising twice is normalising once. */
  lemma NormalizeIdempotent(arch: string)
    ensures IsNormalized(Normalize(arch))
  {
  }

  /** Two names normalise alike exactly when they are equal or both in
      the i?86 family. */
  lemma NormalizeSameFamily(a: string, b: string)
    ensures Normalize(a) == Normalize(b) <==> a == b || (a in I86_NAMES && b in I86_NAMES)
  {
  }

  /** The host's native architecture.  `unameMachine` stands for the
      machine field uname() reports, consulted only when the capabilities
      document has no host CPU arch. */
  function NativeArch(caps: Capabilities, unameMachine: string): (r: string)
    ensures IsNormalized(r)
    ensures caps.hostCpuArch.Some? ==> r == Normalize(caps.hostCpuArch.value)
    ensures caps.hostCpuArch.None? ==> r == Normalize(unameMachine)
  {
    match caps.hostCpuArch
    case Some(arch) => Normalize(arch)
    case None => Normalize(unameMachine)
  }
}
