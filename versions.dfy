/**
 The backend's protocol version and the gate that parks the watcher once the
 backend speaks the 3.x protocol.
 */
module Versions {
  import opened Registry

  /** A "major.minor.patch" version, already split into its numbers. */
  datatype Version = Version(major: nat, minor: nat, patch: nat)

  /** Numeric comparison, major first: negative, zero or positive as a < b, a == b, a > b. */
  function CompareVersion(a: Version, b: Version): (r: int)
    ensures -1 <= r <= 1
    ensures r == 0 <==> a == b
    ensures r < 0 <==> (a.major < b.major
                        || (a.major == b.major && a.minor < b.minor)
                        || (a.major == b.major && a.minor == b.minor && a.patch < b.patch))
  {
    if a.major != b.major then (if a.major < b.major then -1 else 1)
    else if a.minor != b.minor then (if a.minor < b.minor then -1 else 1)
    else if a.patch != b.patch then (if a.patch < b.patch then -1 else 1)
    else 0
  }

  const NewProtocolVersion: Version := Version(3, 0, 0)

  /**
   The watcher does no sweep work once the known version is at least 3.0.0;
   an unknown version never parks it.
   */
  predicate Gated(version: Option<Version>): (gated: bool)
    ensures gated ==> version.Some?
    ensures version.Some? && version.value.major >= 3 ==> gated
    ensures version.Some? && version.value.major < 3 ==> !gated
  {
    version.Some? && CompareVersion(version.value, NewProtocolVersion) >= 0
  }

  lemma CompareAntisymmetric(a: Version, b: Version)
    ensures CompareVersion(a, b) == -CompareVersion(b, a)
  {
  }

  lemma CompareTransitive(a: Version, b: Version, c: Version)
    requires CompareVersion(a, b) <= 0 && CompareVersion(b, c) <= 0
    ensures CompareVersion(a, c) <= 0
  {
  }

  /** Exactly the versions of major 3 or later are gated; an unknown version never is. */
  lemma GatedIffMajorAtLeast3(version: Option<Version>)
    ensures Gated(version) <==> version.Some? && version.value.major >= 3
  {
  }

  /** The comparison is numeric, not lexical: 10.0.0 is gated, 2.5.1 is not. */
  lemma GateExamples()
    ensures Gated(Some(Version(10, 0, 0)))
    ensures Gated(Some(Version(3, 0, 0)))
    ensures !Gated(Some(Version(2, 5, 1)))
    ensures !Gated(None)
  {
  }
}
