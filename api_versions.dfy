/**
 * NMOS API versions: a (major, minor) pair such as v1.2, compared
 * lexicographically (major first, then minor).
 */
module ApiVersions {

  datatype ApiVersion = ApiVersion(major: nat, minor: nat)

  /** The IS-04 versions that appear in the property-introduction table. */
  const V1_0 := ApiVersion(1, 0)
  const V1_1 := ApiVersion(1, 1)
  const V1_2 := ApiVersion(1, 2)

  /** Strict lexicographic order on versions. */
  predicate Less(a: ApiVersion, b: ApiVersion)
  {
    a.major < b.major || (a.major == b.major && a.minor < b.minor)
  }

  /** Non-strict lexicographic order on versions. */
  predicate LessEq(a: ApiVersion, b: ApiVersion)
  {
    Less(a, b) || a == b
  }

  /** Any two versions are ordered one way or the other, and not both strictly. */
  lemma LessEqTotal(a: ApiVersion, b: ApiVersion)
    ensures LessEq(a, b) || Less(b, a)
    ensures !(LessEq(a, b) && Less(b, a))
  {
  }
}
