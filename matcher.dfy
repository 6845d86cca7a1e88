/**
 * The mock-argument matchers of the tests
 * (internal/core/domain/domaintest/matcher.go): ports are compared by
 * identifier and name only.
 */
module DomainTest {

  import opened Domain

  predicate SameIdAndName(expected: Port, actual: Port)
  {
    expected.id == actual.id && expected.name == actual.name
  }

  /** `portMatcher.Matches`: the argument must be a `*domain.Port` with the expected identifier and name. */
  predicate PortMatches(expected: Port, x: Any)
    ensures PortMatches(expected, x) ==> x.PortPointer? && x.target.id == expected.id
  {
    match x
    case PortPointer(actual) => SameIdAndName(expected, actual)
    case _ => false
  }

  /** The loop of `portsMatcher.Matches` from position `i` on, returning false at the first mismatch. */
  predicate MatchesFrom(expected: Ports, actual: Ports, i: nat)
    requires |actual| == |expected|
    ensures MatchesFrom(expected, actual, i) ==>
      forall j :: i <= j < |expected| ==> SameIdAndName(expected[j], actual[j])
    decreases |expected| - i
  {
    if i >= |expected| then true
    else if !PortMatches(expected[i], PortPointer(actual[i])) then false
    else MatchesFrom(expected, actual, i + 1)
  }

  lemma {:induction false} MatchesFromPairwise(expected: Ports, actual: Ports, i: nat)
    requires |actual| == |expected|
    ensures MatchesFrom(expected, actual, i) <==>
      forall j :: i <= j < |expected| ==> SameIdAndName(expected[j], actual[j])
    decreases |expected| - i
  {
    if i < |expected| {
      MatchesFromPairwise(expected, actual, i + 1);
    }
  }

  /**
   * `portsMatcher.Matches`: the argument must be a `domain.Ports` of the
   * expected length whose ports match the expected ones position by position.
   */
  predicate PortsMatches(expected: Ports, x: Any)
    ensures PortsMatches(expected, x) ==> x.PortsValue? && |x.ports| == |expected|
  {
    match x
    case PortsValue(actual) => |actual| == |expected| && MatchesFrom(expected, actual, 0)
    case _ => false
  }

  /** PortsMatches holds exactly when both are equally long and agree on identifier and name at every position. */
  lemma PortsMatchesPairwise(expected: Ports, x: Any)
    ensures PortsMatches(expected, x) <==>
      x.PortsValue? && |x.ports| == |expected|
      && forall j :: 0 <= j < |expected| ==> SameIdAndName(expected[j], x.ports[j])
  {
    if x.PortsValue? && |x.ports| == |expected| {
      MatchesFromPairwise(expected, x.ports, 0);
    }
  }

  /** Any value that is not a `*domain.Port` is rejected, a `domain.Port` value included. */
  lemma PortMatcherNeedsPointer(expected: Port, x: Any)
    requires !x.PortPointer?
    ensures !PortMatches(expected, x)
  {
  }

  /** Fields other than the identifier and the name play no part. */
  lemma PortMatcherIgnoresOtherFields(expected: Port, a: Port, b: Port)
    requires SameIdAndName(a, b)
    ensures PortMatches(expected, PortPointer(a)) == PortMatches(expected, PortPointer(b))
  {
  }

  /** Every list of ports matches itself. */
  lemma PortsMatchReflexive(ports: Ports)
    ensures PortsMatches(ports, PortsValue(ports))
  {
    PortsMatchesPairwise(ports, PortsValue(ports));
  }

  /** The comparison is by position: two differently named ports in swapped order do not match. */
  lemma PortsMatchIsOrderSensitive(a: Port, b: Port)
    requires a.id != b.id
    ensures !PortsMatches([a, b], PortsValue([b, a]))
  {
    PortsMatchesPairwise([a, b], PortsValue([b, a]));
  }
}
