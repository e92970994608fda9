/** The registry's topology fingerprint: the XOR of its members' hashes, and the
    check of a replayed member list against the registry's count and fingerprint.
    The 256-bit hash is a parameter. */
module Fingerprint {
  import opened Wrappers
  import opened Registry

  const DIGEST_BYTES := 32
  type Digest = d: seq<bv8> | |d| == DIGEST_BYTES witness seq(DIGEST_BYTES, _ => 0)
  type Hash = Address -> Digest

  const ZERO: Digest := seq(DIGEST_BYTES, _ => 0)

  function Xor(a: Digest, b: Digest): Digest {
    seq(DIGEST_BYTES, i requires 0 <= i < DIGEST_BYTES => a[i] ^ b[i])
  }

  lemma XorBytes(x: bv8, y: bv8, z: bv8)
    ensures x ^ y == y ^ x
    ensures (x ^ y) ^ z == x ^ (y ^ z)
    ensures x ^ x == 0 && x ^ 0 == x
    ensures x ^ y == 0 ==> x == y
  {
  }

  lemma XorAlgebra(a: Digest, b: Digest, c: Digest)
    ensures Xor(a, b) == Xor(b, a)
    ensures Xor(Xor(a, b), c) == Xor(a, Xor(b, c))
    ensures Xor(a, a) == ZERO && Xor(a, ZERO) == a
    ensures Xor(a, b) == ZERO ==> a == b
  {
    forall i | 0 <= i < DIGEST_BYTES
      ensures a[i] ^ b[i] == b[i] ^ a[i]
      ensures (a[i] ^ b[i]) ^ c[i] == a[i] ^ (b[i] ^ c[i])
      ensures a[i] ^ a[i] == 0 && a[i] ^ 0 == a[i]
    {
      XorBytes(a[i], b[i], c[i]);
    }
    if Xor(a, b) == ZERO {
      forall i | 0 <= i < DIGEST_BYTES
        ensures a[i] == b[i]
      {
        assert Xor(a, b)[i] == 0;
        XorBytes(a[i], b[i], 0);
      }
    }
  }

  lemma XorIsZero(a: Digest, b: Digest)
    ensures Xor(a, b) == ZERO <==> a == b
  {
    XorAlgebra(a, b, ZERO);
  }

  /** The fingerprint of a list, accumulated in list order. */
  function ListFingerprint(hash: Hash, addresses: seq<Address>): Digest {
    if addresses == [] then ZERO
    else Xor(ListFingerprint(hash, addresses[..|addresses| - 1]), hash(addresses[|addresses| - 1]))
  }

  /** The fingerprint of a set, whatever order its members are taken in
      (see `RemoveMember`). */
  ghost function SetFingerprint(hash: Hash, members: Members): Digest {
    if members == {} then ZERO
    else
      var a :| a in members;
      Xor(SetFingerprint(hash, members - {a}), hash(a))
  }

  lemma {:induction false} RemoveMember(hash: Hash, members: Members, a: Address)
    requires a in members
    ensures SetFingerprint(hash, members) == Xor(SetFingerprint(hash, members - {a}), hash(a))
    decreases members
  {
    var b :| b in members && SetFingerprint(hash, members) == Xor(SetFingerprint(hash, members - {b}), hash(b));
    if a != b {
      RemoveMember(hash, members - {b}, a);
      RemoveMember(hash, members - {a}, b);
      var rest := members - {a} - {b};
      assert rest == members - {b} - {a};
      XorAlgebra(SetFingerprint(hash, rest), hash(a), hash(b));
      XorAlgebra(SetFingerprint(hash, rest), hash(b), hash(a));
      XorAlgebra(hash(a), hash(b), ZERO);
    }
  }

  predicate Distinct(addresses: seq<Address>) {
    forall i, j :: 0 <= i < j < |addresses| ==> addresses[i] != addresses[j]
  }

  function AsSet(addresses: seq<Address>): Members {
    set a | a in addresses
  }

  /** Any list of a set's members, in any order, has the set's fingerprint and size. */
  lemma {:induction false} OrderIndependent(hash: Hash, addresses: seq<Address>)
    requires Distinct(addresses)
    ensures ListFingerprint(hash, addresses) == SetFingerprint(hash, AsSet(addresses))
    ensures |AsSet(addresses)| == |addresses|
  {
    if addresses != [] {
      var butLast, a := addresses[..|addresses| - 1], addresses[|addresses| - 1];
      OrderIndependent(hash, butLast);
      assert addresses == butLast + [a];
      assert a !in butLast;
      assert AsSet(butLast) == AsSet(addresses) - {a};
      RemoveMember(hash, AsSet(addresses), a);
    } else {
      assert AsSet(addresses) == {};
    }
  }

  function SymmetricDifference(m: Members, r: Members): Members {
    (m - r) + (r - m)
  }

  /** The XOR of two sets' fingerprints only sees where the sets differ. */
  lemma {:induction false} FingerprintOfDifference(hash: Hash, m: Members, r: Members)
    ensures Xor(SetFingerprint(hash, m), SetFingerprint(hash, r)) == SetFingerprint(hash, SymmetricDifference(m, r))
    decreases m
  {
    var fr := SetFingerprint(hash, r);
    if m == {} {
      assert SymmetricDifference(m, r) == r;
      XorAlgebra(fr, ZERO, ZERO);
    } else {
      var a :| a in m;
      var rest := m - {a};
      var fm, d := SetFingerprint(hash, rest), SymmetricDifference(rest, r);
      RemoveMember(hash, m, a);
      FingerprintOfDifference(hash, rest, r);
      assert Xor(Xor(fm, hash(a)), fr) == Xor(Xor(fm, fr), hash(a)) by {
        XorAlgebra(fm, hash(a), fr);
        XorAlgebra(hash(a), fr, ZERO);
        XorAlgebra(fm, fr, hash(a));
      }
      if a in r {
        assert SymmetricDifference(m, r) == d - {a};
        RemoveMember(hash, d, a);
        XorAlgebra(SetFingerprint(hash, d - {a}), hash(a), hash(a));
        XorAlgebra(hash(a), ZERO, ZERO);
        XorAlgebra(SetFingerprint(hash, d - {a}), ZERO, ZERO);
      } else {
        assert SymmetricDifference(m, r) - {a} == d;
        RemoveMember(hash, SymmetricDifference(m, r), a);
      }
    }
  }

  // ---- The membership check --------------------------------------------------

  datatype Rejection = Duplicate(address: Address) | CountDiffers | FingerprintDiffers

  /** Whether a set has the count and fingerprint the registry reports. */
  ghost predicate Passes(hash: Hash, members: Members, count: nat, fingerprint: Digest) {
    |members| == count && SetFingerprint(hash, members) == fingerprint
  }

  method ValidatePinnedMembership(addresses: seq<Address>, expectedCount: nat, expectedFingerprint: Digest, hash: Hash)
    returns (r: Result<(), Rejection>)
    ensures r.Ok? <==> Distinct(addresses) && Passes(hash, AsSet(addresses), expectedCount, expectedFingerprint)
    ensures r.Err? && r.error.Duplicate? <==> !Distinct(addresses)
    ensures r.Err? && r.error.Duplicate? ==>
              exists i, j :: 0 <= i < j < |addresses| && addresses[i] == addresses[j] == r.error.address
                             && Distinct(addresses[..j])
    ensures r == Err(CountDiffers) <==> Distinct(addresses) && |addresses| != expectedCount
  {
    var seen: Members := {};
    var fingerprint := new bv8[DIGEST_BYTES](_ => 0);
    assert fingerprint[..] == ZERO;
    for n := 0 to |addresses|
      invariant Distinct(addresses[..n])
      invariant seen == AsSet(addresses[..n])
      invariant fingerprint[..] == ListFingerprint(hash, addresses[..n])
    {
      var a := addresses[n];
      assert addresses[..n + 1][..n] == addresses[..n];
      if a in seen {
        assert exists i :: 0 <= i < n && addresses[i] == a;
        return Err(Duplicate(a));
      }
      seen := seen + {a};
      XorInto(fingerprint, hash(a));
    }
    assert addresses[..|addresses|] == addresses;
    OrderIndependent(hash, addresses);
    if expectedCount != |addresses| {
      return Err(CountDiffers);
    }
    if fingerprint[..] != expectedFingerprint {
      return Err(FingerprintDiffers);
    }
    return Ok(());
  }

  /** The check of a member set: its addresses are listed in some order. */
  method VerifyMembership(members: Members, expectedCount: nat, expectedFingerprint: Digest, hash: Hash)
    returns (passed: bool)
    ensures passed <==> Passes(hash, members, expectedCount, expectedFingerprint)
  {
    var rest, addresses := members, [];
    while rest != {}
      invariant AsSet(addresses) + rest == members && AsSet(addresses) !! rest
      invariant Distinct(addresses)
      decreases rest
    {
      var a :| a in rest;
      assert AsSet(addresses + [a]) == AsSet(addresses) + {a};
      assert a !in addresses;
      rest, addresses := rest - {a}, addresses + [a];
    }
    var r := ValidatePinnedMembership(addresses, expectedCount, expectedFingerprint, hash);
    return r.Ok?;
  }

  /** The inner loop of the check: `accumulator ^= digest`, byte by byte. */
  method XorInto(accumulator: array<bv8>, digest: Digest)
    requires accumulator.Length == DIGEST_BYTES
    modifies accumulator
    ensures accumulator[..] == Xor(old(accumulator[..]), digest)
  {
    for i := 0 to DIGEST_BYTES
      invariant forall k :: 0 <= k < i ==> accumulator[k] == old(accumulator[k]) ^ digest[k]
      invariant forall k :: i <= k < DIGEST_BYTES ==> accumulator[k] == old(accumulator[k])
    {
      accumulator[i] := accumulator[i] ^ digest[i];
    }
  }

  /** Against a registry that holds `registry`, a set passes if and only if it has
      the same size and the differing addresses' hashes cancel out. */
  lemma PassesExactly(hash: Hash, members: Members, registry: Members)
    ensures Passes(hash, members, |registry|, SetFingerprint(hash, registry))
       <==> |members| == |registry| && SetFingerprint(hash, SymmetricDifference(members, registry)) == ZERO
  {
    FingerprintOfDifference(hash, members, registry);
    XorIsZero(SetFingerprint(hash, members), SetFingerprint(hash, registry));
  }

  /** One missing or one extra member never passes. */
  lemma OneOffNeverPasses(hash: Hash, registry: Members, a: Address)
    ensures a in registry ==> !Passes(hash, registry - {a}, |registry|, SetFingerprint(hash, registry))
    ensures a !in registry ==> !Passes(hash, registry + {a}, |registry|, SetFingerprint(hash, registry))
  {
  }

  /** One member swapped for a stranger passes exactly when their hashes collide. */
  lemma OneSwapPassesOnlyOnCollision(hash: Hash, registry: Members, gone: Address, stranger: Address)
    requires gone in registry && stranger !in registry
    ensures Passes(hash, registry - {gone} + {stranger}, |registry|, SetFingerprint(hash, registry))
       <==> hash(gone) == hash(stranger)
  {
    var m := registry - {gone} + {stranger};
    PassesExactly(hash, m, registry);
    SwapDifference(registry, gone, stranger);
    PairFingerprint(hash, gone, stranger);
    XorIsZero(hash(stranger), hash(gone));
  }

  lemma SwapDifference(registry: Members, gone: Address, stranger: Address)
    requires gone in registry && stranger !in registry
    ensures SymmetricDifference(registry - {gone} + {stranger}, registry) == {gone, stranger}
    ensures |registry - {gone} + {stranger}| == |registry|
  {
  }

  lemma PairFingerprint(hash: Hash, a: Address, b: Address)
    requires a != b
    ensures SetFingerprint(hash, {a, b}) == Xor(hash(b), hash(a))
  {
    assert {a, b} - {a} == {b};
    RemoveMember(hash, {a, b}, a);
    assert {b} - {b} == {};
    RemoveMember(hash, {b}, b);
    XorAlgebra(ZERO, hash(b), ZERO);
    XorAlgebra(hash(b), ZERO, ZERO);
  }
}
