/**
 * Rotation of signing keys (dex/server/rotation.go): the stored key record, the
 * updater that demotes the signing key, and what any sequence of rotations keeps
 * of the verification list.
 */
module KeyRotation {
  import opened Common

  /** A key pair, named by its random key ID. */
  type Key = nat

  datatype VerificationKey = VerificationKey(key: Key, expiry: Time)

  /** The stored key record. The private and public signing key are set together. */
  datatype Keys = Keys(signing: Option<Key>, verification: seq<VerificationKey>, nextRotation: Time)

  /** How often keys rotate (F) and how long an ID token stays valid (V). */
  datatype Strategy = Strategy(frequency: Time, validFor: Time) {
    ghost predicate Valid() {
      frequency > 0 && validFor >= 0
    }
  }

  const NO_KEYS: Keys := Keys(None, [], 0)

  /** The entries that have not expired at now, in order. */
  function Unexpired(vs: seq<VerificationKey>, now: Time): (r: seq<VerificationKey>) {
    if vs == [] then []
    else if now > vs[0].expiry then Unexpired(vs[1..], now)
    else [vs[0]] + Unexpired(vs[1..], now)
  }

  /** The signing key as a verification key that outlives the tokens it signed. */
  function Demoted(keys: Keys, strategy: Strategy, tNow: Time): (r: seq<VerificationKey>) {
    match keys.signing
    case None => []
    case Some(key) => [VerificationKey(key, tNow + strategy.validFor)]
  }

  /** The record a rotation writes; the clock is read twice, at tNow and at tNext. */
  function Rotated(keys: Keys, strategy: Strategy, tNow: Time, tNext: Time, key: Key): (r: Keys) {
    Keys(Some(key), Unexpired(keys.verification, tNow) + Demoted(keys, strategy, tNow), tNext + strategy.frequency)
  }

  /** The keys served to relying parties: the signing key first, then the verification keys. */
  function KeyIDs(vs: seq<VerificationKey>): (r: seq<Key>)
    ensures |r| == |vs| && forall i :: 0 <= i < |vs| ==> r[i] == vs[i].key
  {
    seq(|vs|, i requires 0 <= i < |vs| => vs[i].key)
  }

  ghost predicate Published(keys: Keys, key: Key) {
    keys.signing == Some(key) || exists v :: v in keys.verification && v.key == key
  }

  lemma {:induction false} UnexpiredSplit(xs: seq<VerificationKey>, ys: seq<VerificationKey>, now: Time)
    ensures Unexpired(xs + ys, now) == Unexpired(xs, now) + Unexpired(ys, now)
  {
    if xs == [] {
      assert xs + ys == ys;
    } else {
      UnexpiredSplit(xs[1..], ys, now);
      assert (xs + ys)[1..] == xs[1..] + ys;
    }
  }

  /** Filtering keeps exactly the entries that have not expired. */
  lemma {:induction false} UnexpiredMembers(vs: seq<VerificationKey>, now: Time, v: VerificationKey)
    ensures v in Unexpired(vs, now) <==> v in vs && now <= v.expiry
  {
    if vs != [] {
      UnexpiredMembers(vs[1..], now, v);
      assert vs == [vs[0]] + vs[1..];
    }
  }

  /** The mutable record that an updater works on. */
  class KeyRecord {
    var signing: Option<Key>
    var verification: array<VerificationKey>
    var nextRotation: Time

    ghost function Contents(): (r: Keys)
      reads this, verification
    {
      Keys(signing, verification[..], nextRotation)
    }

    constructor (keys: Keys)
      ensures Contents() == keys && fresh(verification)
    {
      signing, nextRotation := keys.signing, keys.nextRotation;
      var vs := keys.verification;
      var a := new VerificationKey[|vs|](i requires 0 <= i < |vs| => vs[i]);
      verification := a;
    }

    /**
     * The updater: refuse before the recorded rotation time, otherwise compact the
     * unexpired verification keys in place, append the demoted signing key and
     * install the new one.
     */
    method Rotate(strategy: Strategy, tNow: Time, tNext: Time, key: Key) returns (rotated: bool)
      modifies this, verification
      ensures rotated == (tNow >= old(nextRotation))
      ensures rotated ==> Contents() == Rotated(old(Contents()), strategy, tNow, tNext, key) && fresh(verification)
      ensures rotated ==> signing == Some(key) && nextRotation == tNext + strategy.frequency
      ensures rotated && old(signing).Some? ==>
                && verification.Length > 0
                && verification[verification.Length - 1] ==
                     VerificationKey(old(signing).value, tNow + strategy.validFor)
                && verification[..verification.Length - 1] == Unexpired(old(verification[..]), tNow)
      ensures !rotated ==> Contents() == old(Contents()) && verification == old(verification)
    {
      if tNow < nextRotation {
        return false;
      }
      var kept := DropExpired(verification, tNow);
      var next := verification[..kept];
      match signing {
        case None =>
        case Some(current) => next := next + [VerificationKey(current, tNow + strategy.validFor)];
      }
      var a := new VerificationKey[|next|](i requires 0 <= i < |next| => next[i]);
      verification := a;
      assert a[..] == next;
      signing := Some(key);
      nextRotation := tNext + strategy.frequency;
      return true;
    }

    /** The key set served by the keys endpoint; None when no signing key is stored yet. */
    method PublicKeys() returns (r: Option<seq<Key>>)
      ensures r.None? <==> signing.None?
      ensures r.Some? ==> |r.value| == verification.Length + 1 && signing == Some(r.value[0])
      ensures r.Some? ==> forall k :: k in r.value <==> Published(Contents(), k)
    {
      if signing.None? {
        return None;
      }
      var jwks := [signing.value];
      for i := 0 to verification.Length
        invariant jwks == [signing.value] + KeyIDs(verification[..i])
      {
        jwks := jwks + [verification[i].key];
        assert KeyIDs(verification[..i + 1]) == KeyIDs(verification[..i]) + [verification[i].key];
      }
      assert verification[..] == verification[..verification.Length];
      ghost var vs := verification[..];
      forall k ensures k in jwks <==> Published(Contents(), k) {
        if k in KeyIDs(vs) {
          var i :| 0 <= i < |vs| && KeyIDs(vs)[i] == k;
          assert vs[i] in vs;
        }
        if v :| v in vs && v.key == k {
          var i :| 0 <= i < |vs| && vs[i] == v;
          assert KeyIDs(vs)[i] == k;
        }
      }
      return Some(jwks);
    }
  }

  /** Compacts the unexpired entries to the front of the array, in order. */
  method DropExpired(a: array<VerificationKey>, now: Time) returns (kept: nat)
    modifies a
    ensures kept <= a.Length
    ensures a[..kept] == Unexpired(old(a[..]), now)
  {
    kept := 0;
    ghost var before := a[..];
    for i := 0 to a.Length
      invariant kept <= i
      invariant a[..kept] == Unexpired(before[..i], now)
      invariant a[i..] == before[i..]
    {
      UnexpiredSplit(before[..i], [before[i]], now);
      assert before[..i + 1] == before[..i] + [before[i]];
      assert a[i] == a[i..][0] == before[i];
      assert a[i + 1..] == a[i..][1..] == before[i + 1..];
      if !(now > a[i].expiry) {
        ghost var front := a[..kept];
        a[kept] := a[i];
        assert a[..kept + 1] == front + [before[i]];
        kept := kept + 1;
      }
    }
    assert before[..a.Length] == before;
  }

  // ----- What every rotation keeps -----

  /** Consecutive expiries lie at least gap apart. */
  ghost predicate Spaced(vs: seq<VerificationKey>, gap: Time) {
    forall i, j :: 0 <= i < j < |vs| ==> vs[i].expiry + gap <= vs[j].expiry
  }

  /** The newest verification key was demoted no later than one period before the next rotation. */
  ghost predicate Paced(keys: Keys, strategy: Strategy) {
    && Spaced(keys.verification, strategy.frequency)
    && (forall v :: v in keys.verification ==>
                      v.expiry + strategy.frequency <= keys.nextRotation + strategy.validFor)
  }

  lemma {:induction false} UnexpiredSpaced(vs: seq<VerificationKey>, gap: Time, now: Time)
    requires Spaced(vs, gap)
    ensures Spaced(Unexpired(vs, now), gap)
  {
    if vs != [] {
      UnexpiredSpaced(vs[1..], gap, now);
      var rest := Unexpired(vs[1..], now);
      forall v | v in rest ensures vs[0].expiry + gap <= v.expiry {
        UnexpiredMembers(vs[1..], now, v);
        var i :| 0 <= i < |vs[1..]| && vs[1..][i] == v;
        assert vs[i + 1] == v;
      }
      var r := Unexpired(vs, now);
      if now <= vs[0].expiry {
        assert r == [vs[0]] + rest;
        forall i, j | 0 <= i < j < |r| ensures r[i].expiry + gap <= r[j].expiry {
          assert r[j] == rest[j - 1] && rest[j - 1] in rest;
          if i > 0 { assert r[i] == rest[i - 1]; }
        }
      }
    }
  }

  /** Rotations by any instance keep the pacing, so expiries grow by at least one period each time. */
  lemma RotationKeepsPace(keys: Keys, strategy: Strategy, tNow: Time, tNext: Time, key: Key)
    requires strategy.Valid() && Paced(keys, strategy)
    requires keys.nextRotation <= tNow <= tNext
    ensures Paced(Rotated(keys, strategy, tNow, tNext, key), strategy)
  {
    var kept := Unexpired(keys.verification, tNow);
    var r := Rotated(keys, strategy, tNow, tNext, key);
    UnexpiredSpaced(keys.verification, strategy.frequency, tNow);
    forall v | v in kept ensures v.expiry + strategy.frequency <= keys.nextRotation + strategy.validFor {
      UnexpiredMembers(keys.verification, tNow, v);
    }
    forall i, j | 0 <= i < j < |r.verification|
      ensures r.verification[i].expiry + strategy.frequency <= r.verification[j].expiry
    {
      assert r.verification[i] == kept[i] && kept[i] in kept;
    }
  }

  lemma {:induction false} SpacedSpan(vs: seq<VerificationKey>, gap: Time)
    requires gap > 0 && |vs| > 0 && Spaced(vs, gap)
    ensures (|vs| - 1) * gap <= Last(vs).expiry - vs[0].expiry
  {
    if |vs| > 1 {
      SpacedSpan(vs[1..], gap);
      assert Last(vs[1..]) == Last(vs);
      assert (|vs| - 1) * gap == (|vs| - 2) * gap + gap;
    }
  }

  lemma MultiplesBelow(n: int, q: int, r: int, gap: int)
    requires 0 <= r < gap && n * gap <= q * gap + r
    ensures n <= q
  {
    var m := n - q - 1;
    assert m * gap == n * gap - q * gap - gap;
    assert m >= 0 ==> m * gap >= 0;
  }

  lemma QuotientBound(n: int, gap: int, span: int)
    requires gap > 0 && n * gap <= span
    ensures n <= span / gap
  {
    MultiplesBelow(n, span / gap, span % gap, gap);
  }

  lemma SpacedCount(vs: seq<VerificationKey>, gap: Time, from: Time, span: Time)
    requires gap > 0 && span >= 0 && Spaced(vs, gap)
    requires forall v :: v in vs ==> from <= v.expiry <= from + span
    ensures |vs| <= span / gap + 1
  {
    if |vs| > 0 {
      SpacedSpan(vs, gap);
      assert vs[0] in vs && Last(vs) in vs;
      QuotientBound(|vs| - 1, gap, span);
    } else {
      QuotientBound(0, gap, span);
    }
  }

  /** After every rotation at most V/F + 1 verification keys are retained. */
  lemma RetainedKeysBound(keys: Keys, strategy: Strategy, tNow: Time, tNext: Time, key: Key)
    requires strategy.Valid() && Paced(keys, strategy)
    requires keys.nextRotation <= tNow <= tNext
    ensures |Rotated(keys, strategy, tNow, tNext, key).verification| <= strategy.validFor / strategy.frequency + 1
  {
    RotationKeepsPace(keys, strategy, tNow, tNext, key);
    var vs := Rotated(keys, strategy, tNow, tNext, key).verification;
    forall v | v in vs ensures tNow <= v.expiry <= tNow + strategy.validFor {
      UnexpiredMembers(keys.verification, tNow, v);
    }
    SpacedCount(vs, strategy.frequency, tNow, strategy.validFor);
  }
}
