/** Normalization of the resource claims one tool call resolves to. */
module Claims {
  import opened Messages
  import opened Dependency

  // A claim as a resolver returns it; only modes 1 and 2 are defined.
  datatype RawClaim = RawClaim(key: string, mode: nat)

  const SHARED: nat := 1
  const EXCLUSIVE: nat := 2

  datatype ClaimError = EmptyKey(index: nat) | InvalidMode(index: nat)

  predicate ValidMode(mode: nat) {
    mode == SHARED || mode == EXCLUSIVE
  }

  predicate ValidClaim(claim: RawClaim, trim: string -> string) {
    trim(claim.key) != "" && ValidMode(claim.mode)
  }

  // Some of the first n claims is on key k.
  ghost predicate ClaimedBy(claims: seq<RawClaim>, trim: string -> string, n: nat, k: string)
    requires n <= |claims|
  {
    exists x | 0 <= x < n :: trim(claims[x].key) == k
  }

  ghost predicate ExclusiveBy(claims: seq<RawClaim>, trim: string -> string, n: nat, k: string)
    requires n <= |claims|
  {
    exists x | 0 <= x < n :: trim(claims[x].key) == k && claims[x].mode == EXCLUSIVE
  }

  // Key j first appears before key k does.
  ghost predicate FirstSeenBefore(claims: seq<RawClaim>, trim: string -> string, n: nat, j: string, k: string)
    requires n <= |claims|
  {
    exists x | 0 <= x < n :: ClaimedBy(claims, trim, x, j) && !ClaimedBy(claims, trim, x, k)
  }

  // `out` lists the claimed keys, each once, in order of first appearance.
  ghost predicate ListsKeys(claims: seq<RawClaim>, trim: string -> string, n: nat, out: seq<Claim>)
    requires n <= |claims|
  {
    && DistinctKeys(out)
    && (forall x | 0 <= x < n :: exists y | 0 <= y < |out| :: out[y].key == trim(claims[x].key))
    && (forall y {:trigger ClaimedBy(claims, trim, n, out[y].key)} | 0 <= y < |out| ::
          ClaimedBy(claims, trim, n, out[y].key))
    && (forall y, z {:trigger FirstSeenBefore(claims, trim, n, out[y].key, out[z].key)} | 0 <= y < z < |out| ::
          FirstSeenBefore(claims, trim, n, out[y].key, out[z].key))
  }

  // A key is exclusive when any claim on it is.
  ghost predicate MergesModes(claims: seq<RawClaim>, trim: string -> string, n: nat, out: seq<Claim>)
    requires n <= |claims|
  {
    forall y {:trigger ExclusiveBy(claims, trim, n, out[y].key)} | 0 <= y < |out| ::
      out[y].mode.Exclusive? <==> ExclusiveBy(claims, trim, n, out[y].key)
  }

  // `out` is the normal form of the first n claims.
  ghost predicate Merges(claims: seq<RawClaim>, trim: string -> string, n: nat, out: seq<Claim>)
    requires n <= |claims|
  {
    var merges := ListsKeys(claims, trim, n, out) && MergesModes(claims, trim, n, out);
    merges
  }

  ghost predicate Indexes(byKey: map<string, nat>, out: seq<Claim>) {
    var indexes :=
      && (forall k | k in byKey :: byKey[k] < |out| && out[byKey[k]].key == k)
      && (forall y | 0 <= y < |out| :: out[y].key in byKey && byKey[out[y].key] == y);
    indexes
  }

  lemma ClaimedMonotone(claims: seq<RawClaim>, trim: string -> string, n: nat, k: string)
    requires n < |claims|
    ensures ClaimedBy(claims, trim, n + 1, k) <==> ClaimedBy(claims, trim, n, k) || trim(claims[n].key) == k
    ensures ExclusiveBy(claims, trim, n + 1, k) <==>
            ExclusiveBy(claims, trim, n, k) || (trim(claims[n].key) == k && claims[n].mode == EXCLUSIVE)
  {
  }

  lemma FirstSeenMonotone(claims: seq<RawClaim>, trim: string -> string, n: nat, j: string, k: string)
    requires n < |claims| && FirstSeenBefore(claims, trim, n, j, k)
    ensures FirstSeenBefore(claims, trim, n + 1, j, k)
  {
  }

  // A further claim on a key that is already listed keeps the list of keys.
  lemma ListedKeysStay(claims: seq<RawClaim>, trim: string -> string, n: nat, out: seq<Claim>, y: nat, out': seq<Claim>)
    requires n < |claims| && ListsKeys(claims, trim, n, out)
    requires y < |out| && out[y].key == trim(claims[n].key)
    requires |out'| == |out| && forall z | 0 <= z < |out| :: out'[z].key == out[z].key
    ensures ListsKeys(claims, trim, n + 1, out')
  {
    forall z | 0 <= z < |out'|
      ensures ClaimedBy(claims, trim, n + 1, out'[z].key)
    {
      ClaimedMonotone(claims, trim, n, out[z].key);
    }
    forall y, z | 0 <= y < z < |out'|
      ensures FirstSeenBefore(claims, trim, n + 1, out'[y].key, out'[z].key)
    {
      FirstSeenMonotone(claims, trim, n, out[y].key, out[z].key);
    }
    forall x | 0 <= x < n + 1
      ensures exists y | 0 <= y < |out'| :: out'[y].key == trim(claims[x].key)
    {
      var w := if x == n then y else var w :| 0 <= w < |out| && out[w].key == trim(claims[x].key); w;
      assert out'[w].key == trim(claims[x].key);
    }
  }

  lemma ListedModes(claims: seq<RawClaim>, trim: string -> string, n: nat, out: seq<Claim>, y: nat, out': seq<Claim>)
    requires n < |claims| && ListsKeys(claims, trim, n, out) && MergesModes(claims, trim, n, out)
    requires y < |out| && out[y].key == trim(claims[n].key)
    requires out' == if claims[n].mode == EXCLUSIVE then out[y := out[y].(mode := Exclusive)] else out
    ensures MergesModes(claims, trim, n + 1, out')
  {
    forall z | 0 <= z < |out'|
      ensures out'[z].mode.Exclusive? <==> ExclusiveBy(claims, trim, n + 1, out'[z].key)
    {
      ClaimedMonotone(claims, trim, n, out[z].key);
    }
  }

  // A claim on a new key extends the list of keys.
  lemma NewKeyListed(claims: seq<RawClaim>, trim: string -> string, n: nat, out: seq<Claim>, claim: Claim)
    requires n < |claims| && ListsKeys(claims, trim, n, out)
    requires claim.key == trim(claims[n].key)
    requires forall y | 0 <= y < |out| :: out[y].key != claim.key
    ensures ListsKeys(claims, trim, n + 1, out + [claim])
    ensures !ClaimedBy(claims, trim, n, claim.key)
  {
    var out' := out + [claim];
    assert !ClaimedBy(claims, trim, n, claim.key);
    assert out'[|out|] == claim;
    forall y, z | 0 <= y < z < |out'|
      ensures FirstSeenBefore(claims, trim, n + 1, out'[y].key, out'[z].key)
    {
      if z == |out| {
        assert ClaimedBy(claims, trim, n, out[y].key);
      } else {
        FirstSeenMonotone(claims, trim, n, out[y].key, out[z].key);
      }
    }
    forall z | 0 <= z < |out'|
      ensures ClaimedBy(claims, trim, n + 1, out'[z].key)
    {
      ClaimedMonotone(claims, trim, n, out'[z].key);
    }
    forall x | 0 <= x < n + 1
      ensures exists y | 0 <= y < |out'| :: out'[y].key == trim(claims[x].key)
    {
      var w := if x == n then |out| else var w :| 0 <= w < |out| && out[w].key == trim(claims[x].key); w;
      assert out'[w].key == trim(claims[x].key);
    }
  }

  lemma NewKeyModes(claims: seq<RawClaim>, trim: string -> string, n: nat, out: seq<Claim>, claim: Claim)
    requires n < |claims| && MergesModes(claims, trim, n, out)
    requires claim == Claim(trim(claims[n].key), if claims[n].mode == EXCLUSIVE then Exclusive else Shared)
    requires !ClaimedBy(claims, trim, n, claim.key)
    requires forall y | 0 <= y < |out| :: out[y].key != claim.key
    ensures MergesModes(claims, trim, n + 1, out + [claim])
  {
    var out' := out + [claim];
    forall z | 0 <= z < |out'|
      ensures out'[z].mode.Exclusive? <==> ExclusiveBy(claims, trim, n + 1, out'[z].key)
    {
      ClaimedMonotone(claims, trim, n, out'[z].key);
    }
  }

  // The loop body for a valid claim.
  method Merge(claims: seq<RawClaim>, trim: string -> string, index: nat, normalized: seq<Claim>, byKey: map<string, nat>)
    returns (merged: seq<Claim>, index': map<string, nat>)
    requires index < |claims| && ValidClaim(claims[index], trim)
    requires Merges(claims, trim, index, normalized) && Indexes(byKey, normalized)
    ensures Merges(claims, trim, index + 1, merged) && Indexes(index', merged)
  {
    var key := trim(claims[index].key);
    merged, index' := normalized, byKey;
    if key in byKey {
      if claims[index].mode == EXCLUSIVE {
        merged := normalized[byKey[key] := normalized[byKey[key]].(mode := Exclusive)];
      }
      ListedModes(claims, trim, index, normalized, byKey[key], merged);
      ListedKeysStay(claims, trim, index, normalized, byKey[key], merged);
    } else {
      var claim := Claim(key, if claims[index].mode == EXCLUSIVE then Exclusive else Shared);
      NewKeyListed(claims, trim, index, normalized, claim);
      NewKeyModes(claims, trim, index, normalized, claim);
      index' := byKey[key := |normalized|];
      merged := normalized + [claim];
    }
  }

  /** What a normal form says of the raw claims: a key is listed exactly when some
      claim names it, once, and is exclusive exactly when one of these has mode 2. */
  lemma MergesSay(claims: seq<RawClaim>, trim: string -> string, out: seq<Claim>, k: string)
    requires Merges(claims, trim, |claims|, out)
    ensures (exists y :: 0 <= y < |out| && out[y].key == k) <==> exists x :: 0 <= x < |claims| && trim(claims[x].key) == k
    ensures (exists y :: 0 <= y < |out| && out[y].key == k && out[y].mode.Exclusive?)
            <==> exists x :: 0 <= x < |claims| && trim(claims[x].key) == k && claims[x].mode == 2
    ensures forall y, z | 0 <= y < z < |out| :: out[y].key != out[z].key
  {
    if x :| 0 <= x < |claims| && trim(claims[x].key) == k {
      var y :| 0 <= y < |out| && out[y].key == trim(claims[x].key);
      assert out[y].mode.Exclusive? <==> ExclusiveBy(claims, trim, |claims|, out[y].key);
    }
    if y :| 0 <= y < |out| && out[y].key == k {
      assert ClaimedBy(claims, trim, |claims|, out[y].key);
      var x :| 0 <= x < |claims| && trim(claims[x].key) == k;
      assert out[y].mode.Exclusive? <==> ExclusiveBy(claims, trim, |claims|, out[y].key);
    }
    if x :| 0 <= x < |claims| && trim(claims[x].key) == k && claims[x].mode == 2 {
      assert ExclusiveBy(claims, trim, |claims|, k);
    }
  }

  /** Trims keys and merges claims on one key; the first invalid claim is
      reported. */
  method Normalize(claims: seq<RawClaim>, trim: string -> string) returns (r: Result<seq<Claim>, ClaimError>)
    ensures r.Success? <==> forall x | 0 <= x < |claims| :: trim(claims[x].key) != "" && (claims[x].mode == 1 || claims[x].mode == 2)
    ensures r.Success? ==> Merges(claims, trim, |claims|, r.value)
    ensures r.Failure? ==>
              && r.error.index < |claims|
              && (forall x | 0 <= x < r.error.index :: ValidClaim(claims[x], trim))
              && (r.error.EmptyKey? <==> trim(claims[r.error.index].key) == "")
              && (r.error.InvalidMode? ==> !ValidMode(claims[r.error.index].mode))
  {
    var normalized: seq<Claim> := [];
    var byKey: map<string, nat> := map[];
    var index := 0;
    while index < |claims|
      invariant 0 <= index <= |claims|
      invariant forall x | 0 <= x < index :: ValidClaim(claims[x], trim)
      invariant Merges(claims, trim, index, normalized) && Indexes(byKey, normalized)
    {
      var key := trim(claims[index].key);
      if key == "" {
        return Failure(EmptyKey(index));
      }
      if !ValidMode(claims[index].mode) {
        return Failure(InvalidMode(index));
      }
      normalized, byKey := Merge(claims, trim, index, normalized, byKey);
      index := index + 1;
    }
    r := Success(normalized);
  }

  ghost predicate RawClash(a: RawClaim, b: RawClaim, trim: string -> string) {
    trim(a.key) == trim(b.key) && (a.mode == EXCLUSIVE || b.mode == EXCLUSIVE)
  }

  /** Two calls clash after normalization exactly when some of their original
      claims do. */
  lemma NormalizationKeepsClashes(a: seq<RawClaim>, b: seq<RawClaim>, trim: string -> string, p: seq<Claim>, q: seq<Claim>)
    requires Merges(a, trim, |a|, p) && Merges(b, trim, |b|, q)
    ensures (exists x, y | 0 <= x < |p| && 0 <= y < |q| :: Clash(p[x], q[y])) <==>
            (exists x, y | 0 <= x < |a| && 0 <= y < |b| :: RawClash(a[x], b[y], trim))
  {
    if x, y :| 0 <= x < |a| && 0 <= y < |b| && RawClash(a[x], b[y], trim) {
      var i :| 0 <= i < |p| && p[i].key == trim(a[x].key);
      var j :| 0 <= j < |q| && q[j].key == trim(b[y].key);
      assert a[x].mode == EXCLUSIVE ==> ExclusiveBy(a, trim, |a|, p[i].key);
      assert b[y].mode == EXCLUSIVE ==> ExclusiveBy(b, trim, |b|, q[j].key);
      assert Clash(p[i], q[j]);
    }
    if i, j :| 0 <= i < |p| && 0 <= j < |q| && Clash(p[i], q[j]) {
      var k := p[i].key;
      assert ClaimedBy(a, trim, |a|, k) && ClaimedBy(b, trim, |b|, k);
      if p[i].mode.Exclusive? {
        assert ExclusiveBy(a, trim, |a|, k);
        var x :| 0 <= x < |a| && trim(a[x].key) == k && a[x].mode == EXCLUSIVE;
        var y :| 0 <= y < |b| && trim(b[y].key) == k;
        assert RawClash(a[x], b[y], trim);
      } else {
        assert ExclusiveBy(b, trim, |b|, k);
        var x :| 0 <= x < |a| && trim(a[x].key) == k;
        var y :| 0 <= y < |b| && trim(b[y].key) == k && b[y].mode == EXCLUSIVE;
        assert RawClash(a[x], b[y], trim);
      }
    }
  }
}
