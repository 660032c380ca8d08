/**
 * The key-value store the entities live in, reduced to the operations the
 * modelled code issues: string get/set/incrby, set add/remove/members/
 * cardinality/membership, hash field get/set, key existence and deletion.
 * The store keeps strings, sets and hashes apart; `Del` and `Exists` act on
 * a key whatever kind of value it holds.
 */
module Storage {
  import opened Wrappers
  import opened Numeric

  datatype Kv = Kv(strings: map<string, string>,
                   sets: map<string, set<string>>,
                   hashes: map<string, map<string, string>>)
  {
    /** GET; nil when the key holds no string. */
    function Get(k: string): Option<string> {
      if k in strings then Some(strings[k]) else None
    }

    /** SET: the key now holds `v`, every other key is as before. */
    function Set(k: string, v: string): (r: Kv)
      ensures r.Get(k) == Some(v)
      ensures forall k' :: k' != k ==> r.Get(k') == Get(k')
      ensures r.sets == sets && r.hashes == hashes
    {
      Kv(strings[k := v], sets, hashes)
    }

    /** EXISTS. */
    predicate Exists(k: string) {
      k in strings || k in sets || k in hashes
    }

    /** DEL: the key is gone, whatever it held; nothing else changes. */
    function Del(k: string): (r: Kv)
      ensures !r.Exists(k)
      ensures r.Get(k) == None && r.SMembers(k) == {} && r.HGet(k, "state") == None
      ensures forall k' :: k' != k ==> r.Get(k') == Get(k')
      ensures forall k' :: k' != k ==> r.SMembers(k') == SMembers(k')
      ensures forall k', f :: k' != k ==> r.HGet(k', f) == HGet(k', f)
    {
      Kv(strings - {k}, sets - {k}, hashes - {k})
    }

    /** DEL with several keys: every listed key is gone; nothing else changes. */
    function DelKeys(ks: seq<string>): (r: Kv)
      ensures forall k :: k in ks ==> !r.Exists(k) && r.Get(k) == None
      ensures forall k :: k !in ks ==> r.Get(k) == Get(k)
      ensures forall k :: k !in ks ==> r.SMembers(k) == SMembers(k)
      ensures forall k, f :: k !in ks ==> r.HGet(k, f) == HGet(k, f)
    {
      var gone := set k | k in ks;
      Kv(strings - gone, sets - gone, hashes - gone)
    }

    /** SMEMBERS: the empty set for a missing key. */
    function SMembers(k: string): set<string> {
      if k in sets then sets[k] else {}
    }

    /** SCARD. */
    function SCard(k: string): nat {
      |SMembers(k)|
    }

    /** SISMEMBER. */
    predicate SIsMember(k: string, x: string) {
      x in SMembers(k)
    }

    /** SADD: `x` joins the set at `k`; nothing else changes. */
    function SAdd(k: string, x: string): (r: Kv)
      ensures r.SMembers(k) == SMembers(k) + {x}
      ensures forall k' :: k' != k ==> r.SMembers(k') == SMembers(k')
      ensures r.strings == strings && r.hashes == hashes
    {
      Kv(strings, sets[k := SMembers(k) + {x}], hashes)
    }

    /**
     * SREM: `x` leaves the set at `k`; a set left empty is removed, as the
     * store does; nothing else changes.
     */
    function SRem(k: string, x: string): (r: Kv)
      ensures r.SMembers(k) == SMembers(k) - {x}
      ensures forall k' :: k' != k ==> r.SMembers(k') == SMembers(k')
      ensures r.strings == strings && r.hashes == hashes
      ensures k in r.sets <==> SMembers(k) - {x} != {}
    {
      var rest := SMembers(k) - {x};
      Kv(strings, if rest == {} then sets - {k} else sets[k := rest], hashes)
    }

    /** HGET on one field. */
    function HGet(k: string, f: string): Option<string> {
      if k in hashes && f in hashes[k] then Some(hashes[k][f]) else None
    }

    /** HSET: field `f` of the hash at `k` now holds `v`; nothing else changes. */
    function HSet(k: string, f: string, v: string): (r: Kv)
      ensures r.HGet(k, f) == Some(v)
      ensures forall f' :: f' != f ==> r.HGet(k, f') == HGet(k, f')
      ensures forall k', f' :: k' != k ==> r.HGet(k', f') == HGet(k', f')
      ensures r.strings == strings && r.sets == sets
    {
      var h := if k in hashes then hashes[k] else map[];
      Kv(strings, sets, hashes[k := h[f := v]])
    }

    /**
     * The value INCRBY returns: the integer the key held (0 when it is
     * missing) plus `n`.
     */
    function IncrValue(k: string, n: int): (v: int)
      ensures Get(k) == None ==> v == n
    {
      OptToI(Get(k)) + n
    }

    /** The store after INCRBY: the key holds the new value in decimal. */
    function IncrBy(k: string, n: int): (r: Kv)
      ensures r.Get(k) == Some(IntToString(IncrValue(k, n)))
      ensures OptToI(r.Get(k)) == OptToI(Get(k)) + n
      ensures forall k' :: k' != k ==> r.Get(k') == Get(k')
      ensures r.sets == sets && r.hashes == hashes
    {
      ToIOfIntToString(IncrValue(k, n));
      Set(k, IntToString(IncrValue(k, n)))
    }
  }

  /** The empty store. */
  const Empty: Kv := Kv(map[], map[], map[])

  /** The store as one shared object that every operation reads and writes. */
  class Db {
    var kv: Kv

    constructor ()
      ensures kv == Empty
    {
      kv := Empty;
    }
  }

  /** Appending to a common prefix is injective. */
  lemma PrefixCancel(p: string, a: string, b: string)
    requires p + a == p + b
    ensures a == b
  {
    assert a == (p + a)[|p|..];
    assert b == (p + b)[|p|..];
  }
}
