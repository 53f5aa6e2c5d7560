/** The idealised digests exist: an injective function of part lists, of paths and of namespaced
    part lists, so that nothing proved from their injectivity is vacuous. */
module Digests {
  import opened InventoryGraph
  import opened HostTree
  import opened BridgeRecords

  /** Every character marked, every part ended: no part list reads as another. */
  function EncodePart(s: string): (r: string)
    ensures r != []
  {
    if s == [] then ['e'] else ['c', s[0]] + EncodePart(s[1..])
  }

  function Encode(parts: seq<string>): string
  {
    if parts == [] then [] else EncodePart(parts[0]) + Encode(parts[1..])
  }

  lemma {:induction false} PartsEndOnce(s: string, x: string, t: string, y: string)
    requires EncodePart(s) + x == EncodePart(t) + y
    ensures s == t && x == y
  {
    var u, v := EncodePart(s) + x, EncodePart(t) + y;
    assert u[0] == v[0];
    if s == [] {
      assert u[1..] == x && v[1..] == y;
    } else {
      assert u[1] == s[0] && v[1] == t[0];
      assert u[2..] == EncodePart(s[1..]) + x && v[2..] == EncodePart(t[1..]) + y;
      PartsEndOnce(s[1..], x, t[1..], y);
      assert s == [s[0]] + s[1..] && t == [t[0]] + t[1..];
    }
  }

  lemma {:induction false} EncodeInjective(a: seq<string>, b: seq<string>)
    requires Encode(a) == Encode(b)
    ensures a == b
  {
    if a != [] && b != [] {
      PartsEndOnce(a[0], Encode(a[1..]), b[0], Encode(b[1..]));
      EncodeInjective(a[1..], b[1..]);
      assert a == [a[0]] + a[1..] && b == [b[0]] + b[1..];
    }
  }

  /** One encoding serves as node digest and as path pseudonym. */
  lemma DigestsExist()
    ensures Injective(Encode) && InjectivePaths(Encode)
  {
    forall a, b | Encode(a) == Encode(b) ensures a == b { EncodeInjective(a, b); }
  }

  /** And, with the namespace as first part, as the bridge's keyed digest. */
  lemma KeyedDigestsExist(r: Rules)
    ensures Keyed(r.(hmac := (namespace: string, parts: seq<string>) => Encode([namespace] + parts)))
  {
    var keyed := r.(hmac := (namespace: string, parts: seq<string>) => Encode([namespace] + parts));
    forall m, n, a, b | keyed.hmac(m, a) == keyed.hmac(n, b) ensures m == n && a == b {
      EncodeInjective([m] + a, [n] + b);
      assert ([m] + a)[0] == ([n] + b)[0] && ([m] + a)[1..] == ([n] + b)[1..];
    }
  }
}
