/** The '|'-separated keys under which workloads are stored and autoscalers look them up. */
module Keys {
  function Namespace(ns: string): string {
    if ns != "" then ns else "default"
  }

  function BuildAPIVersionKindName(apiVersion: string, kind: string, ns: string, name: string): string {
    apiVersion + "|" + (kind + "|" + (Namespace(ns) + "|" + name))
  }

  lemma KeyLooksLike()
    ensures BuildAPIVersionKindName("apps/v1", "Deployment", "", "web") == "apps/v1|Deployment|default|web"
    ensures BuildAPIVersionKindName("v1", "Pod", "shop", "cart") == "v1|Pod|shop|cart"
  {
    assert Namespace("") + "|" + "web" == "default|web";
    assert Namespace("shop") + "|" + "cart" == "shop|cart";
  }

  /** The place of the first '|', or -1. */
  function IndexOfBar(s: string): (i: int)
    ensures -1 <= i < |s|
    ensures i >= 0 ==> s[i] == '|' && '|' !in s[..i]
    ensures i < 0 ==> '|' !in s
  {
    if s == "" then -1
    else if s[0] == '|' then 0
    else
      var i := IndexOfBar(s[1..]);
      assert s == [s[0]] + s[1..];
      if i < 0 then -1 else assert s[..i + 1] == [s[0]] + s[1..][..i]; i + 1
  }

  /** The key without its API version. The source slices with the index as it
      is, so a key without '|' is a panic there. */
  function BuildKindName(key: string): string
    requires '|' in key
  {
    key[IndexOfBar(key)..]
  }

  predicate Plain(part: string) {
    '|' !in part
  }

  /** Two strings that agree up to and with their first '|' agree in both parts. */
  lemma FirstPart(a: string, b: string, a': string, b': string)
    requires Plain(a) && Plain(a') && a + "|" + b == a' + "|" + b'
    ensures a == a' && b == b'
  {
    var s := a + "|" + b;
    assert s[|a|] == '|' && s[|a'|] == '|';
    assert forall k :: 0 <= k < |a| ==> s[k] == a[k] && a[k] in a;
    assert forall k :: 0 <= k < |a'| ==> s[k] == a'[k] && a'[k] in a';
    assert |a| == |a'|;
    assert a == s[..|a|] && b == s[|a| + 1..];
    assert a' == s[..|a|] && b' == s[|a| + 1..];
  }

  /** Keys of '|'-free parts are equal exactly when the parts are, an empty
      namespace counting as "default". */
  lemma KeyInjective(v: string, k: string, ns: string, n: string, v': string, k': string, ns': string, n': string)
    requires Plain(v) && Plain(k) && Plain(ns) && Plain(v') && Plain(k') && Plain(ns')
    ensures BuildAPIVersionKindName(v, k, ns, n) == BuildAPIVersionKindName(v', k', ns', n')
            <==> v == v' && k == k' && Namespace(ns) == Namespace(ns') && n == n'
  {
    if BuildAPIVersionKindName(v, k, ns, n) == BuildAPIVersionKindName(v', k', ns', n') {
      FirstPart(v, k + "|" + (Namespace(ns) + "|" + n), v', k' + "|" + (Namespace(ns') + "|" + n'));
      FirstPart(k, Namespace(ns) + "|" + n, k', Namespace(ns') + "|" + n');
      FirstPart(Namespace(ns), n, Namespace(ns'), n');
    }
  }

  lemma FirstBar(a: string, b: string)
    requires Plain(a)
    ensures IndexOfBar(a + "|" + b) == |a|
  {
    var s := a + "|" + b;
    var i := IndexOfBar(s);
    assert s[|a|] == '|';
    assert forall k :: 0 <= k < |a| ==> s[k] == a[k] && a[k] in a;
    assert forall k :: 0 <= k < i ==> s[k] == s[..i][k] && s[..i][k] in s[..i];
  }

  /** The kind name is the key with an empty API version. */
  lemma KindNameDropsVersion(v: string, k: string, ns: string, n: string)
    requires Plain(v)
    ensures '|' in BuildAPIVersionKindName(v, k, ns, n)
    ensures BuildKindName(BuildAPIVersionKindName(v, k, ns, n)) == BuildAPIVersionKindName("", k, ns, n)
  {
    var rest := k + "|" + (Namespace(ns) + "|" + n);
    FirstBar(v, rest);
    assert (v + "|" + rest)[|v|] == '|';
    assert "" + "|" + rest == (v + "|" + rest)[|v|..];
  }

  /** A workload is stored under its key and under its kind name. */
  predicate Names(key: string, ref: string)
    requires '|' in key
  {
    ref == key || ref == BuildKindName(key)
  }

  /** One reference never names two workloads with different kind names. */
  lemma NamesDetermineKindName(a: string, b: string, ref: string)
    requires '|' in a && '|' in b && Names(a, ref) && Names(b, ref)
    ensures BuildKindName(a) == BuildKindName(b)
  {
  }

  /** A reference built like a key names a workload exactly when kind, namespace
      and name agree and the API version is the workload's or left out. So a
      reference of one kind never names a workload of another. */
  lemma ReferenceResolves(v: string, k: string, ns: string, n: string, v': string, k': string, ns': string, n': string)
    requires Plain(v) && Plain(k) && Plain(ns) && Plain(v') && Plain(k') && Plain(ns')
    ensures '|' in BuildAPIVersionKindName(v, k, ns, n)
    ensures Names(BuildAPIVersionKindName(v, k, ns, n), BuildAPIVersionKindName(v', k', ns', n'))
            <==> k == k' && Namespace(ns) == Namespace(ns') && n == n' && (v' == v || v' == "")
  {
    KindNameDropsVersion(v, k, ns, n);
    KeyInjective(v', k', ns', n', v, k, ns, n);
    KeyInjective(v', k', ns', n', "", k, ns, n);
  }
}
