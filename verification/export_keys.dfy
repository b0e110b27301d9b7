/** Export names of the stack's outputs: four fixed names, and two per
    bucket derived by capitalising the bucket's base name. */
module ExportKeys {

  const VpcKey: string := "Vpc"
  const SecurityGroupKey: string := "VpcSecurityGroup"
  const SecretKey: string := "AuroraDBClusterSecretBOutput"
  const ClusterKey: string := "AuroraDBClusterOutput"

  const BucketSuffix: string := "BucketOutput"
  const PolicySuffix: string := "BucketPolicyOutput"

  /** Upper-cases an ASCII lower-case letter and leaves every other character alone. */
  function Upper(c: char): (u: char)
    ensures 'a' <= c <= 'z' ==> 'A' <= u <= 'Z' && u as int - 'A' as int == c as int - 'a' as int
    ensures !('a' <= c <= 'z') ==> u == c
  {
    if 'a' <= c <= 'z' then (c as int - 'a' as int + 'A' as int) as char else c
  }

  /** The base name with its first character upper-cased and the rest kept. */
  function Capitalize(s: string): (r: string)
    requires |s| > 0
    ensures |r| == |s| && r[0] == Upper(s[0]) && r[1..] == s[1..]
  {
    [Upper(s[0])] + s[1..]
  }

  /** The export name of a bucket's ARN record: the capitalised base name
      followed by `BucketOutput`. */
  function BucketKey(base: string): (r: string)
    requires |base| > 0
    ensures |r| == |base| + |BucketSuffix|
    ensures r[..|base|] == Capitalize(base) && r[|base|..] == BucketSuffix
  {
    Capitalize(base) + BucketSuffix
  }

  /** The export name of a bucket's policy record: the capitalised base
      name followed by `BucketPolicyOutput`. */
  function PolicyKey(base: string): (r: string)
    requires |base| > 0
    ensures |r| == |base| + |PolicySuffix|
    ensures r[..|base|] == Capitalize(base) && r[|base|..] == PolicySuffix
  {
    Capitalize(base) + PolicySuffix
  }

  predicate Distinct<T(==)>(s: seq<T>) {
    forall i, j :: 0 <= i < j < |s| ==> s[i] != s[j]
  }

  /** Capitalising twice is capitalising once, and two names capitalise
      alike exactly when their first letters agree up to case and the
      rest is identical. */
  lemma CapitalizeLaws(a: string, b: string)
    requires |a| > 0 && |b| > 0
    ensures |Capitalize(a)| == |a| && Capitalize(Capitalize(a)) == Capitalize(a)
    ensures Capitalize(a) == Capitalize(b) <==> Upper(a[0]) == Upper(b[0]) && a[1..] == b[1..]
  {
    var ca := Capitalize(a);
    assert ca[1..] == a[1..];
    assert Capitalize(ca) == [Upper(ca[0])] + ca[1..];
    if Capitalize(a) == Capitalize(b) {
      assert Capitalize(a)[0] == Capitalize(b)[0];
      assert Capitalize(a)[1..] == Capitalize(b)[1..];
    }
  }

  /** The character `k` places from the end of `x + s`, when `s` is long
      enough, is that of the suffix `s`. */
  lemma CharFromEnd(x: string, s: string, k: nat)
    requires 0 < k <= |s|
    ensures (x + s)[|x + s| - k] == s[|s| - k]
  {
  }

  /** No bucket-derived key is ever one of the four fixed keys. */
  lemma FixedKeysNeverClash(base: string)
    requires |base| > 0
    ensures BucketKey(base) !in {VpcKey, SecurityGroupKey, SecretKey, ClusterKey}
    ensures PolicyKey(base) !in {VpcKey, SecurityGroupKey, SecretKey, ClusterKey}
  {
    CharFromEnd(Capitalize(base), BucketSuffix, 7);
    CharFromEnd(Capitalize(base), PolicySuffix, 7);
    assert BucketKey(base)[|BucketKey(base)| - 7] == 't';
    assert PolicyKey(base)[|PolicyKey(base)| - 7] == 'y';
    CharFromEnd(Capitalize(base), BucketSuffix, 3);
    CharFromEnd(Capitalize(base), PolicySuffix, 3);
    assert SecurityGroupKey[|SecurityGroupKey| - 3] == 'o';
    assert SecretKey[|SecretKey| - 7] == 'B';
    assert ClusterKey[|ClusterKey| - 7] == 'r';
  }

  /** A bucket key and a policy key never coincide, whatever the two base names. */
  lemma BucketAndPolicyKeysNeverClash(a: string, b: string)
    requires |a| > 0 && |b| > 0
    ensures BucketKey(a) != PolicyKey(b)
  {
    CharFromEnd(Capitalize(a), BucketSuffix, 7);
    CharFromEnd(Capitalize(b), PolicySuffix, 7);
  }

  /** Two bucket keys (or two policy keys) coincide exactly when the
      capitalised base names do. */
  lemma KeysInjective(a: string, b: string)
    requires |a| > 0 && |b| > 0
    ensures BucketKey(a) == BucketKey(b) <==> Capitalize(a) == Capitalize(b)
    ensures PolicyKey(a) == PolicyKey(b) <==> Capitalize(a) == Capitalize(b)
  {
    var ca, cb := Capitalize(a), Capitalize(b);
    if BucketKey(a) == BucketKey(b) {
      assert |ca| == |cb|;
      assert ca == BucketKey(a)[..|ca|];
      assert cb == BucketKey(b)[..|cb|];
    }
    if PolicyKey(a) == PolicyKey(b) {
      assert |ca| == |cb|;
      assert ca == PolicyKey(a)[..|ca|];
      assert cb == PolicyKey(b)[..|cb|];
    }
  }

  /** The eight export names of the stack, in output order. */
  function AllKeys(importBase: string, exportBase: string): seq<string>
    requires |importBase| > 0 && |exportBase| > 0
  {
    [VpcKey, SecurityGroupKey, SecretKey, ClusterKey,
     BucketKey(importBase), PolicyKey(importBase), BucketKey(exportBase), PolicyKey(exportBase)]
  }

  /** All eight export names are pairwise distinct exactly when the two
      capitalised base names differ. */
  lemma AllKeysDistinct(importBase: string, exportBase: string)
    requires |importBase| > 0 && |exportBase| > 0
    ensures Distinct(AllKeys(importBase, exportBase)) <==> Capitalize(importBase) != Capitalize(exportBase)
  {
    var keys := AllKeys(importBase, exportBase);
    FixedKeysNeverClash(importBase);
    FixedKeysNeverClash(exportBase);
    BucketAndPolicyKeysNeverClash(importBase, importBase);
    BucketAndPolicyKeysNeverClash(importBase, exportBase);
    BucketAndPolicyKeysNeverClash(exportBase, importBase);
    BucketAndPolicyKeysNeverClash(exportBase, exportBase);
    KeysInjective(importBase, exportBase);
    if Capitalize(importBase) == Capitalize(exportBase) {
      assert keys[4] == keys[6];
    }
  }

}
