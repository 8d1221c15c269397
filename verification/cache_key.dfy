/**
 The fingerprint of a request: the memory-cache key built at the head of the
 report activity by `string.Concat("filename", ReportName, Name, Region, Percentage)`.
 */
module CacheKey {
  import opened Wrappers
  import opened Requests

  /** The literal every cache key starts with. */
  const KeyPrefix: string := "filename"

  /** `string.Concat` over nullable arguments, left to right, `null` as "". */
  function Concat(parts: seq<Option<string>>): string
  {
    if |parts| == 0 then "" else OrEmpty(parts[0]) + Concat(parts[1..])
  }

  /** The arguments handed to `string.Concat`, in `GetReportsRun`'s argument order. */
  function KeyParts(r: ReportRequest): seq<Option<string>>
  {
    [Some(KeyPrefix), r.reportName, r.name, r.region, r.percentage]
  }

  /** The cache key of a request. */
  function Key(r: ReportRequest): (k: string)
    ensures k == KeyPrefix + OrEmpty(r.reportName) + OrEmpty(r.name) + OrEmpty(r.region) + OrEmpty(r.percentage)
    ensures |k| == |KeyPrefix| + |OrEmpty(r.reportName)| + |OrEmpty(r.name)| + |OrEmpty(r.region)| + |OrEmpty(r.percentage)|
  {
    ConcatCons(Some(KeyPrefix), [r.reportName, r.name, r.region, r.percentage]);
    ConcatCons(r.reportName, [r.name, r.region, r.percentage]);
    ConcatCons(r.name, [r.region, r.percentage]);
    ConcatCons(r.region, [r.percentage]);
    ConcatCons(r.percentage, []);
    Concat(KeyParts(r))
  }

  /** One step of `Concat`, stated on an explicit first argument. */
  lemma ConcatCons(x: Option<string>, rest: seq<Option<string>>)
    ensures Concat([x] + rest) == OrEmpty(x) + Concat(rest)
  {
    assert ([x] + rest)[1..] == rest;
  }

  /** Concatenation distributes over splitting the argument list. */
  lemma {:induction false} ConcatAppend(a: seq<Option<string>>, b: seq<Option<string>>)
    ensures Concat(a + b) == Concat(a) + Concat(b)
    decreases |a|
  {
    if |a| == 0 {
      assert a + b == b;
    } else {
      assert (a + b)[1..] == a[1..] + b;
      ConcatAppend(a[1..], b);
    }
  }

  /** Arguments that render alike concatenate alike: `null` and "" are interchangeable. */
  lemma {:induction false} ConcatCongruent(a: seq<Option<string>>, b: seq<Option<string>>)
    requires |a| == |b|
    requires forall i :: 0 <= i < |a| ==> OrEmpty(a[i]) == OrEmpty(b[i])
    ensures Concat(a) == Concat(b)
    decreases |a|
  {
    if |a| > 0 {
      assert OrEmpty(a[0]) == OrEmpty(b[0]);
      ConcatCongruent(a[1..], b[1..]);
    }
  }

  /** Concatenation seen around one argument position. */
  lemma ConcatAround(a: seq<Option<string>>, i: nat)
    requires i < |a|
    ensures Concat(a) == Concat(a[..i]) + OrEmpty(a[i]) + Concat(a[i+1..])
  {
    var pre, here, post := a[..i], a[i..], a[i+1..];
    assert here == [a[i]] + post;
    assert a == pre + here;
    ConcatAppend(pre, here);
    ConcatCons(a[i], post);
  }

  /** Strings that agree around a middle part agree on the middle part. */
  lemma CancelAround(x: string, m: string, m': string, y: string)
    requires x + m + y == x + m' + y
    ensures m == m'
  {
    var s := x + m + y;
    assert |m| == |m'|;
    assert m == s[|x|..|x| + |m|];
    assert m' == (x + m' + y)[|x|..|x| + |m'|];
  }

  /**
   Changing exactly one argument to a differently rendered value changes the
   concatenation: the fixed argument order rules out collisions between requests
   that differ in a single field.
   */
  lemma ConcatSeparatesOnePosition(a: seq<Option<string>>, b: seq<Option<string>>, i: nat)
    requires |a| == |b| && i < |a|
    requires forall j :: 0 <= j < |a| && j != i ==> OrEmpty(a[j]) == OrEmpty(b[j])
    requires OrEmpty(a[i]) != OrEmpty(b[i])
    ensures Concat(a) != Concat(b)
  {
    ConcatAround(a, i);
    ConcatAround(b, i);
    ConcatCongruent(a[..i], b[..i]);
    ConcatCongruent(a[i+1..], b[i+1..]);
    if Concat(a) == Concat(b) {
      CancelAround(Concat(a[..i]), OrEmpty(a[i]), OrEmpty(b[i]), Concat(a[i+1..]));
    }
  }

  /** Requests that render alike have the same key (determinism, up to `null` = ""). */
  lemma KeyDependsOnlyOnRendering(a: ReportRequest, b: ReportRequest)
    requires Rendered(a) == Rendered(b)
    ensures Key(a) == Key(b)
  {
  }

  /** An absent optional field and an empty one give the same key. */
  lemma AbsentFieldKeysLikeEmpty(r: ReportRequest)
    ensures Key(r.(name := None)) == Key(r.(name := Some("")))
    ensures Key(r.(region := None)) == Key(r.(region := Some("")))
    ensures Key(r.(percentage := None)) == Key(r.(percentage := Some("")))
    ensures Key(r.(reportName := None)) == Key(r.(reportName := Some("")))
  {
  }

  /**
   Two requests whose renderings differ in exactly one field have different keys.
   */
  lemma {:induction false} KeySeparatesSingleField(a: ReportRequest, b: ReportRequest, i: nat)
    requires i < 4
    requires forall j :: 0 <= j < 4 && j != i ==> Rendered(a)[j] == Rendered(b)[j]
    requires Rendered(a)[i] != Rendered(b)[i]
    ensures Key(a) != Key(b)
  {
    var pa, pb := KeyParts(a), KeyParts(b);
    forall j | 0 <= j < 5 && j != i + 1
      ensures OrEmpty(pa[j]) == OrEmpty(pb[j])
    {
      if j > 0 {
        assert OrEmpty(pa[j]) == Rendered(a)[j - 1];
        assert OrEmpty(pb[j]) == Rendered(b)[j - 1];
      }
    }
    assert OrEmpty(pa[i + 1]) == Rendered(a)[i];
    assert OrEmpty(pb[i + 1]) == Rendered(b)[i];
    ConcatSeparatesOnePosition(pa, pb, i + 1);
  }

  /**
   With no separators, a boundary shift between adjacent fields collides:
   name "ab" without a region keys like name "a" with region "b".
   */
  lemma BoundaryShiftCollides()
    ensures var a := ReportRequest(Some("Species"), Some("ab"), None, None);
            var b := ReportRequest(Some("Species"), Some("a"), Some("b"), None);
            a != b && Key(a) == Key(b)
  {
    var a := ReportRequest(Some("Species"), Some("ab"), None, None);
    var b := ReportRequest(Some("Species"), Some("a"), Some("b"), None);
    var head := KeyPrefix + "Species";
    assert Key(a) == head + "ab";
    assert Key(b) == head + "a" + "b";
    assert "a" + "b" == "ab";
    assert head + "a" + "b" == head + ("a" + "b");
  }
}
