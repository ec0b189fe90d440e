/**
 * The pieces of PHP's value semantics that the PayPal helper relies on:
 * ordered string-keyed arrays and their lookup and `+` union, decimal
 * rendering of integers in string concatenation, `str_replace`, and the
 * truthiness test of a nullable string.
 */
module PhpArrays {

  datatype Option<+T> = None | Some(value: T)

  datatype Result<+R, +E> = Success(value: R) | Failure(error: E)

  /** One entry of an ordered PHP array with string keys and string values. */
  type Pair = (string, string)

  /** A PHP array never holds the same key twice. */
  predicate DistinctKeys(a: seq<Pair>) {
    forall i, j :: 0 <= i < j < |a| ==> a[i].0 != a[j].0
  }

  /** A form-data array such as `$_POST`: keys in insertion order, each once. */
  type StringArray = a: seq<Pair> | DistinctKeys(a) witness []

  /**
   * `isset($a[$k]) ? $a[$k] : null` for an array whose values are strings
   * (a string value is never null, so `isset` is key membership).
   */
  function Get(a: seq<Pair>, k: string): (r: Option<string>)
    ensures r.None? <==> forall i :: 0 <= i < |a| ==> a[i].0 != k
  {
    if |a| == 0 then None
    else if a[0].0 == k then Some(a[0].1)
    else Get(a[1..], k)
  }

  /** A present key yields its own entry's value. */
  lemma {:induction false} GetAt(a: seq<Pair>, i: nat)
    requires DistinctKeys(a) && i < |a|
    ensures Get(a, a[i].0) == Some(a[i].1)
  {
    if i > 0 {
      assert a[0].0 != a[i].0;
      assert a[1..][i - 1] == a[i];
      GetAt(a[1..], i - 1);
    }
  }

  /** Every key of a PHP array yields its own entry's value. */
  lemma GetEach(a: seq<Pair>)
    requires DistinctKeys(a)
    ensures forall i :: 0 <= i < |a| ==> Get(a, a[i].0) == Some(a[i].1)
  {
    forall i | 0 <= i < |a|
      ensures Get(a, a[i].0) == Some(a[i].1)
    {
      GetAt(a, i);
    }
  }

  /** A found value comes from an entry carrying that key. */
  lemma {:induction false} GetFound(a: seq<Pair>, k: string)
    requires Get(a, k).Some?
    ensures exists i :: 0 <= i < |a| && a[i] == (k, Get(a, k).value)
  {
    if a[0].0 != k {
      GetFound(a[1..], k);
      var i :| 0 <= i < |a[1..]| && a[1..][i] == (k, Get(a, k).value);
      assert a[i + 1] == a[1..][i];
    }
  }

  /** Lookup in a concatenation finds the left part first. */
  lemma {:induction false} GetAppend(a: seq<Pair>, b: seq<Pair>, k: string)
    ensures Get(a + b, k) == if Get(a, k).Some? then Get(a, k) else Get(b, k)
  {
    if |a| > 0 {
      assert (a + b)[1..] == a[1..] + b;
      GetAppend(a[1..], b, k);
    } else {
      assert a + b == b;
    }
  }

  /** The entries of `a` whose key is not a key of `left`, in their order. */
  function Unclaimed(a: seq<Pair>, left: seq<Pair>): (r: seq<Pair>)
    ensures |r| <= |a|
    ensures forall i :: 0 <= i < |r| ==> Get(left, r[i].0).None?
  {
    if |a| == 0 then []
    else if Get(left, a[0].0).Some? then Unclaimed(a[1..], left)
    else [a[0]] + Unclaimed(a[1..], left)
  }

  /** Lookup in `Unclaimed(a, left)`: keys of `left` are gone, the others unchanged. */
  lemma {:induction false} GetUnclaimed(a: seq<Pair>, left: seq<Pair>, k: string)
    ensures Get(Unclaimed(a, left), k) == if Get(left, k).Some? then None else Get(a, k)
  {
    if |a| > 0 {
      GetUnclaimed(a[1..], left, k);
    }
  }

  /** Every key kept by `Unclaimed` is a key of the array it filters. */
  lemma {:induction false} UnclaimedKeys(a: seq<Pair>, left: seq<Pair>, i: nat)
    requires i < |Unclaimed(a, left)|
    ensures Get(a, Unclaimed(a, left)[i].0).Some?
  {
    var r := Unclaimed(a, left);
    if Get(left, a[0].0).Some? {
      UnclaimedKeys(a[1..], left, i);
    } else if i > 0 {
      assert r[i] == Unclaimed(a[1..], left)[i - 1];
      UnclaimedKeys(a[1..], left, i - 1);
    }
  }

  /** When `left` claims none of the keys of `a`, `Unclaimed` keeps all of `a`, in order. */
  lemma {:induction false} UnclaimedAllFree(a: seq<Pair>, left: seq<Pair>)
    requires forall i :: 0 <= i < |a| ==> Get(left, a[i].0).None?
    ensures Unclaimed(a, left) == a
  {
    if |a| > 0 {
      assert Get(left, a[0].0).None?;
      forall i | 0 <= i < |a[1..]|
        ensures Get(left, a[1..][i].0).None?
      {
        assert a[1..][i] == a[i + 1];
      }
      UnclaimedAllFree(a[1..], left);
      assert a == [a[0]] + a[1..];
    }
  }

  /** When `left` claims exactly the key of entry `i`, `Unclaimed` drops that entry and keeps the rest in order. */
  lemma {:induction false} UnclaimedDropsOne(a: seq<Pair>, left: seq<Pair>, i: nat)
    requires i < |a| && Get(left, a[i].0).Some?
    requires forall j :: 0 <= j < |a| && j != i ==> Get(left, a[j].0).None?
    ensures Unclaimed(a, left) == a[..i] + a[i + 1..]
  {
    if i == 0 {
      forall j | 0 <= j < |a[1..]|
        ensures Get(left, a[1..][j].0).None?
      {
        assert a[1..][j] == a[j + 1];
      }
      UnclaimedAllFree(a[1..], left);
      assert a[..0] + a[1..] == a[1..];
    } else {
      assert Get(left, a[0].0).None?;
      forall j | 0 <= j < |a[1..]| && j != i - 1
        ensures Get(left, a[1..][j].0).None?
      {
        assert a[1..][j] == a[j + 1];
      }
      assert a[1..][i - 1] == a[i];
      UnclaimedDropsOne(a[1..], left, i - 1);
      assert a[1..][..i - 1] + a[1..][i..] == a[1..i] + a[i + 1..];
      assert [a[0]] + (a[1..i] + a[i + 1..]) == a[..i] + a[i + 1..];
    }
  }

  /** Filtering keeps the keys distinct. */
  lemma {:induction false} UnclaimedDistinct(a: seq<Pair>, left: seq<Pair>)
    requires DistinctKeys(a)
    ensures DistinctKeys(Unclaimed(a, left))
  {
    if |a| > 0 {
      var rest := Unclaimed(a[1..], left);
      UnclaimedDistinct(a[1..], left);
      if Get(left, a[0].0).None? {
        forall j | 0 <= j < |rest|
          ensures rest[j].0 != a[0].0
        {
          UnclaimedKeys(a[1..], left, j);
          assert Get(a[1..], a[0].0).None?;
        }
        var r := [a[0]] + rest;
        forall i, j | 0 <= i < j < |r|
          ensures r[i].0 != r[j].0
        {
          assert r[j] == rest[j - 1];
          if i > 0 {
            assert r[i] == rest[i - 1];
          }
        }
      }
    }
  }

  /**
   * PHP's array union `left + right`: the entries of `left`, then those
   * entries of `right` whose key `left` does not hold.
   */
  function LeftUnion(left: seq<Pair>, right: seq<Pair>): (u: seq<Pair>)
    ensures |left| <= |u| <= |left| + |right| && u[..|left|] == left
    ensures forall i :: |left| <= i < |u| ==> Get(left, u[i].0).None?
  {
    left + Unclaimed(right, left)
  }

  /** In `left + right` a key of `left` keeps its left value; any other key its right one. */
  lemma GetLeftUnion(left: seq<Pair>, right: seq<Pair>, k: string)
    ensures Get(LeftUnion(left, right), k) == if Get(left, k).Some? then Get(left, k) else Get(right, k)
  {
    GetAppend(left, Unclaimed(right, left), k);
    GetUnclaimed(right, left, k);
  }

  /** The union of two PHP arrays is again a PHP array. */
  lemma LeftUnionDistinct(left: seq<Pair>, right: seq<Pair>)
    requires DistinctKeys(left) && DistinctKeys(right)
    ensures DistinctKeys(LeftUnion(left, right))
  {
    var u := Unclaimed(right, left);
    UnclaimedDistinct(right, left);
    var r := left + u;
    forall i, j | 0 <= i < j < |r|
      ensures r[i].0 != r[j].0
    {
      if j >= |left| {
        assert r[j] == u[j - |left|];
        if i < |left| {
          assert Get(left, r[j].0).None?;
          assert r[i] == left[i];
        } else {
          assert r[i] == u[i - |left|];
        }
      }
    }
  }

  /** The character of a decimal digit. */
  function DigitChar(d: nat): (c: char)
    requires d < 10
    ensures '0' <= c <= '9'
  {
    ('0' as int + d) as char
  }

  /** PHP's decimal rendering of a non-negative integer in string concatenation. */
  function NatToString(n: nat): (s: string)
    ensures |s| >= 1
    ensures forall i :: 0 <= i < |s| ==> '0' <= s[i] <= '9'
    ensures n >= 10 ==> |s| >= 2
  {
    if n < 10 then [DigitChar(n)] else NatToString(n / 10) + [DigitChar(n % 10)]
  }

  /** Distinct numbers render as distinct strings. */
  lemma {:induction false} NatToStringInjective(m: nat, n: nat)
    requires NatToString(m) == NatToString(n)
    ensures m == n
  {
    if m >= 10 && n >= 10 {
      var sm, sn := NatToString(m), NatToString(n);
      assert sm[|sm| - 1] == DigitChar(m % 10);
      assert sn[|sn| - 1] == DigitChar(n % 10);
      assert sm[..|sm| - 1] == NatToString(m / 10);
      assert sn[..|sn| - 1] == NatToString(n / 10);
      NatToStringInjective(m / 10, n / 10);
    }
  }

  /** PHP's decimal rendering of an integer, with a leading minus sign when negative. */
  function IntToString(i: int): (s: string)
    ensures |s| >= 1
    ensures (s[0] == '-') == (i < 0)
  {
    if i < 0 then "-" + NatToString(-i) else NatToString(i)
  }

  /** Distinct integers render as distinct strings. */
  lemma IntToStringInjective(i: int, j: int)
    requires IntToString(i) == IntToString(j)
    ensures i == j
  {
    if i < 0 {
      assert IntToString(i)[1..] == NatToString(-i);
      assert IntToString(j)[1..] == NatToString(-j);
      NatToStringInjective(-i, -j);
    } else {
      NatToStringInjective(i, j);
    }
  }

  /** Two strings with a common prefix are equal only if the rests are. */
  lemma PrefixCancel(p: string, a: string, b: string)
    requires p + a == p + b
    ensures a == b
  {
    assert a == (p + a)[|p|..];
    assert b == (p + b)[|p|..];
  }

  /** Whether `search` occurs in `s` starting at index `i`. */
  predicate OccursAt(s: string, search: string, i: nat) {
    i + |search| <= |s| && s[i..i + |search|] == search
  }

  /**
   * PHP's `str_replace($search, $replace, $s)` for one search string:
   * occurrences are found from the left and do not overlap; an empty
   * search string leaves `s` unchanged.
   */
  function ReplaceAll(s: string, search: string, replace: string): (r: string)
    ensures |search| == 0 ==> r == s
    ensures |replace| >= |search| ==> |r| >= |s|
    ensures |replace| == |search| ==> |r| == |s|
    decreases |s|
  {
    if |search| == 0 || |s| < |search| then s
    else if s[..|search|] == search then replace + ReplaceAll(s[|search|..], search, replace)
    else [s[0]] + ReplaceAll(s[1..], search, replace)
  }

  /** A string in which `search` never occurs is left unchanged. */
  lemma {:induction false} ReplaceAllNoOccurrence(s: string, search: string, replace: string)
    requires forall i: nat :: !OccursAt(s, search, i)
    ensures ReplaceAll(s, search, replace) == s
  {
    if |search| > 0 && |s| >= |search| {
      assert !OccursAt(s, search, 0);
      forall i: nat
        ensures !OccursAt(s[1..], search, i)
      {
        assert !OccursAt(s, search, i + 1);
        if i + |search| <= |s[1..]| {
          assert s[1..][i..i + |search|] == s[i + 1..i + 1 + |search|];
        }
      }
      ReplaceAllNoOccurrence(s[1..], search, replace);
      assert s == [s[0]] + s[1..];
    }
  }

  /** A string that starts with `search` starts with `replace` once replaced. */
  lemma ReplaceAllLeading(s: string, search: string, replace: string)
    requires |search| > 0 && OccursAt(s, search, 0)
    ensures |ReplaceAll(s, search, replace)| >= |replace|
    ensures ReplaceAll(s, search, replace)[..|replace|] == replace
  {
  }

  /** PHP truthiness of a nullable string: null, `""` and `"0"` are false. */
  predicate Truthy(s: Option<string>) {
    s.Some? && s.value != "" && s.value != "0"
  }
}
