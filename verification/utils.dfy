/**
 * `Utils.CreateQuery`: renders an insertion-ordered dictionary of request
 * parameters as a query string. A value that is an `IEnumerable<object>`
 * (a list of strings) repeats its key once per element; any other value,
 * including a whole string, is rendered once as `key=value`. Nothing is
 * escaped.
 */
module Utils {
  import opened Wrappers

  /** A parameter value, already rendered to text. */
  datatype QueryValue =
    | Scalar(text: string)
    | Sequence(items: seq<string>)

  type Entry = (string, QueryValue)

  /** A `Dictionary<string, object>` filled only by `Add`, so enumerated in insertion order. */
  type Dictionary = seq<Entry>

  predicate Distinct(xs: seq<string>) {
    forall i, j | 0 <= i < j < |xs| :: xs[i] != xs[j]
  }

  /** `Dictionary.Add` throws on a repeated key, so a dictionary never holds one twice. */
  predicate DistinctKeys(d: Dictionary) {
    forall i, j | 0 <= i < j < |d| :: d[i].0 != d[j].0
  }

  /** The keys in enumeration order. */
  function Keys(d: Dictionary): (keys: seq<string>)
    ensures |keys| == |d|
    ensures forall i | 0 <= i < |d| :: keys[i] == d[i].0
  {
    if |d| == 0 then [] else [d[0].0] + Keys(d[1..])
  }

  /** The value stored under `key`, if any. */
  function Lookup(d: Dictionary, key: string): (r: Option<QueryValue>)
    ensures r.None? <==> key !in Keys(d)
  {
    if |d| == 0 then None
    else if d[0].0 == key then Some(d[0].1)
    else Lookup(d[1..], key)
  }

  /** `string.Join`: the parts with `separator` between neighbours. */
  function Join(separator: char, parts: seq<string>): string {
    if |parts| == 0 then ""
    else if |parts| == 1 then parts[0]
    else parts[0] + [separator] + Join(separator, parts[1..])
  }

  /** `key=item` for every item, in order. */
  function Assignments(key: string, items: seq<string>): (r: seq<string>)
    ensures |r| == |items|
    ensures forall i | 0 <= i < |items| :: r[i] == key + "=" + items[i]
  {
    if |items| == 0 then [] else [key + "=" + items[0]] + Assignments(key, items[1..])
  }

  /** The text one dictionary entry contributes. */
  function Segment(entry: Entry): string {
    match entry.1
    case Scalar(text) => entry.0 + "=" + text
    case Sequence(items) => Join('&', Assignments(entry.0, items))
  }

  function Segments(d: Dictionary): (r: seq<string>)
    ensures |r| == |d|
    ensures forall i | 0 <= i < |d| :: r[i] == Segment(d[i])
  {
    if |d| == 0 then [] else [Segment(d[0])] + Segments(d[1..])
  }

  /** The query string for a (possibly null) dictionary. */
  function CreateQuery(dict: Option<Dictionary>): (query: string)
    ensures query == "" <==> dict.None? || |dict.value| == 0
    ensures query != "" ==> query[0] == '?'
  {
    if dict.Some? && |dict.value| > 0 then "?" + Join('&', Segments(dict.value)) else ""
  }

  /** Regrouping a concatenation of three strings. */
  lemma Associative(a: string, b: string, c: string)
    ensures (a + b) + c == a + (b + c)
  {
  }

  lemma CreateQuerySingle(entry: Entry)
    ensures CreateQuery(Some([entry])) == "?" + Segment(entry)
  {
    assert Segments([entry]) == [Segment(entry)];
  }

  /** With distinct keys, every entry is found by its own key. */
  lemma {:induction false} LookupDistinct(d: Dictionary, i: nat)
    requires DistinctKeys(d) && i < |d|
    ensures Lookup(d, d[i].0) == Some(d[i].1)
    decreases i
  {
    if i > 0 {
      assert DistinctKeys(d[1..]) by {
        forall a, b | 0 <= a < b < |d[1..]| ensures d[1..][a].0 != d[1..][b].0 {
          assert d[1..][a] == d[a + 1] && d[1..][b] == d[b + 1];
        }
      }
      assert d[1..][i - 1] == d[i];
      LookupDistinct(d[1..], i - 1);
    }
  }

  lemma {:induction false} KeysAppend(a: Dictionary, b: Dictionary)
    ensures Keys(a + b) == Keys(a) + Keys(b)
  {
    assert forall i | 0 <= i < |a + b| :: Keys(a + b)[i] == (Keys(a) + Keys(b))[i];
  }

  /** A key is looked up in the first part that holds it. */
  lemma {:induction false} LookupAppend(a: Dictionary, b: Dictionary, key: string)
    ensures Lookup(a + b, key) == if key in Keys(a) then Lookup(a, key) else Lookup(b, key)
    decreases |a|
  {
    if |a| == 0 {
      assert a + b == b;
    } else {
      assert (a + b)[0] == a[0] && (a + b)[1..] == a[1..] + b;
      LookupAppend(a[1..], b, key);
    }
  }

  /** `xs` can be obtained from `ys` by deleting elements. */
  predicate IsSubsequence(xs: seq<string>, ys: seq<string>)
    decreases |ys|
  {
    if |xs| == 0 then true
    else if |ys| == 0 then false
    else (xs[0] == ys[0] && IsSubsequence(xs[1..], ys[1..])) || IsSubsequence(xs, ys[1..])
  }

  lemma {:induction false} SubsequenceReflexive(xs: seq<string>)
    ensures IsSubsequence(xs, xs)
    decreases |xs|
  {
    if |xs| > 0 {
      SubsequenceReflexive(xs[1..]);
    }
  }

  lemma {:induction false} SubsequenceExtendLeft(xs: seq<string>, prefix: seq<string>, ys: seq<string>)
    requires IsSubsequence(xs, ys)
    ensures IsSubsequence(xs, prefix + ys)
    decreases |prefix|
  {
    if |prefix| == 0 {
      assert prefix + ys == ys;
    } else if |xs| > 0 {
      assert (prefix + ys)[1..] == prefix[1..] + ys;
      SubsequenceExtendLeft(xs, prefix[1..], ys);
    }
  }

  /** Subsequences of two parts combine into a subsequence of the whole. */
  lemma {:induction false} SubsequenceConcat(a: seq<string>, b: seq<string>, c: seq<string>, d: seq<string>)
    requires IsSubsequence(a, c) && IsSubsequence(b, d)
    ensures IsSubsequence(a + b, c + d)
    decreases |c|
  {
    if |a| == 0 {
      assert a + b == b;
      SubsequenceExtendLeft(b, c, d);
    } else {
      assert (a + b)[0] == a[0] && (a + b)[1..] == a[1..] + b;
      assert (c + d)[0] == c[0] && (c + d)[1..] == c[1..] + d;
      if a[0] == c[0] && IsSubsequence(a[1..], c[1..]) {
        SubsequenceConcat(a[1..], b, c[1..], d);
      } else {
        SubsequenceConcat(a, b, c[1..], d);
      }
    }
  }

  lemma {:induction false} SubsequenceMembers(xs: seq<string>, ys: seq<string>)
    requires IsSubsequence(xs, ys)
    ensures forall x | x in xs :: x in ys
    decreases |ys|
  {
    if |xs| > 0 {
      if xs[0] == ys[0] && IsSubsequence(xs[1..], ys[1..]) {
        SubsequenceMembers(xs[1..], ys[1..]);
        assert forall x | x in xs :: x == xs[0] || x in xs[1..];
      } else {
        SubsequenceMembers(xs, ys[1..]);
      }
    }
  }

  /** Deleting elements from a list without repeats leaves a list without repeats. */
  lemma {:induction false} SubsequenceOfDistinct(xs: seq<string>, ys: seq<string>)
    requires IsSubsequence(xs, ys) && Distinct(ys)
    ensures Distinct(xs)
    decreases |ys|
  {
    if |xs| > 0 {
      assert Distinct(ys[1..]) by {
        forall i, j | 0 <= i < j < |ys[1..]| ensures ys[1..][i] != ys[1..][j] {
          assert ys[1..][i] == ys[i + 1] && ys[1..][j] == ys[j + 1];
        }
      }
      if xs[0] == ys[0] && IsSubsequence(xs[1..], ys[1..]) {
        SubsequenceOfDistinct(xs[1..], ys[1..]);
        SubsequenceMembers(xs[1..], ys[1..]);
        assert ys[0] !in ys[1..];
        forall i, j | 0 <= i < j < |xs| ensures xs[i] != xs[j] {
          if i == 0 {
            assert xs[j] == xs[1..][j - 1];
          } else {
            assert xs[i] == xs[1..][i - 1] && xs[j] == xs[1..][j - 1];
          }
        }
      } else {
        SubsequenceOfDistinct(xs, ys[1..]);
      }
    }
  }

  lemma DistinctKeysFromKeys(d: Dictionary)
    requires Distinct(Keys(d))
    ensures DistinctKeys(d)
  {
  }
}
