/**
 * A reference reading of query strings, used to state what `CreateQuery`
 * produces: the key/value pairs it encodes, in order. Escaping by the URI
 * layer is not part of this reading.
 */
module QueryParsing {
  import opened Wrappers
  import opened Utils

  type Pair = (string, string)

  /** What a dictionary means on the wire: one pair per scalar, one pair per list item. */
  function EntryPairs(entry: Entry): seq<Pair> {
    match entry.1
    case Scalar(text) => [(entry.0, text)]
    case Sequence(items) => seq(|items|, i requires 0 <= i < |items| => (entry.0, items[i]))
  }

  function Pairs(d: Dictionary): seq<Pair> {
    if |d| == 0 then [] else EntryPairs(d[0]) + Pairs(d[1..])
  }

  /** How many pairs a value stands for. */
  function Arity(value: QueryValue): nat {
    match value
    case Scalar(_) => 1
    case Sequence(items) => |items|
  }

  function CountKey(pairs: seq<Pair>, key: string): nat {
    if |pairs| == 0 then 0
    else (if pairs[0].0 == key then 1 else 0) + CountKey(pairs[1..], key)
  }

  /** Position of the first `c` in `s`. */
  function IndexOf(s: string, c: char): (i: nat)
    requires c in s
    ensures i < |s| && s[i] == c && c !in s[..i]
  {
    if s[0] == c then 0 else 1 + IndexOf(s[1..], c)
  }

  /** The pieces of `s` between separators; never empty. */
  function Split(s: string, separator: char): (parts: seq<string>)
    ensures 1 <= |parts|
    decreases |s|
  {
    if separator !in s then [s]
    else
      var i := IndexOf(s, separator);
      [s[..i]] + Split(s[i + 1..], separator)
  }

  /** `key=value` split at the first `=`; a field without one is a key with an empty value. */
  function ParseField(field: string): Pair {
    if '=' in field then
      var i := IndexOf(field, '=');
      (field[..i], field[i + 1..])
    else (field, "")
  }

  /** Empty fields (as between `&&`) carry no pair. */
  function ParseFields(fields: seq<string>): seq<Pair> {
    if |fields| == 0 then []
    else (if fields[0] == "" then [] else [ParseField(fields[0])]) + ParseFields(fields[1..])
  }

  function ParseQuery(query: string): seq<Pair> {
    if query == "" then []
    else ParseFields(Split(if query[0] == '?' then query[1..] else query, '&'))
  }

  /** Keys and values that a query string can carry unambiguously. */
  predicate Unambiguous(d: Dictionary) {
    forall i | 0 <= i < |d| ::
      && '&' !in d[i].0 && '=' !in d[i].0
      && match d[i].1
         case Scalar(text) => '&' !in text
         case Sequence(items) => forall j | 0 <= j < |items| :: '&' !in items[j]
  }

  /** The fields an entry leaves between `&` separators; an empty list leaves one empty field. */
  function EntryFields(entry: Entry): (r: seq<string>)
    ensures 1 <= |r|
  {
    match entry.1
    case Scalar(text) => [entry.0 + "=" + text]
    case Sequence(items) => if |items| == 0 then [""] else Assignments(entry.0, items)
  }

  function Fields(d: Dictionary): seq<string> {
    if |d| == 0 then [] else EntryFields(d[0]) + Fields(d[1..])
  }

  lemma {:induction false} JoinAppend(separator: char, a: seq<string>, b: seq<string>)
    requires 1 <= |a| && 1 <= |b|
    ensures Join(separator, a + b) == Join(separator, a) + [separator] + Join(separator, b)
    decreases |a|
  {
    if |a| == 1 {
      assert (a + b)[0] == a[0] && (a + b)[1..] == b;
    } else {
      assert (a + b)[0] == a[0] && (a + b)[1..] == a[1..] + b;
      JoinAppend(separator, a[1..], b);
    }
  }

  /** Joining the entries' segments is joining all their fields. */
  lemma {:induction false} SegmentsAreFields(d: Dictionary)
    requires 1 <= |d|
    ensures Join('&', Segments(d)) == Join('&', Fields(d))
  {
    var e := d[0];
    assert Join('&', EntryFields(e)) == Segment(e);
    if |d| == 1 {
      assert Fields(d) == EntryFields(e) + Fields(d[1..]);
      assert Fields(d[1..]) == [];
      assert Fields(d) == EntryFields(e);
      assert Segments(d) == [Segment(e)];
    } else {
      SegmentsAreFields(d[1..]);
      assert Segments(d)[1..] == Segments(d[1..]);
      assert Fields(d[1..]) != [] by {
        assert Fields(d[1..]) == EntryFields(d[1..][0]) + Fields(d[1..][1..]);
      }
      JoinAppend('&', EntryFields(e), Fields(d[1..]));
    }
  }

  lemma {:induction false} SplitJoin(separator: char, parts: seq<string>)
    requires 1 <= |parts|
    requires forall i | 0 <= i < |parts| :: separator !in parts[i]
    ensures Split(Join(separator, parts), separator) == parts
    decreases |parts|
  {
    if |parts| > 1 {
      var s := Join(separator, parts);
      var p := parts[0];
      assert s == p + [separator] + Join(separator, parts[1..]);
      assert s[|p|] == separator;
      assert s[..|p|] == p;
      assert separator in s;
      var i := IndexOf(s, separator);
      assert forall k | 0 <= k < |p| :: s[k] == p[k] && s[k] != separator;
      assert forall k | 0 <= k < i :: s[..i][k] == s[k] && s[k] != separator;
      assert i == |p|;
      assert s[i + 1..] == Join(separator, parts[1..]);
      SplitJoin(separator, parts[1..]);
    }
  }

  lemma {:induction false} ParseFieldsAppend(a: seq<string>, b: seq<string>)
    ensures ParseFields(a + b) == ParseFields(a) + ParseFields(b)
    decreases |a|
  {
    if |a| > 0 {
      assert (a + b)[0] == a[0] && (a + b)[1..] == a[1..] + b;
      ParseFieldsAppend(a[1..], b);
    } else {
      assert a + b == b;
    }
  }

  lemma ParseAssignment(key: string, value: string)
    requires '=' !in key
    ensures ParseField(key + "=" + value) == (key, value)
  {
    var f := key + "=" + value;
    assert f[|key|] == '=';
    assert f[..|key|] == key;
    var i := IndexOf(f, '=');
    assert i == |key|;
    assert f[i + 1..] == value;
  }

  lemma {:induction false} ParseAssignments(key: string, items: seq<string>)
    requires '=' !in key
    ensures ParseFields(Assignments(key, items)) == seq(|items|, i requires 0 <= i < |items| => (key, items[i]))
    decreases |items|
  {
    if |items| > 0 {
      var fs := Assignments(key, items);
      assert fs[0] == key + "=" + items[0];
      assert fs[0] != "" by { assert |fs[0]| > |key|; }
      assert fs[1..] == Assignments(key, items[1..]);
      ParseAssignment(key, items[0]);
      ParseAssignments(key, items[1..]);
    }
  }

  lemma {:induction false} FieldsParseToPairs(d: Dictionary)
    requires Unambiguous(d)
    ensures ParseFields(Fields(d)) == Pairs(d)
    decreases |d|
  {
    if |d| > 0 {
      var e := d[0];
      assert Unambiguous(d[1..]) by {
        forall i | 0 <= i < |d[1..]| ensures '&' !in d[1..][i].0 && '=' !in d[1..][i].0 {
          assert d[1..][i] == d[i + 1];
        }
      }
      ParseFieldsAppend(EntryFields(e), Fields(d[1..]));
      FieldsParseToPairs(d[1..]);
      match e.1
      case Scalar(text) =>
        ParseAssignment(e.0, text);
        assert e.0 + "=" + text != "" by { assert |e.0 + "=" + text| > |e.0|; }
      case Sequence(items) =>
        if |items| > 0 {
          ParseAssignments(e.0, items);
        }
    }
  }

  /** No field of an unambiguous dictionary contains the separator. */
  lemma {:induction false} FieldsAvoidSeparator(d: Dictionary)
    requires Unambiguous(d)
    ensures forall i | 0 <= i < |Fields(d)| :: '&' !in Fields(d)[i]
    decreases |d|
  {
    if |d| > 0 {
      assert Unambiguous(d[1..]) by {
        forall i | 0 <= i < |d[1..]| ensures '&' !in d[1..][i].0 && '=' !in d[1..][i].0 {
          assert d[1..][i] == d[i + 1];
        }
      }
      FieldsAvoidSeparator(d[1..]);
      var e := d[0];
      var ef := EntryFields(e);
      forall i | 0 <= i < |ef| ensures '&' !in ef[i] {
        match e.1
        case Scalar(text) =>
          assert ef[i] == e.0 + "=" + text;
        case Sequence(items) =>
          if |items| > 0 {
            assert ef[i] == e.0 + "=" + items[i];
          }
      }
    }
  }

  /**
   * Reading the query string back yields every key/value pair of the
   * dictionary in insertion order, list items expanded in place.
   */
  lemma CreateQueryRoundTrip(d: Dictionary)
    requires Unambiguous(d)
    ensures ParseQuery(CreateQuery(Some(d))) == Pairs(d)
  {
    if |d| > 0 {
      var q := CreateQuery(Some(d));
      assert q[1..] == Join('&', Segments(d));
      SegmentsAreFields(d);
      FieldsAvoidSeparator(d);
      assert |Fields(d)| >= 1 by {
        assert Fields(d) == EntryFields(d[0]) + Fields(d[1..]);
      }
      SplitJoin('&', Fields(d));
      FieldsParseToPairs(d);
    }
  }

  lemma {:induction false} CountKeyAppend(a: seq<Pair>, b: seq<Pair>, key: string)
    ensures CountKey(a + b, key) == CountKey(a, key) + CountKey(b, key)
    decreases |a|
  {
    if |a| > 0 {
      assert (a + b)[0] == a[0] && (a + b)[1..] == a[1..] + b;
      CountKeyAppend(a[1..], b, key);
    } else {
      assert a + b == b;
    }
  }

  lemma {:induction false} CountUniformKey(pairs: seq<Pair>, key: string)
    requires forall i | 0 <= i < |pairs| :: pairs[i].0 == key
    ensures CountKey(pairs, key) == |pairs|
    decreases |pairs|
  {
    if |pairs| > 0 {
      CountUniformKey(pairs[1..], key);
    }
  }

  lemma {:induction false} CountAbsentKey(pairs: seq<Pair>, key: string)
    requires forall i | 0 <= i < |pairs| :: pairs[i].0 != key
    ensures CountKey(pairs, key) == 0
    decreases |pairs|
  {
    if |pairs| > 0 {
      CountAbsentKey(pairs[1..], key);
    }
  }

  /**
   * With distinct keys, a key occurs once per pair its value stands for:
   * once for a scalar, once per item for a list.
   */
  lemma {:induction false} KeyOccurrences(d: Dictionary, k: nat)
    requires DistinctKeys(d) && k < |d|
    ensures CountKey(Pairs(d), d[k].0) == Arity(d[k].1)
    decreases |d|
  {
    var key := d[k].0;
    CountKeyAppend(EntryPairs(d[0]), Pairs(d[1..]), key);
    assert DistinctKeys(d[1..]) by {
      forall i, j | 0 <= i < j < |d[1..]| ensures d[1..][i].0 != d[1..][j].0 {
        assert d[1..][i] == d[i + 1] && d[1..][j] == d[j + 1];
      }
    }
    if k == 0 {
      CountUniformKey(EntryPairs(d[0]), key);
      KeyAbsentFromRest(d, key);
    } else {
      CountAbsentKey(EntryPairs(d[0]), key);
      assert d[1..][k - 1] == d[k];
      KeyOccurrences(d[1..], k - 1);
    }
  }

  /** The first key of a dictionary with distinct keys does not occur in the pairs of the rest. */
  lemma {:induction false} KeyAbsentFromRest(d: Dictionary, key: string)
    requires DistinctKeys(d) && 1 <= |d| && key == d[0].0
    ensures CountKey(Pairs(d[1..]), key) == 0
  {
    PairsAvoidKey(d[1..], key);
  }

  lemma {:induction false} PairsAvoidKey(d: Dictionary, key: string)
    requires forall i | 0 <= i < |d| :: d[i].0 != key
    ensures CountKey(Pairs(d), key) == 0
    decreases |d|
  {
    if |d| > 0 {
      CountKeyAppend(EntryPairs(d[0]), Pairs(d[1..]), key);
      CountAbsentKey(EntryPairs(d[0]), key);
      assert forall i | 0 <= i < |d[1..]| :: d[1..][i].0 != key by {
        forall i | 0 <= i < |d[1..]| ensures d[1..][i].0 != key {
          assert d[1..][i] == d[i + 1];
        }
      }
      PairsAvoidKey(d[1..], key);
    }
  }

  /** The values of the pairs with key `key`, in order. */
  function ValuesOf(pairs: seq<Pair>, key: string): seq<string> {
    if |pairs| == 0 then []
    else (if pairs[0].0 == key then [pairs[0].1] else []) + ValuesOf(pairs[1..], key)
  }

  /** The texts a value stands for: itself for a scalar, its items for a list. */
  function Items(value: QueryValue): (texts: seq<string>)
    ensures |texts| == Arity(value)
  {
    match value
    case Scalar(text) => [text]
    case Sequence(items) => items
  }

  lemma {:induction false} ValuesOfAppend(a: seq<Pair>, b: seq<Pair>, key: string)
    ensures ValuesOf(a + b, key) == ValuesOf(a, key) + ValuesOf(b, key)
    decreases |a|
  {
    if |a| > 0 {
      assert (a + b)[0] == a[0] && (a + b)[1..] == a[1..] + b;
      ValuesOfAppend(a[1..], b, key);
    } else {
      assert a + b == b;
    }
  }

  /** There are as many values under a key as pairs with it. */
  lemma {:induction false} ValuesOfLength(pairs: seq<Pair>, key: string)
    ensures |ValuesOf(pairs, key)| == CountKey(pairs, key)
    decreases |pairs|
  {
    if |pairs| > 0 {
      ValuesOfLength(pairs[1..], key);
    }
  }

  /** An entry's own pairs carry exactly the texts of its value. */
  lemma {:induction false} EntryValues(entry: Entry)
    ensures ValuesOf(EntryPairs(entry), entry.0) == Items(entry.1)
  {
    match entry.1
    case Scalar(text) =>
    case Sequence(items) =>
      ListValues(entry.0, items);
  }

  lemma {:induction false} ListValues(key: string, items: seq<string>)
    ensures ValuesOf(seq(|items|, i requires 0 <= i < |items| => (key, items[i])), key) == items
    decreases |items|
  {
    var pairs := seq(|items|, i requires 0 <= i < |items| => (key, items[i]));
    if |items| > 0 {
      assert pairs[1..] == seq(|items[1..]|, i requires 0 <= i < |items[1..]| => (key, items[1..][i]));
      ListValues(key, items[1..]);
      assert items == [items[0]] + items[1..];
    }
  }

  /**
   * With distinct keys, the pairs under a key carry exactly the texts of
   * that key's value, in order.
   */
  lemma {:induction false} KeyValues(d: Dictionary, k: nat)
    requires DistinctKeys(d) && k < |d|
    ensures ValuesOf(Pairs(d), d[k].0) == Items(d[k].1)
    decreases |d|
  {
    var key := d[k].0;
    ValuesOfAppend(EntryPairs(d[0]), Pairs(d[1..]), key);
    assert DistinctKeys(d[1..]) by {
      forall i, j | 0 <= i < j < |d[1..]| ensures d[1..][i].0 != d[1..][j].0 {
        assert d[1..][i] == d[i + 1] && d[1..][j] == d[j + 1];
      }
    }
    if k == 0 {
      EntryValues(d[0]);
      KeyAbsentFromRest(d, key);
      ValuesOfLength(Pairs(d[1..]), key);
    } else {
      CountAbsentKey(EntryPairs(d[0]), key);
      ValuesOfLength(EntryPairs(d[0]), key);
      assert d[1..][k - 1] == d[k];
      KeyValues(d[1..], k - 1);
    }
  }

  /** The pairs of a dictionary of scalars are its entries' texts. */
  lemma {:induction false} ScalarPairs(d: Dictionary)
    requires forall i | 0 <= i < |d| :: d[i].1.Scalar?
    ensures Pairs(d) == seq(|d|, i requires 0 <= i < |d| => (d[i].0, d[i].1.text))
    decreases |d|
  {
    if |d| > 0 {
      assert forall i | 0 <= i < |d[1..]| :: d[1..][i] == d[i + 1];
      ScalarPairs(d[1..]);
    }
  }

  /** Two dictionaries that each read back unambiguously still do so together. */
  lemma UnambiguousAppend(a: Dictionary, b: Dictionary)
    requires Unambiguous(a) && Unambiguous(b)
    ensures Unambiguous(a + b)
  {
    forall i | 0 <= i < |a + b|
      ensures && '&' !in (a + b)[i].0 && '=' !in (a + b)[i].0
              && match (a + b)[i].1
                 case Scalar(text) => '&' !in text
                 case Sequence(items) => forall j | 0 <= j < |items| :: '&' !in items[j]
    {
      if i < |a| {
        assert (a + b)[i] == a[i];
      } else {
        assert (a + b)[i] == b[i - |a|];
      }
    }
  }

  /** Concrete renderings: nothing for a null or empty dictionary, and no escaping of a space. */
  lemma CreateQueryExamples()
    ensures CreateQuery(None) == ""
    ensures CreateQuery(Some([])) == ""
    ensures CreateQuery(Some([("q", Scalar("a b"))])) == "?q=a b"
  {
    CreateQuerySingle(("q", Scalar("a b")));
    assert "q" + "=" + "a b" == "q=a b";
  }

  /** A list repeats its key once per item. */
  lemma CreateQueryListExample()
    ensures CreateQuery(Some([("icao24", Sequence(["abc", "def"]))])) == "?icao24=abc&icao24=def"
  {
    CreateQuerySingle(("icao24", Sequence(["abc", "def"])));
    ListSegmentExample();
    assert "?" + "icao24=abc&icao24=def" == "?icao24=abc&icao24=def";
  }

  lemma ListSegmentExample()
    ensures Segment(("icao24", Sequence(["abc", "def"]))) == "icao24=abc&icao24=def"
  {
    assert "icao24" + "=" + "abc" == "icao24=abc" && "icao24" + "=" + "def" == "icao24=def";
    assert Assignments("icao24", ["abc", "def"]) == ["icao24=abc", "icao24=def"];
    assert ["icao24=abc", "icao24=def"][1..] == ["icao24=def"];
    assert "icao24=abc" + "&" + "icao24=def" == "icao24=abc&icao24=def";
  }

  /** An empty list leaves an empty field in front of the next parameter. */
  lemma CreateQueryEmptyListExample()
    ensures CreateQuery(Some([("icao24", Sequence([])), ("time", Scalar("1"))])) == "?&time=1"
  {
    var d: Dictionary := [("icao24", Sequence([])), ("time", Scalar("1"))];
    assert Assignments("icao24", []) == [];
    assert "time" + "=" + "1" == "time=1";
    assert Segments(d) == ["", "time=1"];
    assert ["", "time=1"][1..] == ["time=1"];
    assert Join('&', ["", "time=1"]) == "" + "&" + "time=1";
  }
}
