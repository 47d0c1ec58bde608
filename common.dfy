/**
 * Shared vocabulary of the cost-optimisation handlers: optional values and
 * results, Python's `str.split` and `str.lower`, tag lists turned into
 * dictionaries, and sums and maxima of metric samples.
 */
module Common {

  datatype Option<T> = None | Some(value: T) {
    /** Python's `d.get(key, default)` once the lookup has been made. */
    function GetOr(default: T): T {
      if Some? then value else default
    }
  }

  /** An operation that either returns a value or raises an exception. */
  datatype Result<T, E> = Ok(value: T) | Err(error: E)

  // ---------------------------------------------------------------------
  // Strings
  // ---------------------------------------------------------------------

  /** Number of occurrences of `c` in `s`. */
  function Occurrences(s: string, c: char): nat
  {
    if |s| == 0 then 0 else (if s[0] == c then 1 else 0) + Occurrences(s[1..], c)
  }

  lemma {:induction false} OccurrencesZero(s: string, c: char)
    ensures Occurrences(s, c) == 0 <==> c !in s
  {
    if |s| > 0 {
      OccurrencesZero(s[1..], c);
      assert s == [s[0]] + s[1..];
    }
  }

  /**
   * Python's `s.split(sep)` for a one-character separator: always at least
   * one part, one more part than there are separators, and no part contains
   * the separator.
   */
  function Split(s: string, sep: char): (parts: seq<string>)
    ensures |parts| == Occurrences(s, sep) + 1
    ensures forall i :: 0 <= i < |parts| ==> sep !in parts[i]
    decreases |s|
  {
    if |s| == 0 then [""]
    else
      var rest := Split(s[1..], sep);
      if s[0] == sep then [""] + rest
      else [[s[0]] + rest[0]] + rest[1..]
  }

  /** Python's `sep.join(parts)`. */
  function Join(parts: seq<string>, sep: char): string
  {
    if |parts| == 0 then ""
    else if |parts| == 1 then parts[0]
    else parts[0] + [sep] + Join(parts[1..], sep)
  }

  /** Splitting and joining again on the same separator gives the string back. */
  lemma {:induction false} JoinSplit(s: string, sep: char)
    ensures Join(Split(s, sep), sep) == s
    decreases |s|
  {
    if |s| > 0 {
      var rest := Split(s[1..], sep);
      JoinSplit(s[1..], sep);
      if s[0] == sep {
        assert Split(s, sep) == [""] + rest;
        JoinCons("", rest, sep);
        assert "" + [sep] + s[1..] == s;
      } else {
        var head := [s[0]] + rest[0];
        assert Split(s, sep) == [head] + rest[1..];
        if |rest| == 1 {
          assert [head] + rest[1..] == [head];
          assert head == s;
        } else {
          assert rest == [rest[0]] + rest[1..];
          JoinCons(rest[0], rest[1..], sep);
          JoinCons(head, rest[1..], sep);
          assert head + [sep] + Join(rest[1..], sep) == [s[0]] + (rest[0] + [sep] + Join(rest[1..], sep));
          assert [s[0]] + s[1..] == s;
        }
      }
    }
  }

  lemma JoinCons(part: string, rest: seq<string>, sep: char)
    requires |rest| > 0
    ensures Join([part] + rest, sep) == part + [sep] + Join(rest, sep)
  {
    assert ([part] + rest)[1..] == rest;
  }

  /** A string without the separator splits into itself alone. */
  lemma {:induction false} SplitWithoutSeparator(s: string, sep: char)
    requires sep !in s
    ensures Split(s, sep) == [s]
    decreases |s|
  {
    if |s| > 0 {
      assert s[0] in s;
      assert forall c :: c in s[1..] ==> c in s;
      SplitWithoutSeparator(s[1..], sep);
      assert [s[0]] + s[1..] == s;
    }
  }

  /** The text before the first separator is the first part; the rest splits on. */
  lemma {:induction false} SplitAtFirstSeparator(a: string, sep: char, b: string)
    requires sep !in a
    ensures Split(a + [sep] + b, sep) == [a] + Split(b, sep)
    decreases |a|
  {
    var s := a + [sep] + b;
    if |a| == 0 {
      assert s[0] == sep && s[1..] == b;
    } else {
      assert a[0] in a;
      assert forall c :: c in a[1..] ==> c in a;
      SplitAtFirstSeparator(a[1..], sep, b);
      assert s[0] == a[0] && s[1..] == a[1..] + [sep] + b;
      assert [a[0]] + a[1..] == a;
    }
  }

  /** `key=value` with a separator-free key and value splits into exactly those two parts. */
  lemma SplitInTwo(key: string, sep: char, value: string)
    requires sep !in key && sep !in value
    ensures Split(key + [sep] + value, sep) == [key, value]
  {
    SplitAtFirstSeparator(key, sep, value);
    SplitWithoutSeparator(value, sep);
  }

  /** ASCII part of Python's `str.lower()`. */
  function LowerChar(c: char): char
  {
    if 'A' <= c <= 'Z' then (c as int + 32) as char else c
  }

  function Lower(s: string): (r: string)
    ensures |r| == |s|
    ensures forall i :: 0 <= i < |s| ==> r[i] == LowerChar(s[i])
  {
    seq(|s|, i requires 0 <= i < |s| => LowerChar(s[i]))
  }

  // ---------------------------------------------------------------------
  // Tags
  // ---------------------------------------------------------------------

  /** One entry of a provider's tag list (`{'Key': ..., 'Value': ...}`). */
  datatype Tag = Tag(key: string, value: string)

  /** `{tag['Key']: tag['Value'] for tag in tags}`. */
  function TagMap(tags: seq<Tag>): map<string, string>
  {
    if |tags| == 0 then map[]
    else TagMap(tags[..|tags| - 1])[tags[|tags| - 1].key := tags[|tags| - 1].value]
  }

  /**
   * Every key of the tag list is a key of the dictionary, nothing else is,
   * and a key listed more than once keeps the value of its last entry.
   */
  lemma {:induction false} TagMapSpec(tags: seq<Tag>)
    ensures forall i :: 0 <= i < |tags| ==> tags[i].key in TagMap(tags)
    ensures forall k :: k in TagMap(tags) ==> exists i :: 0 <= i < |tags| && tags[i].key == k
    ensures forall i :: 0 <= i < |tags| && (forall j :: i < j < |tags| ==> tags[j].key != tags[i].key) ==>
              TagMap(tags)[tags[i].key] == tags[i].value
  {
    if |tags| > 0 {
      var init, last := tags[..|tags| - 1], tags[|tags| - 1];
      TagMapSpec(init);
      var m, m' := TagMap(init), TagMap(tags);
      assert m' == m[last.key := last.value];
      forall i | 0 <= i < |tags| ensures tags[i].key in m' {
        if i < |init| { assert init[i] == tags[i]; }
      }
      forall k | k in m' ensures exists i :: 0 <= i < |tags| && tags[i].key == k {
        if k == last.key {
          assert tags[|tags| - 1].key == k;
        } else {
          var i :| 0 <= i < |init| && init[i].key == k;
          assert tags[i].key == k;
        }
      }
      forall i | 0 <= i < |tags| && (forall j :: i < j < |tags| ==> tags[j].key != tags[i].key)
        ensures m'[tags[i].key] == tags[i].value
      {
        if i < |init| {
          assert init[i] == tags[i];
          assert tags[|tags| - 1].key != tags[i].key;
          forall j | i < j < |init| ensures init[j].key != init[i].key {
            assert init[j] == tags[j];
          }
        }
      }
    }
  }

  /** `d.get(key, default)` on a string dictionary. */
  function Get(m: map<string, string>, key: string, default: string): string
  {
    if key in m then m[key] else default
  }

  /** `vm.tags or {}`: an absent tag dictionary reads as an empty one. */
  function TagsOrEmpty(tags: Option<map<string, string>>): map<string, string>
  {
    tags.GetOr(map[])
  }

  // ---------------------------------------------------------------------
  // Samples
  // ---------------------------------------------------------------------

  /** Python's `sum(xs)`. */
  function Sum(xs: seq<real>): real
  {
    if |xs| == 0 then 0.0 else Sum(xs[..|xs| - 1]) + xs[|xs| - 1]
  }

  /** Python's `max(xs)` on a non-empty list: the largest sample, and one of them. */
  function Max(xs: seq<real>): (m: real)
    requires |xs| > 0
    ensures forall i :: 0 <= i < |xs| ==> xs[i] <= m
    ensures exists i :: 0 <= i < |xs| && xs[i] == m
  {
    if |xs| == 1 then xs[0]
    else
      var m' := Max(xs[..|xs| - 1]);
      if xs[|xs| - 1] > m' then xs[|xs| - 1] else m'
  }

  /** `statistics.mean(xs)` (and `sum(xs) / len(xs)`) on a non-empty list. */
  function Mean(xs: seq<real>): real
    requires |xs| > 0
  {
    Sum(xs) / (|xs| as real)
  }

  lemma {:induction false} SumAppend(xs: seq<real>, x: real)
    ensures Sum(xs + [x]) == Sum(xs) + x
  {
    assert (xs + [x])[..|xs|] == xs;
  }

  /** No sample exceeds the maximum, so neither does their sum over their count. */
  lemma {:induction false} SumAtMostCountTimesBound(xs: seq<real>, bound: real)
    requires forall i :: 0 <= i < |xs| ==> xs[i] <= bound
    ensures Sum(xs) <= (|xs| as real) * bound
  {
    if |xs| > 0 {
      var init := xs[..|xs| - 1];
      assert forall i :: 0 <= i < |init| ==> init[i] == xs[i];
      SumAtMostCountTimesBound(init, bound);
    }
  }

  /** The mean of a non-empty list never exceeds its maximum. */
  lemma {:induction false} MeanAtMostMax(xs: seq<real>)
    requires |xs| > 0
    ensures Mean(xs) <= Max(xs)
  {
    var m, total, n := Max(xs), Sum(xs), |xs| as real;
    SumAtMostCountTimesBound(xs, m);
    DivideBound(total, n, m);
  }

  lemma DivideBound(a: real, n: real, b: real)
    requires n > 0.0 && a <= n * b
    ensures a / n <= b
  {
    assert a / n * n == a;
  }
}
