/** Small shared vocabulary: optional values, results, and the string
    predicates and joins the rest of the model is written in. */
module Common {

  datatype Option<+T> = None | Some(value: T) {
    function GetOr(default: T): T {
      match this
      case Some(v) => v
      case None => default
    }
  }

  datatype Result<+R, +E> = Success(value: R) | Failure(error: E)

  /** `p` is a prefix of `s`. */
  predicate StartsWith(s: string, p: string)
  {
    |p| <= |s| && s[..|p|] == p
  }

  /** Python's `p in s` for strings, and the regex `p` searched anywhere. */
  predicate Contains(s: string, p: string)
    decreases |s|
  {
    StartsWith(s, p) || (|s| > 0 && Contains(s[1..], p))
  }

  /** Python's `s.endswith(suffix)`, and a regex ending in `suffix$`. */
  predicate EndsWith(s: string, suffix: string)
  {
    |suffix| <= |s| && s[|s| - |suffix|..] == suffix
  }

  /** The regex `.*p.*suffix$`: `s` ends with `suffix` and `p` occurs in what
      comes before that final `suffix`. */
  predicate ContainsBeforeSuffix(s: string, p: string, suffix: string)
  {
    EndsWith(s, suffix) && Contains(s[..|s| - |suffix|], p)
  }

  /** The regex `p.*q`: an occurrence of `p` followed (later) by one of `q`. */
  predicate ContainsThen(s: string, p: string, q: string)
    decreases |s|
  {
    (StartsWith(s, p) && Contains(s[|p|..], q)) || (|s| > 0 && ContainsThen(s[1..], p, q))
  }

  /** The regex `p(?!$)`: an occurrence of `p` that does not end the string. */
  predicate ContainsNotAtEnd(s: string, p: string)
    decreases |s|
  {
    (StartsWith(s, p) && |p| < |s|) || (|s| > 0 && ContainsNotAtEnd(s[1..], p))
  }

  /** `sep.join(parts)`; an f-string `f"{a}_{b}_{c}"` is `Join([a, b, c], '_')`. */
  function Join(parts: seq<string>, sep: char): string
  {
    if |parts| == 0 then ""
    else if |parts| == 1 then parts[0]
    else parts[0] + [sep] + Join(parts[1..], sep)
  }

  lemma JoinTwo(a: string, b: string, sep: char)
    ensures Join([a, b], sep) == a + [sep] + b
  {
    assert [a, b][1..] == [b];
  }

  /** `s.split(sep)`. */
  function Split(s: string, sep: char): (r: seq<string>)
    ensures |r| >= 1
    decreases |s|
  {
    if |s| == 0 then [""]
    else if s[0] == sep then [""] + Split(s[1..], sep)
    else
      var rest := Split(s[1..], sep);
      [[s[0]] + rest[0]] + rest[1..]
  }

  lemma {:induction false} SplitNoSep(s: string, sep: char)
    requires sep !in s
    ensures Split(s, sep) == [s]
    decreases |s|
  {
    if |s| > 0 {
      SplitNoSep(s[1..], sep);
      assert [s[0]] + s[1..] == s;
    }
  }

  lemma {:induction false} SplitAfter(a: string, sep: char, b: string)
    requires sep !in a
    ensures Split(a + [sep] + b, sep) == [a] + Split(b, sep)
    decreases |a|
  {
    if |a| == 0 {
      assert a + [sep] + b == [sep] + b;
      assert ([sep] + b)[1..] == b;
    } else {
      var s := a + [sep] + b;
      assert s[0] == a[0];
      assert s[1..] == a[1..] + [sep] + b;
      SplitAfter(a[1..], sep, b);
      assert [a[0]] + a[1..] == a;
    }
  }

  /** Splitting a join gives the parts back when no part holds the separator. */
  lemma {:induction false} SplitJoin(parts: seq<string>, sep: char)
    requires |parts| >= 1
    requires forall k :: 0 <= k < |parts| ==> sep !in parts[k]
    ensures Split(Join(parts, sep), sep) == parts
    decreases |parts|
  {
    if |parts| == 1 {
      SplitNoSep(parts[0], sep);
    } else {
      SplitJoin(parts[1..], sep);
      SplitAfter(parts[0], sep, Join(parts[1..], sep));
      assert [parts[0]] + parts[1..] == parts;
    }
  }

  lemma PrefixCancel(s: string, t1: string, t2: string)
    requires s + t1 == s + t2
    ensures t1 == t2
  {
    assert t1 == (s + t1)[|s|..];
    assert t2 == (s + t2)[|s|..];
  }

  lemma SuffixDiffers(x: string, y: string, t: string)
    requires x != y
    ensures x + t != y + t
  {
    if |x| == |y| {
      assert (x + t)[..|x|] == x;
      assert (y + t)[..|y|] == y;
    } else {
      assert |x + t| != |y + t|;
    }
  }

  /** Changing one part changes the joined text: two part lists that agree
      everywhere but at one position never join to the same string. This is
      what makes a hashed field matter to a key even though nothing is assumed
      about the hash function itself. */
  lemma {:induction false} JoinDiffersAt(pre: seq<string>, x: string, y: string, post: seq<string>, sep: char)
    requires x != y
    ensures Join(pre + [x] + post, sep) != Join(pre + [y] + post, sep)
    decreases |pre|
  {
    if |pre| == 0 {
      assert pre + [x] + post == [x] + post;
      assert pre + [y] + post == [y] + post;
      if |post| > 0 {
        assert ([x] + post)[1..] == post;
        assert ([y] + post)[1..] == post;
        SuffixDiffers(x, y, [sep] + Join(post, sep));
        assert Join([x] + post, sep) == x + ([sep] + Join(post, sep));
        assert Join([y] + post, sep) == y + ([sep] + Join(post, sep));
      }
    } else {
      var px := pre + [x] + post;
      var py := pre + [y] + post;
      assert px[1..] == pre[1..] + [x] + post;
      assert py[1..] == pre[1..] + [y] + post;
      JoinDiffersAt(pre[1..], x, y, post, sep);
      assert Join(px, sep) == pre[0] + [sep] + Join(px[1..], sep);
      assert Join(py, sep) == pre[0] + [sep] + Join(py[1..], sep);
      if Join(px, sep) == Join(py, sep) {
        PrefixCancel(pre[0] + [sep], Join(px[1..], sep), Join(py[1..], sep));
      }
    }
  }

  /** A string contains another of the same length exactly when the two are
      equal. */
  lemma ContainsSameLength(s: string, p: string)
    requires |s| == |p|
    ensures Contains(s, p) <==> s == p
  {
    assert s[..|p|] == s;
    if |s| > 0 {
      TooShortNotContained(s[1..], p);
    }
  }

  lemma {:induction false} TooShortNotContained(s: string, p: string)
    requires |s| < |p|
    ensures !Contains(s, p)
    decreases |s|
  {
    if |s| > 0 {
      TooShortNotContained(s[1..], p);
    }
  }
}
