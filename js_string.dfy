/** The JavaScript string operations the service and the views use, on `seq<char>`. */
module JsString {

  /** `s.indexOf(c)`: the first position of `c`, or -1. */
  function IndexOf(s: string, c: char): (r: int)
    ensures -1 <= r < |s|
    ensures r == -1 <==> c !in s
    ensures 0 <= r ==> s[r] == c && c !in s[..r]
  {
    if |s| == 0 then -1
    else if s[0] == c then 0
    else
      var k := IndexOf(s[1..], c);
      if k == -1 then -1
      else
        assert s[..k + 1] == [s[0]] + s[1..][..k];
        k + 1
  }

  /** `s.lastIndexOf(c)`: the last position of `c`, or -1. */
  function LastIndexOf(s: string, c: char): (r: int)
    ensures -1 <= r < |s|
    ensures r == -1 <==> c !in s
    ensures 0 <= r ==> s[r] == c && c !in s[r + 1..]
  {
    if |s| == 0 then -1
    else if s[|s| - 1] == c then |s| - 1
    else
      var init := s[..|s| - 1];
      var k := LastIndexOf(init, c);
      assert c in s <==> c in init by {
        assert s == init + [s[|s| - 1]];
      }
      assert s[k + 1..] == init[k + 1..] + [s[|s| - 1]];
      k
  }

  /** A character absent from a prefix occurs at none of its positions. */
  lemma AbsentFromPrefix(s: string, c: char, n: int)
    requires 0 <= n <= |s| && c !in s[..n]
    ensures forall k | 0 <= k < n :: s[k] != c
  {
    assert forall k | 0 <= k < n :: s[..n][k] == s[k];
  }

  /** A character absent from a suffix occurs at none of its positions. */
  lemma AbsentFromSuffix(s: string, c: char, n: int)
    requires 0 <= n <= |s| && c !in s[n..]
    ensures forall k | n <= k < |s| :: s[k] != c
  {
    assert forall k | n <= k < |s| :: s[n..][k - n] == s[k];
  }

  predicate StartsWith(s: string, p: string) {
    |p| <= |s| && s[..|p|] == p
  }

  /** `s.includes(p)`: tried at the front, then at each later position. */
  predicate Includes(s: string, p: string)
    decreases |s|
  {
    StartsWith(s, p) || (|s| > 0 && Includes(s[1..], p))
  }

  /** A string that contains `p + q` contains `p`. */
  lemma {:induction false} IncludesPrefixOf(s: string, p: string, q: string)
    requires Includes(s, p + q)
    ensures Includes(s, p)
    decreases |s|
  {
    if StartsWith(s, p + q) {
      assert s[..|p|] == (p + q)[..|p|] == p;
    } else {
      IncludesPrefixOf(s[1..], p, q);
    }
  }

  /** A string contains every pattern that begins at one of its positions. */
  lemma {:induction false} IncludesAt(s: string, p: string, i: nat)
    requires i <= |s| && StartsWith(s[i..], p)
    ensures Includes(s, p)
    decreases i
  {
    if i > 0 {
      assert s[1..][i - 1..] == s[i..];
      IncludesAt(s[1..], p, i - 1);
    }
  }

  /** `s.includes(p)` holds exactly when `p` begins at some position of `s`. */
  lemma {:induction false} IncludesIffOccurs(s: string, p: string)
    ensures Includes(s, p) <==> exists i | 0 <= i <= |s| :: StartsWith(s[i..], p)
    decreases |s|
  {
    forall i | 0 <= i <= |s| && StartsWith(s[i..], p)
      ensures Includes(s, p)
    {
      IncludesAt(s, p, i);
    }
    if Includes(s, p) {
      if StartsWith(s, p) {
        assert s[0..] == s;
      } else {
        IncludesIffOccurs(s[1..], p);
        var j :| 0 <= j <= |s| - 1 && StartsWith(s[1..][j..], p);
        assert s[1..][j..] == s[j + 1..];
      }
    }
  }

  /** A pattern that begins with `c` cannot occur in a string without `c`. */
  lemma {:induction false} NotIncludedWithoutFirstChar(s: string, p: string)
    requires |p| > 0 && p[0] !in s
    ensures !Includes(s, p)
    decreases |s|
  {
    if |s| > 0 {
      if |p| <= |s| {
        assert s[..|p|][0] == s[0] != p[0];
      }
      NotIncludedWithoutFirstChar(s[1..], p);
    }
  }

  /** A pattern longer than the text does not occur in it. */
  lemma {:induction false} ShortTextExcludes(s: string, p: string)
    requires |s| < |p|
    ensures !Includes(s, p)
    decreases |s|
  {
    if |s| > 0 {
      ShortTextExcludes(s[1..], p);
    }
  }

  /** `s.replace(/p/g, '')`: every leftmost, non-overlapping occurrence of `p` removed. */
  function RemoveAll(s: string, p: string): (r: string)
    requires |p| > 0
    ensures |r| <= |s|
    ensures r == s <==> !Includes(s, p)
    decreases |s|
  {
    if |s| < |p| then
      ShortTextExcludes(s, p);
      s
    else if s[..|p|] == p then RemoveAll(s[|p|..], p)
    else
      assert [s[0]] + s[1..] == s;
      [s[0]] + RemoveAll(s[1..], p)
  }

  /** A prefix free of the pattern's first character is kept as it is. */
  lemma {:induction false} RemoveAllKeepsPrefix(a: string, b: string, p: string)
    requires |p| > 0 && p[0] !in a
    ensures RemoveAll(a + b, p) == a + RemoveAll(b, p)
    decreases |a|
  {
    if a != [] {
      var s := a + b;
      assert s[0] == a[0];
      if |s| >= |p| {
        assert s[..|p|] != p;
        assert s[1..] == a[1..] + b;
      } else {
        assert RemoveAll(b, p) == b;
      }
      RemoveAllKeepsPrefix(a[1..], b, p);
      assert a == [a[0]] + a[1..];
    } else {
      assert a + b == b;
    }
  }

  /** An occurrence at the front is removed. */
  lemma RemoveAllLeading(b: string, p: string)
    requires |p| > 0
    ensures RemoveAll(p + b, p) == RemoveAll(b, p)
  {
    var s := p + b;
    assert s[..|p|] == p && s[|p|..] == b;
  }

  /** `s.split(c)`: the pieces between occurrences of `c`, always at least one. */
  function Split(s: string, c: char): (parts: seq<string>)
    ensures |parts| >= 1
    ensures (|parts| > 1) <==> c in s
    decreases |s|
  {
    var i := IndexOf(s, c);
    if i == -1 then [s]
    else [s[..i]] + Split(s[i + 1..], c)
  }

  /** No piece of a split holds the separator. */
  lemma {:induction false} SplitPiecesLackSeparator(s: string, c: char)
    ensures forall k | 0 <= k < |Split(s, c)| :: c !in Split(s, c)[k]
    decreases |s|
  {
    var i := IndexOf(s, c);
    var parts := Split(s, c);
    if i == -1 {
      assert parts == [s];
    } else {
      var head, rest := s[..i], s[i + 1..];
      SplitPiecesLackSeparator(rest, c);
      assert parts == [head] + Split(rest, c);
      forall k | 0 <= k < |parts|
        ensures c !in parts[k]
      {
        if k > 0 {
          assert parts[k] == Split(rest, c)[k - 1];
        }
      }
    }
  }


  /** `parts.join(c)`. */
  function Join(parts: seq<string>, c: char): string
  {
    if |parts| == 0 then ""
    else if |parts| == 1 then parts[0]
    else parts[0] + [c] + Join(parts[1..], c)
  }

  /** Joining a piece in front of at least one more puts one separator after it. */
  lemma JoinOfCons(head: string, tail: seq<string>, c: char)
    requires |tail| >= 1
    ensures Join([head] + tail, c) == head + [c] + Join(tail, c)
  {
    assert ([head] + tail)[1..] == tail;
  }

  /** Joining the pieces of a split with the same separator gives the original text back. */
  lemma {:induction false} JoinSplit(s: string, c: char)
    ensures Join(Split(s, c), c) == s
    decreases |s|
  {
    var i := IndexOf(s, c);
    if i == -1 {
      assert Split(s, c) == [s];
    } else {
      var head, rest := s[..i], s[i + 1..];
      JoinSplit(rest, c);
      assert Join(Split(s, c), c) == head + [c] + Join(Split(rest, c), c) by {
        assert Split(s, c) == [head] + Split(rest, c);
        JoinOfCons(head, Split(rest, c), c);
      }
      assert s == head + [c] + rest by {
        assert s[i] == c;
      }
    }
  }


  function LowerChar(c: char): char {
    if 'A' <= c <= 'Z' then (c as int + 32) as char else c
  }

  function UpperChar(c: char): char {
    if 'a' <= c <= 'z' then (c as int - 32) as char else c
  }

  /** `s.toLowerCase()` for ASCII letters. */
  function ToLower(s: string): (r: string)
    ensures |r| == |s|
    ensures forall i | 0 <= i < |s| :: r[i] == LowerChar(s[i])
  {
    seq(|s|, i requires 0 <= i < |s| => LowerChar(s[i]))
  }

  /** `s.toUpperCase()` for ASCII letters. */
  function ToUpper(s: string): (r: string)
    ensures |r| == |s|
    ensures forall i | 0 <= i < |s| :: r[i] == UpperChar(s[i])
  {
    seq(|s|, i requires 0 <= i < |s| => UpperChar(s[i]))
  }

  /** Lower-casing forgets the difference between a text and its upper-cased form. */
  lemma LowerOfUpper(s: string)
    ensures ToLower(ToUpper(s)) == ToLower(s)
  {
    var a, b := ToLower(ToUpper(s)), ToLower(s);
    assert forall i | 0 <= i < |s| :: a[i] == b[i];
  }
}
