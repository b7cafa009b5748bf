/** The Python string operations the extractor relies on. */
module Text {

  /** `c.isspace()`: the characters Python's `str.strip()` removes by default. */
  predicate IsSpace(c: char)
  {
    var n := c as int;
    || 9 <= n <= 13 || 28 <= n <= 32 || n == 133 || n == 160 || n == 5760
    || 8192 <= n <= 8202 || n == 8232 || n == 8233 || n == 8239 || n == 8287 || n == 12288
  }

  predicate AllSpace(s: string)
  {
    forall i :: 0 <= i < |s| ==> IsSpace(s[i])
  }

  /** `s.startswith(prefix)`. */
  predicate StartsWith(s: string, prefix: string)
  {
    |prefix| <= |s| && s[..|prefix|] == prefix
  }

  function StripLeft(s: string): (r: string)
    ensures |r| <= |s| && r == s[|s| - |r|..]
    ensures r != [] ==> !IsSpace(r[0])
    ensures AllSpace(s[..|s| - |r|])
  {
    if s != [] && IsSpace(s[0]) then
      var r := StripLeft(s[1..]);
      assert s[..|s| - |r|] == [s[0]] + s[1..][..|s[1..]| - |r|];
      r
    else s
  }

  function StripRight(s: string): (r: string)
    ensures |r| <= |s| && r == s[..|r|]
    ensures r != [] ==> !IsSpace(r[|r| - 1])
    ensures AllSpace(s[|r|..])
  {
    if s != [] && IsSpace(s[|s| - 1]) then
      var r := StripRight(s[..|s| - 1]);
      assert s[|r|..] == s[..|s| - 1][|r|..] + [s[|s| - 1]];
      r
    else s
  }

  /**
   * `s.strip()`: `s` is the result surrounded by whitespace, and the result
   * neither starts nor ends with whitespace.
   */
  function Strip(s: string): (r: string)
    ensures r != [] ==> !IsSpace(r[0]) && !IsSpace(r[|r| - 1])
    ensures exists lead, trail :: s == lead + r + trail && AllSpace(lead) && AllSpace(trail)
  {
    var left := StripLeft(s);
    var r := StripRight(left);
    var lead, trail := s[..|s| - |left|], left[|r|..];
    assert s == lead + r + trail;
    r
  }

  /** A string with no whitespace at either end strips to itself. */
  lemma StripUnspaced(s: string)
    requires s != [] && !IsSpace(s[0]) && !IsSpace(s[|s| - 1])
    ensures Strip(s) == s
  {
    assert StripLeft(s) == s;
    assert StripRight(s) == s;
  }

  /** The empty string strips to itself. */
  lemma StripEmpty()
    ensures Strip("") == ""
  {
    assert StripLeft("") == "";
    assert StripRight("") == "";
  }

  /** `pattern` occurs in `s` at some position. */
  predicate Occurs(s: string, pattern: string)
  {
    exists i :: 0 <= i <= |s| && StartsWith(s[i..], pattern)
  }

  /**
   * `s.replace(pattern, "")`: every occurrence of `pattern`, scanning left to
   * right without overlaps, is deleted.
   */
  function RemoveAll(s: string, pattern: string): (r: string)
    ensures |r| <= |s|
    decreases |s|
  {
    if pattern == [] || s == [] then s
    else if StartsWith(s, pattern) then RemoveAll(s[|pattern|..], pattern)
    else [s[0]] + RemoveAll(s[1..], pattern)
  }

  /** A string without the pattern is left as it is. */
  lemma {:induction false} RemoveAllAbsent(s: string, pattern: string)
    requires !Occurs(s, pattern)
    ensures RemoveAll(s, pattern) == s
    decreases |s|
  {
    if pattern != [] && s != [] {
      assert s[0..] == s;
      assert !StartsWith(s, pattern);
      forall i | 0 <= i <= |s[1..]|
        ensures !StartsWith(s[1..][i..], pattern)
      {
        assert s[1..][i..] == s[i + 1..];
      }
      RemoveAllAbsent(s[1..], pattern);
    }
  }

  /** A pattern whose first character is not in `s` does not occur in `s`. */
  lemma FirstCharAbsent(s: string, pattern: string)
    requires pattern != [] && pattern[0] !in s
    ensures !Occurs(s, pattern)
  {
    forall i | 0 <= i <= |s|
      ensures !StartsWith(s[i..], pattern)
    {
      if i < |s| {
        assert s[i..][0] == s[i];
      }
    }
  }

  /** A leading pattern followed by a pattern-free rest leaves exactly the rest. */
  lemma RemoveAllLeading(pattern: string, rest: string)
    requires pattern != []
    requires !Occurs(rest, pattern)
    ensures RemoveAll(pattern + rest, pattern) == rest
  {
    var s := pattern + rest;
    assert StartsWith(s, pattern);
    assert s[|pattern|..] == rest;
    RemoveAllAbsent(rest, pattern);
  }

  /** No proper prefix of `p` is also a suffix of it, so two occurrences of `p` never overlap. */
  predicate NoSelfOverlap(p: string)
  {
    forall k :: 0 < k < |p| ==> p[..k] != p[|p| - k..]
  }

  /** A pattern whose last character occurs nowhere else in it cannot overlap itself. */
  lemma LastUniqueNoSelfOverlap(p: string)
    requires p != [] && p[|p| - 1] !in p[..|p| - 1]
    ensures NoSelfOverlap(p)
  {
    forall k | 0 < k < |p|
      ensures p[..k] != p[|p| - k..]
    {
      assert p[..k][k - 1] == p[..|p| - 1][k - 1];
      assert p[|p| - k..][k - 1] == p[|p| - 1];
    }
  }

  /**
   * An occurrence of `p` that starts inside a non-empty `a` shorter than `p`
   * and runs into the `p` after it makes a proper prefix of `p` equal to a
   * suffix of `p`.
   */
  lemma StraddleBorder(a: string, p: string, b: string)
    ensures 0 < |a| < |p| && StartsWith(a + p + b, p) ==> p[..|p| - |a|] == p[|a|..]
  {
    var s := a + p + b;
    if 0 < |a| < |p| && StartsWith(s, p) {
      assert s[|a|..|p|] == p[..|p| - |a|];
      assert s[..|p|][|a|..] == p[|a|..];
    }
  }

  /**
   * For a pattern that cannot overlap itself, removal splits at any
   * occurrence: the text before it and the text after it lose their own
   * occurrences independently, wherever the occurrence stands.
   */
  lemma {:induction false} RemoveAllConcat(a: string, p: string, b: string)
    requires p != [] && NoSelfOverlap(p)
    ensures RemoveAll(a + p + b, p) == RemoveAll(a, p) + RemoveAll(b, p)
    decreases |a|
  {
    var s := a + p + b;
    if a == [] {
      assert s == p + b;
      assert StartsWith(s, p) && s[|p|..] == b;
    } else if StartsWith(s, p) {
      StraddleBorder(a, p, b);
      if |a| < |p| {
        assert false;
      }
      assert StartsWith(a, p) by {
        assert a[..|p|] == s[..|p|];
      }
      assert s[|p|..] == a[|p|..] + p + b;
      RemoveAllConcat(a[|p|..], p, b);
    } else {
      assert !StartsWith(a, p) by {
        if |p| <= |a| {
          assert a[..|p|] == s[..|p|];
        }
      }
      assert s[0] == a[0] && s[1..] == a[1..] + p + b;
      RemoveAllConcat(a[1..], p, b);
    }
  }

  /** First position of `c` in `s`. */
  function IndexOf(s: string, c: char): (i: nat)
    requires c in s
    ensures i < |s| && s[i] == c && c !in s[..i]
  {
    if s[0] == c then 0 else 1 + IndexOf(s[1..], c)
  }

  /** The separator right after a separator-free prefix is the first one. */
  lemma {:induction false} IndexOfAfter(prefix: string, c: char, rest: string)
    requires c !in prefix
    ensures IndexOf(prefix + [c] + rest, c) == |prefix|
  {
    if prefix != [] {
      assert (prefix + [c] + rest)[1..] == prefix[1..] + [c] + rest;
      IndexOfAfter(prefix[1..], c, rest);
    }
  }

  /**
   * `s.split(sep)`: the pieces between separators, empty ones included.
   * There is more than one piece exactly when `s` contains the separator.
   */
  function Split(s: string, sep: char): (parts: seq<string>)
    ensures |parts| >= 1
    ensures |parts| > 1 <==> sep in s
    ensures forall k :: 0 <= k < |parts| ==> sep !in parts[k]
    decreases |s|
  {
    if sep !in s then [s]
    else
      var i := IndexOf(s, sep);
      [s[..i]] + Split(s[i + 1..], sep)
  }

  /** `sep.join(parts)`. */
  function Join(parts: seq<string>, sep: char): string
    requires |parts| >= 1
  {
    if |parts| == 1 then parts[0] else parts[0] + [sep] + Join(parts[1..], sep)
  }

  /** Joining the pieces gives back the string. */
  lemma {:induction false} JoinSplit(s: string, sep: char)
    ensures Join(Split(s, sep), sep) == s
    decreases |s|
  {
    if sep in s {
      var i := IndexOf(s, sep);
      JoinSplit(s[i + 1..], sep);
      var parts := Split(s, sep);
      assert parts[1..] == Split(s[i + 1..], sep);
      assert s == s[..i] + [sep] + s[i + 1..];
    }
  }

  /** Splitting a join of separator-free pieces gives back the pieces. */
  lemma {:induction false} SplitJoin(parts: seq<string>, sep: char)
    requires |parts| >= 1
    requires forall k :: 0 <= k < |parts| ==> sep !in parts[k]
    ensures Split(Join(parts, sep), sep) == parts
    decreases |parts|
  {
    if |parts| > 1 {
      var head, rest := parts[0], Join(parts[1..], sep);
      var s := head + [sep] + rest;
      assert Join(parts, sep) == s;
      assert Split(s, sep) == [head] + Split(rest, sep) by {
        IndexOfAfter(head, sep, rest);
        assert s[..|head|] == head && s[|head| + 1..] == rest;
      }
      assert Split(rest, sep) == parts[1..] by {
        SplitJoin(parts[1..], sep);
      }
      assert [head] + parts[1..] == parts;
    }
  }

  /** Joining one more piece appends a separator and the piece. */
  lemma {:induction false} JoinSnoc(parts: seq<string>, piece: string, sep: char)
    requires |parts| >= 1
    ensures Join(parts + [piece], sep) == Join(parts, sep) + [sep] + piece
    decreases |parts|
  {
    var ps := parts + [piece];
    if |parts| == 1 {
      assert ps[1..] == [piece];
    } else {
      assert ps[1..] == parts[1..] + [piece];
      JoinSnoc(parts[1..], piece, sep);
    }
  }

  /** The text a join puts before its last two pieces: empty, or ending in the separator. */
  function JoinFront(parts: seq<string>, sep: char): (front: string)
    requires |parts| >= 2
    ensures front == [] || front[|front| - 1] == sep
  {
    if |parts| == 2 then [] else Join(parts[..|parts| - 2], sep) + [sep]
  }

  /** A join of two or more pieces ends with the last two pieces around a separator. */
  lemma {:induction false} JoinLastTwo(parts: seq<string>, sep: char)
    requires |parts| >= 2
    ensures Join(parts, sep) == JoinFront(parts, sep) + parts[|parts| - 2] + [sep] + parts[|parts| - 1]
  {
    var n := |parts|;
    var init := parts[..n - 1];
    assert Join(parts, sep) == Join(init, sep) + [sep] + parts[n - 1] by {
      assert init + [parts[n - 1]] == parts;
      JoinSnoc(init, parts[n - 1], sep);
    }
    if n == 2 {
      assert Join(init, sep) == parts[0] by {
        assert init == [parts[0]];
      }
      assert JoinFront(parts, sep) + parts[0] == parts[0];
    } else {
      assert Join(init, sep) == Join(parts[..n - 2], sep) + [sep] + parts[n - 2] by {
        assert parts[..n - 2] + [parts[n - 2]] == init;
        JoinSnoc(parts[..n - 2], parts[n - 2], sep);
      }
      var front := Join(parts[..n - 2], sep) + [sep];
      assert JoinFront(parts, sep) == front;
      assert Join(init, sep) + [sep] + parts[n - 1] == front + parts[n - 2] + [sep] + parts[n - 1];
    }
  }

  function Upper(c: char): char
  {
    if 'a' <= c <= 'z' then (c as int - 32) as char else c
  }

  function Lower(c: char): char
  {
    if 'A' <= c <= 'Z' then (c as int + 32) as char else c
  }

  /** `s.capitalize()` over ASCII letters: the first character upper-cased, the rest lower-cased. */
  function Capitalize(s: string): (r: string)
    ensures |r| == |s|
    ensures r != [] ==> r[0] == Upper(s[0]) && !('a' <= r[0] <= 'z')
    ensures forall i :: 1 <= i < |r| ==> r[i] == Lower(s[i]) && !('A' <= r[i] <= 'Z')
  {
    if s == [] then []
    else [Upper(s[0])] + seq(|s| - 1, i requires 0 <= i < |s| - 1 => Lower(s[i + 1]))
  }

  /** `"example".capitalize()` is `"Example"`. */
  lemma CapitalizeExample()
    ensures Capitalize("example") == "Example"
  {
    var r := Capitalize("example");
    assert forall i :: 0 <= i < 7 ==> r[i] == "Example"[i];
  }
}
