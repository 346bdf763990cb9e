/** The Go string and path helpers the device code relies on, over `seq<char>`. */
module Strings {
  /** strings.HasPrefix */
  predicate HasPrefix(s: string, prefix: string) {
    |prefix| <= |s| && s[..|prefix|] == prefix
  }

  /** strings.Contains: sub occurs somewhere in s (the empty string occurs everywhere). */
  predicate Contains(s: string, sub: string)
    decreases |s|
  {
    HasPrefix(s, sub) || (s != [] && Contains(s[1..], sub))
  }

  /** sub occurs in s starting at index i. */
  predicate OccursAt(s: string, sub: string, i: int) {
    0 <= i && i + |sub| <= |s| && s[i..i + |sub|] == sub
  }

  /** Contains agrees with the index-based definition of an occurrence. */
  lemma {:induction false} ContainsAt(s: string, sub: string)
    ensures Contains(s, sub) <==> exists i :: OccursAt(s, sub, i)
    decreases |s|
  {
    if HasPrefix(s, sub) {
      assert OccursAt(s, sub, 0);
    }
    if s != [] {
      ContainsAt(s[1..], sub);
      if Contains(s[1..], sub) {
        var i :| OccursAt(s[1..], sub, i);
        assert s[1..][i..i + |sub|] == s[i + 1..i + 1 + |sub|];
        assert OccursAt(s, sub, i + 1);
      }
      if exists i :: OccursAt(s, sub, i) {
        var i :| OccursAt(s, sub, i);
        if i > 0 {
          assert s[1..][i - 1..i - 1 + |sub|] == s[i..i + |sub|];
          assert OccursAt(s[1..], sub, i - 1);
        } else {
          assert HasPrefix(s, sub);
        }
      }
    } else if exists i :: OccursAt(s, sub, i) {
      var i :| OccursAt(s, sub, i);
      assert sub == [];
    }
  }

  /** A string occurs in any string that extends it on either side. */
  lemma {:induction false} ContainsItself(a: string, sub: string, b: string)
    ensures Contains(a + sub + b, sub)
    decreases |a|
  {
    if a == [] {
      assert a + sub + b == sub + b;
      assert HasPrefix(sub + b, sub);
    } else {
      assert (a + sub + b)[1..] == a[1..] + sub + b;
      ContainsItself(a[1..], sub, b);
    }
  }

  /** The path with its trailing slashes removed. */
  function TrimTrailingSlashes(p: string): (r: string)
    ensures |r| <= |p| && r == p[..|r|]
    ensures r == [] || r[|r| - 1] != '/'
  {
    if p != [] && p[|p| - 1] == '/' then TrimTrailingSlashes(p[..|p| - 1]) else p
  }

  /** What follows the last slash (the whole string when it has none). */
  function AfterLastSlash(p: string): (r: string)
    ensures '/' !in r
    ensures |r| <= |p| && r == p[|p| - |r|..]
  {
    if p == [] then []
    else if p[|p| - 1] == '/' then []
    else AfterLastSlash(p[..|p| - 1]) + [p[|p| - 1]]
  }

  /** filepath.Base on Unix: the last element of the path. */
  function Base(p: string): (r: string)
    ensures r != []
    ensures r == "/" || '/' !in r
  {
    if p == [] then "."
    else
      var last := AfterLastSlash(TrimTrailingSlashes(p));
      if last == [] then "/" else last
  }

  /** A path made of a directory and a plain name has that name as its last element. */
  lemma BaseOfPlainName(dir: string, name: string)
    requires name != [] && '/' !in name
    ensures Base(dir + "/" + name) == name
  {
    var p := dir + "/" + name;
    assert TrimTrailingSlashes(p) == p by {
      assert p[|p| - 1] == name[|name| - 1];
    }
    AfterLastSlashOfSuffix(dir + "/", name);
  }

  lemma {:induction false} AfterLastSlashOfSuffix(prefix: string, name: string)
    requires prefix != [] && prefix[|prefix| - 1] == '/' && '/' !in name
    ensures AfterLastSlash(prefix + name) == name
    decreases |name|
  {
    if name == [] {
      assert prefix + name == prefix;
    } else {
      var n := |name|;
      assert (prefix + name)[..|prefix + name| - 1] == prefix + name[..n - 1];
      AfterLastSlashOfSuffix(prefix, name[..n - 1]);
      assert name[..n - 1] + [name[n - 1]] == name;
    }
  }
}
