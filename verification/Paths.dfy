/** Slash-separated path strings: Go's `strings.HasPrefix`, what it means for
    a path element to be clean, and `path.Join` restricted to a directory that
    ends in `/` and a clean name. */
module Paths {

  /** `strings.HasPrefix(s, prefix)`. */
  predicate HasPrefix(s: string, prefix: string)
  {
    prefix <= s
  }

  /** `s` starts with the path separator: an absolute path. */
  predicate IsAbsolute(s: string)
  {
    HasPrefix(s, "/")
  }

  /** A `.` or `..` element begins at index `i` of `n`. */
  predicate DotSegmentAt(n: string, i: int)
    requires 0 <= i < |n|
  {
    && (i == 0 || n[i - 1] == '/')
    && n[i] == '.'
    && (|| i + 1 == |n|
        || n[i + 1] == '/'
        || (n[i + 1] == '.' && (i + 2 == |n| || n[i + 2] == '/')))
  }

  /** A relative path that `path.Clean` leaves unchanged: no leading or
      trailing separator, no doubled separator, no `.` or `..` element.
      The empty string counts as clean here because `path.Join` drops it. */
  predicate CleanName(n: string)
  {
    && (|n| > 0 ==> n[0] != '/' && n[|n| - 1] != '/')
    && (forall i :: 0 <= i < |n| - 1 ==> !(n[i] == '/' && n[i + 1] == '/'))
    && (forall i :: 0 <= i < |n| ==> !DotSegmentAt(n, i))
  }

  /** An absolute path that `path.Clean` leaves unchanged (other than the root). */
  predicate IsCleanAbsolute(p: string)
  {
    |p| >= 2 && p[0] == '/' && CleanName(p[1..])
  }

  /** A clean absolute directory written with its trailing separator, the
      form of every entry of the known library directories. */
  predicate IsDirectory(dir: string)
  {
    |dir| >= 3 && dir[0] == '/' && dir[|dir| - 1] == '/' && CleanName(dir[1..|dir| - 1])
  }

  /** `path.Join(dir, name)` for a clean directory written with its trailing
      separator and a clean name. `path.Join` cleans the joined string, which
      drops the directory's trailing `/` and, for an empty name, leaves the
      directory alone; the result here is already a clean absolute path, so
      cleaning it would change nothing. */
  function Join(dir: string, name: string): (r: string)
    requires IsDirectory(dir) && CleanName(name)
    ensures IsCleanAbsolute(r)
    ensures HasPrefix(r, dir[..|dir| - 1])
    ensures name == [] ==> r + "/" == dir
    ensures name != [] ==> r == dir + name
  {
    var inner := dir[1..|dir| - 1];
    if name == [] then
      assert dir[..|dir| - 1][1..] == inner;
      dir[..|dir| - 1]
    else
      assert (dir + name)[1..] == inner + "/" + name;
      CleanConcat(inner, name);
      dir + name
  }

  /** A name with no `.` at all cannot hold a `.` or `..` element, so it is
      clean once its separators are single and inside it. */
  lemma DotFreeClean(n: string)
    requires n != [] && n[0] != '/' && n[|n| - 1] != '/'
    requires '.' !in n
    requires forall i :: 0 <= i < |n| - 1 ==> !(n[i] == '/' && n[i + 1] == '/')
    ensures CleanName(n)
  {
  }

  /** A dot-free absolute path with single separators, written with its
      trailing separator, is a clean directory. */
  lemma DotFreeDirectory(dir: string)
    requires |dir| >= 3 && dir[0] == '/' && dir[|dir| - 1] == '/'
    requires '.' !in dir
    requires forall i :: 0 <= i < |dir| - 1 ==> !(dir[i] == '/' && dir[i + 1] == '/')
    ensures IsDirectory(dir)
  {
    var n := dir[1..|dir| - 1];
    assert forall i :: 0 <= i < |n| ==> n[i] == dir[i + 1];
    assert n[0] == dir[1] && n[|n| - 1] == dir[|dir| - 2];
    assert '.' !in n by {
      forall i | 0 <= i < |n| ensures n[i] != '.' {
        assert dir[i + 1] in dir;
      }
    }
    forall i | 0 <= i < |n| - 1 ensures !(n[i] == '/' && n[i + 1] == '/') {
      assert n[i] == dir[i + 1] && n[i + 1] == dir[i + 2];
    }
    DotFreeClean(n);
  }

  /** Prefixes of one string are ordered by length: the shorter is a prefix
      of the longer. */
  lemma PrefixesAreNested(s: string, a: string, b: string)
    requires HasPrefix(s, a) && HasPrefix(s, b) && |a| <= |b|
    ensures HasPrefix(b, a)
  {
    assert a == s[..|a|] && b == s[..|b|];
    assert b[..|a|] == s[..|a|];
  }

  /** Joining a clean name onto a clean directory with a separator is clean. */
  lemma {:induction false} CleanConcat(a: string, b: string)
    requires CleanName(a) && CleanName(b) && a != [] && b != []
    ensures CleanName(a + "/" + b)
  {
    var c := a + "/" + b;
    var k := |a|;
    assert forall i :: 0 <= i < k ==> c[i] == a[i];
    assert c[k] == '/';
    assert forall i :: k < i < |c| ==> c[i] == b[i - k - 1];
    forall i | 0 <= i < |c| - 1
      ensures !(c[i] == '/' && c[i + 1] == '/')
    {
      if i < k - 1 {
        assert c[i] == a[i] && c[i + 1] == a[i + 1];
      } else if i == k - 1 {
        assert c[i] == a[k - 1];
      } else if i == k {
        assert c[i + 1] == b[0];
      } else {
        assert c[i] == b[i - k - 1] && c[i + 1] == b[i - k];
      }
    }
    forall i | 0 <= i < |c|
      ensures !DotSegmentAt(c, i)
    {
      if i < k {
        assert !DotSegmentAt(a, i);
      } else if i > k {
        assert !DotSegmentAt(b, i - k - 1);
      }
    }
  }
}
