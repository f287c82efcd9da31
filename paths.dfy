/** POSIX path handling as the core uses it: `os.path.join`, `Path(p).name` and
    `Path(p).suffix`. `Path(p) / q` is also written with `Join`, which keeps the text as given:
    pathlib would also drop `.` components and collapse doubled slashes. */
module Paths {

  /** `os.path.join(a, b)`: an absolute `b` replaces `a`; otherwise one `/` separates them
      unless `a` is empty or already ends in `/`. */
  function Join(a: string, b: string): string
  {
    if |b| > 0 && b[0] == '/' then b
    else if a == "" || a[|a| - 1] == '/' then a + b
    else a + "/" + b
  }

  /** `s.rfind(c)`: the index of the last `c` in `s`, or -1. */
  function RFind(s: string, c: char): (i: int)
    ensures -1 <= i < |s|
  {
    RFindBefore(s, c, |s|)
  }

  /** The index of the last `c` among the first `n` characters of `s`, or -1. */
  function RFindBefore(s: string, c: char, n: nat): (i: int)
    requires n <= |s|
    ensures -1 <= i < n
  {
    if n == 0 then -1
    else if s[n - 1] == c then n - 1
    else RFindBefore(s, c, n - 1)
  }

  /** The search finds the last occurrence, and -1 exactly when there is none. */
  lemma {:induction false} RFindBeforeIsLast(s: string, c: char, n: nat)
    requires n <= |s|
    ensures var i := RFindBefore(s, c, n);
      (i >= 0 ==> s[i] == c && forall j :: i < j < n ==> s[j] != c) &&
      (i == -1 ==> forall j :: 0 <= j < n ==> s[j] != c)
  {
    if n > 0 && s[n - 1] != c {
      RFindBeforeIsLast(s, c, n - 1);
    }
  }

  /** Conversely, an occurrence with none after it is what the search finds. */
  lemma {:induction false} RFindBeforeAt(s: string, c: char, n: nat, k: nat)
    requires k < n <= |s| && s[k] == c
    requires forall j :: k < j < n ==> s[j] != c
    ensures RFindBefore(s, c, n) == k
  {
    if k < n - 1 {
      RFindBeforeAt(s, c, n - 1, k);
    }
  }

  lemma RFindIsLast(s: string, c: char)
    ensures var i := RFind(s, c);
      (i >= 0 ==> s[i] == c && forall j :: i < j < |s| ==> s[j] != c) &&
      (i == -1 ==> forall j :: 0 <= j < |s| ==> s[j] != c)
  {
    RFindBeforeIsLast(s, c, |s|);
  }

  /** What `Path(p)` keeps of `p` before taking its last component: trailing `/` separators and
      trailing `.` components are dropped (`a/b/`, `a/b/.` and `a/b/./` all end in `b`). */
  function Trim(p: string): (t: string)
    ensures |t| <= |p| && t == p[..|t|]
    decreases |p|
  {
    var i := RFind(p, '/');
    if i >= 0 && (p[i + 1..] == "" || p[i + 1..] == ".") then
      var t := Trim(p[..i]);
      assert p[..i][..|t|] == p[..|t|];
      t
    else p
  }

  /** `Path(p).name`: the last component once trailing separators and `.` components are gone;
      empty when nothing is left, or only `.`. */
  function Name(p: string): string
  {
    var n := LastComponent(Trim(p));
    if n == "." then "" else n
  }

  /** The text after the last `/`. */
  function LastComponent(t: string): string
  {
    t[RFind(t, '/') + 1..]
  }

  predicate EndsWithText(s: string, t: string)
  {
    |t| <= |s| && s[|s| - |t|..] == t
  }

  /** The name holds no slash and is never `.`; it ends what is left of the path once trailing
      separators and `.` components are dropped; it is the whole path when the path has no
      slash and is not `.`; and adding a trailing `/` or `/.` does not change it. */
  lemma NameProperties(p: string)
    ensures '/' !in Name(p) && Name(p) != "."
    ensures EndsWithText(Trim(p), Name(p))
    ensures '/' !in p && p != "." ==> Name(p) == p
    ensures Name(p + "/") == Name(p) && Name(p + "/.") == Name(p)
  {
    NameShape(p);
    if '/' !in p && p != "." {
      NameOfComponent(p);
    }
    NameIgnoresTrailing(p);
  }

  lemma NameIgnoresTrailing(p: string)
    ensures Name(p + "/") == Name(p) && Name(p + "/.") == Name(p)
  {
    TrailingSlash(p);
    TrailingDot(p);
  }

  lemma NameShape(p: string)
    ensures '/' !in Name(p) && Name(p) != "."
    ensures EndsWithText(Trim(p), Name(p))
  {
    LastComponentShape(Trim(p));
  }

  lemma LastComponentShape(t: string)
    ensures '/' !in LastComponent(t) && EndsWithText(t, LastComponent(t))
  {
    var i := RFind(t, '/');
    RFindBeforeIsLast(t, '/', |t|);
    NameHasNoSlash(t, i);
  }

  lemma NameOfComponent(p: string)
    requires '/' !in p && p != "."
    ensures Name(p) == p
  {
    RFindBeforeAbsent(p, '/', |p|);
    assert Trim(p) == p;
    RFindBeforeAbsent(p, '/', |p|);
  }

  lemma TrailingSlash(p: string)
    ensures Trim(p + "/") == Trim(p)
  {
    var q := p + "/";
    RFindBeforeAt(q, '/', |q|, |p|);
    assert q[|p| + 1..] == "" && q[..|p|] == p;
  }

  lemma TrailingDot(p: string)
    ensures Trim(p + "/.") == Trim(p)
  {
    var q := p + "/.";
    assert q[|p| + 1] == '.';
    RFindBeforeAt(q, '/', |q|, |p|);
    assert q[|p| + 1..] == "." && q[..|p|] == p;
  }

  lemma NameHasNoSlash(p: string, i: int)
    requires -1 <= i < |p|
    requires forall j :: i < j < |p| ==> p[j] != '/'
    ensures '/' !in p[i + 1..]
  {
    var n := p[i + 1..];
    forall k | 0 <= k < |n| ensures n[k] != '/' {
      assert n[k] == p[i + 1 + k];
    }
  }

  lemma {:induction false} RFindBeforeAbsent(s: string, c: char, n: nat)
    requires n <= |s| && c !in s
    ensures RFindBefore(s, c, n) == -1
  {
    if n > 0 {
      assert s[n - 1] in s;
      RFindBeforeAbsent(s, c, n - 1);
    }
  }

  /** What `Path(name).suffix` can be: empty, or a dot followed by at least one character
      and no further dot. */
  predicate IsSuffixShape(x: string)
  {
    x == "" || (|x| >= 2 && x[0] == '.' && '.' !in x[1..])
  }

  /** The dot at `i` starts the suffix of `name`: it is not the first or last character and
      no dot follows it. */
  predicate IsSuffixDot(name: string, i: int)
  {
    0 < i < |name| - 1 && name[i] == '.' && '.' !in name[i + 1..]
  }

  /** `Path(name).suffix`: from the last dot on, when that dot is neither the first nor the
      last character of the name; otherwise empty. */
  function Suffix(name: string): string
  {
    var i := RFind(name, '.');
    if 0 < i < |name| - 1 then name[i..] else ""
  }

  /** The suffix has the suffix shape, ends the name, and is non-empty exactly when the name has
      a dot that is neither its first nor its last character with no dot after it. */
  lemma SuffixProperties(name: string)
    ensures IsSuffixShape(Suffix(name))
    ensures EndsWithText(name, Suffix(name))
    ensures Suffix(name) != "" <==> exists i :: IsSuffixDot(name, i)
  {
    RFindIsLast(name, '.');
    var i := RFind(name, '.');
    if 0 < i < |name| - 1 {
      assert name[i..][1..] == name[i + 1..];
      assert IsSuffixDot(name, i);
    } else {
      forall k | 0 < k < |name| - 1 && name[k] == '.' ensures '.' in name[k + 1..] {
        assert k <= i;
        assert name[k + 1..][i - k - 1] == '.';
      }
      assert forall k :: !IsSuffixDot(name, k);
    }
  }

  /** A dot-free stem followed by a suffix-shaped extension has exactly that extension. */
  lemma SuffixOfStem(stem: string, ext: string)
    requires |stem| > 0 && '.' !in stem
    requires ext != "" && IsSuffixShape(ext)
    ensures Suffix(stem + ext) == ext
  {
    var name := stem + ext;
    var i := |stem|;
    assert name[i] == '.';
    forall j | i < j < |name| ensures name[j] != '.' {
      assert name[j] == ext[1..][j - i - 1];
    }
    RFindBeforeAt(name, '.', |name|, i);
    assert name[i..] == ext;
  }

  /** Joining a relative path keeps the base directory as a prefix and the relative path as the
      ending: the result lies under the base. */
  lemma JoinRelative(a: string, b: string)
    requires b == "" || b[0] != '/'
    ensures |a| <= |Join(a, b)| && Join(a, b)[..|a|] == a
    ensures EndsWithText(Join(a, b), b)
  {
  }

  /** An absolute second argument throws the base directory away. */
  lemma JoinAbsolute(a: string, b: string)
    requires |b| > 0 && b[0] == '/'
    ensures Join(a, b) == b
  {
  }

  /** The final component of `a / b` is `b` when `b` is a single component: no slash, not
      empty and not `.`. */
  lemma NoSlashInConcat(a: string, b: string)
    requires '/' !in a && '/' !in b
    ensures '/' !in a + b
  {
    forall k | 0 <= k < |a + b| ensures (a + b)[k] != '/' {
      if k >= |a| {
        assert (a + b)[k] == b[k - |a|];
      }
    }
  }

  lemma JoinName(a: string, b: string)
    requires '/' !in b && b != "" && b != "."
    ensures Name(Join(a, b)) == b
  {
    var j := Join(a, b);
    assert b[0] != '/';
    if a == "" {
      assert j == b;
      NameProperties(b);
    } else {
      var k := if a[|a| - 1] == '/' then |a| - 1 else |a|;
      assert j == (if a[|a| - 1] == '/' then a + b else a + "/" + b);
      assert j[k] == '/' && j[k + 1..] == b;
      forall m | k < m < |j| ensures j[m] != '/' {
        assert j[m] == b[m - k - 1];
      }
      RFindBeforeAt(j, '/', |j|, k);
      assert Trim(j) == j;
    }
  }
}
