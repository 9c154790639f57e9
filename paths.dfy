/** The parts of Python's `pathlib.PurePath` and `str` that the handler relies on:
    joining a file name onto a directory, `suffix`, `stem`, `with_suffix` and
    `str.lower`, all on a path's final component as Python 3.12 computes them. */
module Paths {

  /** A directory joined with a name that holds no separator, so the name is the path's
      final component. */
  datatype Path = Path(dir: string, name: string)

  /** The path as text: the directory, one separator, the name. When the name holds no
      separator, the text's last separator is the one before the name, so the name is
      the final component of the text. This is how `str` prints `Path(dir) / name` for a
      directory that is neither empty nor the root and has no trailing separator, as the
      one `tempfile.mkdtemp()` returns. */
  function PathString(p: Path): (s: string)
    ensures |s| == |p.dir| + 1 + |p.name|
    ensures s[..|p.dir|] == p.dir && s[|p.dir|] == '/' && s[|p.dir| + 1..] == p.name
    ensures '/' !in p.name ==> RFind(s, '/') == |p.dir|
  {
    var s := p.dir + "/" + p.name;
    assert s[|p.dir| + 1..] == p.name;
    assert forall j :: |p.dir| < j < |s| ==> s[j] == p.name[j - |p.dir| - 1];
    s
  }

  /** Python's `str.rfind`: the index of the last `c` in `s`, or -1 when there is none. */
  function RFind(s: string, c: char): (r: int)
    ensures -1 <= r < |s|
    ensures r >= 0 ==> s[r] == c
    ensures forall j :: r < j < |s| ==> s[j] != c
  {
    if |s| == 0 then -1
    else if s[|s| - 1] == c then |s| - 1
    else RFind(s[..|s| - 1], c)
  }

  /** The index of the dot that opens the name's suffix, or -1 when the name has no suffix:
      pathlib counts the last dot only when it is neither the first nor the last character. */
  function SuffixDot(name: string): (i: int)
    ensures i == -1 || 0 < i < |name| - 1
    ensures i != -1 ==> name[i] == '.' && '.' !in name[i + 1..]
  {
    var i := RFind(name, '.');
    if 0 < i < |name| - 1 then i else -1
  }

  /** A suffix as pathlib produces it: a dot, then at least one character, none of them a dot. */
  predicate IsSuffix(s: string)
  {
    |s| >= 2 && s[0] == '.' && '.' !in s[1..]
  }

  /** pathlib's `suffix` of a final component. */
  function Suffix(name: string): (s: string)
    ensures s == "" || IsSuffix(s)
    ensures s != "" ==> |s| < |name|
  {
    var i := SuffixDot(name);
    if i < 0 then "" else name[i..]
  }

  /** pathlib's `stem` of a final component: the name without its suffix. */
  function Stem(name: string): (s: string)
    ensures name != "" ==> s != ""
  {
    var i := SuffixDot(name);
    if i < 0 then name else name[..i]
  }

  /** pathlib's `with_suffix` on a final component: the stem followed by the new suffix
      (`WithSuffixReplaces` shows this is pathlib's replace-or-append). pathlib raises
      `ValueError` for an empty name or a malformed suffix; the handler never passes either. */
  function WithSuffix(name: string, suffix: string): (r: string)
    requires name != ""
    requires IsSuffix(suffix)
    ensures Suffix(r) == suffix
    ensures Stem(r) == Stem(name)
  {
    JoinSplits(Stem(name), suffix);
    Stem(name) + suffix
  }

  /** `with_suffix` appends the suffix to a name without one, and otherwise cuts the old
      suffix off the end before appending. */
  lemma {:induction false} WithSuffixReplaces(name: string, suffix: string)
    requires name != ""
    requires IsSuffix(suffix)
    ensures Suffix(name) == "" ==> WithSuffix(name, suffix) == name + suffix
    ensures Suffix(name) != "" ==>
      WithSuffix(name, suffix) == name[..|name| - |Suffix(name)|] + suffix
  {
    StemSuffixSplit(name);
    assert name[..|name| - |Suffix(name)|] == Stem(name);
  }

  /** ASCII `str.lower` on one character. */
  function LowerChar(c: char): char
  {
    if 'A' <= c <= 'Z' then (c as int + 32) as char else c
  }

  /** Python's `str.lower` over ASCII: every upper-case letter replaced by its lower-case letter. */
  function Lower(s: string): (r: string)
    ensures |r| == |s|
    ensures forall i :: 0 <= i < |s| ==> r[i] == LowerChar(s[i])
    ensures forall i :: 0 <= i < |r| ==> !('A' <= r[i] <= 'Z')
  {
    seq(|s|, i requires 0 <= i < |s| => LowerChar(s[i]))
  }

  /** Lower-casing twice is lower-casing once. */
  lemma {:induction false} LowerIdempotent(s: string)
    ensures Lower(Lower(s)) == Lower(s)
  {
    var once := Lower(s);
    assert forall i :: 0 <= i < |s| ==> LowerChar(once[i]) == once[i];
  }

  /** A name is its stem followed by its suffix. */
  lemma {:induction false} StemSuffixSplit(name: string)
    ensures Stem(name) + Suffix(name) == name
  {
  }

  /** A dot with no dot after it is the one `rfind` finds. */
  lemma {:induction false} LastDotIndex(s: string, k: int)
    requires 0 <= k < |s| && s[k] == '.'
    requires '.' !in s[k + 1..]
    ensures RFind(s, '.') == k
  {
  }

  /** Joining a non-empty stem and a suffix splits back into the same two parts. */
  lemma {:induction false} JoinSplits(base: string, suffix: string)
    requires base != ""
    requires IsSuffix(suffix)
    ensures Suffix(base + suffix) == suffix
    ensures Stem(base + suffix) == base
  {
    var n := base + suffix;
    assert n[|base| + 1..] == suffix[1..];
    LastDotIndex(n, |base|);
    assert n[|base|..] == suffix;
  }

  /** `with_suffix` returns the name unchanged exactly when the name already carries that
      very suffix, character for character. */
  lemma {:induction false} WithSuffixUnchangedIff(name: string, suffix: string)
    requires name != ""
    requires IsSuffix(suffix)
    ensures WithSuffix(name, suffix) == name <==> Suffix(name) == suffix
  {
    var r := WithSuffix(name, suffix);
    StemSuffixSplit(name);
    StemSuffixSplit(r);
    if Suffix(name) == suffix {
      assert r == Stem(name) + suffix;
    }
  }

  /** Searching past a prefix that lacks the character only finds it in the rest. */
  lemma {:induction false} RFindAfterPrefix(p: string, s: string, c: char)
    requires c !in p
    ensures RFind(p + s, c) == if RFind(s, c) >= 0 then |p| + RFind(s, c) else -1
  {
    var r := RFind(s, c);
    var n := p + s;
    if r >= 0 {
      assert n[|p| + r] == c;
      forall j | |p| + r < j < |n|
        ensures n[j] != c
      {
        assert n[j] == s[j - |p|];
      }
    }
  }

  /** Past a non-empty dot-free prefix, the suffix dot of a name that does not start with
      a dot moves by the prefix's length. */
  lemma {:induction false} SuffixDotAfterPrefix(p: string, s: string)
    requires p != "" && '.' !in p
    requires s == "" || s[0] != '.'
    ensures SuffixDot(p + s) == if SuffixDot(s) >= 0 then |p| + SuffixDot(s) else -1
  {
    RFindAfterPrefix(p, s, '.');
    var r := RFind(s, '.');
    if r >= 0 {
      assert r != 0;
    }
  }

  /** A non-empty prefix without a dot, before a name that does not start with a dot,
      leaves the name's suffix as it was and becomes part of its stem. */
  lemma {:induction false} SuffixAfterPrefix(p: string, s: string)
    requires p != "" && '.' !in p
    requires s == "" || s[0] != '.'
    ensures Suffix(p + s) == Suffix(s)
    ensures Stem(p + s) == p + Stem(s)
  {
    var n := p + s;
    var i := SuffixDot(s);
    assert SuffixDot(n) == if i >= 0 then |p| + i else -1 by {
      SuffixDotAfterPrefix(p, s);
    }
    if i >= 0 {
      assert n[|p| + i..] == s[i..];
      assert n[..|p| + i] == p + s[..i];
    }
  }

  /** Under the same conditions, replacing the suffix keeps the prefix in front of the
      name's stem. */
  lemma {:induction false} WithSuffixAfterPrefix(p: string, s: string, suffix: string)
    requires p != "" && '.' !in p
    requires s == "" || s[0] != '.'
    requires IsSuffix(suffix)
    ensures WithSuffix(p + s, suffix) == p + (Stem(s) + suffix)
  {
    var r := WithSuffix(p + s, suffix);
    assert Stem(r) == p + Stem(s) by {
      SuffixAfterPrefix(p, s);
    }
    assert r == Stem(r) + suffix by {
      StemSuffixSplit(r);
    }
  }
}
