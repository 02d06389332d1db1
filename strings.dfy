/**
 * The Python string operations the core relies on: lower-casing, splitting on
 * a separator, removing a substring, taking a path's final component, and
 * stripping whitespace.
 */
module Strings {

  /** True when `pat` occurs somewhere in `s`. */
  predicate Occurs(s: string, pat: string)
    decreases |s|
  {
    |s| > 0 && |s| >= |pat| && (s[..|pat|] == pat || Occurs(s[1..], pat))
  }

  // ---------------------------------------------------------------------
  // str.lower (ASCII letters only)
  // ---------------------------------------------------------------------

  function LowerChar(c: char): char {
    if 'A' <= c <= 'Z' then (c as int + 32) as char else c
  }

  predicate IsLower(s: string) {
    forall i :: 0 <= i < |s| ==> !('A' <= s[i] <= 'Z')
  }

  /** str.lower: every upper-case letter replaced by its lower-case form. */
  function Lower(s: string): (r: string)
    ensures |r| == |s|
    ensures IsLower(r)
    ensures IsLower(s) ==> r == s
  {
    seq(|s|, i requires 0 <= i < |s| => LowerChar(s[i]))
  }

  /** Lower-casing works character by character, so it distributes over concatenation. */
  lemma LowerAppend(a: string, b: string)
    ensures Lower(a + b) == Lower(a) + Lower(b)
  {
  }

  /** str.startswith(prefix). */
  predicate StartsWith(s: string, prefix: string) {
    |s| >= |prefix| && s[..|prefix|] == prefix
  }

  /** [t.lower() for t in ts]: each string lower-cased, order and count kept. */
  function LowerAll(ts: seq<string>): (r: seq<string>)
    ensures |r| == |ts|
    ensures forall i :: 0 <= i < |ts| ==> r[i] == Lower(ts[i])
  {
    seq(|ts|, i requires 0 <= i < |ts| => Lower(ts[i]))
  }

  // ---------------------------------------------------------------------
  // str.split(sep) and its inverse sep.join(parts)
  // ---------------------------------------------------------------------

  /**
   * str.split with an explicit, non-empty separator: scans left to right and
   * cuts at every non-overlapping occurrence, always giving at least one part.
   */
  function Split(s: string, sep: string): (parts: seq<string>)
    requires |sep| > 0
    ensures |parts| >= 1
    decreases |s|
  {
    if |s| < |sep| then [s]
    else if s[..|sep|] == sep then [""] + Split(s[|sep|..], sep)
    else
      var rest := Split(s[1..], sep);
      [[s[0]] + rest[0]] + rest[1..]
  }

  /** A string without the separator splits into itself alone. */
  lemma {:induction false} SplitAbsent(s: string, sep: string)
    requires |sep| > 0 && !Occurs(s, sep)
    ensures Split(s, sep) == [s]
    decreases |s|
  {
    if |s| >= |sep| {
      SplitAbsent(s[1..], sep);
      assert [s[0]] + s[1..] == s;
    }
  }

  /** sep.join(parts). */
  function Join(parts: seq<string>, sep: string): string {
    if |parts| == 0 then ""
    else if |parts| == 1 then parts[0]
    else parts[0] + sep + Join(parts[1..], sep)
  }

  lemma JoinCons(p: string, rest: seq<string>, sep: string)
    requires |rest| >= 1
    ensures Join([p] + rest, sep) == p + sep + Join(rest, sep)
  {
    assert ([p] + rest)[1..] == rest;
  }

  /** Joining lower-cased parts with a lower-case separator is lower-casing the joined string. */
  lemma {:induction false} JoinLowerAll(parts: seq<string>, sep: string)
    requires IsLower(sep)
    ensures Join(LowerAll(parts), sep) == Lower(Join(parts, sep))
  {
    if |parts| > 1 {
      JoinLowerAll(parts[1..], sep);
      assert LowerAll(parts)[1..] == LowerAll(parts[1..]);
      LowerAppend(parts[0], sep);
      LowerAppend(parts[0] + sep, Join(parts[1..], sep));
    }
  }

  /** Joining the parts of a split with the same separator gives the string back. */
  lemma {:induction false} JoinSplit(s: string, sep: string)
    requires |sep| > 0
    ensures Join(Split(s, sep), sep) == s
    decreases |s|
  {
    if |s| < |sep| {
    } else if s[..|sep|] == sep {
      JoinSplitAtSeparator(s, sep);
    } else {
      JoinSplitAtChar(s, sep);
    }
  }

  lemma {:induction false} JoinSplitAtSeparator(s: string, sep: string)
    requires |sep| > 0 && |s| >= |sep| && s[..|sep|] == sep
    ensures Join(Split(s, sep), sep) == s
    decreases |s|, 0
  {
    var rest := Split(s[|sep|..], sep);
    assert Split(s, sep) == [""] + rest;
    JoinSplit(s[|sep|..], sep);
    JoinCons("", rest, sep);
    assert s == sep + s[|sep|..];
  }

  lemma {:induction false} JoinSplitAtChar(s: string, sep: string)
    requires |sep| > 0 && |s| >= |sep| && s[..|sep|] != sep
    ensures Join(Split(s, sep), sep) == s
    decreases |s|, 0
  {
    var rest := Split(s[1..], sep);
    var head := [s[0]] + rest[0];
    assert Split(s, sep) == [head] + rest[1..];
    JoinSplit(s[1..], sep);
    if |rest| == 1 {
      assert [head] + rest[1..] == [head];
    } else {
      JoinCons(head, rest[1..], sep);
      assert rest == [rest[0]] + rest[1..];
      JoinCons(rest[0], rest[1..], sep);
    }
    assert s == [s[0]] + s[1..];
  }

  /** Every character of every part of a split comes from the string split. */
  lemma {:induction false} SplitPartsChars(s: string, sep: string)
    requires |sep| > 0
    ensures forall p, c :: p in Split(s, sep) && c in p ==> c in s
    decreases |s|
  {
    if |s| < |sep| {
    } else if s[..|sep|] == sep {
      SplitPartsChars(s[|sep|..], sep);
      assert Split(s, sep) == [""] + Split(s[|sep|..], sep);
      forall c | c in s[|sep|..] ensures c in s {
        var i :| 0 <= i < |s[|sep|..]| && s[|sep|..][i] == c;
        assert s[|sep| + i] == c;
      }
    } else {
      SplitPartsChars(s[1..], sep);
      var rest := Split(s[1..], sep);
      assert Split(s, sep) == [[s[0]] + rest[0]] + rest[1..];
      assert rest[0] in rest;
      forall c | c in s[1..] ensures c in s {
        var i :| 0 <= i < |s[1..]| && s[1..][i] == c;
        assert s[1 + i] == c;
      }
      forall p, c | p in Split(s, sep) && c in p ensures c in s {
        if p == [s[0]] + rest[0] {
          if c != s[0] {
            assert c in rest[0];
          }
        } else {
          assert p in rest;
        }
      }
    }
  }

  /** The parts of a lower-case string are lower-case. */
  lemma SplitLower(s: string, sep: string)
    requires |sep| > 0 && IsLower(s)
    ensures forall p :: p in Split(s, sep) ==> IsLower(p)
  {
    SplitPartsChars(s, sep);
    forall p | p in Split(s, sep) ensures IsLower(p) {
      forall i | 0 <= i < |p| ensures !('A' <= p[i] <= 'Z') {
        assert p[i] in p;
        var j :| 0 <= j < |s| && s[j] == p[i];
      }
    }
  }

  /** Splitting on a one-character separator leaves that character in no part. */
  lemma {:induction false} SplitOnCharParts(s: string, c: char)
    ensures forall p :: p in Split(s, [c]) ==> c !in p
    decreases |s|
  {
    if |s| < 1 {
    } else if s[..1] == [c] {
      SplitOnCharParts(s[1..], c);
    } else {
      SplitOnCharParts(s[1..], c);
      var rest := Split(s[1..], [c]);
      assert s[0] != c by { assert s[..1] == [s[0]]; }
      assert Split(s, [c]) == [[s[0]] + rest[0]] + rest[1..];
      forall p | p in Split(s, [c]) ensures c !in p {
        if p == [s[0]] + rest[0] {
          assert rest[0] in rest;
        } else {
          assert p in rest[1..];
        }
      }
    }
  }

  // ---------------------------------------------------------------------
  // str.replace(pat, "")
  // ---------------------------------------------------------------------

  /** str.replace(pat, ""): every non-overlapping occurrence, found left to right, removed. */
  function RemoveAll(s: string, pat: string): (r: string)
    requires |pat| > 0
    ensures |r| <= |s|
    decreases |s|
  {
    if |s| < |pat| then s
    else if s[..|pat|] == pat then RemoveAll(s[|pat|..], pat)
    else [s[0]] + RemoveAll(s[1..], pat)
  }

  /** A string in which the pattern does not occur is left as it is. */
  lemma {:induction false} RemoveAllAbsent(s: string, pat: string)
    requires |pat| > 0
    ensures Occurs(s, pat) || RemoveAll(s, pat) == s
    decreases |s|
  {
    if |s| >= |pat| && s[..|pat|] != pat {
      RemoveAllAbsent(s[1..], pat);
      assert s == [s[0]] + s[1..];
    }
  }

  /**
   * Removing a leading occurrence of the pattern: when the rest does not
   * contain the pattern again, what is left is exactly the rest.
   */
  lemma StripLeading(pat: string, rest: string)
    requires |pat| > 0
    requires !Occurs(rest, pat)
    ensures RemoveAll(pat + rest, pat) == rest
  {
    var s := pat + rest;
    assert s[..|pat|] == pat;
    assert s[|pat|..] == rest;
    RemoveAllAbsent(rest, pat);
  }

  // ---------------------------------------------------------------------
  // pathlib.PurePosixPath(p).name and Path.joinpath
  // ---------------------------------------------------------------------

  /** The components pathlib keeps: empty ones (from repeated slashes) and "." are dropped. */
  function PathComponents(parts: seq<string>): (r: seq<string>)
    ensures forall p :: p in r ==> p in parts && p != "" && p != "."
  {
    if |parts| == 0 then []
    else if parts[0] == "" || parts[0] == "." then PathComponents(parts[1..])
    else [parts[0]] + PathComponents(parts[1..])
  }

  /**
   * Path(p).name: the final component of the path, "" when there is none.
   * It never contains a separator, so joining it to a directory cannot
   * descend below that directory; the name ".." is kept as it is (pathlib
   * does not resolve it), and that one names the directory's parent.
   */
  function Basename(p: string): (name: string)
    ensures '/' !in name
    ensures name != "."
  {
    var comps := PathComponents(Split(p, "/"));
    SplitOnCharParts(p, '/');
    if |comps| == 0 then "" else comps[|comps| - 1]
  }

  /**
   * Path(dir).joinpath(name) for a name without separators: the directory
   * itself when the name is empty, otherwise the name as the last component
   * below the directory (or alone, below the empty path).
   */
  function PathJoin(dir: string, name: string): (r: string)
    ensures name == "" ==> r == dir
    ensures name != "" ==> |r| >= |name| && r[|r| - |name|..] == name
    ensures name != "" && dir != "" ==> |r| > |name| && r[|r| - |name| - 1] == '/'
    ensures name != "" && dir != "" ==> StartsWith(r, dir)
  {
    if name == "" then dir
    else if dir == "" then name
    else if dir[|dir| - 1] == '/' then dir + name
    else dir + "/" + name
  }

  // ---------------------------------------------------------------------
  // str.strip()
  // ---------------------------------------------------------------------

  /** The characters Python's str.isspace accepts. */
  predicate IsSpace(c: char) {
    || c == ' '
    || '\t' <= c <= '\r'
    || '\U{1c}' <= c <= '\U{1f}'
    || c == '\U{85}' || c == '\U{a0}' || c == '\U{1680}'
    || '\U{2000}' <= c <= '\U{200a}'
    || c == '\U{2028}' || c == '\U{2029}' || c == '\U{202f}' || c == '\U{205f}' || c == '\U{3000}'
  }

  function TrimLeft(s: string): (r: string)
    ensures |r| <= |s| && r == s[|s| - |r|..]
    ensures r == [] || !IsSpace(r[0])
    ensures |s| > 0 && !IsSpace(s[0]) ==> r == s
  {
    if |s| > 0 && IsSpace(s[0]) then TrimLeft(s[1..]) else s
  }

  function TrimRight(s: string): (r: string)
    ensures |r| <= |s| && r == s[..|r|]
    ensures r == [] || !IsSpace(r[|r| - 1])
    ensures |s| > 0 && !IsSpace(s[|s| - 1]) ==> r == s
  {
    if |s| > 0 && IsSpace(s[|s| - 1]) then TrimRight(s[..|s| - 1]) else s
  }

  /**
   * str.strip(): `s` without its leading and trailing whitespace; a string
   * already without edge whitespace is unchanged.
   */
  function Trim(s: string): (r: string)
    ensures r == [] || (!IsSpace(r[0]) && !IsSpace(r[|r| - 1]))
    ensures s == [] || (!IsSpace(s[0]) && !IsSpace(s[|s| - 1])) ==> r == s
  {
    TrimRight(TrimLeft(s))
  }

  // ---------------------------------------------------------------------
  // str(int)
  // ---------------------------------------------------------------------

  function DigitChar(d: nat): (c: char)
    requires d < 10
    ensures '0' <= c <= '9'
  {
    "0123456789"[d]
  }

  function NatToString(n: nat): (r: string)
    ensures |r| >= 1
    ensures forall k :: 0 <= k < |r| ==> '0' <= r[k] <= '9'
  {
    if n < 10 then [DigitChar(n)] else NatToString(n / 10) + [DigitChar(n % 10)]
  }

  /** str(i) for a Python int: decimal digits, with a leading "-" when negative. */
  function IntToString(i: int): (r: string)
    ensures |r| >= 1
    ensures (r[0] == '-') <==> i < 0
  {
    if i < 0 then "-" + NatToString(-i) else NatToString(i)
  }
}
