/** The JavaScript string operations the dashboard relies on: `trim`,
    `split` on a one-character separator, `includes`, and `Array.prototype.indexOf`.
    Strings are sequences of characters; UTF-16 code units are not modelled
    separately because everything these operations match against (the
    whitespace set, the separators `'\n'` and `','`, and ASCII text such as
    `"application/json"`) lies in the Basic Multilingual Plane, so cutting at
    code units or at code points gives the same pieces and the same answers. */
module JsText {

  /** The ECMAScript WhiteSpace and LineTerminator code points: exactly the
      characters `String.prototype.trim` strips and `parseInt` skips. */
  predicate IsWhiteSpace(c: char)
  {
    var n := c as int;
    || n == 0x09 || n == 0x0A || n == 0x0B || n == 0x0C || n == 0x0D
    || n == 0x20 || n == 0xA0 || n == 0x1680
    || (0x2000 <= n <= 0x200A)
    || n == 0x2028 || n == 0x2029 || n == 0x202F || n == 0x205F
    || n == 0x3000 || n == 0xFEFF
  }

  predicate AllWhiteSpace(s: string)
  {
    forall i :: 0 <= i < |s| ==> IsWhiteSpace(s[i])
  }

  /** `trimStart`: drops the longest whitespace prefix. */
  function TrimStart(s: string): (r: string)
    ensures |r| <= |s| && r == s[|s| - |r|..]
    ensures AllWhiteSpace(s[..|s| - |r|])
    ensures r == [] || !IsWhiteSpace(r[0])
    decreases |s|
  {
    if |s| > 0 && IsWhiteSpace(s[0]) then TrimStart(s[1..]) else s
  }

  /** Whitespace in front of `s` is all `trimStart` removes from it. */
  lemma {:induction false} TrimStartSkips(w: string, s: string)
    requires AllWhiteSpace(w)
    ensures TrimStart(w + s) == TrimStart(s)
    decreases |w|
  {
    if |w| > 0 {
      assert (w + s)[0] == w[0];
      assert (w + s)[1..] == w[1..] + s;
      TrimStartSkips(w[1..], s);
    } else {
      assert w + s == s;
    }
  }

  /** Text made only of whitespace trims to nothing. */
  lemma TrimStartOfWhite(s: string)
    ensures AllWhiteSpace(s) ==> TrimStart(s) == []
  {
    var r := TrimStart(s);
    if r != [] {
      assert r[0] == s[|s| - |r|];
    }
  }

  /** `trimEnd`: drops the longest whitespace suffix. */
  function TrimEnd(s: string): (r: string)
    ensures |r| <= |s| && r == s[..|r|]
    ensures AllWhiteSpace(s[|r|..])
    ensures r == [] || !IsWhiteSpace(r[|r| - 1])
    decreases |s|
  {
    if |s| > 0 && IsWhiteSpace(s[|s| - 1]) then TrimEnd(s[..|s| - 1]) else s
  }

  /** `t` is `s[i..j]`, and everything of `s` outside that slice is whitespace
      while the slice itself neither starts nor ends with whitespace. */
  ghost predicate TrimmedAt(t: string, s: string, i: int, j: int)
  {
    && 0 <= i <= j <= |s| && t == s[i..j]
    && AllWhiteSpace(s[..i]) && AllWhiteSpace(s[j..])
    && (t == [] || (!IsWhiteSpace(t[0]) && !IsWhiteSpace(t[|t| - 1])))
  }

  /** `t` is what is left of `s` once leading and trailing whitespace are cut. */
  ghost predicate IsTrimOf(t: string, s: string)
  {
    exists i, j :: TrimmedAt(t, s, i, j)
  }

  /** Slicing a suffix is slicing the original at shifted bounds. */
  lemma SlicesOfSuffix<T>(s: seq<T>, i: nat, k: nat)
    requires i + k <= |s|
    ensures s[i..][..k] == s[i..i + k]
    ensures s[i..][k..] == s[i + k..]
  {
  }

  /** `String.prototype.trim`. */
  function Trim(s: string): (r: string)
    ensures IsTrimOf(r, s)
  {
    var t := TrimStart(s);
    CutsCompose(s, t, TrimEnd(t));
    TrimEnd(t)
  }

  /** Cutting whitespace off the start (leaving `t`) and then off the end
      (leaving `r`) leaves the slice `TrimmedAt` describes. */
  lemma CutsCompose(s: string, t: string, r: string)
    requires |t| <= |s| && t == s[|s| - |t|..] && AllWhiteSpace(s[..|s| - |t|])
    requires t == [] || !IsWhiteSpace(t[0])
    requires |r| <= |t| && r == t[..|r|] && AllWhiteSpace(t[|r|..])
    requires r == [] || !IsWhiteSpace(r[|r| - 1])
    ensures TrimmedAt(r, s, |s| - |t|, |s| - |t| + |r|)
  {
    var i := |s| - |t|;
    SlicesOfSuffix(s, i, |r|);
    if r != [] {
      assert r[0] == t[0];
    }
  }

  lemma WhiteInPrefix(s: string, i: int, k: int)
    requires 0 <= k < i <= |s| && AllWhiteSpace(s[..i])
    ensures IsWhiteSpace(s[k])
  {
    assert s[..i][k] == s[k];
  }

  lemma WhiteInSuffix(s: string, j: int, k: int)
    requires 0 <= j <= k < |s| && AllWhiteSpace(s[j..])
    ensures IsWhiteSpace(s[k])
  {
    assert s[j..][k - j] == s[k];
  }

  /** An empty trim means the whole string is whitespace. */
  lemma EmptyTrimAllWhite(s: string, i: int, j: int)
    requires TrimmedAt("", s, i, j)
    ensures AllWhiteSpace(s)
  {
    forall k | 0 <= k < |s| ensures IsWhiteSpace(s[k]) {
      if k < i { WhiteInPrefix(s, i, k); } else { WhiteInSuffix(s, j, k); }
    }
  }

  /** Two non-empty trims of the same string cut at the same places. */
  lemma NonEmptyTrimsAgree(t: string, r: string, s: string, i: int, j: int, i': int, j': int)
    requires TrimmedAt(t, s, i, j) && TrimmedAt(r, s, i', j') && t != [] && r != []
    ensures i == i' && j == j'
  {
    assert s[i] == t[0] && s[j - 1] == t[|t| - 1];
    assert s[i'] == r[0] && s[j' - 1] == r[|r| - 1];
    if i < i' { WhiteInPrefix(s, i', i); }
    if i' < i { WhiteInPrefix(s, i, i'); }
    if j < j' { WhiteInSuffix(s, j, j' - 1); }
    if j' < j { WhiteInSuffix(s, j', j - 1); }
  }

  /** There is only one way to cut whitespace off both ends: any string with the
      shape `IsTrimOf` describes is the one `Trim` returns. */
  lemma TrimUnique(t: string, s: string)
    requires IsTrimOf(t, s)
    ensures t == Trim(s)
  {
    var i, j :| TrimmedAt(t, s, i, j);
    var r := Trim(s);
    var i', j' :| TrimmedAt(r, s, i', j');
    if t == [] {
      EmptyTrimAllWhite(s, i, j);
      if r != [] {
        assert false;
      }
    } else if r == [] {
      EmptyTrimAllWhite(s, i', j');
      assert false;
    } else {
      NonEmptyTrimsAgree(t, r, s, i, j, i', j');
    }
  }

  /** A line is blank (`line.trim() === ''`) exactly when it is all whitespace. */
  lemma TrimEmptyIffBlank(s: string)
    ensures Trim(s) == "" <==> AllWhiteSpace(s)
  {
    if AllWhiteSpace(s) {
      assert TrimmedAt("", s, 0, 0) by {
        assert s[..0] == [] && s[0..0] == "" && s[0..] == s;
      }
      TrimUnique("", s);
    } else {
      var r := Trim(s);
      var i, j :| TrimmedAt(r, s, i, j);
      if r == [] {
        EmptyTrimAllWhite(s, i, j);
        assert false;
      }
    }
  }

  /** Inverse of `Split`: the pieces glued back together with the separator. */
  function Join(parts: seq<string>, sep: char): string
  {
    if |parts| == 0 then ""
    else if |parts| == 1 then parts[0]
    else parts[0] + [sep] + Join(parts[1..], sep)
  }

  /** `String.prototype.split` with a one-character separator: always at least
      one piece, and an empty string gives `[""]`. */
  function Split(s: string, sep: char): (r: seq<string>)
    ensures |r| >= 1
    ensures forall i :: 0 <= i < |r| ==> sep !in r[i]
    decreases |s|
  {
    if |s| == 0 then [""]
    else
      var rest := Split(s[1..], sep);
      if s[0] == sep then [""] + rest
      else [[s[0]] + rest[0]] + rest[1..]
  }

  /** Splitting and joining again gives back the original string. */
  lemma {:induction false} JoinSplit(s: string, sep: char)
    ensures Join(Split(s, sep), sep) == s
    decreases |s|
  {
    if |s| > 0 {
      var rest := Split(s[1..], sep);
      JoinSplit(s[1..], sep);
      if s[0] == sep {
        assert Split(s, sep) == [""] + rest;
        assert ([""] + rest)[1..] == rest;
        assert Join([""] + rest, sep) == "" + [sep] + Join(rest, sep);
        assert s == [sep] + s[1..];
      } else {
        var first := [s[0]] + rest[0];
        assert Split(s, sep) == [first] + rest[1..];
        if |rest| == 1 {
          assert Join(rest, sep) == rest[0];
        } else {
          assert Join(rest, sep) == rest[0] + [sep] + Join(rest[1..], sep);
          assert ([first] + rest[1..])[1..] == rest[1..];
          assert Join([first] + rest[1..], sep) == first + [sep] + Join(rest[1..], sep);
        }
        assert s == [s[0]] + s[1..];
      }
    }
  }

  /** Joining pieces that do not contain the separator and splitting again
      gives back the same pieces. */
  lemma {:induction false} SplitJoin(parts: seq<string>, sep: char)
    requires |parts| >= 1
    requires forall i :: 0 <= i < |parts| ==> sep !in parts[i]
    ensures Split(Join(parts, sep), sep) == parts
    decreases |parts|, |parts[0]|
  {
    var p := parts[0];
    if |p| == 0 {
      if |parts| > 1 {
        var tail := parts[1..];
        SplitJoin(tail, sep);
        var s := Join(parts, sep);
        assert s == [sep] + Join(tail, sep);
        assert s[1..] == Join(tail, sep);
        assert parts == [""] + tail;
      }
    } else {
      var shorter := [p[1..]] + parts[1..];
      assert shorter[1..] == parts[1..];
      assert forall i :: 0 <= i < |shorter| ==> sep !in shorter[i] by {
        forall i | 0 <= i < |shorter| ensures sep !in shorter[i] {
          if i == 0 {
            assert forall c :: c in p[1..] ==> c in p;
          } else {
            assert shorter[i] == parts[i];
          }
        }
      }
      SplitJoin(shorter, sep);
      var s := Join(parts, sep);
      var s' := Join(shorter, sep);
      if |parts| == 1 {
        assert s == p && s' == p[1..];
      } else {
        assert s == p + [sep] + Join(parts[1..], sep);
        assert s' == p[1..] + [sep] + Join(parts[1..], sep);
      }
      assert s[0] == p[0] && s[1..] == s';
      assert p[0] != sep by { assert p[0] in p; }
      var rest := Split(s', sep);
      assert rest == shorter;
      assert Split(s, sep) == [[p[0]] + rest[0]] + rest[1..];
      assert [p[0]] + p[1..] == p;
    }
  }

  /** `sub` occurs in `s` starting at position `i`. */
  predicate OccursAt(s: string, sub: string, i: int)
  {
    0 <= i && i + |sub| <= |s| && s[i..i + |sub|] == sub
  }

  /** `String.prototype.includes`. */
  predicate Includes(s: string, sub: string)
    decreases |s|
  {
    if |sub| > |s| then false
    else s[..|sub|] == sub || Includes(s[1..], sub)
  }

  /** `includes` holds exactly when the substring occurs somewhere. */
  lemma {:induction false} IncludesIffOccurs(s: string, sub: string)
    ensures Includes(s, sub) <==> exists i :: OccursAt(s, sub, i)
    decreases |s|
  {
    if |sub| > |s| {
      assert forall i :: !OccursAt(s, sub, i);
    } else if s[..|sub|] == sub {
      assert OccursAt(s, sub, 0);
    } else {
      IncludesIffOccurs(s[1..], sub);
      if Includes(s[1..], sub) {
        var i :| OccursAt(s[1..], sub, i);
        assert s[1..][i..i + |sub|] == s[i + 1..i + 1 + |sub|];
        assert OccursAt(s, sub, i + 1);
      } else {
        forall i | OccursAt(s, sub, i) ensures false {
          if i > 0 {
            assert s[1..][i - 1..i - 1 + |sub|] == s[i..i + |sub|];
            assert OccursAt(s[1..], sub, i - 1);
          }
        }
      }
    }
  }

  /** `Array.prototype.indexOf`: the first position holding `x`, or -1. */
  function IndexOf<T(==)>(xs: seq<T>, x: T): (r: int)
    ensures -1 <= r < |xs|
    ensures r == -1 <==> x !in xs
    ensures r >= 0 ==> xs[r] == x && x !in xs[..r]
  {
    if |xs| == 0 then -1
    else if xs[0] == x then 0
    else
      var k := IndexOf(xs[1..], x);
      assert xs == [xs[0]] + xs[1..];
      if k == -1 then -1
      else
        assert xs[..k + 1] == [xs[0]] + xs[1..][..k];
        k + 1
  }
}
