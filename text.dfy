/** The JavaScript string built-ins the server relies on: `includes`,
    `trim`, `substring` and the `||` fallback on strings. Strings are
    sequences of characters. */
module Text {

  /** `s || fallback` for a string `s`: the empty string is falsy. */
  function OrElse(s: string, fallback: string): (r: string)
    ensures s != "" ==> r == s
    ensures s == "" ==> r == fallback
  {
    if s == "" then fallback else s
  }

  /** `s.substring(0, n)`: the first `n` characters, or all of `s` when it is shorter. */
  function Prefix(s: string, n: nat): (r: string)
    ensures |r| == if |s| < n then |s| else n
    ensures r == s[..|r|]
  {
    if |s| <= n then s else s[..n]
  }

  /** `t` occurs in `s` starting at index `i`. */
  ghost predicate OccursAt(s: string, t: string, i: int)
  {
    0 <= i && i + |t| <= |s| && s[i..i + |t|] == t
  }

  /** `s.includes(t)`. */
  predicate Includes(s: string, t: string)
    decreases |s|
  {
    |t| <= |s| && (s[..|t|] == t || (s != [] && Includes(s[1..], t)))
  }

  /** `includes` holds exactly when `t` occurs somewhere in `s`. */
  lemma {:induction false} IncludesIff(s: string, t: string)
    ensures Includes(s, t) <==> exists i :: OccursAt(s, t, i)
    decreases |s|
  {
    if |t| > |s| {
      forall i ensures !OccursAt(s, t, i) { }
    } else if s[..|t|] == t {
      assert OccursAt(s, t, 0);
    } else {
      IncludesIff(s[1..], t);
      if Includes(s[1..], t) {
        var i :| OccursAt(s[1..], t, i);
        DropSlice(s, i + 1, i + 1 + |t|);
        assert OccursAt(s, t, i + 1);
      } else {
        forall i | OccursAt(s, t, i) ensures false {
          assert i != 0;
          DropSlice(s, i, i + |t|);
          assert OccursAt(s[1..], t, i - 1);
        }
      }
    }
  }

  /** A slice of `s` without its first character is the slice of `s`
      shifted by one. */
  lemma DropSlice(s: string, a: int, b: int)
    requires 1 <= a <= b <= |s|
    ensures s[1..][a - 1..b - 1] == s[a..b]
  {
  }

  /** A character `String.prototype.trim` strips: the ECMAScript WhiteSpace
      and LineTerminator code points. */
  predicate IsWhiteSpace(c: char)
  {
    var n := c as int;
    n == 0x09 || n == 0x0A || n == 0x0B || n == 0x0C || n == 0x0D || n == 0x20
    || n == 0xA0 || n == 0x1680 || (0x2000 <= n <= 0x200A) || n == 0x2028
    || n == 0x2029 || n == 0x202F || n == 0x205F || n == 0x3000 || n == 0xFEFF
  }

  /** `s` with its leading white space removed. */
  function TrimStart(s: string): (r: string)
    ensures |r| <= |s| && r == s[|s| - |r|..]
    ensures r != [] ==> !IsWhiteSpace(r[0])
  {
    if s != [] && IsWhiteSpace(s[0]) then
      var r := TrimStart(s[1..]);
      DropSlice(s, |s| - |r|, |s|);
      r
    else s
  }

  /** Everything `TrimStart` cuts off is white space. */
  lemma {:induction false} TrimStartCutsWhiteSpace(s: string)
    ensures forall k :: 0 <= k < |s| - |TrimStart(s)| ==> IsWhiteSpace(s[k])
  {
    if s != [] && IsWhiteSpace(s[0]) {
      TrimStartCutsWhiteSpace(s[1..]);
      forall k | 0 < k < |s| - |TrimStart(s)| ensures IsWhiteSpace(s[k]) {
        assert s[k] == s[1..][k - 1];
      }
    }
  }

  /** `s` with its trailing white space removed. */
  function TrimEnd(s: string): (r: string)
    ensures |r| <= |s| && r == s[..|r|]
    ensures r != [] ==> !IsWhiteSpace(r[|r| - 1])
  {
    if s != [] && IsWhiteSpace(s[|s| - 1]) then
      var r := TrimEnd(s[..|s| - 1]);
      assert s[..|s| - 1][..|r|] == s[..|r|];
      r
    else s
  }

  /** Everything `TrimEnd` cuts off is white space. */
  lemma {:induction false} TrimEndCutsWhiteSpace(s: string)
    ensures forall k :: |TrimEnd(s)| <= k < |s| ==> IsWhiteSpace(s[k])
  {
    if s != [] && IsWhiteSpace(s[|s| - 1]) {
      TrimEndCutsWhiteSpace(s[..|s| - 1]);
      forall k | |TrimEnd(s)| <= k < |s| - 1 ensures IsWhiteSpace(s[k]) {
        assert s[k] == s[..|s| - 1][k];
      }
    }
  }

  /** `s.trim()`: neither end of the result is white space. */
  function Trim(s: string): (r: string)
    ensures r != [] ==> !IsWhiteSpace(r[0]) && !IsWhiteSpace(r[|r| - 1])
  {
    TrimEnd(TrimStart(s))
  }

  /** The trimmed string is the block of `s` that starts where the leading
      white space ends. */
  lemma TrimIsBlock(s: string)
    ensures var i := |s| - |TrimStart(s)|;
            i + |Trim(s)| <= |s| && Trim(s) == s[i..i + |Trim(s)|]
  {
    TrimEndCutsWhiteSpace(TrimStart(s));
    BlockOf(s, TrimStart(s), Trim(s));
  }

  /** Everything trimming cuts off on either side of that block is white
      space. */
  lemma TrimCutsWhiteSpace(s: string)
    ensures var i := |s| - |TrimStart(s)|;
            && (forall k :: 0 <= k < i ==> IsWhiteSpace(s[k]))
            && (forall k :: i + |Trim(s)| <= k < |s| ==> IsWhiteSpace(s[k]))
  {
    TrimStartCutsWhiteSpace(s);
    TrimEndCutsWhiteSpace(TrimStart(s));
    BlockOf(s, TrimStart(s), Trim(s));
  }

  /** A prefix `t` of a suffix `a` of `s` is a block of `s`, and white space
      after `t` in `a` is white space after that block in `s`. */
  lemma BlockOf(s: string, a: string, t: string)
    requires |a| <= |s| && a == s[|s| - |a|..]
    requires |t| <= |a| && t == a[..|t|]
    requires forall k :: |t| <= k < |a| ==> IsWhiteSpace(a[k])
    ensures var i := |s| - |a|;
            && t == s[i..i + |t|]
            && forall k :: i + |t| <= k < |s| ==> IsWhiteSpace(s[k])
  {
    var i := |s| - |a|;
    forall k | i + |t| <= k < |s| ensures IsWhiteSpace(s[k]) {
      assert s[k] == a[k - i];
    }
  }

  /** Trimming leaves nothing exactly when `s` is all white space (or empty). */
  lemma TrimEmptyIff(s: string)
    ensures Trim(s) == [] <==> forall k :: 0 <= k < |s| ==> IsWhiteSpace(s[k])
  {
    var a := TrimStart(s);
    TrimStartCutsWhiteSpace(s);
    TrimEndCutsWhiteSpace(a);
    if a != [] {
      assert !IsWhiteSpace(s[|s| - |a|]);
    }
  }
}
