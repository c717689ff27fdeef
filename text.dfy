/** The string operations the services use from the JavaScript runtime:
    `toLowerCase`, `includes`, `split`, `join`, `charAt(0).toUpperCase()` and
    `toFixed(1)`. Case mapping covers ASCII letters only. */
module Text {

  function LowerChar(c: char): (d: char)
    ensures 'A' <= c <= 'Z' ==> d as int == c as int + 32
    ensures !('A' <= c <= 'Z') ==> d == c
  {
    if 'A' <= c <= 'Z' then (c as int + 32) as char else c
  }

  function UpperChar(c: char): (d: char)
    ensures 'a' <= c <= 'z' ==> d as int == c as int - 32
    ensures !('a' <= c <= 'z') ==> d == c
  {
    if 'a' <= c <= 'z' then (c as int - 32) as char else c
  }

  /** `s.toLowerCase()`: same length, each character lower-cased. */
  function ToLower(s: string): (r: string)
    ensures |r| == |s|
    ensures forall i :: 0 <= i < |s| ==> r[i] == LowerChar(s[i])
  {
    seq(|s|, i requires 0 <= i < |s| => LowerChar(s[i]))
  }

  lemma ToLowerIdempotent(s: string)
    ensures ToLower(ToLower(s)) == ToLower(s)
  {
  }

  lemma ToLowerAppend(a: string, b: string)
    ensures ToLower(a + b) == ToLower(a) + ToLower(b)
  {
  }

  /** `s.includes(t)`: `t` occurs in `s` as a contiguous block. */
  predicate Contains(s: string, t: string) {
    exists i :: 0 <= i <= |s| - |t| && OccursAt(s, t, i)
  }

  /** `t` occurs in `s` starting at position `i`. */
  predicate OccursAt(s: string, t: string, i: nat) {
    i + |t| <= |s| && s[i..i + |t|] == t
  }

  lemma ContainsEmpty(s: string)
    ensures Contains(s, "")
  {
    assert OccursAt(s, "", 0);
  }

  lemma ContainsSelf(s: string)
    ensures Contains(s, s)
  {
    assert OccursAt(s, s, 0);
  }

  lemma ContainsInLeft(a: string, b: string, t: string)
    requires Contains(a, t)
    ensures Contains(a + b, t)
  {
    var i :| 0 <= i <= |a| - |t| && OccursAt(a, t, i);
    assert (a + b)[i..i + |t|] == a[i..i + |t|];
    assert OccursAt(a + b, t, i);
  }

  lemma ContainsInRight(a: string, b: string, t: string)
    requires Contains(b, t)
    ensures Contains(a + b, t)
  {
    var i :| 0 <= i <= |b| - |t| && OccursAt(b, t, i);
    assert (a + b)[|a| + i..|a| + i + |t|] == b[i..i + |t|];
    assert OccursAt(a + b, t, |a| + i);
  }

  /** A string contained in a string shorter than itself is impossible. */
  lemma ContainsLength(s: string, t: string)
    requires Contains(s, t)
    ensures |t| <= |s|
  {
  }

  /** JavaScript's `\s` class: ASCII and Unicode white space and line terminators. */
  predicate IsSpace(c: char) {
    c == ' ' || c == '\t' || c == '\n' || c == '\r' || c as int == 0x0B || c as int == 0x0C
    || c as int == 0xA0 || c as int == 0x1680 || (0x2000 <= c as int <= 0x200A)
    || c as int == 0x2028 || c as int == 0x2029 || c as int == 0x202F
    || c as int == 0x205F || c as int == 0x3000 || c as int == 0xFEFF
  }

  predicate IsDigit(c: char) {
    '0' <= c <= '9'
  }

  /** `s.split(sep)` for a one-character separator class: the pieces between
      separators, empty pieces included; there is always at least one piece. */
  function Split(s: string, isSep: char -> bool): (r: seq<string>)
    ensures |r| >= 1
    decreases |s|
  {
    if s == [] then [""]
    else
      var rest := Split(s[1..], isSep);
      if isSep(s[0]) then [""] + rest
      else [[s[0]] + rest[0]] + rest[1..]
  }

  /** No piece of a split holds a separator. */
  lemma {:induction false} SplitPiecesFree(s: string, isSep: char -> bool)
    ensures forall k, i :: 0 <= k < |Split(s, isSep)| && 0 <= i < |Split(s, isSep)[k]| ==> !isSep(Split(s, isSep)[k][i])
    decreases |s|
  {
    if s != [] {
      SplitPiecesFree(s[1..], isSep);
      var rest := Split(s[1..], isSep);
      if !isSep(s[0]) {
        var r := Split(s, isSep);
        forall k, i | 0 <= k < |r| && 0 <= i < |r[k]|
          ensures !isSep(r[k][i])
        {
          if k == 0 && i > 0 {
            assert r[0][i] == rest[0][i - 1];
          } else if k > 0 {
            assert r[k] == rest[k];
          }
        }
      }
    }
  }

  /** The first piece of a split is the longest separator-free prefix. */
  lemma {:induction false} SplitFirst(s: string, isSep: char -> bool)
    ensures |Split(s, isSep)[0]| <= |s|
    ensures Split(s, isSep)[0] == s[..|Split(s, isSep)[0]|]
    ensures |Split(s, isSep)[0]| < |s| ==> isSep(s[|Split(s, isSep)[0]|])
    ensures forall i :: 0 <= i < |Split(s, isSep)[0]| ==> !isSep(s[i])
    decreases |s|
  {
    if s != [] && !isSep(s[0]) {
      SplitFirst(s[1..], isSep);
    }
  }

  /** `s[i..j]` is a whole piece of `s` between separators: nothing in it is
      a separator, and it is bounded by a separator or an end on each side. */
  predicate MaximalRun(s: string, isSep: char -> bool, i: int, j: int) {
    0 <= i <= j <= |s|
    && (i == 0 || isSep(s[i - 1]))
    && (j == |s| || isSep(s[j]))
    && forall k :: i <= k < j ==> !isSep(s[k])
  }

  /** Every piece between separators is one of the pieces of the split; one
      that does not start the text is not the first piece. */
  lemma {:induction false} SplitHasRun(s: string, isSep: char -> bool, i: int, j: int)
    requires MaximalRun(s, isSep, i, j)
    ensures i == 0 ==> Split(s, isSep)[0] == s[..j]
    ensures i > 0 ==> exists k :: 1 <= k < |Split(s, isSep)| && Split(s, isSep)[k] == s[i..j]
    decreases |s|
  {
    if i == 0 {
      SplitFirstRun(s, isSep, j);
    } else {
      RunTail(s, isSep, i, j);
      SplitHasRun(s[1..], isSep, i - 1, j - 1);
      SplitRunStep(s, isSep, i, j);
    }
  }

  /** Dropping the first character moves a later piece one place left. */
  lemma RunTail(s: string, isSep: char -> bool, i: int, j: int)
    requires MaximalRun(s, isSep, i, j) && i > 0
    ensures MaximalRun(s[1..], isSep, i - 1, j - 1)
    ensures s[1..][i - 1..j - 1] == s[i..j]
    ensures i == 1 ==> s[1..][..j - 1] == s[i..j]
  {
  }

  /** A later piece among the pieces of the tail is a later piece of the text. */
  lemma SplitRunStep(s: string, isSep: char -> bool, i: int, j: int)
    requires MaximalRun(s, isSep, i, j) && i > 0
    requires i == 1 ==> Split(s[1..], isSep)[0] == s[i..j]
    requires i > 1 ==> exists k :: 1 <= k < |Split(s[1..], isSep)| && Split(s[1..], isSep)[k] == s[i..j]
    ensures exists k :: 1 <= k < |Split(s, isSep)| && Split(s, isSep)[k] == s[i..j]
  {
    var r := Split(s, isSep);
    var rest := Split(s[1..], isSep);
    if i == 1 {
      assert r == [""] + rest;
      assert r[1] == rest[0];
    } else {
      var k :| 1 <= k < |rest| && rest[k] == s[i..j];
      if isSep(s[0]) {
        assert r[k + 1] == rest[k];
      } else {
        assert r[k] == rest[k];
      }
    }
  }

  /** A piece that starts the text is the first piece of the split. */
  lemma SplitFirstRun(s: string, isSep: char -> bool, j: int)
    requires MaximalRun(s, isSep, 0, j)
    ensures Split(s, isSep)[0] == s[..j]
  {
    SplitFirst(s, isSep);
  }

  /** Every piece between separators occurs among the split's pieces. */
  lemma SplitRuns(s: string, isSep: char -> bool)
    ensures forall i, j :: MaximalRun(s, isSep, i, j) ==> s[i..j] in Split(s, isSep)
  {
    forall i, j | MaximalRun(s, isSep, i, j)
      ensures s[i..j] in Split(s, isSep)
    {
      SplitHasRun(s, isSep, i, j);
      if i == 0 {
        assert s[i..j] == s[..j];
      }
    }
  }

  /** Each piece of the split is a whole piece of `s` between separators;
      only the first one starts the text. */
  lemma {:induction false} SplitPieceRun(s: string, isSep: char -> bool, k: int)
    requires 0 <= k < |Split(s, isSep)|
    ensures exists i, j :: MaximalRun(s, isSep, i, j) && Split(s, isSep)[k] == s[i..j] && (k > 0 ==> i > 0)
    decreases |s|
  {
    var r := Split(s, isSep);
    if k == 0 {
      SplitFirst(s, isSep);
      var j := |r[0]|;
      assert MaximalRun(s, isSep, 0, j) && r[0] == s[0..j];
    } else {
      var rest := Split(s[1..], isSep);
      var k' := if isSep(s[0]) then k - 1 else k;
      assert r[k] == rest[k'];
      SplitPieceRun(s[1..], isSep, k');
      var i', j' :| MaximalRun(s[1..], isSep, i', j') && rest[k'] == s[1..][i'..j'] && (k' > 0 ==> i' > 0);
      RunHead(s, isSep, i', j');
    }
  }

  /** A piece of the tail is a piece of the text one place further on. */
  lemma RunHead(s: string, isSep: char -> bool, i: int, j: int)
    requires s != [] && MaximalRun(s[1..], isSep, i, j) && (i == 0 ==> isSep(s[0]))
    ensures MaximalRun(s, isSep, i + 1, j + 1) && s[1..][i..j] == s[i + 1..j + 1]
  {
  }

  /** Every piece of the split is a piece of `s` between separators. */
  lemma SplitPieces(s: string, isSep: char -> bool)
    ensures forall w :: w in Split(s, isSep) ==> exists i, j :: MaximalRun(s, isSep, i, j) && s[i..j] == w
  {
    var r := Split(s, isSep);
    forall w | w in r
      ensures exists i, j :: MaximalRun(s, isSep, i, j) && s[i..j] == w
    {
      var k :| 0 <= k < |r| && r[k] == w;
      SplitPieceRun(s, isSep, k);
    }
  }

  /** Splitting at a single character and joining with it gives the text back. */
  lemma {:induction false} SplitJoin(s: string, isSep: char -> bool, c: char)
    requires forall x :: isSep(x) <==> x == c
    ensures Join(Split(s, isSep), [c]) == s
    decreases |s|
  {
    if s != [] {
      var rest := Split(s[1..], isSep);
      SplitJoin(s[1..], isSep, c);
      if isSep(s[0]) {
        JoinEmptyFirst(rest, [c]);
      } else {
        JoinExtendFirst(s[0], rest, [c]);
      }
      assert s == [s[0]] + s[1..];
    }
  }

  lemma JoinEmptyFirst(rest: seq<string>, sep: string)
    requires |rest| >= 1
    ensures Join([""] + rest, sep) == sep + Join(rest, sep)
  {
    assert ([""] + rest)[1..] == rest;
  }

  lemma JoinExtendFirst(x: char, rest: seq<string>, sep: string)
    requires |rest| >= 1
    ensures Join([[x] + rest[0]] + rest[1..], sep) == [x] + Join(rest, sep)
  {
    var r := [[x] + rest[0]] + rest[1..];
    if |rest| > 1 {
      assert r[1..] == rest[1..];
      assert Join(r, sep) == ([x] + rest[0]) + sep + Join(rest[1..], sep);
    }
  }

  /** `parts.join(sep)`. */
  function Join(parts: seq<string>, sep: string): (r: string)
    ensures parts == [] ==> r == ""
    ensures |parts| == 1 ==> r == parts[0]
  {
    if parts == [] then ""
    else if |parts| == 1 then parts[0]
    else parts[0] + sep + Join(parts[1..], sep)
  }

  /** `s.charAt(0).toUpperCase() + s.slice(1)`. */
  function Capitalize(s: string): (r: string)
    ensures |r| == |s|
    ensures s != "" ==> r[0] == UpperChar(s[0]) && r[1..] == s[1..]
  {
    if s == "" then "" else [UpperChar(s[0])] + s[1..]
  }

  function DigitChar(d: nat): char
    requires d < 10
  {
    ('0' as int + d) as char
  }

  /** The decimal numeral of `n`, as `String(n)` writes an integer. */
  function NatToString(n: nat): (r: string)
    ensures |r| >= 1
    ensures forall i :: 0 <= i < |r| ==> IsDigit(r[i])
    decreases n
  {
    if n < 10 then [DigitChar(n)] else NatToString(n / 10) + [DigitChar(n % 10)]
  }

  /** The value of a run of decimal digits, as `parseInt(s, 10)` reads it. */
  function DigitsValue(s: string): nat
    requires forall i :: 0 <= i < |s| ==> IsDigit(s[i])
    decreases |s|
  {
    if s == [] then 0
    else
      assert IsDigit(s[|s| - 1]);
      DigitsValue(s[..|s| - 1]) * 10 + (s[|s| - 1] as int - '0' as int)
  }

  /** `x.toFixed(1)`: one decimal place, halves rounded away from zero. */
  function Fixed1(x: real): string {
    var m := if x < 0.0 then -x else x;
    var t: nat := (m * 10.0 + 0.5).Floor;
    (if x < 0.0 then "-" else "") + NatToString(t / 10) + "." + [DigitChar(t % 10)]
  }
}
