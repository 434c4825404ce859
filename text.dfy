/**
 * The string operations of JavaScript that the bot relies on, written out on
 * `seq<char>`: digit extraction (`match(/\d+/g)?.join('')`), `trim`, `includes`,
 * `replace` with a string pattern, `toLocaleLowerCase`, `split` on one
 * character, `join`, decimal rendering of integers and `parseInt`.
 */
module Text {
  import opened Wrappers

  predicate IsDigit(c: char) {
    '0' <= c <= '9'
  }

  /** The digits of `s`, in order. */
  function Digits(s: string): (r: string)
    ensures |r| <= |s|
    ensures forall i :: 0 <= i < |r| ==> IsDigit(r[i])
  {
    if s == [] then [] else (if IsDigit(s[0]) then [s[0]] else []) + Digits(s[1..])
  }

  lemma {:induction false} DigitsAppend(a: string, b: string)
    ensures Digits(a + b) == Digits(a) + Digits(b)
    decreases |a|
  {
    if a == [] {
      assert a + b == b;
    } else {
      assert (a + b)[1..] == a[1..] + b;
      DigitsAppend(a[1..], b);
    }
  }

  lemma {:induction false} DigitsOfDigits(s: string)
    requires forall i :: 0 <= i < |s| ==> IsDigit(s[i])
    ensures Digits(s) == s
    decreases |s|
  {
    if s != [] {
      DigitsOfDigits(s[1..]);
    }
  }

  /** The length of the run of digits that starts `s`. */
  function DigitPrefix(s: string): (k: nat)
    ensures k <= |s|
    ensures forall i :: 0 <= i < k ==> IsDigit(s[i])
    ensures k < |s| ==> !IsDigit(s[k])
  {
    if s != [] && IsDigit(s[0]) then 1 + DigitPrefix(s[1..]) else 0
  }

  /** The matches of the global pattern `/\d+/g`: the maximal runs of digits, left to right. */
  function DigitRuns(s: string): (runs: seq<string>)
    ensures forall k :: 0 <= k < |runs| ==> runs[k] != []
    decreases |s|
  {
    if s == [] then []
    else if !IsDigit(s[0]) then DigitRuns(s[1..])
    else
      var k := DigitPrefix(s);
      [s[..k]] + DigitRuns(s[k..])
  }

  /** `parts.join(sep)`. */
  function Join(parts: seq<string>, sep: string): string {
    if parts == [] then ""
    else if |parts| == 1 then parts[0]
    else parts[0] + sep + Join(parts[1..], sep)
  }

  lemma JoinConsEmpty(p: string, rest: seq<string>)
    ensures Join([p] + rest, "") == p + Join(rest, "")
  {
    if rest == [] {
      assert [p] + rest == [p];
    } else {
      assert ([p] + rest)[1..] == rest;
    }
  }

  /** `s.match(/\d+/g)?.join('')`: no match gives `undefined` (here `None`). */
  function MatchDigits(s: string): Option<string> {
    var runs := DigitRuns(s);
    if runs == [] then None else Some(Join(runs, ""))
  }

  lemma {:induction false} RunsJoinToDigits(s: string)
    ensures Join(DigitRuns(s), "") == Digits(s)
    ensures DigitRuns(s) == [] <==> Digits(s) == []
    decreases |s|
  {
    if s == [] {
    } else if !IsDigit(s[0]) {
      RunsJoinToDigits(s[1..]);
    } else {
      var k := DigitPrefix(s);
      RunsJoinToDigits(s[k..]);
      JoinConsEmpty(s[..k], DigitRuns(s[k..]));
      assert s == s[..k] + s[k..];
      DigitsAppend(s[..k], s[k..]);
      DigitsOfDigits(s[..k]);
    }
  }

  /** Joining the digit runs is the same as keeping every digit; no digit at all gives `None`. */
  lemma MatchDigitsIsDigits(s: string)
    ensures MatchDigits(s) == (if Digits(s) == [] then None else Some(Digits(s)))
  {
    RunsJoinToDigits(s);
  }

  /** The characters `String.prototype.trim` removes (WhiteSpace and LineTerminator of ECMA-262). */
  predicate IsJsSpace(c: char) {
    var n := c as int;
    (9 <= n <= 13) || n == 32 || n == 0xA0 || n == 0x1680 || (0x2000 <= n <= 0x200A)
    || n == 0x2028 || n == 0x2029 || n == 0x202F || n == 0x205F || n == 0x3000 || n == 0xFEFF
  }

  function TrimStart(s: string): string {
    if s != [] && IsJsSpace(s[0]) then TrimStart(s[1..]) else s
  }

  function TrimEnd(s: string): string {
    if s != [] && IsJsSpace(s[|s| - 1]) then TrimEnd(s[..|s| - 1]) else s
  }

  function Trim(s: string): string {
    TrimEnd(TrimStart(s))
  }

  predicate Blank(s: string) {
    forall i :: 0 <= i < |s| ==> IsJsSpace(s[i])
  }

  lemma {:induction false} TrimStartEmpty(s: string)
    ensures TrimStart(s) == [] <==> Blank(s)
    decreases |s|
  {
    if s != [] && IsJsSpace(s[0]) {
      TrimStartEmpty(s[1..]);
      if Blank(s[1..]) {
        forall i | 0 <= i < |s| ensures IsJsSpace(s[i]) {
          if i > 0 {
            assert s[i] == s[1..][i - 1];
          }
        }
      }
    }
  }

  lemma {:induction false} TrimEndKeepsNonEmpty(s: string)
    requires s != [] && !IsJsSpace(s[0])
    ensures TrimEnd(s) != []
    decreases |s|
  {
    if IsJsSpace(s[|s| - 1]) {
      TrimEndKeepsNonEmpty(s[..|s| - 1]);
    }
  }

  /** `s.trim() === ''` exactly when every character of `s` is white space. */
  lemma TrimEmptyIffBlank(s: string)
    ensures Trim(s) == [] <==> Blank(s)
  {
    TrimStartEmpty(s);
    var t := TrimStart(s);
    if t != [] {
      TrimStartShape(s);
      TrimEndKeepsNonEmpty(t);
    }
  }

  lemma {:induction false} TrimStartShape(s: string)
    ensures TrimStart(s) != [] ==> !IsJsSpace(TrimStart(s)[0])
    decreases |s|
  {
    if s != [] && IsJsSpace(s[0]) {
      TrimStartShape(s[1..]);
    }
  }

  /** `sub` occurs in `s` starting at index `i`. */
  predicate OccursAt(s: string, sub: string, i: int) {
    0 <= i && i + |sub| <= |s| && s[i..i + |sub|] == sub
  }

  /** `s.includes(sub)`. */
  predicate Contains(s: string, sub: string) {
    exists i | 0 <= i <= |s| :: OccursAt(s, sub, i)
  }

  lemma ShiftOccurrence(s: string, sub: string, i: int)
    requires s != [] && i >= 0
    ensures OccursAt(s, sub, i + 1) <==> OccursAt(s[1..], sub, i)
  {
    if 0 <= i && i + 1 + |sub| <= |s| {
      assert s[i + 1..i + 1 + |sub|] == s[1..][i..i + |sub|];
    }
  }

  /** `s.indexOf(sub)`, with -1 as `None`. */
  function IndexOf(s: string, sub: string): (r: Option<nat>)
    ensures r.Some? ==> OccursAt(s, sub, r.value)
    ensures r.Some? ==> forall j :: 0 <= j < r.value ==> !OccursAt(s, sub, j)
    ensures r.None? <==> !Contains(s, sub)
    decreases |s|
  {
    if |sub| > |s| then None
    else if s[..|sub|] == sub then
      assert OccursAt(s, sub, 0);
      Some(0)
    else
      match IndexOf(s[1..], sub)
      case None =>
        assert forall i | 0 <= i <= |s| :: !OccursAt(s, sub, i) by {
          forall i | 1 <= i <= |s| ensures !OccursAt(s, sub, i) {
            ShiftOccurrence(s, sub, i - 1);
          }
        }
        None
      case Some(i) =>
        ShiftOccurrence(s, sub, i);
        assert forall j :: 1 <= j < i + 1 ==> !OccursAt(s, sub, j) by {
          forall j | 1 <= j < i + 1 ensures !OccursAt(s, sub, j) {
            ShiftOccurrence(s, sub, j - 1);
          }
        }
        Some(i + 1)
  }

  /** `s.replace(pattern, replacement)` with a string pattern: only the first occurrence changes. */
  function ReplaceFirst(s: string, pattern: string, replacement: string): (r: string)
    ensures !Contains(s, pattern) ==> r == s
    ensures Contains(s, pattern) ==>
              exists i :: OccursAt(s, pattern, i)
                && (forall j :: 0 <= j < i ==> !OccursAt(s, pattern, j))
                && r == s[..i] + replacement + s[i + |pattern|..]
  {
    match IndexOf(s, pattern)
    case None => s
    case Some(i) => s[..i] + replacement + s[i + |pattern|..]
  }

  // --- toLocaleLowerCase for the Latin and Cyrillic letters the bot's keywords use ---

  function LowerChar(c: char): (d: char)
    ensures ('A' <= c <= 'Z') ==> d as int == c as int + 32
    ensures (0x410 <= c as int <= 0x42F) ==> d as int == c as int + 0x20
    ensures (0x400 <= c as int <= 0x40F) ==> d as int == c as int + 0x50
  {
    var n := c as int;
    if 'A' <= c <= 'Z' then (n + 32) as char
    else if 0x410 <= n <= 0x42F then (n + 0x20) as char
    else if 0x400 <= n <= 0x40F then (n + 0x50) as char
    else c
  }

  function Lower(s: string): (r: string)
    ensures |r| == |s|
    ensures forall i :: 0 <= i < |s| ==> r[i] == LowerChar(s[i])
    ensures forall i :: 0 <= i < |r| ==> !('A' <= r[i] <= 'Z') && !(0x400 <= r[i] as int <= 0x42F)
    ensures forall i :: 0 <= i < |s| && !('A' <= s[i] <= 'Z') && !(0x400 <= s[i] as int <= 0x42F) ==> r[i] == s[i]
  {
    seq(|s|, i requires 0 <= i < |s| => LowerChar(s[i]))
  }

  /** Lower-casing twice changes nothing more. */
  lemma LowerIdempotent(s: string)
    ensures Lower(Lower(s)) == Lower(s)
  {
    forall i | 0 <= i < |s| ensures LowerChar(LowerChar(s[i])) == LowerChar(s[i]) {
    }
  }

  // --- split and join on one separator character ---

  /** `s.split(sep)` for a one-character separator. */
  function Split(s: string, sep: char): (parts: seq<string>)
    ensures |parts| >= 1
    ensures forall k :: 0 <= k < |parts| ==> sep !in parts[k]
    decreases |s|
  {
    if s == [] then [""]
    else
      var rest := Split(s[1..], sep);
      if s[0] == sep then [""] + rest else [[s[0]] + rest[0]] + rest[1..]
  }

  lemma JoinCons(p: string, rest: seq<string>, sep: string)
    requires rest != []
    ensures Join([p] + rest, sep) == p + sep + Join(rest, sep)
  {
    assert ([p] + rest)[1..] == rest;
  }

  /** `s.split(sep).join(sep) === s`. */
  lemma {:induction false} JoinSplit(s: string, sep: char)
    ensures Join(Split(s, sep), [sep]) == s
    decreases |s|
  {
    if s != [] {
      var rest := Split(s[1..], sep);
      JoinSplit(s[1..], sep);
      if s[0] == sep {
        JoinCons("", rest, [sep]);
      } else {
        var head := [s[0]] + rest[0];
        if |rest| == 1 {
        } else {
          JoinCons(head, rest[1..], [sep]);
          JoinCons(rest[0], rest[1..], [sep]);
          assert [rest[0]] + rest[1..] == rest;
        }
      }
    }
  }

  /** Splitting a join of separator-free parts gives the parts back. */
  lemma {:induction false} SplitJoin(parts: seq<string>, sep: char)
    requires |parts| >= 1
    requires forall k :: 0 <= k < |parts| ==> sep !in parts[k]
    ensures Split(Join(parts, [sep]), sep) == parts
    decreases |parts|, |parts[0]|
  {
    var p := parts[0];
    if p == [] {
      if |parts| == 1 {
      } else {
        JoinCons(p, parts[1..], [sep]);
        var j := Join(parts, [sep]);
        assert j == [sep] + Join(parts[1..], [sep]);
        assert j[1..] == Join(parts[1..], [sep]);
        SplitJoin(parts[1..], sep);
        assert [""] + parts[1..] == parts;
      }
    } else {
      var shorter := [p[1..]] + parts[1..];
      forall k | 0 <= k < |shorter| ensures sep !in shorter[k] {
        if k == 0 {
          assert forall c :: c in p[1..] ==> c in p;
        } else {
          assert shorter[k] == parts[k];
        }
      }
      SplitJoin(shorter, sep);
      var j := Join(parts, [sep]);
      if |parts| == 1 {
        assert j == p;
        assert Join(shorter, [sep]) == p[1..];
      } else {
        JoinCons(p, parts[1..], [sep]);
        JoinCons(p[1..], parts[1..], [sep]);
        assert j == [p[0]] + Join(shorter, [sep]);
      }
      assert j[0] == p[0] && j[1..] == Join(shorter, [sep]);
      assert p[0] in p;
      assert [p[0]] + p[1..] == p;
      assert [[p[0]] + p[1..]] + parts[1..] == parts;
    }
  }

  /** A string without the separator splits into itself alone. */
  lemma {:induction false} SplitWithoutSeparator(s: string, sep: char)
    requires sep !in s
    ensures Split(s, sep) == [s]
    decreases |s|
  {
    if s != [] {
      assert forall c :: c in s[1..] ==> c in s;
      SplitWithoutSeparator(s[1..], sep);
      assert s[0] in s;
      assert [s[0]] + s[1..] == s;
    }
  }

  /** The first part of `x + sep + y` is `x` when `x` has no separator. */
  lemma {:induction false} SplitFirstPart(x: string, sep: char, y: string)
    requires sep !in x
    ensures Split(x + [sep] + y, sep)[0] == x
    decreases |x|
  {
    var s := x + [sep] + y;
    if x == [] {
      assert s[0] == sep;
    } else {
      assert s[1..] == x[1..] + [sep] + y;
      assert forall c :: c in x[1..] ==> c in x;
      SplitFirstPart(x[1..], sep, y);
      assert x[0] in x;
      assert [x[0]] + x[1..] == x;
    }
  }

  /** Destructuring `const [a, b, c] = parts`: a missing element is `undefined`, which renders as "undefined". */
  function PartOrUndefined(parts: seq<string>, i: nat): string {
    if i < |parts| then parts[i] else "undefined"
  }

  function StartsWith(s: string, prefix: string): bool {
    |prefix| <= |s| && s[..|prefix|] == prefix
  }

  // --- numbers as text ---

  function DigitChar(d: nat): char
    requires d < 10
  {
    ('0' as int + d) as char
  }

  /** The decimal rendering of a natural number, as `String(n)` gives it. */
  function NatToString(n: nat): (r: string)
    ensures r != []
    ensures forall i :: 0 <= i < |r| ==> IsDigit(r[i])
    decreases n
  {
    if n < 10 then [DigitChar(n)] else NatToString(n / 10) + [DigitChar(n % 10)]
  }

  function IntToString(n: int): string {
    if n < 0 then "-" + NatToString(-n) else NatToString(n)
  }

  function DigitValue(c: char): nat
    requires IsDigit(c)
  {
    c as int - '0' as int
  }

  /** The value of a non-empty string of decimal digits. */
  function DigitsValue(s: string): nat
    requires forall i :: 0 <= i < |s| ==> IsDigit(s[i])
    decreases |s|
  {
    if s == [] then 0 else DigitsValue(s[..|s| - 1]) * 10 + DigitValue(s[|s| - 1])
  }

  /** Reading back a rendered natural number gives the number. */
  lemma {:induction false} DigitsValueOfNat(n: nat)
    ensures DigitsValue(NatToString(n)) == n
    decreases n
  {
    if n >= 10 {
      var s := NatToString(n);
      assert s[..|s| - 1] == NatToString(n / 10);
      DigitsValueOfNat(n / 10);
    }
  }

  /** `parseInt(s)` in base ten: leading white space, an optional sign, then the longest run of digits; no digit is NaN (`None`). */
  function ParseInt(s: string): Option<int> {
    var t := TrimStart(s);
    var neg := t != [] && t[0] == '-';
    var u := if t != [] && (t[0] == '-' || t[0] == '+') then t[1..] else t;
    var k := DigitPrefix(u);
    if k == 0 then None
    else Some(if neg then -(DigitsValue(u[..k]) as int) else DigitsValue(u[..k]))
  }

  /** `parseInt(String(n))` is `n` for every integer. */
  lemma ParseIntOfInt(n: int)
    ensures ParseInt(IntToString(n)) == Some(n)
  {
    var m: nat := if n < 0 then -n else n;
    var d := NatToString(m);
    DigitPrefixAll(d);
    assert d[..|d|] == d;
    DigitsValueOfNat(m);
    if n < 0 {
      var s := "-" + d;
      assert s[0] == '-' && s[1..] == d;
      assert TrimStart(s) == s;
    } else {
      assert IsDigit(d[0]);
      assert TrimStart(d) == d;
    }
  }

  lemma {:induction false} DigitPrefixAll(s: string)
    requires forall i :: 0 <= i < |s| ==> IsDigit(s[i])
    ensures DigitPrefix(s) == |s|
    decreases |s|
  {
    if s != [] {
      DigitPrefixAll(s[1..]);
    }
  }
}
