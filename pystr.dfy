/**
 * The Python string operations the core relies on, over `seq<char>`:
 * `str.rfind`, `str.split(sep)`, `str.strip()`, `str.endswith`,
 * `os.path.splitext` (POSIX flavour) and `str(n)` for a natural number.
 */
module PyStr {

  /** The characters for which Python's `str.isspace()` holds. */
  predicate IsSpace(c: char) {
    c == ' ' || ('\t' <= c <= '\r') || ('\U{1c}' <= c <= '\U{1f}')
    || c == '\U{85}' || c == '\U{a0}' || c == '\U{1680}'
    || ('\U{2000}' <= c <= '\U{200a}') || c == '\U{2028}' || c == '\U{2029}'
    || c == '\U{202f}' || c == '\U{205f}' || c == '\U{3000}'
  }

  /** `s.rstrip()`: drop trailing whitespace. */
  function RStrip(s: string): string
  {
    if s != [] && IsSpace(s[|s| - 1]) then RStrip(s[..|s| - 1]) else s
  }

  /**
   * `rstrip` keeps a prefix that is empty or ends in a non-space, and
   * everything it drops is whitespace.
   */
  lemma {:induction false} RStripSpec(s: string)
    ensures RStrip(s) <= s
    ensures RStrip(s) == [] || !IsSpace(RStrip(s)[|RStrip(s)| - 1])
    ensures forall k :: |RStrip(s)| <= k < |s| ==> IsSpace(s[k])
  {
    if s != [] && IsSpace(s[|s| - 1]) {
      RStripSpec(s[..|s| - 1]);
    }
  }

  /** `s.lstrip()`: drop leading whitespace. */
  function LStrip(s: string): string
  {
    if s != [] && IsSpace(s[0]) then LStrip(s[1..]) else s
  }

  /**
   * `lstrip` keeps a suffix that is empty or starts with a non-space, and
   * everything it drops is whitespace.
   */
  lemma {:induction false} LStripSpec(s: string)
    ensures |LStrip(s)| <= |s| && LStrip(s) == s[|s| - |LStrip(s)|..]
    ensures LStrip(s) == [] || !IsSpace(LStrip(s)[0])
    ensures forall k :: 0 <= k < |s| - |LStrip(s)| ==> IsSpace(s[k])
  {
    if s != [] && IsSpace(s[0]) {
      var t := s[1..];
      LStripSpec(t);
      var l := LStrip(t);
      assert LStrip(s) == l;
      assert s[|s| - |l|..] == t[|t| - |l|..];
      forall k | 0 <= k < |s| - |l| ensures IsSpace(s[k]) {
        if k > 0 {
          assert s[k] == t[k - 1];
        }
      }
    }
  }

  /** `s.strip()`. */
  function Strip(s: string): string
  {
    LStrip(RStrip(s))
  }

  /**
   * Stripping `p + q`, where `p` begins and ends with a non-space, keeps
   * all of `p` and strips only the tail of `q`.
   */
  lemma {:induction false} StripAfterSolidPrefix(p: string, q: string)
    requires p != [] && !IsSpace(p[0]) && !IsSpace(p[|p| - 1])
    ensures Strip(p + q) == p + RStrip(q)
  {
    RStripAfterSolidPrefix(p, q);
    var r := p + RStrip(q);
    assert r[0] == p[0];
  }

  lemma {:induction false} RStripAfterSolidPrefix(p: string, q: string)
    requires p != [] && !IsSpace(p[|p| - 1])
    ensures RStrip(p + q) == p + RStrip(q)
  {
    if q == [] {
      assert p + q == p;
    } else {
      var q' := q[..|q| - 1];
      assert (p + q)[..|p + q| - 1] == p + q';
      if IsSpace(q[|q| - 1]) {
        RStripAfterSolidPrefix(p, q');
      }
    }
  }

  /**
   * `s.rfind(c)`: the index of the last occurrence of `c`, or -1 when `c`
   * does not occur.
   */
  function RFind(s: string, c: char): (r: int)
    ensures -1 <= r < |s|
    ensures r >= 0 ==> s[r] == c
    ensures forall k :: r < k < |s| ==> s[k] != c
  {
    if s == [] then -1
    else if s[|s| - 1] == c then |s| - 1
    else RFind(s[..|s| - 1], c)
  }

  /**
   * `s.split(c)` for a one-character separator: the pieces between
   * occurrences of `c`, always at least one; the last piece is the text
   * after the last `c`.
   */
  function Split(s: string, c: char): (r: seq<string>)
    ensures |r| >= 1
    ensures r[|r| - 1] == s[RFind(s, c) + 1..]
    decreases |s|
  {
    var d := RFind(s, c);
    if d < 0 then [s] else Split(s[..d], c) + [s[d + 1..]]
  }

  /** `c.join(pieces)`. */
  function Join(pieces: seq<string>, c: char): string
  {
    if pieces == [] then ""
    else if |pieces| == 1 then pieces[0]
    else Join(pieces[..|pieces| - 1], c) + [c] + pieces[|pieces| - 1]
  }

  /** Joining the pieces of a split with the same separator gives back the string. */
  lemma {:induction false} JoinSplit(s: string, c: char)
    ensures Join(Split(s, c), c) == s
    decreases |s|
  {
    var d := RFind(s, c);
    if d >= 0 {
      var init := Split(s[..d], c);
      JoinSplit(s[..d], c);
      var r := init + [s[d + 1..]];
      assert r[..|r| - 1] == init;
      assert s == s[..d] + [c] + s[d + 1..];
    }
  }

  /** No piece of a split contains the separator. */
  predicate PiecesFree(pieces: seq<string>, c: char) {
    forall i, k :: 0 <= i < |pieces| && 0 <= k < |pieces[i]| ==> pieces[i][k] != c
  }

  lemma {:induction false} SplitPiecesAvoidSeparator(s: string, c: char)
    ensures PiecesFree(Split(s, c), c)
    decreases |s|
  {
    var d := RFind(s, c);
    if d < 0 {
      assert Split(s, c) == [s];
      FreePiece([], s, c);
      assert [] + [s] == [s];
    } else {
      SplitPiecesAvoidSeparator(s[..d], c);
      FreePiece(Split(s[..d], c), s[d + 1..], c);
      assert Split(s, c) == Split(s[..d], c) + [s[d + 1..]];
    }
  }

  /** Appending a piece free of `c` to pieces free of `c` keeps them all free. */
  lemma FreePiece(init: seq<string>, last: string, c: char)
    requires PiecesFree(init, c)
    requires forall k :: 0 <= k < |last| ==> last[k] != c
    ensures PiecesFree(init + [last], c)
  {
    var r := init + [last];
    forall i, k | 0 <= i < |r| && 0 <= k < |r[i]| ensures r[i][k] != c {
      if i < |init| {
        assert r[i] == init[i];
      } else {
        assert r[i] == last;
      }
    }
  }

  /** When `c` occurs, the text after its last occurrence holds no `c`, and `s` ends with `c` and that text. */
  lemma TailAfterLast(s: string, c: char)
    requires c in s
    ensures var d := RFind(s, c);
      && 0 <= d && c !in s[d + 1..]
      && s[d..] == [c] + s[d + 1..]
  {
    var d := RFind(s, c);
    assert d >= 0 by {
      var k :| 0 <= k < |s| && s[k] == c;
    }
    var t := s[d + 1..];
    forall j | 0 <= j < |t| ensures t[j] != c {
      assert t[j] == s[d + 1 + j];
    }
  }

  /** The last `c` of `p`, `c`, `e`, where `e` holds no `c`, is the one between them. */
  lemma RFindBeforeFreeTail(p: string, c: char, e: string)
    requires c !in e
    ensures RFind(p + [c] + e, c) == |p|
    ensures (p + [c] + e)[|p| + 1..] == e
  {
    var s := p + [c] + e;
    var r := RFind(s, c);
    assert s[|p|] == c;
    assert r >= |p|;
    assert r <= |p|;
  }

  /** `value.endswith(suffix)`. */
  predicate EndsWith(value: string, suffix: string) {
    |suffix| <= |value| && value[|value| - |suffix|..] == suffix
  }

  /** `endswith` holds exactly when `value` is some text followed by `suffix`. */
  lemma EndsWithIff(value: string, suffix: string)
    ensures EndsWith(value, suffix) <==> exists p :: value == p + suffix
  {
    if EndsWith(value, suffix) {
      var p := value[..|value| - |suffix|];
      assert value == p + suffix;
    }
  }

  /**
   * `os.path.splitext(p)` on POSIX: `(root, ext)` where `ext` runs from the
   * last '.' of the last path component to the end, unless that component
   * has only dots before it (".bashrc" has no extension).
   */
  function SplitExt(p: string): (string, string)
  {
    var sepIndex := RFind(p, '/');
    var dotIndex := RFind(p, '.');
    if dotIndex > sepIndex && HasNonDot(p, sepIndex + 1, dotIndex) then
      (p[..dotIndex], p[dotIndex..])
    else
      (p, "")
  }

  /** Some character of `p[from..to]` is not a '.'. */
  predicate HasNonDot(p: string, from: int, to: int)
    requires 0 <= from && to <= |p|
  {
    exists k :: from <= k < to && p[k] != '.'
  }

  /**
   * `splitext` splits the path into root and extension without losing
   * text. The extension is non-empty exactly when the last '.' lies in the
   * last path component (after the last '/') and some character of that
   * component before it is not a '.'; it then runs from that '.' to the
   * end, so it is one '.' followed by text holding neither '.' nor '/'.
   */
  lemma SplitExtParts(p: string)
    ensures SplitExt(p).0 + SplitExt(p).1 == p
    ensures var sep, dot, ext := RFind(p, '/'), RFind(p, '.'), SplitExt(p).1;
      && (ext != "" <==> dot > sep && exists k :: sep < k < dot && p[k] != '.')
      && (ext != "" ==> ext == p[dot..])
    ensures var ext := SplitExt(p).1;
      ext == "" || (ext[0] == '.' && '.' !in ext[1..] && '/' !in ext)
  {
    var ext := SplitExt(p).1;
    if ext != "" {
      var d := RFind(p, '.');
      assert ext == p[d..];
      forall k | 0 <= k < |ext| ensures ext[k] != '/' && (k > 0 ==> ext[k] != '.') {
        assert ext[k] == p[d + k];
      }
    }
  }

  const Digits: string := "0123456789"

  /** `str(n)` for a natural number: its decimal digits. */
  function NatToString(n: nat): (r: string)
    ensures |r| >= 1
    ensures forall k :: 0 <= k < |r| ==> r[k] in Digits
  {
    if n < 10 then [Digits[n]] else NatToString(n / 10) + [Digits[n % 10]]
  }

  /** The value of a decimal digit character. */
  function DigitValue(c: char): nat {
    if '0' <= c <= '9' then c as int - '0' as int else 0
  }

  /** `int(s)` for a string of decimal digits, most significant first. */
  function DecimalValue(s: string): nat {
    if s == [] then 0 else 10 * DecimalValue(s[..|s| - 1]) + DigitValue(s[|s| - 1])
  }

  lemma DigitsValues(d: nat)
    requires d < 10
    ensures DigitValue(Digits[d]) == d && (d > 0 ==> Digits[d] != '0')
  {
  }

  /**
   * `str(n)` denotes `n`: read back as a decimal number it is `n`, and it
   * has no leading zero unless it is "0".
   */
  lemma {:induction false} NatToStringValue(n: nat)
    ensures DecimalValue(NatToString(n)) == n
    ensures NatToString(n)[0] == '0' ==> n == 0
  {
    var r := NatToString(n);
    if n < 10 {
      DigitsValues(n);
      assert r[..|r| - 1] == [];
    } else {
      NatToStringValue(n / 10);
      DigitsValues(n % 10);
      var head := NatToString(n / 10);
      assert r == head + [Digits[n % 10]];
      assert r[..|r| - 1] == head;
      assert r[0] == head[0];
    }
  }
}
