/** The Python string built-ins the core relies on: `str.split` and `str.join`
    with a one-character separator, `str.replace`, the code-point order `sorted`
    uses on strings, and the literals `float()` accepts. */
module Text {

  /** `s.split(sep)`: never empty, and `"".split(sep) == [""]`. */
  function Split(s: string, sep: char): (parts: seq<string>)
    ensures |parts| >= 1
    ensures forall k :: 0 <= k < |parts| ==> sep !in parts[k]
    decreases |s|
  {
    if |s| == 0 then [""]
    else
      var rest := Split(s[1..], sep);
      if s[0] == sep then [""] + rest
      else [[s[0]] + rest[0]] + rest[1..]
  }

  /** `[sep].join(parts)`. */
  function Join(parts: seq<string>, sep: char): (r: string)
  {
    if |parts| == 0 then ""
    else if |parts| == 1 then parts[0]
    else parts[0] + [sep] + Join(parts[1..], sep)
  }

  lemma JoinCons(x: string, ys: seq<string>, sep: char)
    requires |ys| >= 1
    ensures Join([x] + ys, sep) == x + [sep] + Join(ys, sep)
  {
    assert ([x] + ys)[1..] == ys;
  }

  /** Splitting and joining again gives back the original string. */
  lemma {:induction false} JoinSplit(s: string, sep: char)
    ensures Join(Split(s, sep), sep) == s
    decreases |s|
  {
    if |s| > 0 {
      var rest := Split(s[1..], sep);
      JoinSplit(s[1..], sep);
      assert s == [s[0]] + s[1..];
      if s[0] == sep {
        JoinCons("", rest, sep);
      } else if |rest| == 1 {
        assert Split(s, sep) == [[s[0]] + rest[0]];
      } else {
        JoinCons(rest[0], rest[1..], sep);
        JoinCons([s[0]] + rest[0], rest[1..], sep);
        assert [rest[0]] + rest[1..] == rest;
      }
    }
  }

  lemma {:induction false} SplitWithoutSep(x: string, sep: char)
    requires sep !in x
    ensures Split(x, sep) == [x]
    decreases |x|
  {
    if |x| > 0 {
      SplitWithoutSep(x[1..], sep);
      assert [x[0]] + x[1..] == x;
    }
  }

  lemma {:induction false} SplitAtSep(x: string, y: string, sep: char)
    requires sep !in x
    ensures Split(x + [sep] + y, sep) == [x] + Split(y, sep)
    decreases |x|
  {
    var s := x + [sep] + y;
    if |x| == 0 {
      assert s[1..] == y;
    } else {
      assert s[1..] == x[1..] + [sep] + y;
      SplitAtSep(x[1..], y, sep);
      assert [x[0]] + x[1..] == x;
    }
  }

  /** Joining parts that do not contain the separator and splitting again gives
      back the parts; this is how the collection list survives its trip through
      the comma-joined query parameter. */
  lemma {:induction false} SplitJoin(parts: seq<string>, sep: char)
    requires |parts| >= 1
    requires forall k :: 0 <= k < |parts| ==> sep !in parts[k]
    ensures Split(Join(parts, sep), sep) == parts
    decreases |parts|
  {
    if |parts| == 1 {
      SplitWithoutSep(parts[0], sep);
    } else {
      SplitJoin(parts[1..], sep);
      SplitAtSep(parts[0], Join(parts[1..], sep), sep);
      assert [parts[0]] + parts[1..] == parts;
    }
  }

  /** `s.replace(pat, rep)`: every non-overlapping occurrence, scanning left to right. */
  function ReplaceAll(s: string, pat: string, rep: string): (r: string)
    requires |pat| > 0
    ensures |pat| == |rep| ==> |r| == |s|
    decreases |s|
  {
    if |s| < |pat| then s
    else if s[..|pat|] == pat then rep + ReplaceAll(s[|pat|..], pat, rep)
    else [s[0]] + ReplaceAll(s[1..], pat, rep)
  }

  /** Whether `pat` occurs somewhere in `s`. */
  predicate Occurs(s: string, pat: string)
    decreases |s|
  {
    |s| >= |pat| && (s[..|pat|] == pat || (|s| > 0 && Occurs(s[1..], pat)))
  }

  /** A string in which the pattern does not occur is left unchanged. */
  lemma {:induction false} ReplaceAbsent(s: string, pat: string, rep: string)
    requires |pat| > 0
    requires !Occurs(s, pat)
    ensures ReplaceAll(s, pat, rep) == s
    decreases |s|
  {
    if |s| >= |pat| {
      ReplaceAbsent(s[1..], pat, rep);
      assert [s[0]] + s[1..] == s;
    }
  }

  /** Replacing ".tif" by ".xml" in a name ending in ".tif" turns that ending
      into ".xml": no occurrence can straddle the end, because no proper prefix
      of ".tif" is also a suffix of it. */
  lemma {:induction false} ReplaceTifSuffix(x: string)
    ensures ReplaceAll(x + ".tif", ".tif", ".xml") == ReplaceAll(x, ".tif", ".xml") + ".xml"
    decreases |x|
  {
    var s := x + ".tif";
    if |x| == 0 {
      assert s == ".tif";
      assert s[4..] == "";
    } else if |x| < 4 {
      assert s[..4] != ".tif" by {
        if |x| == 1 { assert s[1] == '.'; }
        else if |x| == 2 { assert s[2] == '.'; }
        else { assert s[3] == '.'; }
      }
      assert s[1..] == x[1..] + ".tif";
      ReplaceTifSuffix(x[1..]);
      assert [x[0]] + x[1..] == x;
    } else if x[..4] == ".tif" {
      assert s[..4] == x[..4];
      assert s[4..] == x[4..] + ".tif";
      ReplaceTifSuffix(x[4..]);
    } else {
      assert s[..4] == x[..4];
      assert s[1..] == x[1..] + ".tif";
      ReplaceTifSuffix(x[1..]);
    }
  }

  /** String order as Python compares `str` values: lexicographic by code point. */
  predicate LexLe(a: string, b: string)
    decreases |a|
  {
    |a| == 0 || (|b| > 0 && (a[0] < b[0] || (a[0] == b[0] && LexLe(a[1..], b[1..]))))
  }

  lemma {:induction false} LexLeTotal(a: string, b: string)
    ensures LexLe(a, b) || LexLe(b, a)
    decreases |a|
  {
    if |a| > 0 && |b| > 0 && a[0] == b[0] {
      LexLeTotal(a[1..], b[1..]);
    }
  }

  lemma {:induction false} LexLeTransitive(a: string, b: string, c: string)
    requires LexLe(a, b) && LexLe(b, c)
    ensures LexLe(a, c)
    decreases |a|
  {
    if |a| > 0 && a[0] == b[0] && b[0] == c[0] {
      LexLeTransitive(a[1..], b[1..], c[1..]);
    }
  }

  lemma {:induction false} LexLeAntisymmetric(a: string, b: string)
    requires LexLe(a, b) && LexLe(b, a)
    ensures a == b
    decreases |a|
  {
    if |a| > 0 {
      LexLeAntisymmetric(a[1..], b[1..]);
      assert a == [a[0]] + a[1..] && b == [b[0]] + b[1..];
    }
  }

  // ---- the literals Python's float() accepts ----

  predicate IsDigit(c: char) { '0' <= c <= '9' }

  /** The ASCII characters Python's `str.isspace()` accepts: the six C white
      space characters and the four separators U+001C to U+001F. */
  predicate IsSpace(c: char) { c == ' ' || '\t' <= c <= '\r' || '\U{001C}' <= c <= '\U{001F}' }

  /** `s` without leading and trailing white space. */
  function Strip(s: string): (t: string)
    ensures |t| <= |s|
    ensures |t| > 0 ==> !IsSpace(t[0]) && !IsSpace(t[|t| - 1])
    decreases |s|
  {
    if |s| > 0 && IsSpace(s[0]) then Strip(s[1..])
    else if |s| > 0 && IsSpace(s[|s| - 1]) then Strip(s[..|s| - 1])
    else s
  }

  function LowerAscii(s: string): (t: string)
    ensures |t| == |s|
  {
    if |s| == 0 then ""
    else [if 'A' <= s[0] <= 'Z' then (s[0] as int + 32) as char else s[0]] + LowerAscii(s[1..])
  }

  function DropSign(s: string): (r: string)
  {
    if |s| > 0 && (s[0] == '+' || s[0] == '-') then s[1..] else s
  }

  /** The states of a scanner for `[sign] (digits ["." digits] | "." digits) [e [sign] digits]`. */
  datatype LiteralState =
    | Start | Signed | IntDigits | LoneDot | FracDigits | ExpMark | ExpSigned | ExpDigits | Dead

  function ScanStep(st: LiteralState, c: char): (r: LiteralState)
  {
    var sign := c == '+' || c == '-';
    var exp := c == 'e' || c == 'E';
    match st
    case Start => if sign then Signed else if IsDigit(c) then IntDigits else if c == '.' then LoneDot else Dead
    case Signed => if IsDigit(c) then IntDigits else if c == '.' then LoneDot else Dead
    case IntDigits => if IsDigit(c) then IntDigits else if c == '.' then FracDigits else if exp then ExpMark else Dead
    case LoneDot => if IsDigit(c) then FracDigits else Dead
    case FracDigits => if IsDigit(c) then FracDigits else if exp then ExpMark else Dead
    case ExpMark => if sign then ExpSigned else if IsDigit(c) then ExpDigits else Dead
    case ExpSigned => if IsDigit(c) then ExpDigits else Dead
    case ExpDigits => if IsDigit(c) then ExpDigits else Dead
    case Dead => Dead
  }

  /** Whether the scanner, started in `st`, ends in an accepting state. */
  predicate Scans(s: string, st: LiteralState)
    decreases |s|
  {
    if |s| == 0 then st == IntDigits || st == FracDigits || st == ExpDigits
    else Scans(s[1..], ScanStep(st, s[0]))
  }

  predicate IsDecimalLiteral(s: string)
  {
    Scans(s, Start)
  }

  /** Whether `float(s)` succeeds: after stripping white space, a decimal
      literal, or an optionally signed inf, infinity or nan in any case
      (underscore digit separators and non-ASCII digits and spaces are not covered). */
  predicate IsNumeric(s: string)
  {
    var t := Strip(s);
    IsDecimalLiteral(t) || LowerAscii(DropSign(t)) in {"inf", "infinity", "nan"}
  }
}
