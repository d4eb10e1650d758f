/** The JavaScript string operations the scrapers chain together:
    `trim`, `replaceAll`, `split`, `join`, `replace` (first match only) and
    `Number.parseInt` without a radix. Each is a plain recursive function;
    what it guarantees is stated in the lemma that follows it. */
module JsStrings {
  import opened JsValues
  import opened Digits

  /** ECMAScript WhiteSpace and LineTerminator code points: what `trim`
      strips and what `parseInt` skips before the numeral. */
  predicate IsJsWhitespace(c: char) {
    var n := c as int;
    n == 0x09 || n == 0x0A || n == 0x0B || n == 0x0C || n == 0x0D || n == 0x20
    || n == 0xA0 || n == 0x1680 || (0x2000 <= n <= 0x200A) || n == 0x2028
    || n == 0x2029 || n == 0x202F || n == 0x205F || n == 0x3000 || n == 0xFEFF
  }

  /** `s.trimStart()`. */
  function TrimStart(s: string): string {
    if s != [] && IsJsWhitespace(s[0]) then TrimStart(s[1..]) else s
  }

  /** `trimStart` keeps the suffix of `s` that starts at its first
      non-whitespace character. */
  lemma {:induction false} TrimStartSpec(s: string)
    ensures |TrimStart(s)| <= |s| && TrimStart(s) == s[|s| - |TrimStart(s)|..]
    ensures forall i :: 0 <= i < |s| - |TrimStart(s)| ==> IsJsWhitespace(s[i])
    ensures TrimStart(s) == [] || !IsJsWhitespace(TrimStart(s)[0])
  {
    if s != [] && IsJsWhitespace(s[0]) {
      TrimStartSpec(s[1..]);
      forall i | 1 <= i < |s| - |TrimStart(s)| ensures IsJsWhitespace(s[i]) {
        assert s[i] == s[1..][i - 1];
      }
    }
  }

  /** `s.trimEnd()`. */
  function TrimEnd(s: string): string {
    if s != [] && IsJsWhitespace(s[|s| - 1]) then TrimEnd(s[..|s| - 1]) else s
  }

  /** `trimEnd` keeps the prefix of `s` that ends at its last
      non-whitespace character. */
  lemma {:induction false} TrimEndSpec(s: string)
    ensures TrimEnd(s) <= s
    ensures forall i :: |TrimEnd(s)| <= i < |s| ==> IsJsWhitespace(s[i])
    ensures TrimEnd(s) == [] || !IsJsWhitespace(TrimEnd(s)[|TrimEnd(s)| - 1])
  {
    if s != [] && IsJsWhitespace(s[|s| - 1]) {
      TrimEndSpec(s[..|s| - 1]);
    }
  }

  /** `s.trim()`. */
  function Trim(s: string): string {
    TrimEnd(TrimStart(s))
  }

  /** Trimming removes only surrounding whitespace: the result is a slice of
      `s` with no whitespace at either end, and everything cut off around it
      is whitespace. */
  lemma TrimIsSlice(s: string)
    ensures exists i, j :: (0 <= i <= j <= |s| && Trim(s) == s[i..j]
                             && (forall k :: 0 <= k < i ==> IsJsWhitespace(s[k]))
                             && (forall k :: j <= k < |s| ==> IsJsWhitespace(s[k])))
    ensures Trim(s) == [] || (!IsJsWhitespace(Trim(s)[0]) && !IsJsWhitespace(Trim(s)[|Trim(s)| - 1]))
  {
    var t := TrimStart(s);
    var r := TrimEnd(t);
    TrimStartSpec(s);
    TrimEndSpec(t);
    var i := |s| - |t|;
    var j := i + |r|;
    assert r == t[..|r|];
    assert t[..|r|] == s[i..j];
    forall k | j <= k < |s| ensures IsJsWhitespace(s[k]) {
      assert s[k] == t[k - i];
    }
    if r != [] {
      assert r[0] == t[0];
    }
  }

  /** `s.replaceAll(c, "")` for a one-character pattern `c`. */
  function RemoveAll(s: string, c: char): string {
    if s == [] then []
    else if s[0] == c then RemoveAll(s[1..], c)
    else [s[0]] + RemoveAll(s[1..], c)
  }

  /** After `replaceAll(c, "")` no `c` is left, and a string without `c`
      is unchanged. */
  lemma {:induction false} RemoveAllSpec(s: string, c: char)
    ensures c !in RemoveAll(s, c) && |RemoveAll(s, c)| <= |s|
    ensures c !in s ==> RemoveAll(s, c) == s
  {
    if s != [] {
      RemoveAllSpec(s[1..], c);
      assert c !in s ==> c !in s[1..];
      assert s == [s[0]] + s[1..];
    }
  }

  /** `s.split(sep)` for a one-character separator: the pieces between
      separators, empty pieces included, so there is always at least one. */
  function Split(s: string, sep: char): (parts: seq<string>)
    ensures |parts| > 0
  {
    if s == [] then [""]
    else
      var rest := Split(s[1..], sep);
      if s[0] == sep then [""] + rest
      else [[s[0]] + rest[0]] + rest[1..]
  }

  /** No piece of a split holds the separator, and the first piece is the
      part of `s` before its first separator (all of `s` if it has none). */
  lemma {:induction false} SplitSpec(s: string, sep: char)
    ensures forall i :: 0 <= i < |Split(s, sep)| ==> sep !in Split(s, sep)[i]
    ensures Split(s, sep)[0] <= s
    ensures Split(s, sep)[0] == s || s[|Split(s, sep)[0]|] == sep
  {
    if s != [] {
      SplitSpec(s[1..], sep);
    }
  }

  /** A character absent from `s` is absent from every piece of its split. */
  lemma {:induction false} SplitKeepsAbsent(s: string, sep: char, c: char)
    requires c !in s
    ensures forall i :: 0 <= i < |Split(s, sep)| ==> c !in Split(s, sep)[i]
  {
    if s != [] {
      SplitKeepsAbsent(s[1..], sep, c);
      var rest := Split(s[1..], sep);
      assert s[0] != c;
      assert c !in [s[0]] + rest[0];
    }
  }

  /** `parts.join(sep)`. */
  function Join(parts: seq<string>, sep: string): string {
    if |parts| == 0 then ""
    else if |parts| == 1 then parts[0]
    else parts[0] + sep + Join(parts[1..], sep)
  }

  lemma JoinCons(p: string, rest: seq<string>, sep: string)
    requires |rest| > 0
    ensures Join([p] + rest, sep) == p + sep + Join(rest, sep)
  {
    assert ([p] + rest)[1..] == rest;
  }

  /** How a split grows when one character is put in front: a separator
      opens a new empty first piece, anything else joins the first piece.
      Joining with `sep` glues the separator back in either case. */
  lemma SplitConsJoin(s: string, sep: char, glue: string)
    requires s != [] && (glue == "" || glue == [sep])
    ensures Join(Split(s, sep), glue)
            == (if s[0] == sep then glue else [s[0]]) + Join(Split(s[1..], sep), glue)
  {
    var rest := Split(s[1..], sep);
    if s[0] == sep {
      assert Split(s, sep) == [""] + rest;
      JoinCons("", rest, glue);
    } else if |rest| == 1 {
      assert Split(s, sep) == [[s[0]] + rest[0]];
    } else {
      var p := [s[0]] + rest[0];
      assert Split(s, sep) == [p] + rest[1..];
      JoinCons(p, rest[1..], glue);
      assert rest == [rest[0]] + rest[1..];
      JoinCons(rest[0], rest[1..], glue);
      assert Join(rest, glue) == rest[0] + glue + Join(rest[1..], glue);
      assert Join(Split(s, sep), glue) == [s[0]] + (rest[0] + glue + Join(rest[1..], glue));
    }
  }

  /** Joining the pieces of a split with the separator gives back the string. */
  lemma {:induction false} JoinSplit(s: string, sep: char)
    ensures Join(Split(s, sep), [sep]) == s
  {
    if s != [] {
      JoinSplit(s[1..], sep);
      SplitConsJoin(s, sep, [sep]);
      assert s == [s[0]] + s[1..];
    }
  }

  /** `s.replaceAll(c, "")` is `s.split(c).join("")`. */
  lemma {:induction false} RemoveAllIsSplitJoin(s: string, c: char)
    ensures RemoveAll(s, c) == Join(Split(s, c), "")
  {
    if s != [] {
      RemoveAllIsSplitJoin(s[1..], c);
      SplitConsJoin(s, c, "");
    }
  }

  /** Splitting a string that starts with a separator-free piece and a
      separator yields that piece, then the split of the remainder. */
  lemma {:induction false} SplitAfterPiece(p: string, sep: char, tail: string)
    requires sep !in p
    ensures Split(p + [sep] + tail, sep) == [p] + Split(tail, sep)
  {
    var s := p + [sep] + tail;
    if p == [] {
      assert s[1..] == tail;
    } else {
      assert s[1..] == p[1..] + [sep] + tail;
      SplitAfterPiece(p[1..], sep, tail);
      assert [p[0]] + p[1..] == p;
    }
  }

  /** Splitting a string without separators yields that string alone. */
  lemma {:induction false} SplitNoSeparator(p: string, sep: char)
    requires sep !in p
    ensures Split(p, sep) == [p]
  {
    if p != [] {
      SplitNoSeparator(p[1..], sep);
      assert [p[0]] + p[1..] == p;
    }
  }

  /** Conversely, splitting a join of separator-free pieces gives back the
      pieces: `Split` and `Join` are inverse on both sides. */
  lemma {:induction false} SplitJoin(parts: seq<string>, sep: char)
    requires |parts| > 0
    requires forall i :: 0 <= i < |parts| ==> sep !in parts[i]
    ensures Split(Join(parts, [sep]), sep) == parts
  {
    if |parts| == 1 {
      SplitNoSeparator(parts[0], sep);
    } else {
      SplitJoin(parts[1..], sep);
      SplitAfterPiece(parts[0], sep, Join(parts[1..], [sep]));
      assert parts == [parts[0]] + parts[1..];
    }
  }

  /** `s.replace(c, rep)` for a one-character pattern: only the first
      occurrence is replaced. */
  function ReplaceFirst(s: string, c: char, rep: string): string {
    if s == [] then s
    else if s[0] == c then rep + s[1..]
    else [s[0]] + ReplaceFirst(s[1..], c, rep)
  }

  /** Without an occurrence of `c`, `replace` changes nothing. */
  lemma {:induction false} ReplaceFirstAbsent(s: string, c: char, rep: string)
    requires c !in s
    ensures ReplaceFirst(s, c, rep) == s
  {
    if s != [] {
      ReplaceFirstAbsent(s[1..], c, rep);
      assert s == [s[0]] + s[1..];
    }
  }

  /** When `s[i]` is the first `c` in `s`, `replace` splices `rep` in at `i`
      and leaves the rest, later occurrences of `c` included, as it was. */
  lemma {:induction false} ReplaceFirstAt(s: string, c: char, rep: string, i: nat)
    requires i < |s| && s[i] == c && c !in s[..i]
    ensures ReplaceFirst(s, c, rep) == s[..i] + rep + s[i + 1..]
  {
    if i > 0 {
      assert s[0] == s[..i][0];
      assert s[1..][..i - 1] == s[1..i];
      ReplaceFirstAt(s[1..], c, rep, i - 1);
      assert s[..i] == [s[0]] + s[1..][..i - 1];
      assert s[i + 1..] == s[1..][i..];
    }
  }

  /** The longest prefix of `s` made of digits of the radix. */
  function LeadingRun(s: string, radix: nat): (run: string)
    ensures AllDigits(run, radix)
  {
    if s != [] && IsDigit(s[0], radix) then [s[0]] + LeadingRun(s[1..], radix) else []
  }

  /** The leading run is a prefix of `s` that stops at the first character
      that is not a digit of the radix. */
  lemma {:induction false} LeadingRunSpec(s: string, radix: nat)
    ensures LeadingRun(s, radix) <= s
    ensures LeadingRun(s, radix) == s || !IsDigit(s[|LeadingRun(s, radix)|], radix)
  {
    if s != [] && IsDigit(s[0], radix) {
      LeadingRunSpec(s[1..], radix);
    }
  }

  /** A run of digits is its own longest digit prefix. */
  lemma {:induction false} LeadingRunOfDigits(s: string, radix: nat)
    requires AllDigits(s, radix)
    ensures LeadingRun(s, radix) == s
  {
    if s != [] {
      LeadingRunOfDigits(s[1..], radix);
    }
  }

  /** The leading run ends at the first character that is not a digit. */
  lemma {:induction false} LeadingRunStops(run: string, rest: string, radix: nat)
    requires AllDigits(run, radix) && rest != [] && !IsDigit(rest[0], radix)
    ensures LeadingRun(run + rest, radix) == run
  {
    if run != [] {
      assert (run + rest)[1..] == run[1..] + rest;
      LeadingRunStops(run[1..], rest, radix);
    } else {
      assert run + rest == rest;
    }
  }

  /** The numeral `parseInt` reads from `s` with no radix given, and its
      radix: after leading whitespace and an optional sign, a "0x"/"0X"
      prefix selects radix 16, otherwise radix 10; the numeral is the longest
      run of digits of that radix. */
  function NumeralOf(s: string): (n: (string, nat))
    ensures n.1 == 10 || n.1 == 16
    ensures AllDigits(n.0, n.1)
  {
    var t := TrimStart(s);
    var body := if |t| > 0 && (t[0] == '-' || t[0] == '+') then t[1..] else t;
    if |body| >= 2 && body[0] == '0' && (body[1] == 'x' || body[1] == 'X')
    then (LeadingRun(body[2..], 16), 16)
    else (LeadingRun(body, 10), 10)
  }

  /** `Number.parseInt(s)`: `None` stands for NaN. */
  function ParseInt(s: string): (r: Option<int>)
    ensures r.None? <==> NumeralOf(s).0 == []
  {
    var (run, radix) := NumeralOf(s);
    var t := TrimStart(s);
    var v: int := RunValue(run, radix);
    if run == [] then None
    else if |t| > 0 && t[0] == '-' then Some(-v)
    else Some(v)
  }

  /** JavaScript truthiness of `parseInt(s)`: NaN, 0 and -0 are falsy. */
  predicate ParseIntTruthy(s: string) {
    ParseInt(s).Some? && ParseInt(s).value != 0
  }

  /** `parseInt(s)` is truthy exactly when the numeral it reads has a
      digit other than '0'. */
  lemma ParseIntTruthyIff(s: string)
    ensures ParseIntTruthy(s) <==> exists i :: 0 <= i < |NumeralOf(s).0| && NumeralOf(s).0[i] != '0'
  {
    var (run, radix) := NumeralOf(s);
    RunValueZero(run, radix);
  }

  /** `parseInt` reads a plain run of decimal digits as the number it denotes. */
  lemma ParseIntOfDigits(s: string)
    requires 0 < |s| && AllDigits(s, 10)
    ensures NumeralOf(s) == (s, 10)
    ensures ParseInt(s) == Some(RunValue(s, 10))
  {
    assert !IsJsWhitespace(s[0]);
    assert TrimStart(s) == s;
    LeadingRunOfDigits(s, 10);
  }

  /** `parseInt(n.toString())` gives `n` back. */
  lemma ParseIntDecimalString(n: nat)
    ensures ParseInt(DecimalString(n)) == Some(n)
  {
    ParseIntOfDigits(DecimalString(n));
    DecimalStringValue(n);
  }
}
