/** The LinkedIn and Medium adapters: one page fetch each (an input here),
    then string manipulation on the text of the first heading element. */
module Scrapers {
  import opened JsValues
  import opened Digits
  import opened JsStrings

  /** What fetching and loading a page gives the adapter: the text of the
      first heading element ("" when the page has none), or the message of
      the error the fetch or the body read threw. */
  datatype Scrape = Heading(text: string) | ScrapeFailed(message: string)

  // ----- LinkedIn -----

  /** The index of the first token whose `parseInt` is truthy, if any. */
  function FirstTruthy(tokens: seq<string>): (r: Option<nat>)
    ensures r.Some? ==> r.value < |tokens| && ParseIntTruthy(tokens[r.value])
    ensures forall j :: 0 <= j < (if r.Some? then r.value else |tokens|) ==> !ParseIntTruthy(tokens[j])
  {
    if tokens == [] then None
    else if ParseIntTruthy(tokens[0]) then Some(0)
    else
      match FirstTruthy(tokens[1..])
      case None => None
      case Some(i) => Some(i + 1)
  }

  /** `tokens.find((x) => Number.parseInt(x))`: the first token whose
      `parseInt` is truthy, itself rather than its number; `None` is
      `undefined`. */
  function FindTruthy(tokens: seq<string>): (r: Option<string>)
    ensures r.Some? ==> r.value in tokens && ParseIntTruthy(r.value)
    ensures r.None? <==> forall t :: t in tokens ==> !ParseIntTruthy(t)
  {
    match FirstTruthy(tokens)
    case Some(i) => Some(tokens[i])
    case None => None
  }

  /** The follower count LinkedIn's heading text yields: the text without
      commas, split on single spaces, and the first piece that `parseInt`
      reads as a non-zero number. */
  function LinkedInCount(text: string): (r: Option<string>)
    ensures r.Some? ==> ',' !in r.value && ' ' !in r.value && ParseIntTruthy(r.value)
    ensures r.None? <==> forall t :: t in Split(RemoveAll(text, ','), ' ') ==> !ParseIntTruthy(t)
  {
    var tokens := Split(RemoveAll(text, ','), ' ');
    RemoveAllSpec(text, ',');
    SplitSpec(RemoveAll(text, ','), ' ');
    SplitKeepsAbsent(RemoveAll(text, ','), ' ', ',');
    FindTruthy(tokens)
  }

  /** getLinkedInFollowers: `null` when the fetch fails, otherwise the count
      found in the trimmed heading, or `undefined` when there is none. */
  function LinkedInFollowers(page: Scrape): (v: Value)
    ensures v.Null? <==> page.ScrapeFailed?
    ensures v.Str? ==> ParseIntTruthy(v.s) && ',' !in v.s
    ensures v.Null? || v.Str? || v.Undefined?
  {
    match page
    case ScrapeFailed(_) => Null
    case Heading(text) =>
      match LinkedInCount(Trim(text))
      case Some(t) => Str(t)
      case None => Undefined
  }

  /** Where the first truthy token sits decides what `find` returns. */
  lemma FindTruthyAt(tokens: seq<string>, i: nat)
    requires i < |tokens| && ParseIntTruthy(tokens[i])
    requires forall j :: 0 <= j < i ==> !ParseIntTruthy(tokens[j])
    ensures FindTruthy(tokens) == Some(tokens[i])
  {
  }

  // ----- Medium -----

  /** getMediumFollowers on the trimmed heading text: the first
      space-delimited token, its first 'k' spelled out as "000"; `None` when
      that token is empty, where `0.includes` throws and the adapter answers
      `null`. */
  function MediumCount(text: string): (r: Option<string>)
    ensures r.None? <==> text == "" || text[0] == ' '
  {
    SplitSpec(text, ' ');
    var first := Split(text, ' ')[0];
    if first == "" then None
    else if 'k' in first then Some(ReplaceFirst(first, 'k', "000"))
    else Some(first)
  }

  /** What Medium's heading yields, by the shape of its first token: nothing
      for an empty token, the token itself when it has no 'k', and the token
      with its first 'k' replaced by "000" otherwise. */
  lemma MediumCountSpec(text: string)
    ensures var first := Split(text, ' ')[0];
            && ' ' !in first
            && (MediumCount(text).None? <==> first == "")
            && (first != "" && 'k' !in first ==> MediumCount(text) == Some(first))
            && (forall i :: 0 <= i < |first| && first[i] == 'k' && 'k' !in first[..i] ==>
                  MediumCount(text) == Some(first[..i] + "000" + first[i + 1..]))
  {
    var first := Split(text, ' ')[0];
    SplitSpec(text, ' ');
    forall i | 0 <= i < |first| && first[i] == 'k' && 'k' !in first[..i]
      ensures MediumCount(text) == Some(first[..i] + "000" + first[i + 1..])
    {
      ReplaceFirstAt(first, 'k', "000", i);
    }
  }

  /** Only the first token counts: whatever follows the first space is
      ignored. */
  lemma MediumOnlyFirstToken(token: string, rest: string)
    requires ' ' !in token
    ensures MediumCount(token + " " + rest) == MediumCount(token)
  {
    SplitAfterPiece(token, ' ', rest);
    SplitNoSeparator(token, ' ');
  }

  /** On trimmed text the adapter gives up exactly when the heading is blank. */
  lemma MediumNullIffBlank(raw: string)
    ensures MediumCount(Trim(raw)).None? <==> Trim(raw) == ""
  {
    var text := Trim(raw);
    TrimIsSlice(raw);
    SplitSpec(text, ' ');
  }

  /** getMediumFollowers: `null` when the fetch fails or the heading is
      blank, otherwise the expanded first token as a string. */
  function MediumFollowers(page: Scrape): (v: Value)
    ensures v.Null? <==> page.ScrapeFailed? || Trim(page.text) == ""
    ensures v.Null? || v.Str?
  {
    match page
    case ScrapeFailed(_) => Null
    case Heading(text) =>
      MediumNullIffBlank(text);
      match MediumCount(Trim(text))
      case Some(t) => Str(t)
      case None => Null
  }

  // ----- Medium: the "k" shorthand -----

  /** The count a thousands shorthand stands for: an integer part, an
      optional point with one to three more digits, then 'k' ("35k" is
      35000, "1.2k" is 1200). */
  function ThousandsValue(t: string): Option<nat> {
    if |t| < 2 || t[|t| - 1] != 'k' then None
    else
      var parts := Split(t[..|t| - 1], '.');
      if |parts| == 1 && AllDigits(parts[0], 10) then Some(RunValue(parts[0], 10) * 1000)
      else if |parts| == 2 && parts[0] != "" && AllDigits(parts[0], 10)
              && 1 <= |parts[1]| <= 3 && AllDigits(parts[1], 10)
      then Some(RunValue(parts[0], 10) * 1000 + RunValue(parts[1], 10) * Pow10(3 - |parts[1]|))
      else None
  }

  /** "<i>k" stands for i thousand. */
  lemma ThousandsOfInteger(i: string)
    requires i != "" && AllDigits(i, 10)
    ensures ThousandsValue(i + "k") == Some(RunValue(i, 10) * 1000)
  {
    var t := i + "k";
    assert t[..|t| - 1] == i;
    SplitNoSeparator(i, '.');
  }

  /** Digits split on a point are the two digit runs. */
  lemma SplitAtPoint(i: string, f: string)
    requires AllDigits(i, 10) && AllDigits(f, 10)
    ensures Split(i + ['.'] + f, '.') == [i, f]
  {
    assert '.' !in i && '.' !in f by {
      assert forall c :: c in i ==> IsDecimalDigit(c);
      assert forall c :: c in f ==> IsDecimalDigit(c);
    }
    SplitAfterPiece(i, '.', f);
    SplitNoSeparator(f, '.');
  }

  lemma ScaleThousands(x: nat, y: nat, n: nat, v: nat, whole: nat)
    requires 1 <= n <= 3
    requires v == x * 1000 + y * Pow10(3 - n) && whole == x * Pow10(n) + y
    ensures v * Pow10(n) == whole * 1000
  {
    assert Pow10(0) == 1 && Pow10(1) == 10 && Pow10(2) == 100 && Pow10(3) == 1000;
  }

  /** How "<i>.<f>k" is read: i thousand plus f thousandths of a thousand. */
  lemma ThousandsOfPoint(t: string, i: string, f: string)
    requires i != "" && AllDigits(i, 10)
    requires 1 <= |f| <= 3 && AllDigits(f, 10)
    requires t == i + ['.'] + f + ['k']
    ensures ThousandsValue(t) == Some(RunValue(i, 10) * 1000 + RunValue(f, 10) * Pow10(3 - |f|))
  {
    assert t[..|t| - 1] == i + ['.'] + f;
    SplitAtPoint(i, f);
  }

  /** "<i>.<f>k" stands for the decimal number i.f times a thousand, exactly:
      scaled by 10^|f| it is the integer the digits of i and f spell, times
      a thousand. */
  lemma ThousandsOfDecimal(i: string, f: string)
    requires i != "" && AllDigits(i, 10)
    requires 1 <= |f| <= 3 && AllDigits(f, 10)
    ensures ThousandsValue(i + "." + f + "k").Some?
    ensures ThousandsValue(i + "." + f + "k").value * Pow10(|f|) == RunValue(i + f, 10) * 1000
  {
    var t := i + "." + f + "k";
    assert t == i + ['.'] + f + ['k'];
    ThousandsOfPoint(t, i, f);
    var x, y := RunValue(i, 10), RunValue(f, 10);
    RunValueAppend(i, f);
    ScaleThousands(x, y, |f|, ThousandsValue(t).value, RunValue(i + f, 10));
  }

  /** `replace("k", "000")` as the Medium adapter applies it is meant to
      expand a thousands shorthand; this is the expansion done as meant:
      a shorthand becomes the numeral of the count it stands for, and any
      other token is treated as `MediumCount` treats it. */
  function MediumCountCorrected(text: string): Option<string> {
    var first := Split(text, ' ')[0];
    if first == "" then None
    else match ThousandsValue(first)
      case Some(n) => Some(DecimalString(n))
      case None => if 'k' in first then Some(ReplaceFirst(first, 'k', "000")) else Some(first)
  }

  /** A string that starts with a decimal digit other than a "0x" prefix is
      read by `parseInt` up to its first non-digit. */
  lemma ParseIntStopsAtNonDigit(run: string, rest: string)
    requires run != "" && AllDigits(run, 10) && rest != [] && !IsDecimalDigit(rest[0])
    requires rest[0] != 'x' && rest[0] != 'X'
    ensures ParseInt(run + rest) == Some(RunValue(run, 10))
  {
    var s := run + rest;
    assert s[0] == run[0];
    assert !IsJsWhitespace(s[0]);
    assert TrimStart(s) == s;
    assert |s| >= 2 ==> s[1] != 'x' && s[1] != 'X' by {
      if |run| >= 2 { assert s[1] == run[1]; } else { assert s[1] == rest[0]; }
    }
    LeadingRunStops(run, rest, 10);
  }

  /** As written, Medium's "<i>.<f>k" heading comes out as "<i>.<f>000",
      which is not the count it stands for. */
  lemma MediumShorthandAsWritten(i: string, f: string, rest: string)
    requires i != "" && AllDigits(i, 10) && AllDigits(f, 10)
    ensures MediumCount(i + "." + f + "k " + rest) == Some(i + "." + f + "000")
  {
    var token := i + "." + f + "k";
    var n := |i| + 1 + |f|;
    assert token[..n] == i + "." + f && token[n] == 'k' && token[n + 1..] == "";
    assert 'k' !in token[..n] && ' ' !in token by {
      assert forall c :: c in i ==> IsDecimalDigit(c);
      assert forall c :: c in f ==> IsDecimalDigit(c);
      assert forall c :: c in token ==> c in i || c in f || c == '.' || c == 'k';
    }
    assert token + [' '] + rest == i + "." + f + "k " + rest;
    SplitAfterPiece(token, ' ', rest);
    ReplaceFirstAt(token, 'k', "000", n);
    assert ReplaceFirst(token, 'k', "000") == i + "." + f + "000";
  }

  /** A reader that runs `parseInt` on that "<i>.<f>000" gets `i`, not
      i.f thousand. */
  lemma ExpandedShorthandReadsAsInteger(i: string, f: string)
    requires i != "" && AllDigits(i, 10)
    ensures ParseInt(i + "." + f + "000") == Some(RunValue(i, 10))
  {
    assert i + "." + f + "000" == i + ("." + f + "000");
    ParseIntStopsAtNonDigit(i, "." + f + "000");
  }

  /** With the expansion done as meant, "<i>.<f>k" comes out as the numeral
      of i.f thousand, which `parseInt` reads back as that count. */
  lemma MediumShorthandCorrected(i: string, f: string, rest: string)
    requires i != "" && AllDigits(i, 10)
    requires 1 <= |f| <= 3 && AllDigits(f, 10)
    ensures ThousandsValue(i + "." + f + "k").Some?
    ensures var v := ThousandsValue(i + "." + f + "k").value;
            && MediumCountCorrected(i + "." + f + "k " + rest) == Some(DecimalString(v))
            && v * Pow10(|f|) == RunValue(i + f, 10) * 1000
            && ParseInt(DecimalString(v)) == Some(v)
  {
    var token := i + "." + f + "k";
    assert ' ' !in token by {
      assert forall c :: c in i ==> IsDecimalDigit(c);
      assert forall c :: c in f ==> IsDecimalDigit(c);
      assert forall c :: c in token ==> c in i || c in f || c == '.' || c == 'k';
    }
    assert token + [' '] + rest == i + "." + f + "k " + rest;
    SplitAfterPiece(token, ' ', rest);
    ThousandsOfDecimal(i, f);
    ParseIntDecimalString(ThousandsValue(token).value);
  }
}
