/** The headings the scrapers were written against, worked through. */
module ScraperExamples {
  import opened JsValues
  import opened Digits
  import opened JsStrings
  import opened Scrapers

  lemma WordsAreNotCounts()
    ensures !ParseIntTruthy("San") && !ParseIntTruthy("Francisco") && !ParseIntTruthy("CA") && !ParseIntTruthy("")
  {
  }

  lemma DigitsAreACount()
    ensures ParseIntTruthy("2847935")
  {
    var s := "2847935";
    assert AllDigits(s, 10);
    ParseIntOfDigits(s);
    RunValueZero(s, 10);
    assert s[0] != '0';
  }

  /** Removing a character that only appears as a separator joins the pieces. */
  lemma RemoveSeparators(pieces: seq<string>, c: char)
    requires |pieces| > 0 && forall i :: 0 <= i < |pieces| ==> c !in pieces[i]
    ensures RemoveAll(Join(pieces, [c]), c) == Join(pieces, "")
  {
    RemoveAllIsSplitJoin(Join(pieces, [c]), c);
    SplitJoin(pieces, c);
  }

  lemma CommaPieces()
    ensures Join(["San Francisco", " CA  2", "847", "935 followers"], ",") == "San Francisco, CA  2,847,935 followers"
  {
  }

  lemma CommaFreePieces()
    ensures Join(["San Francisco", " CA  2", "847", "935 followers"], "") == "San Francisco CA  2847935 followers"
  {
  }

  /** Six pieces joined. */
  lemma JoinSix(a: string, b: string, c: string, d: string, e: string, f: string, sep: string)
    ensures Join([a, b, c, d, e, f], sep) == a + sep + b + sep + c + sep + d + sep + e + sep + f
  {
    assert [a, b, c, d, e, f] == [a] + [b, c, d, e, f];
    assert [b, c, d, e, f] == [b] + [c, d, e, f];
    assert [c, d, e, f] == [c] + [d, e, f];
    assert [d, e, f] == [d] + [e, f];
    JoinCons(d, [e, f], sep);
    JoinCons(c, [d, e, f], sep);
    JoinCons(b, [c, d, e, f], sep);
    JoinCons(a, [b, c, d, e, f], sep);
  }

  lemma SpacePieces()
    ensures Join(["San", "Francisco", "CA", "", "2847935", "followers"], " ") == "San Francisco CA  2847935 followers"
  {
    JoinSix("San", "Francisco", "CA", "", "2847935", "followers", " ");
    assert "San" + " " + "Francisco" + " " + "CA" + " " + "" + " " + "2847935" + " " + "followers"
      == "San Francisco CA  2847935 followers";
  }

  lemma CommasRemoved()
    ensures RemoveAll("San Francisco, CA  2,847,935 followers", ',') == "San Francisco CA  2847935 followers"
  {
    CommaPieces();
    CommaFreePieces();
    RemoveSeparators(["San Francisco", " CA  2", "847", "935 followers"], ',');
  }

  lemma SpacesSplit()
    ensures Split("San Francisco CA  2847935 followers", ' ') == ["San", "Francisco", "CA", "", "2847935", "followers"]
  {
    SpacePieces();
    SplitJoin(["San", "Francisco", "CA", "", "2847935", "followers"], ' ');
  }

  lemma FifthTokenIsFound(tokens: seq<string>)
    requires tokens == ["San", "Francisco", "CA", "", "2847935", "followers"]
    ensures FindTruthy(tokens) == Some("2847935")
  {
    WordsAreNotCounts();
    DigitsAreACount();
    assert ParseIntTruthy(tokens[4]);
    assert forall j :: 0 <= j < 4 ==> !ParseIntTruthy(tokens[j]);
    FindTruthyAt(tokens, 4);
  }

  /** LinkedIn's "San Francisco, CA  2,847,935 followers" yields "2847935":
      the double space makes an empty token, which `parseInt` reads as NaN. */
  lemma LinkedInExample()
    ensures LinkedInCount("San Francisco, CA  2,847,935 followers") == Some("2847935")
  {
    CommasRemoved();
    SpacesSplit();
    FifthTokenIsFound(["San", "Francisco", "CA", "", "2847935", "followers"]);
  }

  /** Medium's "35 followers" yields "35". */
  lemma MediumPlainExample()
    ensures MediumCount("35 followers") == Some("35")
  {
    assert "35 followers" == "35" + " " + "followers";
    MediumOnlyFirstToken("35", "followers");
    SplitNoSeparator("35", ' ');
  }

  lemma ShorthandPieces()
    ensures AllDigits("1", 10) && AllDigits("2", 10)
    ensures "1" + "." + "2" + "k " + "followers" == "1.2k followers"
    ensures "1" + "." + "2" + "000" == "1.2000"
    ensures "1" + "." + "2" + "k" == "1.2k"
    ensures RunValue("1" + "2", 10) == 12
  {
    assert "1" + "2" == "12";
  }

  /** Medium's "1.2k followers" yields "1.2000" as written. */
  lemma MediumShorthandExample()
    ensures MediumCount("1.2k followers") == Some("1.2000")
  {
    ShorthandPieces();
    MediumShorthandAsWritten("1", "2", "followers");
  }

  /** Expanded as meant, "1.2k followers" yields "1200". */
  lemma MediumShorthandCorrectedExample()
    ensures MediumCountCorrected("1.2k followers") == Some("1200")
  {
    ShorthandPieces();
    MediumShorthandCorrected("1", "2", "followers");
    var v := ThousandsValue("1.2k").value;
    assert v * 10 == 12 * 1000;
    assert DecimalString(1200) == "1200";
  }

  /** An empty Medium heading makes the adapter answer `null`. */
  lemma MediumEmptyExample()
    ensures MediumCount("") == None
    ensures MediumFollowers(Heading("")) == Null
  {
  }
}
