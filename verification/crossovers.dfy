/** `findMACrossoverTrends`: a short moving average against a long one,
    reported as a sentence, and the parser that reads that sentence back. */
module Crossovers {
  import opened Wrappers
  import opened Text
  import opened MovingAverages

  datatype Crossover = Bearish | Bullish

  /** The verdict word the bot prints. */
  function VerdictName(c: Crossover): string {
    match c
    case Bearish => "BEARISH"
    case Bullish => "BULLISH"
  }

  /** How the sentence says the short average compares with the long one. */
  function ComparisonName(c: Crossover): string {
    match c
    case Bearish => "LOWER"
    case Bullish => "HIGHER"
  }

  function Opposite(c: Crossover): Crossover {
    match c
    case Bearish => Bullish
    case Bullish => Bearish
  }

  /** The two guarded branches of `findMACrossoverTrends`. Equal averages
      take neither branch, so the sentence then reads `trend` unbound. */
  function ClassifyCrossover(shortAverage: real, longAverage: real): (r: Result<Crossover>)
    ensures r == Ok(Bearish) <==> shortAverage < longAverage
    ensures r == Ok(Bullish) <==> longAverage < shortAverage
    ensures r == Err(UnboundLocalError) <==> shortAverage == longAverage
  {
    if shortAverage < longAverage then Ok(Bearish)
    else if longAverage < shortAverage then Ok(Bullish)
    else Err(UnboundLocalError)
  }

  /** Swapping the two averages swaps bullish and bearish, and leaves the
      equal case failing. */
  lemma ClassifyCrossoverSwap(a: real, b: real)
    ensures ClassifyCrossover(a, b).Ok? <==> ClassifyCrossover(b, a).Ok?
    ensures ClassifyCrossover(a, b).Ok? ==>
      ClassifyCrossover(b, a).value == Opposite(ClassifyCrossover(a, b).value)
    ensures ClassifyCrossover(a, b).Err? ==> ClassifyCrossover(b, a) == ClassifyCrossover(a, b)
  {
  }

  /** "<ticker> is <VERDICT> because the <short> day moving average is
      <COMPARISON> than the <long> day moving average." */
  function CrossoverSentence(ticker: string, shortDays: int, longDays: int, c: Crossover): string {
    ticker + " is " + (VerdictName(c) + (" because the " + (IntToString(shortDays) +
      (" day moving average is " + (ComparisonName(c) + (" than the " + (IntToString(longDays) +
      " day moving average.")))))))
  }

  /** Reads a verdict word off the front of `s`. */
  function ReadVerdictName(s: string): (r: Option<(Crossover, string)>)
    ensures r.Some? ==> s == VerdictName(r.value.0) + r.value.1
  {
    if "BEARISH" <= s then Some((Bearish, s[7..]))
    else if "BULLISH" <= s then Some((Bullish, s[7..]))
    else None
  }

  /** Reads a crossover sentence about `ticker` back into its verdict and its
      two windows; the comparison word must agree with the verdict. */
  function ParseCrossoverSentence(ticker: string, s: string): Option<(Crossover, int, int)> {
    var afterTicker :- StripPrefix(s, ticker + " is ");
    var read :- ReadVerdictName(afterTicker);
    var afterVerdict :- StripPrefix(read.1, " because the ");
    var shortSpan := SpanNumerals(afterVerdict);
    var shortDays :- ParseInt(shortSpan.0);
    var afterShort :- StripPrefix(shortSpan.1, " day moving average is ");
    var afterComparison :- StripPrefix(afterShort, ComparisonName(read.0));
    var afterThan :- StripPrefix(afterComparison, " than the ");
    var longSpan := SpanNumerals(afterThan);
    var longDays :- ParseInt(longSpan.0);
    if longSpan.1 == " day moving average." then Some((read.0, shortDays, longDays)) else None
  }

  lemma ReadVerdictNameOf(c: Crossover, rest: string)
    ensures ReadVerdictName(VerdictName(c) + rest) == Some((c, rest))
  {
    var s := VerdictName(c) + rest;
    assert s[7..] == rest;
    if c == Bullish {
      assert s[1] == 'U';
    }
  }

  /** Every crossover sentence reads back as the verdict and windows it reports. */
  lemma {:induction false} CrossoverSentenceRoundTrip(ticker: string, shortDays: int, longDays: int, c: Crossover)
    ensures ParseCrossoverSentence(ticker, CrossoverSentence(ticker, shortDays, longDays, c))
         == Some((c, shortDays, longDays))
  {
    var tail := " day moving average.";
    var afterThan := IntToString(longDays) + tail;
    var afterComparison := " than the " + afterThan;
    var afterShort := ComparisonName(c) + afterComparison;
    var shortTail := " day moving average is " + afterShort;
    var afterVerdict := IntToString(shortDays) + shortTail;
    var afterTicker := VerdictName(c) + (" because the " + afterVerdict);
    StripPrefixOfConcat(ticker + " is ", afterTicker);
    ReadVerdictNameOf(c, " because the " + afterVerdict);
    StripPrefixOfConcat(" because the ", afterVerdict);
    SpanNumeralsOfConcat(IntToString(shortDays), shortTail);
    IntToStringRoundTrip(shortDays);
    StripPrefixOfConcat(" day moving average is ", afterShort);
    StripPrefixOfConcat(ComparisonName(c), afterComparison);
    StripPrefixOfConcat(" than the ", afterThan);
    SpanNumeralsOfConcat(IntToString(longDays), tail);
    IntToStringRoundTrip(longDays);
  }

  /** Nothing but the bot's own sentence reads back as a crossover sentence:
      a string that parses is the sentence for the verdict and windows it
      parses to. */
  lemma ParseCrossoverSentenceOnlyCanonical(ticker: string, s: string)
    requires ParseCrossoverSentence(ticker, s).Some?
    ensures var p := ParseCrossoverSentence(ticker, s).value;
      s == CrossoverSentence(ticker, p.1, p.2, p.0)
  {
    var afterTicker := StripPrefix(s, ticker + " is ").value;
    var read := ReadVerdictName(afterTicker).value;
    var afterVerdict := StripPrefix(read.1, " because the ").value;
    var shortSpan := SpanNumerals(afterVerdict);
    ParseIntOnlyCanonical(shortSpan.0, ParseInt(shortSpan.0).value);
    var afterShort := StripPrefix(shortSpan.1, " day moving average is ").value;
    var afterComparison := StripPrefix(afterShort, ComparisonName(read.0)).value;
    var afterThan := StripPrefix(afterComparison, " than the ").value;
    var longSpan := SpanNumerals(afterThan);
    ParseIntOnlyCanonical(longSpan.0, ParseInt(longSpan.0).value);
  }

  /** A crossover sentence is one line when its ticker is. */
  lemma CrossoverSentenceSingleLine(ticker: string, shortDays: int, longDays: int, c: Crossover)
    ensures '\n' in CrossoverSentence(ticker, shortDays, longDays, c) ==> '\n' in ticker
  {
    var shortDigits := IntToString(shortDays);
    var longDigits := IntToString(longDays);
    assert '\n' !in shortDigits by {
      assert forall i :: 0 <= i < |shortDigits| ==> IsNumeral(shortDigits[i]);
    }
    assert '\n' !in longDigits by {
      assert forall i :: 0 <= i < |longDigits| ==> IsNumeral(longDigits[i]);
    }
    var s1 := " than the " + (longDigits + " day moving average.");
    assert '\n' !in s1;
    var s2 := " day moving average is " + (ComparisonName(c) + s1);
    assert '\n' !in s2;
    var s3 := " because the " + (shortDigits + s2);
    assert '\n' !in s3;
    assert '\n' !in VerdictName(c) + s3;
  }

  /** `line` reads back as a crossover sentence about `ticker` for the two
      windows whose verdict is the one the two averages give. */
  predicate ReportsCrossover(ticker: string, line: string, shortDays: int, longDays: int,
                             shortAverage: real, longAverage: real) {
    && ParseCrossoverSentence(ticker, line).Some?
    && ParseCrossoverSentence(ticker, line).value.1 == shortDays
    && ParseCrossoverSentence(ticker, line).value.2 == longDays
    && (ParseCrossoverSentence(ticker, line).value.0 == Bearish <==> shortAverage < longAverage)
    && (ParseCrossoverSentence(ticker, line).value.0 == Bullish <==> longAverage < shortAverage)
  }

  /** When the averages differ, a line reports the crossover exactly when it
      is the sentence the bot prints for the verdict they give. */
  lemma ReportsCrossoverExactly(ticker: string, line: string, shortDays: int, longDays: int,
                                shortAverage: real, longAverage: real)
    requires shortAverage != longAverage
    ensures ReportsCrossover(ticker, line, shortDays, longDays, shortAverage, longAverage)
        <==> line == CrossoverSentence(ticker, shortDays, longDays, ClassifyCrossover(shortAverage, longAverage).value)
  {
    var c := ClassifyCrossover(shortAverage, longAverage).value;
    if ReportsCrossover(ticker, line, shortDays, longDays, shortAverage, longAverage) {
      ParseCrossoverSentenceOnlyCanonical(ticker, line);
    }
    CrossoverSentenceRoundTrip(ticker, shortDays, longDays, c);
  }

  /** `findMACrossoverTrends(ticker, shortDays, longDays)` given the history's
      closes: the short average is computed first, then the long one, and
      either may raise IndexError; equal averages raise UnboundLocalError. */
  function FindMACrossoverTrends(closes: seq<real>, ticker: string, shortDays: int, longDays: int): (r: Result<string>)
    ensures r == Err(IndexError) <==>
      !(1 - |closes| <= shortDays <= |closes| && 1 - |closes| <= longDays <= |closes|)
    ensures r == Err(UnboundLocalError) <==>
      && MovingAverage(closes, shortDays).Ok? && MovingAverage(closes, longDays).Ok?
      && MovingAverage(closes, shortDays).value == MovingAverage(closes, longDays).value
    ensures r.Err? ==> r.error == IndexError || r.error == UnboundLocalError
    ensures r.Ok? ==>
      ReportsCrossover(ticker, r.value, shortDays, longDays,
                       MovingAverage(closes, shortDays).value, MovingAverage(closes, longDays).value)
    ensures r.Ok? && '\n' !in ticker ==> '\n' !in r.value
  {
    var shortAverage :- MovingAverage(closes, shortDays);
    var longAverage :- MovingAverage(closes, longDays);
    var c :- ClassifyCrossover(shortAverage, longAverage);
    CrossoverSentenceRoundTrip(ticker, shortDays, longDays, c);
    CrossoverSentenceSingleLine(ticker, shortDays, longDays, c);
    Ok(CrossoverSentence(ticker, shortDays, longDays, c))
  }
}
