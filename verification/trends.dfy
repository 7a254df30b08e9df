/** `findTrends`: where the current price stands against one moving average,
    reported as a sentence, and the parser that reads that sentence back. */
module Trends {
  import opened Wrappers
  import opened Text
  import opened MovingAverages

  datatype Trend = Uptrend | Downtrend | Equal

  /** The word the bot prints for a trend. */
  function TrendName(t: Trend): string {
    match t
    case Uptrend => "UPTREND"
    case Downtrend => "DOWNTREND"
    case Equal => "EQUAL"
  }

  /** The three guarded branches of `findTrends`. The last guard is written
      out as the code writes it; were none of them to hold, `trend` would be
      read unbound. Over the reals one always holds. */
  function ClassifyTrend(price: real, average: real): (r: Result<Trend>)
    ensures r == Ok(Uptrend) <==> price > average
    ensures r == Ok(Downtrend) <==> price < average
    ensures r == Ok(Equal) <==> price == average
  {
    if price > average then Ok(Uptrend)
    else if price < average then Ok(Downtrend)
    else if price == average then Ok(Equal)
    else Err(UnboundLocalError)
  }

  /** Swapping the price and the average turns an uptrend into a downtrend
      and back, and keeps "equal". */
  lemma ClassifyTrendMirror(price: real, average: real)
    ensures ClassifyTrend(price, average) == Ok(Uptrend) <==> ClassifyTrend(average, price) == Ok(Downtrend)
    ensures ClassifyTrend(price, average) == Ok(Equal) <==> ClassifyTrend(average, price) == Ok(Equal)
  {
  }

  /** "<ticker> is on a <TREND> relative to the <days> day moving average." */
  function TrendSentence(ticker: string, days: int, t: Trend): string {
    ticker + " is on a " + (TrendName(t) + (" relative to the " + (IntToString(days) + " day moving average.")))
  }

  /** Reads a trend word off the front of `s`. */
  function ReadTrendName(s: string): (r: Option<(Trend, string)>)
    ensures r.Some? ==> s == TrendName(r.value.0) + r.value.1
  {
    if "UPTREND" <= s then Some((Uptrend, s[7..]))
    else if "DOWNTREND" <= s then Some((Downtrend, s[9..]))
    else if "EQUAL" <= s then Some((Equal, s[5..]))
    else None
  }

  /** Reads a trend sentence about `ticker` back into its trend and window. */
  function ParseTrendSentence(ticker: string, s: string): Option<(Trend, int)> {
    var afterTicker :- StripPrefix(s, ticker + " is on a ");
    var read :- ReadTrendName(afterTicker);
    var afterWord :- StripPrefix(read.1, " relative to the ");
    var span := SpanNumerals(afterWord);
    var days :- ParseInt(span.0);
    if span.1 == " day moving average." then Some((read.0, days)) else None
  }

  lemma ReadTrendNameOf(t: Trend, rest: string)
    ensures ReadTrendName(TrendName(t) + rest) == Some((t, rest))
  {
    var s := TrendName(t) + rest;
    assert s[|TrendName(t)|..] == rest;
    match t
    case Uptrend =>
    case Downtrend => assert s[0] == 'D';
    case Equal => assert s[0] == 'E';
  }

  /** Every trend sentence reads back as the trend and window it reports. */
  lemma {:induction false} TrendSentenceRoundTrip(ticker: string, days: int, t: Trend)
    ensures ParseTrendSentence(ticker, TrendSentence(ticker, days, t)) == Some((t, days))
  {
    var tail := " day moving average.";
    var afterWord := IntToString(days) + tail;
    var afterTicker := TrendName(t) + (" relative to the " + afterWord);
    StripPrefixOfConcat(ticker + " is on a ", afterTicker);
    ReadTrendNameOf(t, " relative to the " + afterWord);
    StripPrefixOfConcat(" relative to the ", afterWord);
    SpanNumeralsOfConcat(IntToString(days), tail);
    IntToStringRoundTrip(days);
  }

  /** Nothing but the bot's own sentence reads back as a trend sentence: a
      string that parses is the sentence for the trend and window it parses to. */
  lemma ParseTrendSentenceOnlyCanonical(ticker: string, s: string)
    requires ParseTrendSentence(ticker, s).Some?
    ensures s == TrendSentence(ticker, ParseTrendSentence(ticker, s).value.1, ParseTrendSentence(ticker, s).value.0)
  {
    var afterTicker := StripPrefix(s, ticker + " is on a ").value;
    var read := ReadTrendName(afterTicker).value;
    var afterWord := StripPrefix(read.1, " relative to the ").value;
    var span := SpanNumerals(afterWord);
    ParseIntOnlyCanonical(span.0, ParseInt(span.0).value);
  }

  /** A trend sentence is one line when its ticker is. */
  lemma TrendSentenceSingleLine(ticker: string, days: int, t: Trend)
    ensures '\n' in TrendSentence(ticker, days, t) ==> '\n' in ticker
  {
    var digits := IntToString(days);
    assert '\n' !in digits by {
      assert forall i :: 0 <= i < |digits| ==> IsNumeral(digits[i]);
    }
    var afterWord := " relative to the " + (digits + " day moving average.");
    assert '\n' !in afterWord;
    assert '\n' !in TrendName(t) + afterWord;
  }

  /** `line` reads back as a trend sentence about `ticker` for window `days`
      whose trend is the one `price` has against `average`. */
  predicate ReportsTrend(ticker: string, line: string, days: int, price: real, average: real) {
    && ParseTrendSentence(ticker, line).Some?
    && ParseTrendSentence(ticker, line).value.1 == days
    && (ParseTrendSentence(ticker, line).value.0 == Uptrend <==> price > average)
    && (ParseTrendSentence(ticker, line).value.0 == Downtrend <==> price < average)
    && (ParseTrendSentence(ticker, line).value.0 == Equal <==> price == average)
  }

  /** A line reports a trend exactly when it is the sentence the bot prints
      for the trend the price has against the average. */
  lemma ReportsTrendExactly(ticker: string, line: string, days: int, price: real, average: real)
    ensures ReportsTrend(ticker, line, days, price, average)
        <==> line == TrendSentence(ticker, days, ClassifyTrend(price, average).value)
  {
    var t := ClassifyTrend(price, average).value;
    if ReportsTrend(ticker, line, days, price, average) {
      ParseTrendSentenceOnlyCanonical(ticker, line);
    }
    TrendSentenceRoundTrip(ticker, days, t);
  }

  /** `findTrends(ticker, days)` given the history's closes and the current
      price: the sentence that places the price against the moving average,
      or the IndexError that computing the average raises. */
  function FindTrends(closes: seq<real>, price: real, ticker: string, days: int): (r: Result<string>)
    ensures r.Ok? <==> 1 - |closes| <= days <= |closes|
    ensures r.Err? ==> r.error == IndexError
    ensures r.Ok? ==> ReportsTrend(ticker, r.value, days, price, MovingAverage(closes, days).value)
    ensures r.Ok? && '\n' !in ticker ==> '\n' !in r.value
  {
    var average :- MovingAverage(closes, days);
    match ClassifyTrend(price, average)
    case Ok(trend) =>
      TrendSentenceRoundTrip(ticker, days, trend);
      TrendSentenceSingleLine(ticker, days, trend);
      Ok(TrendSentence(ticker, days, trend))
    case Err(unbound) => Err(unbound)
  }
}
