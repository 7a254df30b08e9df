/** `run_lambda`: read the three fields of the request, build the report for
    windows of 12, 30 and 60 days, and hand the message to the webhook and
    the chart upload. The market data arrive as parameters. */
module DowBot {
  import opened Wrappers
  import opened Text
  import opened MovingAverages
  import opened Trends
  import opened Crossovers
  import opened SlackRequest

  const ShortTimeframe := 12
  const MediumTimeframe := 30
  const LongTimeframe := 60

  /** The Slack mention of the requesting user that opens the message. */
  function Mention(username: string): (line: string)
    ensures '\n' in line ==> '\n' in username
  {
    "<@" + username + ">"
  }

  /** The closing line, which keeps the space the code puts after its newline. */
  function GraphsLine(ticker: string): string {
    " These are the graphs for " + ticker + " over the last year."
  }

  /** The message `run_lambda` assembles, one piece per line: the mention,
      the trends for 12, 30 and 60 days, the 12-against-30 crossover and the
      closing line. Each piece is computed in that order and the first
      failure propagates. */
  function BuildMessage(closes: seq<real>, price: real, ticker: string, username: string): (r: Result<string>)
    ensures r == Err(IndexError) <==> |closes| < LongTimeframe
    ensures r == Err(UnboundLocalError) <==>
      LongTimeframe <= |closes| && Mean(closes[..ShortTimeframe]) == Mean(closes[..MediumTimeframe])
    ensures r.Err? ==> r.error == IndexError || r.error == UnboundLocalError
  {
    var shortTrend :- FindTrends(closes, price, ticker, ShortTimeframe);
    var mediumTrend :- FindTrends(closes, price, ticker, MediumTimeframe);
    var longTrend :- FindTrends(closes, price, ticker, LongTimeframe);
    var crossover :- FindMACrossoverTrends(closes, ticker, ShortTimeframe, MediumTimeframe);
    Ok(JoinLines([Mention(username), shortTrend, mediumTrend, longTrend, crossover, GraphsLine(ticker)]))
  }

  /** Six newline-free lines survive joining and splitting. Stated apart
      from the message so that its pieces stay unexpanded here. */
  lemma SplitSixLines(a: string, b: string, c: string, d: string, e: string, f: string)
    requires '\n' !in a && '\n' !in b && '\n' !in c && '\n' !in d && '\n' !in e && '\n' !in f
    ensures SplitLines(JoinLines([a, b, c, d, e, f])) == [a, b, c, d, e, f]
  {
    SplitJoinLines([a, b, c, d, e, f]);
  }

  /** The lines a delivered message is joined from. */
  function MessagePieces(closes: seq<real>, price: real, ticker: string, username: string): seq<string>
    requires LongTimeframe <= |closes|
    requires Mean(closes[..ShortTimeframe]) != Mean(closes[..MediumTimeframe])
  {
    [Mention(username),
     FindTrends(closes, price, ticker, ShortTimeframe).value,
     FindTrends(closes, price, ticker, MediumTimeframe).value,
     FindTrends(closes, price, ticker, LongTimeframe).value,
     FindMACrossoverTrends(closes, ticker, ShortTimeframe, MediumTimeframe).value,
     GraphsLine(ticker)]
  }

  lemma BuildMessageJoinsPieces(closes: seq<real>, price: real, ticker: string, username: string)
    requires LongTimeframe <= |closes|
    requires Mean(closes[..ShortTimeframe]) != Mean(closes[..MediumTimeframe])
    ensures BuildMessage(closes, price, ticker, username).value
         == JoinLines(MessagePieces(closes, price, ticker, username))
  {
  }

  lemma MessageSplitsIntoPieces(closes: seq<real>, price: real, ticker: string, username: string)
    requires LongTimeframe <= |closes|
    requires Mean(closes[..ShortTimeframe]) != Mean(closes[..MediumTimeframe])
    requires '\n' !in ticker && '\n' !in username
    ensures SplitLines(BuildMessage(closes, price, ticker, username).value)
         == MessagePieces(closes, price, ticker, username)
  {
    var pieces := MessagePieces(closes, price, ticker, username);
    assert '\n' !in pieces[1] && '\n' !in pieces[2] && '\n' !in pieces[3] && '\n' !in pieces[4];
    assert '\n' !in pieces[0];
    assert '\n' !in pieces[5] by {
      assert '\n' !in " These are the graphs for " + ticker;
    }
    BuildMessageJoinsPieces(closes, price, ticker, username);
    SplitSixLines(pieces[0], pieces[1], pieces[2], pieces[3], pieces[4], pieces[5]);
    assert [pieces[0], pieces[1], pieces[2], pieces[3], pieces[4], pieces[5]] == pieces;
  }

  /** Read line by line, a delivered message is the mention, three trend
      sentences for 12, 30 and 60 days, the crossover sentence for 12 against
      30 days and the closing line, each reporting what the history and the
      price give. */
  lemma MessageLines(closes: seq<real>, price: real, ticker: string, username: string)
    requires LongTimeframe <= |closes|
    requires Mean(closes[..ShortTimeframe]) != Mean(closes[..MediumTimeframe])
    requires '\n' !in ticker && '\n' !in username
    ensures var lines := SplitLines(BuildMessage(closes, price, ticker, username).value);
      && |lines| == 6
      && lines[0] == "<@" + username + ">"
      && ReportsTrend(ticker, lines[1], 12, price, Mean(closes[..12]))
      && ReportsTrend(ticker, lines[2], 30, price, Mean(closes[..30]))
      && ReportsTrend(ticker, lines[3], 60, price, Mean(closes[..60]))
      && ReportsCrossover(ticker, lines[4], 12, 30, Mean(closes[..12]), Mean(closes[..30]))
      && lines[5] == " These are the graphs for " + ticker + " over the last year."
  {
    MessageSplitsIntoPieces(closes, price, ticker, username);
  }

  /** The body posted to the webhook: the message inside a JSON-looking
      template, inserted as it is, without escaping. */
  function WebhookBody(message: string): string {
    "{\"text\": \"" + message + "\"}"
  }

  /** Reads the message back out of a webhook body. */
  function WebhookText(body: string): Option<string> {
    var rest :- StripPrefix(body, "{\"text\": \"");
    if 2 <= |rest| && rest[|rest| - 2..] == "\"}" then Some(rest[..|rest| - 2]) else None
  }

  lemma WebhookRoundTrip(message: string)
    ensures WebhookText(WebhookBody(message)) == Some(message)
  {
    var rest := message + "\"}";
    assert WebhookBody(message) == "{\"text\": \"" + rest;
    StripPrefixOfConcat("{\"text\": \"", rest);
    assert rest[|rest| - 2..] == "\"}";
    assert rest[..|rest| - 2] == message;
  }

  /** What one invocation hands on: the webhook body, and the channel and
      title of the chart upload. */
  datatype Delivery = Delivery(webhookBody: string, uploadChannel: string, uploadTitle: string)

  /** `run_lambda` on the decoded request body, with the ticker's closes and
      current price given. The fields are read before any data is used, so
      a malformed request fails with ValueError whatever the data; nothing
      is delivered on any failure. */
  function RunLambda(body: string, closes: seq<real>, price: real): (r: Result<Delivery>)
    ensures r == Err(ValueError) <==>
      !(HasField(body, TickerText) && HasField(body, UserName) && HasField(body, ChannelId))
    ensures r.Ok? <==>
      && ParseRequest(body).Ok?
      && BuildMessage(closes, price, ParseRequest(body).value.ticker, ParseRequest(body).value.username).Ok?
    ensures ParseRequest(body).Ok? ==>
      var request := ParseRequest(body).value;
      var message := BuildMessage(closes, price, request.ticker, request.username);
      message.Err? ==> r == Err(message.error)
    ensures r.Ok? ==>
      && ParseRequest(body).Ok?
      && var request := ParseRequest(body).value;
      && BuildMessage(closes, price, request.ticker, request.username).Ok?
      && WebhookText(r.value.webhookBody) == Some(BuildMessage(closes, price, request.ticker, request.username).value)
      && IsFieldValue(body, ChannelId, r.value.uploadChannel)
      && IsFieldValue(body, TickerText, request.ticker)
      && r.value.uploadTitle == request.ticker + " Graphs"
  {
    var request :- ParseRequest(body);
    var message :- BuildMessage(closes, price, request.ticker, request.username);
    WebhookRoundTrip(message);
    Ok(Delivery(WebhookBody(message), request.channel, request.ticker + " Graphs"))
  }
}
