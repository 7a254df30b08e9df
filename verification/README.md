# Dow bot trend logic in Dafny

This project models the decision logic of the Dow bot, a Slack slash-command
handler (`dow_bot.py`). Given a stock ticker, the bot reports three things:

- whether the current price is in an uptrend or a downtrend against its 12-, 30-
  and 60-day moving averages;
- whether the 12-day average is above or below the 30-day one (bullish or bearish);
- a closing line announcing the price chart.

The market data arrive as parameters:

- the year's daily closes, oldest first, as a `seq<real>`;
- the current price, as a `real`;
- the decoded request body, as a `string`.

Every Python exception the code raises on its own becomes an explicit
`Err(...)` of `Wrappers.Result`: `IndexError`, `UnboundLocalError` and
`ValueError`.

Modules, in the order of the program:

- `MovingAverages` models `findMovingAverage`. The reversal on line 59 drops its
  result, so the window starts at the oldest row and ends at the row that
  `df.index[days - 1]` selects. That index follows Python's rules: a negative
  index counts back from the newest row, and any other index out of range
  raises IndexError.
- `Trends` models `findTrends`. It compares the price with one average in three
  ways, then builds the sentence for that trend. It also has a parser that reads
  the sentence back.
- `Crossovers` models `findMACrossoverTrends`. It compares two averages, and
  equal averages leave `trend` unbound. It has the sentence and its parser too.
- `SlackRequest` models the substring rule of `run_lambda`, applied to the
  `text=`, `user_name=` and `channel_id=` fields.
- `DowBot` models the message assembly, the webhook body, and the channel and
  title of the chart upload.
- `Text` holds the string operations these rely on:
  - Python's `str()` of an int, with its inverse;
  - `str.index`;
  - `split("\n")`, used as the inverse of joining the message lines.

Behaviour of `dow_bot.py` that the model keeps as written:

- A window of 0 or less does not fail. `df.index[days - 1]` on line 62 is then
  a negative index, so window 0 averages the whole history (`df.index[-1]`). A
  window `d` with `1 - |closes| <= d <= 0` averages the oldest `|closes| + d`
  closes. Only a window longer than the history, or one at or below
  `-|closes|`, raises IndexError.
- The trend for a price equal to its average is printed `EQUAL` (line 79).
- When the two crossover averages are equal, neither branch of lines 91-96
  assigns `trend`, and line 98 raises UnboundLocalError. The model returns
  `Err(UnboundLocalError)`.
- The averaging window is the oldest N closes of the year, because line 59
  discards the reversed frame (`MovingAverages.MovingAverageIgnoresNewerCloses`).
- A request field fails to parse when its key is missing. It also fails when no
  `&` follows the key, even if the key is present (lines 115-117).

## Model

| member | source | states |
|---|---|---|
| `MovingAverages.RowAt` | dow_bot.py:61-62 | A positional row index succeeds exactly for `-count <= k < count`, and then selects row `k mod count`. Otherwise it fails with IndexError. |
| `MovingAverages.MovingAverage` | dow_bot.py:55-65 | Succeeds exactly when `1 - |closes| <= days <= |closes|`. Otherwise it raises IndexError. For `1 <= days` it is the mean of the oldest `days` closes. For `days <= 0` it is the mean of the oldest `|closes| + days` closes. |
| `MovingAverages.MeanBounds` | dow_bot.py:64 | The mean of a non-empty run of closes lies within any bounds that hold for every close. |
| `MovingAverages.MovingAverageWithinRange` | dow_bot.py:61-64 | For `1 <= days <= |closes|`, the average lies between the least and greatest close of its window, and so between those of the whole history. |
| `MovingAverages.MovingAverageIgnoresNewerCloses` | dow_bot.py:58-64 | Appending newer closes never changes an average that already has enough history, because the reversal is discarded and the window is anchored at the oldest row. |
| `MovingAverages.TwelveDayAverageOfRisingSeries` | dow_bot.py:55-65 | For sixty closes 100, 101, …, 159, the 12-day average is 105.5. |
| `Trends.ClassifyTrend` | dow_bot.py:74-79 | The result is UPTREND iff the price is above the average, DOWNTREND iff below, and EQUAL iff equal. These three cases cover every pair of reals, so the unbound fallback never happens. |
| `Trends.ClassifyTrendMirror` | dow_bot.py:74-79 | Swapping the price and the average turns UPTREND into DOWNTREND and back, and keeps EQUAL. |
| `Trends.TrendSentenceRoundTrip` | dow_bot.py:81 | The sentence "<ticker> is on a <TREND> relative to the <days> day moving average." reads back as exactly the trend and window it was built from. This includes negative windows, which print with a minus sign. |
| `Trends.ParseTrendSentenceOnlyCanonical` | dow_bot.py:81 | Any string that reads back as a trend sentence is exactly the sentence line 81 prints for the trend and window it reads as. |
| `Trends.ReportsTrendExactly` | dow_bot.py:74-81 | A line reports a trend for a window exactly when it is the line-81 sentence for that window and for the trend the price has against the average. |
| `Trends.FindTrends` | dow_bot.py:68-82 | Succeeds exactly when the moving average exists, and otherwise raises IndexError. On success, the line reports the window and the trend the price has against that average. By `Trends.ReportsTrendExactly`, that pins down the sentence character for character. It is one line whenever the ticker is. |
| `Crossovers.ClassifyCrossover` | dow_bot.py:91-96 | BEARISH iff the short average is below the long one, and BULLISH iff it is above. Equal averages give UnboundLocalError. |
| `Crossovers.ClassifyCrossoverSwap` | dow_bot.py:91-96 | Swapping the two averages swaps BULLISH and BEARISH. The equal case fails both ways. |
| `Crossovers.CrossoverSentenceRoundTrip` | dow_bot.py:98-99 | The crossover sentence reads back as its verdict and both windows. Its comparison word, LOWER or HIGHER, agrees with the verdict. |
| `Crossovers.ParseCrossoverSentenceOnlyCanonical` | dow_bot.py:98-99 | Any string that reads back as a crossover sentence is exactly the sentence lines 98-99 print for the verdict and windows it reads as. |
| `Crossovers.ReportsCrossoverExactly` | dow_bot.py:91-99 | When the averages differ, a line reports the crossover exactly when it is the lines 98-99 sentence for both windows and for the verdict the averages give. |
| `Crossovers.FindMACrossoverTrends` | dow_bot.py:87-100 | Raises IndexError iff either average is out of range. Raises UnboundLocalError iff both averages exist and are equal. No other error is raised, so when both averages exist and differ it succeeds, and the line reports both windows and the verdict the averages give. By `Crossovers.ReportsCrossoverExactly`, that pins down the sentence character for character. |
| `Text.IntToStringRoundTrip` | dow_bot.py:81 | The `str()` rendering of any window reads back as the same int. |
| `Text.ParseIntOnlyCanonical` | dow_bot.py:81 | The only string that reads back as an int `n` is `str(n)`. Leading zeros and `-0` are refused, so reading and printing are inverse both ways. |
| `Text.StrIndex` | dow_bot.py:115-117 | `str.index` returns a position where the substring occurs, with no occurrence before it. It raises ValueError exactly when the substring occurs nowhere. |
| `Text.SplitJoinLines` | dow_bot.py:138-144 | Splitting a message joined with newlines gives back its lines, provided no line holds a newline. |
| `SlackRequest.ExtractField` | dow_bot.py:114-118 | The extracted value is the one string that the first occurrence of the key has directly after it, followed by an `&` and containing no `&`. When no such string exists, the extraction raises ValueError. |
| `SlackRequest.ExtractFieldOfForm` | dow_bot.py:121-125 | In a body `pre + key + v + "&" + post`, where the key does not begin inside `pre` and `v` holds no `&`, the field's value is `v`. |
| `SlackRequest.ParseRequest` | dow_bot.py:113-132 | Succeeds exactly when all three fields (text, user_name and channel_id) have values, and returns those values. Otherwise it raises ValueError. |
| `DowBot.BuildMessage` | dow_bot.py:134-144 | Raises IndexError exactly when the history is shorter than 60 closes. Raises UnboundLocalError exactly when the history is long enough and the 12- and 30-day averages are equal. |
| `DowBot.MessageLines` | dow_bot.py:134-144 | With at least 60 closes and unequal 12- and 30-day averages, the message is built and splits into six lines: the mention `<@user>`; trend sentences for 12, 30 and 60 days, each with the trend the price has against that average; the 12-vs-30 crossover sentence; and the closing graphs line. Through `Trends.ReportsTrendExactly` and `Crossovers.ReportsCrossoverExactly`, lines 1-4 are the exact sentences the code prints. |
| `DowBot.WebhookRoundTrip` | dow_bot.py:146 | The message can be read back out of the webhook body. |
| `DowBot.RunLambda` | dow_bot.py:103-152 | Raises ValueError exactly when a request field is missing, whatever the market data. Succeeds exactly when the request parses and the message is built. When the request parses but the message fails, the message's IndexError or UnboundLocalError is passed on unchanged. On success it delivers a webhook body carrying the built message, an upload to the channel id field, and the title "<ticker> Graphs". |

## Left out

- Market data (dow_bot.py:24-25, 56, 70): the `yfinance` fetches are network calls. The closes and current price are parameters instead, and every fetch within one invocation is taken to see the same data. Errors for an unknown ticker are not modelled.
- Dates: the history is a sequence of closes, not a date-indexed frame. The model assumes what the date slice on line 64 relies on: one row per date, in ascending order. Under that assumption, the slice between the dates of two rows is the rows between them.
- `plotStockPriceGraph` (dow_bot.py:23-51): chart rendering and a file write, with no decision logic.
- Delivery (dow_bot.py:147, 152): the HTTP post and the file upload are I/O. Only their arguments are modelled: the webhook body, and the channel and title of the upload. The message is posted before the upload, so a failed upload would leave a partial delivery. That case is not modelled.
- Body decoding (dow_bot.py:109-111): Base64 and ASCII decoding are library calls. The model takes the decoded string as input, and decoding errors are not modelled.
- Credentials and the Slack client (dow_bot.py:13-15): module-level configuration.
- Floating point: prices are exact reals. NaN is not modelled. In Python, a NaN price or average fails every guard of `findTrends` and would raise UnboundLocalError. In the model that fallback cannot be reached. pandas' skipping of missing closes in `mean()` is not modelled either.
- DowBot.MessageLines: stated only for a ticker and a user name without newline characters. A form-encoded body carries a newline only as `%0A`.
