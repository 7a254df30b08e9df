/** The field parsing in `run_lambda`: the decoded form body of a Slack slash
    command is searched three times with one substring rule, for the ticker
    text, the requesting user's name and the channel id. */
module SlackRequest {
  import opened Wrappers
  import opened Text

  datatype Field = TickerText | UserName | ChannelId

  /** The text the bot searches for to find each field. */
  function Key(f: Field): (key: string)
    ensures 0 < |key| && '&' !in key
  {
    match f
    case TickerText => "text="
    case UserName => "user_name="
    case ChannelId => "channel_id="
  }

  /** `v` is the value the bot reads for field `f`: the first occurrence of
      the field's key in `body` is followed by `v` and then an `&`, and `v`
      holds no `&`. */
  predicate IsFieldValue(body: string, f: Field, v: string) {
    && StrIndex(body, Key(f)).Ok?
    && OccursAt(body, Key(f) + v + "&", StrIndex(body, Key(f)).value)
    && '&' !in v
  }

  lemma OccursAtChar(s: string, c: char, j: int)
    ensures OccursAt(s, [c], j) <==> 0 <= j < |s| && s[j] == c
  {
    if 0 <= j < |s| {
      assert s[j..j + 1] == [s[j]];
    }
  }

  /** What the cut `body[index..]` looks like when `key + v + "&"` occurs at `index`. */
  lemma ValueShape(body: string, key: string, v: string, index: nat)
    requires OccursAt(body, key + v + "&", index)
    ensures |key| + |v| < |body[index..]|
    ensures body[index..][..|key|] == key
    ensures body[index..][|key|..|key| + |v|] == v
    ensures OccursAt(body[index..], "&", |key| + |v|)
  {
    var w := body[index..];
    assert w[..|key| + |v| + 1] == key + v + "&";
    assert w[..|key|] == (key + v + "&")[..|key|] == key;
    assert w[|key|..|key| + |v|] == (key + v + "&")[|key|..|key| + |v|] == v;
    OccursAtChar(w, '&', |key| + |v|);
  }

  /** Whatever value a field has, an `&` stands right after it. */
  lemma FieldValueFollowedByAmpersand(body: string, f: Field, index: nat)
    requires StrIndex(body, Key(f)) == Ok(index)
    ensures index <= |body|
    ensures forall v :: IsFieldValue(body, f, v) ==> OccursAt(body[index..], "&", |Key(f)| + |v|)
  {
    forall v | IsFieldValue(body, f, v)
      ensures OccursAt(body[index..], "&", |Key(f)| + |v|)
    {
      ValueShape(body, Key(f), v, index);
    }
  }

  /** The first `&` after the key lies past the key's last character. */
  lemma AmpersandAfterKey(w: string, key: string, ending: nat)
    requires |key| <= |w| && w[..|key|] == key && '&' !in key
    requires OccursAt(w, "&", ending)
    ensures |key| <= ending < |w|
  {
    OccursAtChar(w, '&', ending);
    assert forall k :: 0 <= k < |key| ==> w[k] == key[k];
  }

  /** No `&` stands before the first one. */
  lemma NoAmpersandBefore(w: string, ending: nat)
    requires forall j :: 0 <= j < ending ==> !OccursAt(w, "&", j)
    requires ending <= |w|
    ensures '&' !in w[..ending]
  {
    forall k | 0 <= k < ending
      ensures w[k] != '&'
    {
      OccursAtChar(w, '&', k);
    }
  }

  /** A value of the field ends at the first `&` after the key. */
  lemma FieldValueEndsAtFirstAmpersand(body: string, f: Field, index: nat, ending: nat, v: string)
    requires StrIndex(body, Key(f)) == Ok(index)
    requires index <= |body|
    requires StrIndex(body[index..], "&") == Ok(ending)
    requires IsFieldValue(body, f, v)
    ensures ending == |Key(f)| + |v| && v == body[index..][|Key(f)|..ending]
  {
    var key := Key(f);
    var w := body[index..];
    ValueShape(body, key, v, index);
    OccursAtChar(w, '&', ending);
    assert forall k :: |key| <= k < |key| + |v| ==> w[k] == v[k - |key|];
    assert forall k :: 0 <= k < |key| ==> w[k] == key[k];
  }

  /** What lies between the key and the first `&` after it is a value of the field. */
  lemma BetweenIsFieldValue(body: string, f: Field, index: nat, ending: nat)
    requires StrIndex(body, Key(f)) == Ok(index)
    requires index <= |body|
    requires StrIndex(body[index..], "&") == Ok(ending)
    ensures |Key(f)| <= ending < |body[index..]|
    ensures IsFieldValue(body, f, body[index..][|Key(f)|..ending])
  {
    var key := Key(f);
    var w := body[index..];
    assert w[..|key|] == body[index..index + |key|] == key;
    AmpersandAfterKey(w, key, ending);
    NoAmpersandBefore(w, ending);
    var value := w[|key|..ending];
    assert '&' !in value by {
      assert forall k :: 0 <= k < |value| ==> value[k] == w[..ending][|key| + k];
    }
    OccursAtChar(w, '&', ending);
    assert w[..ending + 1] == key + value + "&";
    assert body[index..index + |key + value + "&"|] == w[..ending + 1];
  }

  /** Once the key and the `&` after it are found, the field's one value is
      what lies between them. */
  lemma FieldValueBetween(body: string, f: Field, index: nat, ending: nat)
    requires StrIndex(body, Key(f)) == Ok(index)
    requires index <= |body|
    requires StrIndex(body[index..], "&") == Ok(ending)
    ensures |Key(f)| <= ending < |body[index..]|
    ensures forall v :: IsFieldValue(body, f, v) <==> v == body[index..][|Key(f)|..ending]
  {
    BetweenIsFieldValue(body, f, index, ending);
    forall v | IsFieldValue(body, f, v)
      ensures v == body[index..][|Key(f)|..ending]
    {
      FieldValueEndsAtFirstAmpersand(body, f, index, ending, v);
    }
  }

  /** The substring rule of `run_lambda` for one field: find the key, cut the
      body from there, find the first `&` in the cut, and take what lies
      between the key and that `&`. A missing key or a missing `&` makes
      `str.index` raise ValueError. */
  function ExtractField(body: string, f: Field): (r: Result<string>)
    ensures r.Ok? ==> IsFieldValue(body, f, r.value)
    ensures r.Ok? ==> forall v :: IsFieldValue(body, f, v) <==> v == r.value
    ensures r.Err? ==> r.error == ValueError && forall v :: !IsFieldValue(body, f, v)
  {
    var key := Key(f);
    match StrIndex(body, key)
    case Err(notFound) => Err(notFound)
    case Ok(index) =>
      FieldValueFollowedByAmpersand(body, f, index);
      var input := body[index..];
      match StrIndex(input, "&")
      case Err(notFound) => Err(notFound)
      case Ok(ending) =>
        FieldValueBetween(body, f, index, ending);
        Ok(input[|key|..ending])
  }

  /** The key does not begin inside `pre`, that is before the position where
      `pre` places it. */
  predicate KeyFirstAfter(pre: string, f: Field) {
    forall j :: 0 <= j < |pre| ==> !OccursAt(pre + Key(f), Key(f), j)
  }

  lemma OccursAtPrefix(s: string, t: string, pat: string, j: int)
    requires j + |pat| <= |s|
    ensures OccursAt(s + t, pat, j) <==> OccursAt(s, pat, j)
  {
    if 0 <= j {
      assert (s + t)[j..j + |pat|] == s[j..j + |pat|];
    }
  }

  /** A form body that carries `key` + `v` + `&`, with the key not met
      earlier, yields `v` for that field. */
  lemma ExtractFieldOfForm(pre: string, f: Field, v: string, post: string)
    requires KeyFirstAfter(pre, f)
    requires '&' !in v
    ensures ExtractField(pre + Key(f) + v + "&" + post, f) == Ok(v)
  {
    var key := Key(f);
    var body := pre + key + v + "&" + post;
    var head := pre + key;
    assert body == head + (v + "&" + post);
    assert body[|pre|..|pre| + |key|] == key;
    assert OccursAt(body, key, |pre|);
    forall j | 0 <= j < |pre|
      ensures !OccursAt(body, key, j)
    {
      OccursAtPrefix(head, v + "&" + post, key, j);
    }
    assert StrIndex(body, key) == Ok(|pre|);
    assert body[|pre|..|pre| + |key + v + "&"|] == key + v + "&";
    assert IsFieldValue(body, f, v);
  }

  /** The three fields the bot reads from a request. */
  datatype Request = Request(ticker: string, username: string, channel: string)

  /** A field the body carries a value for. */
  ghost predicate HasField(body: string, f: Field) {
    exists v :: IsFieldValue(body, f, v)
  }

  /** The three extractions of `run_lambda`, in its order: ticker text, user
      name, channel id. The first that fails raises ValueError. */
  function ParseRequest(body: string): (r: Result<Request>)
    ensures r.Ok? <==> HasField(body, TickerText) && HasField(body, UserName) && HasField(body, ChannelId)
    ensures r.Err? ==> r.error == ValueError
    ensures r.Ok? ==>
      && IsFieldValue(body, TickerText, r.value.ticker)
      && IsFieldValue(body, UserName, r.value.username)
      && IsFieldValue(body, ChannelId, r.value.channel)
  {
    var ticker :- ExtractField(body, TickerText);
    var username :- ExtractField(body, UserName);
    var channel :- ExtractField(body, ChannelId);
    Ok(Request(ticker, username, channel))
  }
}
