/**
 * The news-mention collector: one pass over the tracked coins that asks a
 * news provider for each coin's recent articles, turns every article into a
 * mention, scores the mention's sentiment and inserts it into the chat_data
 * table.
 *
 * The collaborators the collector calls but that are not modelled (the news
 * provider, the polarity scorer and the database's answer to an insert) are
 * oracles, gathered in Backend. The clock is a parameter.
 */
module CollectChat {
  import opened Wrappers

  /** A field of an article as the provider's JSON has it: key missing, value null, or a string. */
  datatype Field = Absent | Null | Text(value: string)

  datatype Article = Article(title: Field, description: Field, url: Field)

  /** One row of the Coins table. */
  datatype Coin = Coin(id: int, symbol: string, fullName: string)

  /** One row of the chat_source table. */
  datatype SourceRow = SourceRow(id: int, name: string)

  /** A mention built from an article, before it is scored; `url` is None when the provider sent null. */
  datatype Mention = Mention(sourceId: int, content: string, url: Option<string>)

  datatype Label = Positive | Negative | Neutral

  datatype Sentiment = Sentiment(score: real, sentimentLabel: Label)

  /** One row of the chat_data table. */
  datatype ChatRow = ChatRow(timestamp: int, coinId: int, sourceId: int, content: string,
                             score: real, sentimentLabel: Label, url: Option<string>)

  /**
   * The external collaborators:
   * - newsApi: the provider's articles for a coin; None when the call raises
   *   or its reply has no article list;
   * - textBlob: the polarity of a text; None when scoring raises;
   * - insertOk: whether inserting and committing a row succeeds against the
   *   table as it stands.
   */
  datatype Backend = Backend(
    newsApi: Coin -> Option<seq<Article>>,
    textBlob: string -> Option<real>,
    insertOk: (seq<ChatRow>, ChatRow) -> bool)

  // ------------------------------------------------------------ sentiment

  /** The label agrees with the sign of the score. */
  predicate LabelMatchesSign(s: Sentiment)
  {
    && (s.sentimentLabel == Positive <==> s.score > 0.0)
    && (s.sentimentLabel == Negative <==> s.score < 0.0)
    && (s.sentimentLabel == Neutral <==> s.score == 0.0)
  }

  /** Scores a text; a scorer failure falls back to a neutral zero and never escapes. */
  function AnalyzeSentiment(text: string, textBlob: string -> Option<real>): (r: Sentiment)
    ensures textBlob(text).None? ==> r == Sentiment(0.0, Neutral)
    ensures textBlob(text).Some? ==> r.score == textBlob(text).value
    ensures r.sentimentLabel == Positive <==> r.score > 0.0
    ensures r.sentimentLabel == Negative <==> r.score < 0.0
    ensures r.sentimentLabel == Neutral <==> r.score == 0.0
  {
    match textBlob(text)
    case None => Sentiment(0.0, Neutral)
    case Some(score) =>
      if score > 0.0 then Sentiment(score, Positive)
      else if score < 0.0 then Sentiment(score, Negative)
      else Sentiment(score, Neutral)
  }

  // -------------------------------------------------------------- sources

  /** The name-to-id map of the chat sources; on a repeated name the later row wins. */
  function SourceMap(rows: seq<SourceRow>): (m: map<string, int>)
    ensures m.Keys == set i | 0 <= i < |rows| :: rows[i].name
  {
    if rows == [] then map[]
    else
      var last := rows[|rows| - 1];
      SourceMap(rows[..|rows| - 1])[last.name := last.id]
  }

  /** Every name maps to the id of the last row that carries that name. */
  lemma {:induction false} SourceMapLastRowWins(rows: seq<SourceRow>, name: string)
    requires name in SourceMap(rows)
    ensures exists i :: 0 <= i < |rows| && rows[i].name == name && SourceMap(rows)[name] == rows[i].id
                        && forall j :: i < j < |rows| ==> rows[j].name != name
  {
    var n := |rows| - 1;
    if rows[n].name != name {
      var init := rows[..n];
      SourceMapLastRowWins(init, name);
      var i :| 0 <= i < |init| && init[i].name == name && SourceMap(init)[name] == init[i].id
               && forall j :: i < j < |init| ==> init[j].name != name;
      assert rows[i] == init[i];
      assert forall j :: i < j < |rows| ==> rows[j].name != name by {
        forall j | i < j < |rows| ensures rows[j].name != name {
          if j < n { assert rows[j] == init[j]; }
        }
      }
    }
  }

  // ------------------------------------------------------------- mentions

  /** `description or ""`: a null description counts as empty text. */
  function DescriptionText(d: Field): string
  {
    if d.Text? then d.value else ""
  }

  function UrlValue(u: Field): Option<string>
  {
    if u.Text? then Some(u.value) else None
  }

  /**
   * The mention record built from one article; None when building it raises:
   * no "News" source (KeyError), a missing or null title (KeyError, or a null
   * added to a string), a missing description or url key (KeyError).
   */
  function BuildMention(a: Article, sources: map<string, int>): Option<Mention>
  {
    if "News" !in sources || !a.title.Text? || a.description.Absent? || a.url.Absent? then None
    else Some(Mention(sources["News"], a.title.value + " " + DescriptionText(a.description), UrlValue(a.url)))
  }

  /**
   * The mentions gathered from an article list: one per article, in order,
   * until the first article whose mention cannot be built; the exception
   * ends the loop and what was built so far is kept.
   */
  function NewsMentions(articles: seq<Article>, sources: map<string, int>): (r: seq<Mention>)
    ensures |r| <= |articles|
    ensures forall i :: 0 <= i < |r| ==> BuildMention(articles[i], sources) == Some(r[i])
    ensures |r| < |articles| ==> BuildMention(articles[|r|], sources).None?
  {
    if articles == [] then []
    else match BuildMention(articles[0], sources)
      case None => []
      case Some(m) => [m] + NewsMentions(articles[1..], sources)
  }

  /** The mentions from article i on: none when article i fails, else its mention and those after it. */
  lemma NewsMentionsFrom(articles: seq<Article>, i: nat, sources: map<string, int>)
    requires i < |articles|
    ensures NewsMentions(articles[i..], sources)
            == match BuildMention(articles[i], sources)
               case None => []
               case Some(m) => [m] + NewsMentions(articles[i + 1..], sources)
  {
    assert articles[i..][0] == articles[i];
    assert articles[i..][1..] == articles[i + 1..];
  }

  /** The mentions of one provider reply; a failed call gives none. */
  function Collected(reply: Option<seq<Article>>, sources: map<string, int>): seq<Mention>
  {
    match reply
    case None => []
    case Some(articles) => NewsMentions(articles, sources)
  }

  /** The fields every mention needs are present. */
  predicate Complete(a: Article)
  {
    a.title.Text? && !a.description.Absent? && !a.url.Absent?
  }

  /** Without an error, exactly one mention per article, in article order, built from that article. */
  lemma OneMentionPerArticle(articles: seq<Article>, sources: map<string, int>)
    requires "News" in sources
    requires forall i :: 0 <= i < |articles| ==> Complete(articles[i])
    ensures |NewsMentions(articles, sources)| == |articles|
    ensures forall i :: 0 <= i < |articles| ==>
      NewsMentions(articles, sources)[i] ==
        Mention(sources["News"], articles[i].title.value + " " + DescriptionText(articles[i].description),
                UrlValue(articles[i].url))
  {
  }

  /** Whatever the articles, the result is a prefix of the list built with every error removed. */
  lemma MentionsArePrefixOfFullList(articles: seq<Article>, sources: map<string, int>, more: seq<Article>)
    ensures NewsMentions(articles, sources) <= NewsMentions(articles + more, sources)
  {
  }

  /** Without a "News" source no mention is built. */
  lemma NoNewsSourceNoMentions(reply: Option<seq<Article>>, sources: map<string, int>)
    requires "News" !in sources
    ensures Collected(reply, sources) == []
  {
  }

  // ---------------------------------------------------------------- saving

  /** The row inserted for one mention: the shared coin and time, and the mention's scored content. */
  function MentionRow(coinId: int, m: Mention, now: int, textBlob: string -> Option<real>): ChatRow
  {
    var s := AnalyzeSentiment(m.content, textBlob);
    ChatRow(now, coinId, m.sourceId, m.content, s.score, s.sentimentLabel, m.url)
  }

  /** The rows the saving loop tries to insert: one per mention, in order. */
  function Attempts(coinId: int, mentions: seq<Mention>, now: int, textBlob: string -> Option<real>): seq<ChatRow>
  {
    seq(|mentions|, i requires 0 <= i < |mentions| => MentionRow(coinId, mentions[i], now, textBlob))
  }

  /** One insert attempt: the row is appended when the database accepts it, otherwise the table is unchanged. */
  function Attempt(table: seq<ChatRow>, row: ChatRow, insertOk: (seq<ChatRow>, ChatRow) -> bool): seq<ChatRow>
  {
    if insertOk(table, row) then table + [row] else table
  }

  /** chat_data after saving the mentions of one coin at time `now`. */
  function SaveAll(table: seq<ChatRow>, coinId: int, mentions: seq<Mention>, now: int, b: Backend): seq<ChatRow>
    decreases |mentions|
  {
    if mentions == [] then table
    else
      var n := |mentions| - 1;
      Attempt(SaveAll(table, coinId, mentions[..n], now, b), MentionRow(coinId, mentions[n], now, b.textBlob), b.insertOk)
  }

  /** The database's answer to each insert attempt, in order. */
  function Outcomes(table: seq<ChatRow>, coinId: int, mentions: seq<Mention>, now: int, b: Backend): (r: seq<bool>)
    decreases |mentions|
  {
    if mentions == [] then []
    else
      var n := |mentions| - 1;
      Outcomes(table, coinId, mentions[..n], now, b)
        + [b.insertOk(SaveAll(table, coinId, mentions[..n], now, b), MentionRow(coinId, mentions[n], now, b.textBlob))]
  }

  /** The rows whose mask entry is true, in order. */
  function Select<T>(xs: seq<T>, mask: seq<bool>): seq<T>
    requires |xs| == |mask|
    decreases |xs|
  {
    if xs == [] then []
    else
      var n := |xs| - 1;
      Select(xs[..n], mask[..n]) + (if mask[n] then [xs[n]] else [])
  }

  /**
   * Saving appends to the table exactly the attempted rows whose insert
   * succeeded, in mention order; a failed insert is skipped and every later
   * mention is still attempted.
   */
  lemma {:induction false} SaveAllStoresAcceptedRows(table: seq<ChatRow>, coinId: int, mentions: seq<Mention>, now: int, b: Backend)
    ensures |Outcomes(table, coinId, mentions, now, b)| == |mentions|
    ensures SaveAll(table, coinId, mentions, now, b)
            == table + Select(Attempts(coinId, mentions, now, b.textBlob), Outcomes(table, coinId, mentions, now, b))
    decreases |mentions|
  {
    if mentions != [] {
      var n := |mentions| - 1;
      SaveAllStoresAcceptedRows(table, coinId, mentions[..n], now, b);
      var rows := Attempts(coinId, mentions, now, b.textBlob);
      assert rows[..n] == Attempts(coinId, mentions[..n], now, b.textBlob);
      var oc := Outcomes(table, coinId, mentions, now, b);
      assert oc[..n] == Outcomes(table, coinId, mentions[..n], now, b);
    }
  }

  /** Attempt k is answered against the table as the first k attempts left it. */
  lemma {:induction false} OutcomeOfAttempt(table: seq<ChatRow>, coinId: int, mentions: seq<Mention>, now: int, b: Backend, k: nat)
    requires k < |mentions|
    ensures |Outcomes(table, coinId, mentions, now, b)| == |mentions|
    ensures Outcomes(table, coinId, mentions, now, b)[k]
            == b.insertOk(SaveAll(table, coinId, mentions[..k], now, b), MentionRow(coinId, mentions[k], now, b.textBlob))
    decreases |mentions|
  {
    SaveAllStoresAcceptedRows(table, coinId, mentions, now, b);
    var n := |mentions| - 1;
    if k < n {
      OutcomeOfAttempt(table, coinId, mentions[..n], now, b, k);
      assert mentions[..n][..k] == mentions[..k];
    }
  }

  /** A row saved for a coin: that coin's id, the shared time, one mention's fields and its sentiment. */
  predicate SavedFrom(row: ChatRow, coinId: int, now: int, mentions: seq<Mention>, textBlob: string -> Option<real>)
  {
    && row.coinId == coinId
    && row.timestamp == now
    && Sentiment(row.score, row.sentimentLabel) == AnalyzeSentiment(row.content, textBlob)
    && exists m :: m in mentions && row.sourceId == m.sourceId && row.content == m.content && row.url == m.url
  }

  /** Saving only appends, and every appended row carries the coin, the one timestamp and the content's sentiment. */
  lemma {:induction false} SaveAllRowsShape(table: seq<ChatRow>, coinId: int, mentions: seq<Mention>, now: int, b: Backend)
    ensures table <= SaveAll(table, coinId, mentions, now, b)
    ensures forall i :: |table| <= i < |SaveAll(table, coinId, mentions, now, b)| ==>
      SavedFrom(SaveAll(table, coinId, mentions, now, b)[i], coinId, now, mentions, b.textBlob)
    decreases |mentions|
  {
    if mentions != [] {
      var n := |mentions| - 1;
      var init := mentions[..n];
      SaveAllRowsShape(table, coinId, init, now, b);
      var before := SaveAll(table, coinId, init, now, b);
      var after := SaveAll(table, coinId, mentions, now, b);
      forall i | |table| <= i < |after| ensures SavedFrom(after[i], coinId, now, mentions, b.textBlob) {
        if i < |before| {
          assert after[i] == before[i];
          assert SavedFrom(before[i], coinId, now, init, b.textBlob);
          var m :| m in init && before[i].sourceId == m.sourceId && before[i].content == m.content && before[i].url == m.url;
          assert m in mentions;
        } else {
          assert after[i] == MentionRow(coinId, mentions[n], now, b.textBlob);
          assert mentions[n] in mentions;
        }
      }
    }
  }

  // ------------------------------------------------------------ the cycle

  /**
   * chat_data after the loop over `coins`: for each coin in order, collect its
   * mentions and save them at the time the clock gives for that coin's turn.
   */
  function CollectAll(table: seq<ChatRow>, coins: seq<Coin>, sources: map<string, int>, clock: nat -> int, b: Backend): seq<ChatRow>
    decreases |coins|
  {
    if coins == [] then table
    else
      var k := |coins| - 1;
      SaveAll(CollectAll(table, coins[..k], sources, clock, b), coins[k].id,
              Collected(b.newsApi(coins[k]), sources), clock(k), b)
  }

  /**
   * The rows saved for the first k coins are a prefix of the rows saved for
   * all of them: coins are handled in order and earlier rows are never changed.
   */
  lemma {:induction false} CollectAllInCoinOrder(table: seq<ChatRow>, coins: seq<Coin>, k: nat, sources: map<string, int>, clock: nat -> int, b: Backend)
    requires k <= |coins|
    ensures table <= CollectAll(table, coins[..k], sources, clock, b) <= CollectAll(table, coins, sources, clock, b)
    decreases |coins|
  {
    if k == |coins| {
      assert coins[..k] == coins;
      if coins != [] {
        var n := |coins| - 1;
        CollectAllInCoinOrder(table, coins[..n], n, sources, clock, b);
        assert coins[..n][..n] == coins[..n];
        SaveAllRowsShape(CollectAll(table, coins[..n], sources, clock, b), coins[n].id,
                         Collected(b.newsApi(coins[n]), sources), clock(n), b);
      }
    } else {
      var n := |coins| - 1;
      CollectAllInCoinOrder(table, coins[..n], k, sources, clock, b);
      assert coins[..n][..k] == coins[..k];
      SaveAllRowsShape(CollectAll(table, coins[..n], sources, clock, b), coins[n].id,
                       Collected(b.newsApi(coins[n]), sources), clock(n), b);
    }
  }

  /** A row saved by the cycle: some coin's id and turn time, the "News" source, and a label matching the score's sign. */
  predicate CycleRow(row: ChatRow, coins: seq<Coin>, sources: map<string, int>, clock: nat -> int)
  {
    && "News" in sources
    && row.sourceId == sources["News"]
    && LabelMatchesSign(Sentiment(row.score, row.sentimentLabel))
    && exists k :: 0 <= k < |coins| && row.coinId == coins[k].id && row.timestamp == clock(k)
  }

  /** Every row the cycle appends is a news mention of one of the coins, stamped with that coin's turn time. */
  lemma {:induction false} CollectAllRowsShape(table: seq<ChatRow>, coins: seq<Coin>, sources: map<string, int>, clock: nat -> int, b: Backend)
    ensures table <= CollectAll(table, coins, sources, clock, b)
    ensures forall i :: |table| <= i < |CollectAll(table, coins, sources, clock, b)| ==>
      CycleRow(CollectAll(table, coins, sources, clock, b)[i], coins, sources, clock)
    decreases |coins|
  {
    if coins != [] {
      var n := |coins| - 1;
      var before := CollectAll(table, coins[..n], sources, clock, b);
      var mentions := Collected(b.newsApi(coins[n]), sources);
      var after := CollectAll(table, coins, sources, clock, b);
      CollectAllRowsShape(table, coins[..n], sources, clock, b);
      SaveAllRowsShape(before, coins[n].id, mentions, clock(n), b);
      forall i | |table| <= i < |after| ensures CycleRow(after[i], coins, sources, clock) {
        if i < |before| {
          assert after[i] == before[i];
          var k :| 0 <= k < n && before[i].coinId == coins[..n][k].id && before[i].timestamp == clock(k);
          assert coins[..n][k] == coins[k];
        } else {
          var row := after[i];
          assert SavedFrom(row, coins[n].id, clock(n), mentions, b.textBlob);
          var m :| m in mentions && row.sourceId == m.sourceId && row.content == m.content && row.url == m.url;
          var j :| 0 <= j < |mentions| && mentions[j] == m;
          assert BuildMention(b.newsApi(coins[n]).value[j], sources) == Some(m);
        }
      }
    }
  }

  /** Without a "News" source the cycle stores nothing. */
  lemma {:induction false} NoNewsSourceNothingSaved(table: seq<ChatRow>, coins: seq<Coin>, sources: map<string, int>, clock: nat -> int, b: Backend)
    requires "News" !in sources
    ensures CollectAll(table, coins, sources, clock, b) == table
    decreases |coins|
  {
    if coins != [] {
      var n := |coins| - 1;
      NoNewsSourceNothingSaved(table, coins[..n], sources, clock, b);
      NoNewsSourceNoMentions(b.newsApi(coins[n]), sources);
    }
  }

  // ------------------------------------------------------------ collector

  /** The collector object: its oracles, the loaded source map and the chat_data table its inserts reach. */
  class ChatCollector {
    const backend: Backend
    /** The Coins query: its rows, or None when it raises. */
    const coinQuery: Option<seq<Coin>>
    var sources: map<string, int>
    var chatData: seq<ChatRow>

    /** Connects (modelled as given), then loads the chat sources. */
    constructor (backend: Backend, coinQuery: Option<seq<Coin>>, sourceRows: seq<SourceRow>, chatData: seq<ChatRow>)
      ensures this.backend == backend && this.coinQuery == coinQuery
      ensures sources == SourceMap(sourceRows) && this.chatData == chatData
    {
      this.backend := backend;
      this.coinQuery := coinQuery;
      this.chatData := chatData;
      sources := map[];
      new;
      LoadSources(sourceRows);
    }

    method LoadSources(rows: seq<SourceRow>)
      modifies this`sources
      ensures sources == SourceMap(rows)
    {
      sources := SourceMap(rows);
    }

    /** The mentions for one coin; never fails, a failure keeps what was built before it. */
    method CollectNewsMentions(coin: Coin) returns (mentions: seq<Mention>)
      ensures mentions == Collected(backend.newsApi(coin), sources)
    {
      mentions := [];
      var reply := backend.newsApi(coin);
      if reply.None? {
        return;
      }
      var articles := reply.value;
      var i := 0;
      while i < |articles|
        invariant 0 <= i <= |articles|
        invariant NewsMentions(articles, sources) == mentions + NewsMentions(articles[i..], sources)
      {
        NewsMentionsFrom(articles, i, sources);
        var m := BuildMention(articles[i], sources);
        if m.None? {
          break;
        }
        mentions := mentions + [m.value];
        i := i + 1;
      }
    }

    /** Inserts one row per mention under a single timestamp; a failed insert is skipped. */
    method SaveMentions(coinId: int, mentions: seq<Mention>, now: int)
      modifies this`chatData
      ensures chatData == SaveAll(old(chatData), coinId, mentions, now, backend)
    {
      ghost var table := chatData;
      var currentTime := now;
      var i := 0;
      while i < |mentions|
        invariant 0 <= i <= |mentions|
        invariant chatData == SaveAll(table, coinId, mentions[..i], currentTime, backend)
      {
        var s := AnalyzeSentiment(mentions[i].content, backend.textBlob);
        var row := ChatRow(currentTime, coinId, mentions[i].sourceId, mentions[i].content, s.score, s.sentimentLabel, mentions[i].url);
        if backend.insertOk(chatData, row) {
          chatData := chatData + [row];
        }
        assert mentions[..i + 1][..i] == mentions[..i];
        i := i + 1;
      }
      assert mentions[..i] == mentions;
    }

    /** Collects then saves for every coin in query order; reports whether the loop ran. */
    method CollectChatData(clock: nat -> int) returns (success: bool)
      modifies this`chatData
      ensures success <==> coinQuery.Some?
      ensures chatData == if success then CollectAll(old(chatData), coinQuery.value, sources, clock, backend) else old(chatData)
    {
      if coinQuery.None? {
        return false;
      }
      var coins := coinQuery.value;
      ghost var table := chatData;
      for k := 0 to |coins|
        invariant chatData == CollectAll(table, coins[..k], sources, clock, backend)
      {
        var mentions := CollectNewsMentions(coins[k]);
        SaveMentions(coins[k].id, mentions, clock(k));
        assert coins[..k + 1][..k] == coins[..k];
      }
      assert coins[..|coins|] == coins;
      return true;
    }
  }

  /** The script's entry point: build a collector, run one cycle, exit 0 exactly when the cycle succeeded. */
  method RunCollector(backend: Backend, coinQuery: Option<seq<Coin>>, sourceRows: seq<SourceRow>,
                      table: seq<ChatRow>, clock: nat -> int)
    returns (exitCode: int, stored: seq<ChatRow>)
    ensures exitCode == 0 <==> coinQuery.Some?
    ensures exitCode == 0 || exitCode == 1
    ensures stored == if coinQuery.Some? then CollectAll(table, coinQuery.value, SourceMap(sourceRows), clock, backend) else table
  {
    var collector := new ChatCollector(backend, coinQuery, sourceRows, table);
    var success := collector.CollectChatData(clock);
    exitCode := if success then 0 else 1;
    stored := collector.chatData;
  }
}
