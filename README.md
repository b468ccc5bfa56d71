# Crypto data collector: news-mention pipeline and collector service

This project models the two parts of the crypto data collector that carry logic of their own:

- **The news-mention collector** (`CollectChat.py`, class `ChatCollector`). It loads the chat sources into a name-to-id map. Then it makes one pass over the coins of the Coins table. For each coin it asks the news provider for recent articles and turns each article into a mention: the "News" source id, the title and description as content, and the url. Each mention is scored by the sign of its polarity and inserted into `chat_data` under one timestamp per coin. Errors are swallowed at three levels:
  - A failing article ends that coin's article loop, and the mentions built so far are kept.
  - A failing insert is skipped.
  - Only a failing Coins query makes the pass report failure, which gives exit code 1.
- **The collector service** (`CryptoCollectorService.py`). Its main loop wakes up periodically. It starts `PriceCollector.py` when 7200 s have passed since its last start, and `CollectChat.py` when 14400 s have. Both start on the first iteration. The loop ends once a stop request has cleared the running flag.

Files:

- `wrappers.dfy`: an `Option` type.
- `collect_chat.dfy` (module `CollectChat`):
  - specification functions for sentiment, the source map, mention building, saving and the whole pass (`AnalyzeSentiment`, `SourceMap`, `NewsMentions`, `SaveAll`, `CollectAll`) and the lemmas about them;
  - the class `ChatCollector`, whose loops are proved equal to those functions;
  - the entry point `RunCollector`.
- `collector_service.dfy` (module `CollectorService`):
  - the loop body `Iteration` and the loop `Run` as functions over an event trace;
  - the spacing invariant `Consistent` and the lemmas about it;
  - the class `CryptoCollectorService`, whose `Step` and `MainLoop` are proved against `Iteration` and `Run`.

Collaborators that are not modelled are inputs:

- the news provider's reply for a coin (`Backend.newsApi`, `None` when the call raises or the reply has no article list);
- TextBlob's polarity (`Backend.textBlob`, `None` when scoring raises);
- the database's answer to each insert (`Backend.insertOk`, a function of the table as it stands and the row);
- the Coins query (`ChatCollector.coinQuery`, `None` when it raises);
- the clock (`now`, and `clock(k)` for the k-th coin's save).

On the service side, the environment is a finite trace of `Wake(now)` and `StopRequested` events.

An article's `title`, `description` and `url` are each `Absent` (key missing), `Null` or `Text`. So whether building a mention raises follows from the data:

- a KeyError for a missing "News" source or a missing key;
- a TypeError for a null title.

The design description of this system also speaks of de-duplication, content truncation, per-source quotas and several source adapters. The code has none of these: one news source, no truncation, no duplicate check and no quota. The model follows the code.

## Model

| member | source | states |
|---|---|---|
| `CollectChat.AnalyzeSentiment` | CollectChat.py:55-68 | The label is Positive iff the score is > 0, Negative iff < 0, and Neutral iff = 0. The score is the polarity when scoring succeeds. A scoring failure gives exactly (0, Neutral), so no error escapes. |
| `CollectChat.SourceMap` | CollectChat.py:46-49 | The keys of the loaded source map are exactly the names in the chat_source rows. |
| `CollectChat.SourceMapLastRowWins` | CollectChat.py:49 | Each name maps to the id of the last row carrying it, as the dict comprehension does when a name repeats. |
| `CollectChat.NewsMentions` | CollectChat.py:81-91 | The mentions are, in order, the mentions built from articles 0..n-1, and article n is the first one whose mention cannot be built. So the result is exactly what was built before the exception. |
| `CollectChat.OneMentionPerArticle` | CollectChat.py:81-86 | With a "News" source and every article complete, there is exactly one mention per article, in article order. Each has source id sources["News"], content title + " " + (description or ""), and the article's url. |
| `CollectChat.MentionsArePrefixOfFullList` | CollectChat.py:72-91 | The mentions of an article list are a prefix of the mentions of any longer list that starts with it: a failure only cuts the list short. |
| `CollectChat.NoNewsSourceNoMentions` | CollectChat.py:83-91 | Without a "News" source, or with a failed provider call, no mention is returned. |
| `CollectChat.SaveAllStoresAcceptedRows` | CollectChat.py:93-113 | Saving makes one attempt per mention, in order. The table afterwards is the old table plus exactly the attempted rows whose insert succeeded, in mention order. |
| `CollectChat.OutcomeOfAttempt` | CollectChat.py:96-113 | Attempt k is made whatever happened to attempts 0..k-1. It is answered against the table those attempts left, so a failed insert does not stop the later ones. |
| `CollectChat.SaveAllRowsShape` | CollectChat.py:94-109 | Saving only appends. Every new row has the given coin id, the single timestamp taken before the loop, one mention's source id, content and url, and (score, label) equal to the sentiment of its content. |
| `CollectChat.CollectAllInCoinOrder` | CollectChat.py:121-125 | The rows saved for the first k coins are a prefix of the rows saved for all coins: coins are handled in query order, and earlier rows are never changed. |
| `CollectChat.CollectAllRowsShape` | CollectChat.py:115-127 | Every row a pass appends has source id sources["News"] and a label matching its score's sign. Its coin id and timestamp are those of one coin's turn. |
| `CollectChat.NoNewsSourceNothingSaved` | CollectChat.py:83-125 | Without a "News" source a whole pass stores nothing. |
| `CollectChat.ChatCollector.constructor` | CollectChat.py:22-26 | The new collector holds the source map loaded from the chat_source rows and the given table. |
| `CollectChat.ChatCollector.LoadSources` | CollectChat.py:46-53 | The sources field becomes the map built from the rows. |
| `CollectChat.ChatCollector.CollectNewsMentions` | CollectChat.py:70-91 | The loop returns the mentions of the provider's reply. That is none when the call failed, otherwise `NewsMentions` of its articles. It never raises. |
| `CollectChat.ChatCollector.SaveMentions` | CollectChat.py:93-113 | The insert loop leaves the table exactly as `SaveAll` describes. |
| `CollectChat.ChatCollector.CollectChatData` | CollectChat.py:115-131 | It returns True iff the Coins query succeeded. Then the table is `CollectAll` over the coins in query order: collect, then save, for each coin. Otherwise the table is unchanged. |
| `CollectChat.RunCollector` | CollectChat.py:133-136 | The exit code is 0 or 1, and it is 0 iff the collection pass succeeded. The stored rows are those of the pass. |
| `CollectorService.Iteration` | CryptoCollectorService.py:78-91 | The price script starts iff last_price_run is unset or now - last_price_run >= 7200. The chat script starts iff last_chat_run is unset or now - last_chat_run >= 14400. Price starts before chat. A timer changes only when its script starts, and it is then set to the time sampled at the start of the iteration. |
| `CollectorService.Run` | CryptoCollectorService.py:77-97 | The loop only appends to the record of starts. It does nothing once the running flag is cleared. |
| `CollectorService.IterationKeepsConsistent` | CryptoCollectorService.py:82-91 | One iteration keeps starts of each script spaced by at least its interval, and each timer no earlier than any start of its script. |
| `CollectorService.RunKeepsConsistent` | CryptoCollectorService.py:77-91 | The whole loop keeps that spacing invariant. |
| `CollectorService.ScriptsKeepTheirIntervals` | CryptoCollectorService.py:82-91 | From the service's start, any two price starts are >= 7200 s apart and any two chat starts >= 14400 s apart in iteration time. This holds whatever the clock does, and matches "every 2 hours / every 4 hours" of line 16. |
| `CollectorService.FirstIterationStartsBoth` | CryptoCollectorService.py:74-91 | The first iteration starts PriceCollector.py and then CollectChat.py, because both timers start unset. |
| `CollectorService.NothingAfterStop` | CryptoCollectorService.py:77 | After a stop request, no further iteration begins: events after it change nothing, and the service ends stopped. |
| `CollectorService.CryptoCollectorService.constructor` | CryptoCollectorService.py:20-23 | The service starts running, with both timers unset and nothing started. |
| `CollectorService.CryptoCollectorService.SvcStop` | CryptoCollectorService.py:34-38 | Only the running flag is cleared. |
| `CollectorService.CryptoCollectorService.RunScript` | CryptoCollectorService.py:48-69 | The script is recorded as started. There is no failure path: run_script catches everything. |
| `CollectorService.CryptoCollectorService.Step` | CryptoCollectorService.py:78-91 | The loop body updates the timers and starts scripts exactly as `Iteration` says, and keeps the spacing invariant. |
| `CollectorService.CryptoCollectorService.MainLoop` | CryptoCollectorService.py:71-97 | The loop ends in the state `Run` gives for the event trace, and keeps the spacing invariant. |

## Left out

- Connecting to the database and creating the news client (CollectChat.py:28-44) are not modelled. The collector is built already connected. The `sys.exit(1)` calls when initialisation or `load_sources` fails are left out, since they end the process.
- The provider query itself is left out: search terms, language, sort order and the one-day window. The provider's reply for a coin is an input.
- TextBlob's polarity is an input real. Floating point is not modelled, and neither is the int `0` of the fallback as distinct from `0.0`.
- `insertOk` is a deterministic function of the table and the row. Failures that depend on anything else, such as a dropped connection, are folded into it. The commit is part of the same answer.
- An article field that is neither a string nor null (for example a numeric title) is not modelled.
- Logging, `time.sleep(300)` and `time.sleep(60)`, and the win32 service framework calls are not modelled: event handles, status reports, `SvcDoRun` and the command-line entry.
- The `except` branch of the service loop (CryptoCollectorService.py:95-97) is not modelled. With `run_script` never raising and the clock as an input, nothing in the modelled loop body can raise.
- The subprocess itself and its exit status are not modelled. `RunScript` records a start; the script's outcome does not affect the service.
- The service loop runs forever. The model observes it over a finite trace of events. A stop request that arrives during an iteration is modelled as arriving right after it, because the flag is only read at the loop head.
- A start is stamped with the clock reading of its iteration, not with the later moment at which `CollectChat.py` actually starts after `PriceCollector.py` has finished.
- Clock readings are integer seconds.
- The clock of `save_mentions` is read once per coin at the start of `save_mentions`. It is modelled as `clock(k)` for the k-th coin, not as a live clock.
