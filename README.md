# In-process publish/subscribe bus and voice request/response protocol

This project models, in Dafny, the messaging core of a text-to-speech
comparison toolkit, together with a few string routines that sit beside it.

- **The bus** (`pubsub/service.py`, module `PubSub`, file
  `pubsub_service.dfy`). Topics are objects (`Topic`) whose subscriber list,
  bounded history (100 messages, oldest evicted first) and monotonic message
  count are updated in place. The service (`PubSubService`) owns the topic
  registry, a bounded priority queue of pending deliveries, a queue counter
  and the global statistics. The priority queue is the sequence of its
  entries in enqueue order. Taking an entry out picks the smallest key
  `(-priority, timestamp, counter)` (`MinIndex`). The background worker
  thread becomes an explicit `DeliverNext` step. A subscriber callback is
  a `Callback` value, and an oracle `raises` says whether it raises for a
  given message. `Publisher` and `Subscriber` are the convenience handles.
- **The voice protocol** (`pubsub/voice_processor.py`, module `Voice`, file
  `voice_processor.dfy`). Requests and responses are datatypes, with their
  dictionary forms and the conversions between them. A processor is a
  function from a request to what it hands back: a response, a dictionary,
  another value, or an exception. The registry is an insertion-ordered
  list of `(name, processor)` pairs. The fallback chain tries the
  processors in `ProcessorOrder` (names containing "openvoice" first, the
  sort being stable) and answers with the first success or the fixed
  failure response. `VoiceProcessor.HandleRequest` is `_handle_request`,
  publishing on the modelled bus. Its effect on the three voice topics is
  stated through a small view of the bus (`Traffic`): messages published,
  the newest payload and the deliveries queued, per topic.
- **Video ids and output locations** (`scripts/modular_youtube_downloader.py`
  and `scripts/youtube_downloader.py`, module `VideoIds`). These are the
  two `extract_video_id` if/elif chains, with Python's `split` written out
  (module `Text`), the output template choice of the modular downloader,
  and the output path of the simple one.
- **Channel analysis** (`analyze_channel_and_find_tools.py`, module
  `Channel`). This is the `|||` metadata-line parser, the keyword counts,
  type scores, tech hints and content pattern of `analyze_video_patterns`,
  the search queries, the search URL, and the URL de-duplication of `main`.

Behaviour of the code that the model keeps as written, including edge
cases a caller might not expect:

- A message that a full queue rejects has already been added to its
  topic's history and counted in its `message_count`
  (`PubSubService.Publish`, pubsub/service.py:190-204). The queue counter
  also advances for the rejected message.
- When the payload given to `_handle_request` is neither a dictionary nor
  a request, or is a dictionary that `AudioRequest(**d)` refuses, the
  except block reads the unbound `request` and raises itself. No response
  is published and no counter moves (`Outcome.Rejected`,
  pubsub/voice_processor.py:105-142). So a response reaches
  `voice.response` only for payloads that can be read as a request.
- When publishing the response fails because the queue is full, the except
  block publishes an error response instead. The request then stays in the
  active table and neither `requests_processed` nor `requests_failed`
  grows (`Outcome.ErrorResponded`). When that publish fails too, the
  exception leaves the handler (`Outcome.Escaped`).
- A processor's successful response is returned unmodified. Its
  `request_id` is therefore not forced to equal the request's id.
- `generate_search_queries` builds a list `base_queries` that it never
  uses. `Channel.QueriesLayout` gives the exact number and position of the
  queries, which leaves no place for the five base queries.
- In `YouTubeDownloader.extract_video_id` the `studio.youtube.com/video/`
  branch can never be taken, because the first branch already catches every
  such URL (`VideoIds.StudioBranchUnreachable`).

Parameters stand in for what the core cannot compute itself. Clock readings
(`time.time()`) are a `now` argument, one reading per operation. Message
ids (`uuid4()` in `Message`) come from a stream `ids`, taken at the bus's
queue counter, which every publish advances exactly once. Request ids are
a `uuid` argument. The hexadecimal MD5 digest is an uninterpreted function
argument `md5Hex`. The download tool's output is a `Result` argument.

## Model

| member | source | states |
|---|---|---|
| `PubSub.PriorityValue` | pubsub/service.py:16-21 | The priorities have the values 1 to 4; only Low is 1 and only Urgent is 4. |
| `PubSub.HistoryKeepsNewest` | pubsub/service.py:76-83 | After adding a message, the history is exactly the newest min(n+1, 100) messages of the old history followed by the new one. |
| `PubSub.HistoryBounded` | pubsub/service.py:76-83 | Adding to the history keeps it within 100 entries; the message count grows by exactly one even when an entry is evicted; at capacity the oldest entry is the one dropped. |
| `PubSub.SubscribeIdempotent` | pubsub/service.py:55-61 | Adding a callback twice is adding it once; afterwards it is subscribed and the list has no duplicates. |
| `PubSub.UnsubscribeUndoesSubscribe` | pubsub/service.py:63-69 | Removing a callback that adding had appended restores the topic; after removal the callback is absent and the list still has no duplicates. |
| `PubSub.RemoveFirstFromNoDuplicates` | pubsub/service.py:66-67 | `list.remove` on a list without duplicates removes the element entirely and keeps every other element. |
| `PubSub.Topic.AddSubscriber` | pubsub/service.py:55-61 | Returns true exactly when the callback was absent; then it is appended at the end, otherwise nothing changes. |
| `PubSub.Topic.RemoveSubscriber` | pubsub/service.py:63-69 | Returns true exactly when the callback was present; then it is removed, otherwise nothing changes. |
| `PubSub.Topic.AddToHistory` | pubsub/service.py:76-83 | Appends the message, evicting the oldest beyond 100, and counts it. |
| `PubSub.KeyOrderTotal` | pubsub/service.py:193-200 | With distinct counters, of two queue entries exactly one has the smaller key, so the queue never compares messages. |
| `PubSub.MinIndex` | pubsub/service.py:233 | The entry handed out by the queue has a key that no waiting entry's key is below. |
| `PubSub.PopOrder` | pubsub/service.py:195-201 | The entry taken out has the highest waiting priority and, among entries of that priority, was enqueued first (FIFO), given a clock that does not go backwards. |
| `PubSub.AfterDelivery` | pubsub/service.py:214-225 | Delivering to a snapshot of n subscribers makes delivered+failed grow by exactly n and leaves published and topics_created alone; with no raising callback nothing fails. |
| `PubSub.DeliveredAllWhenNoneRaises` | pubsub/service.py:219-222 | When no callback raises, every callback of the snapshot counts as delivered. |
| `PubSub.PubSubService.CreateTopic` | pubsub/service.py:112-118 | Idempotent: an existing topic is returned unchanged with no counter change; otherwise a fresh empty topic is registered, appended to the creation order, and topics_created grows by one. |
| `PubSub.PubSubService.DeleteTopic` | pubsub/service.py:125-131 | Returns true exactly when the topic existed; removes it from the registry only. |
| `PubSub.PubSubService.ListTopics` | pubsub/service.py:133-136 | Lists every registered topic name exactly once. |
| `PubSub.OrderMatchesKeys` | pubsub/service.py:133-136 | The creation-order list of names holds each registry key exactly once. |
| `PubSub.PubSubService.Subscribe` | pubsub/service.py:138-153 | Creates the topic when absent (counting it and appending it to the creation order), then adds the callback; returns false only when the callback was already subscribed. |
| `PubSub.PubSubService.Unsubscribe` | pubsub/service.py:155-160 | An unknown topic gives false and is not created; otherwise the callback is removed and the result says whether it was there. |
| `PubSub.PubSubService.Publish` | pubsub/service.py:162-206 | The message always joins the topic's history and count, and a topic created for it is appended to the creation order and counted; the counter grows by one; when the queue is not full the entry (-priority, now, counter, message) is appended and published grows, otherwise the queue-full error is returned, failed grows and published does not. |
| `PubSub.PubSubService.Record` | pubsub/service.py:177-191 | Creates the topic when needed (appending it to the creation order) and adds the message to its history, before the queue is tried. |
| `PubSub.PubSubService.Enqueue` | pubsub/service.py:193-204 | The non-blocking put: the counter always advances; the entry is queued exactly when the queue is not full; the statistics follow the outcome. |
| `PubSub.PubSubService.ProcessMessage` | pubsub/service.py:208-225 | Delivers to the snapshot of the topic's subscribers (none for a deleted topic), counting each returning callback as delivered and each raising one as failed, without stopping. |
| `PubSub.PubSubService.DeliverNext` | pubsub/service.py:227-237 | While running with a non-empty queue, removes the smallest-key entry and delivers its message; otherwise changes nothing. |
| `PubSub.PubSubService.QueueGet` | pubsub/service.py:233 | Removes and returns the entry with the smallest key. |
| `PubSub.PubSubService.Start` | pubsub/service.py:241-248 | Afterwards the bus is running, whether or not it was before. |
| `PubSub.PubSubService.Stop` | pubsub/service.py:250-258 | Afterwards the bus is not running. |
| `PubSub.PubSubService.GetStats` | pubsub/service.py:260-268 | Reports the bus counters and the running flag as they stand, the number of listed topics as active topics, and the queue length, which never exceeds a positive bound. |
| `PubSub.PubSubService.GetTopicStats` | pubsub/service.py:270-283 | Nothing exactly for an unknown topic; otherwise the topic's own name, its subscriber count, its message count and its history size, which is at most 100. |
| `PubSub.PubSubService.ClearTopicHistory` | pubsub/service.py:285-293 | False for an unknown topic; otherwise that topic's history is emptied and its message count and subscribers kept. |
| `PubSub.ChooseTopic` | pubsub/service.py:307 | A non-empty given topic wins; otherwise the default is used; there is no topic exactly when neither is given. |
| `PubSub.Publisher.Publish` | pubsub/service.py:303-310 | With neither topic nor default it fails with "Topic must be specified" and changes nothing; otherwise it has the bus's publish effect on the chosen topic: history, queue, counter, creation order, and the published, failed, topics-created and delivered counts. |
| `PubSub.Subscriber.Subscribe` | pubsub/service.py:320-325 | Subscribes on the bus and records the pair exactly when the bus accepted it; a topic created for it is counted and appended to the creation order, and the queue, counter and running flag are untouched. |
| `PubSub.Subscriber.UnsubscribeAll` | pubsub/service.py:327-331 | The bus ends exactly as `unsubscribe` of every recorded pair in turn leaves it; no recorded callback is subscribed to its recorded topic any more, no topic is created or removed, and nothing is recorded. |
| `PubSub.UnsubscribeKeepsOthers` | pubsub/service.py:329-330 | Unsubscribing one recorded pair keeps every earlier pair unsubscribed. |
| `PubSub.UnsubscribedAllKeeps` | pubsub/service.py:327-331 | Undoing the recorded pairs keeps every topic, every history and message count, and every subscription that was not recorded. |
| `PubSub.UnsubscribedAllDetaches` | pubsub/service.py:327-331 | On a valid registry, undoing the recorded pairs keeps it valid and leaves none of them subscribed. |
| `Voice.RequestFromDict` | pubsub/voice_processor.py:21-36 | A dictionary converts only with known keys and a text; the id is the given one, or the fresh id when absent or None. |
| `Voice.ResponseFromDict` | pubsub/voice_processor.py:39-51 | A dictionary converts only with known keys and a request id; without `success` the response is unsuccessful; every given field is carried into the response unchanged. |
| `Voice.RequestDictRoundTrip` | pubsub/voice_processor.py:21-36 | Converting a request to its dictionary and back gives the same request. |
| `Voice.ResponseDictRoundTrip` | pubsub/voice_processor.py:39-51 | Converting a response to its dictionary and back gives the same response. |
| `Voice.RequestDefaults` | pubsub/voice_processor.py:21-36 | A request given only a text has style "en_default", empty metadata, no reference audio and the fresh id. |
| `Voice.ResponseDefaults` | pubsub/voice_processor.py:39-51 | A response given only an id is unsuccessful, with no error and no audio. |
| `Voice.RequestOf` | pubsub/voice_processor.py:102-110 | A request payload is used as is, a dictionary is converted, anything else gives no request. |
| `Voice.AsResponse` | pubsub/voice_processor.py:165-170 | A response is kept, a dictionary is converted, and any other value or a raise counts as no response. |
| `Voice.Lookup` | pubsub/voice_processor.py:160 | The processor found for a name is the one registered under it. |
| `Voice.RegisteredNames` | pubsub/voice_processor.py:89-97 | Registering keeps a known name in its place and appends a new one at the end. |
| `Voice.RegisteredLookup` | pubsub/voice_processor.py:97 | After registering, the name finds the new processor and every other name its old one. |
| `Voice.RegisteredUnique` | pubsub/voice_processor.py:97 | Registering keeps the names unique. |
| `Voice.Filter` | pubsub/voice_processor.py:157 | Keeps exactly the names of one class (preferred or not). |
| `Voice.ProcessorOrderPermutes` | pubsub/voice_processor.py:157 | The processor order is a permutation of the registered names. |
| `Voice.ProcessorOrderPreferredFirst` | pubsub/voice_processor.py:157 | No non-preferred name comes before a name containing "openvoice" (lower-cased). |
| `Voice.ProcessorOrderStable` | pubsub/voice_processor.py:157 | Within each class the names keep their registration order. |
| `Voice.Chain` | pubsub/voice_processor.py:157-160 | The chain has one processor per registered name. |
| `Voice.FirstSuccess` | pubsub/voice_processor.py:159-185 | Finds the first processor that succeeds; every earlier one failed, raised or returned an invalid value; none when no processor succeeds. |
| `Voice.ChainResponseSpec` | pubsub/voice_processor.py:159-192 | The chain succeeds exactly when some processor succeeds; otherwise, also with no processor, the answer is unsuccessful, for the request's id, with "No processor available or all processors failed". |
| `Voice.ChainStep` | pubsub/voice_processor.py:172-179 | Trying a processor before the first success either ends the chain with that processor's unmodified response or moves on. |
| `Voice.ChainExhausted` | pubsub/voice_processor.py:187-192 | With every processor tried, the answer is the fixed failure. |
| `Voice.PostedTraffic` | pubsub/service.py:190-201 | A publish adds one message and the newest payload to its topic, and a queued delivery only when queued; other voice topics are unaffected. |
| `Voice.PublishAccounted` | pubsub/service.py:162-206 | One publish to `voice.status` or `voice.response` keeps every other topic and every subscriber list, draws one counter, counts once as published or failed, and only appends to the queue and the creation order. |
| `Voice.AccountedTrans` | pubsub/voice_processor.py:99-209 | Two runs of such publishes, one after the other, are again such a run. |
| `Voice.AccountedMeans` | pubsub/voice_processor.py:99-209 | What such a run keeps, one change at a time: every other topic (`voice.request` included) and every subscriber list are as they were; the counter, the published plus failed counts and the topic counts grow by the number of status and response messages; the queue grows by the published count. |
| `Voice.VoiceProcessor.constructor` | pubsub/voice_processor.py:64-87 | Subscribes the handler to `voice.request` (counting and ordering that topic when it is new, with the queue, counter and running flag untouched), answers on `voice.response`, starts with no processors, no active requests and zero counters. |
| `Voice.VoiceProcessor.RegisterProcessor` | pubsub/voice_processor.py:89-97 | Overwrites a known name in place or appends a new one; the name then finds the given processor. |
| `Voice.VoiceProcessor.GetStats` | pubsub/voice_processor.py:236-243 | Reports the received, processed and failed counters as they stand, the processor names in registration order and the number of active requests. |
| `Voice.VoiceProcessor.Post` | pubsub/voice_processor.py:197-205 | `service.publish` at normal priority: the same history, queue, counter, creation-order and count changes as the bus's publish. |
| `Voice.VoiceProcessor.Respond` | pubsub/voice_processor.py:123-127 | `publisher.publish` on `voice.response`: the bus's publish on that topic, touching nothing else but the counters. |
| `Voice.VoiceProcessor.PublishStatus` | pubsub/voice_processor.py:194-209 | Adds one status note to `voice.status` (a full queue is ignored), leaves the other voice topics alone, and touches nothing else on the bus but its counters, as `Accounted` describes. |
| `Voice.VoiceProcessor.Announce` | pubsub/voice_processor.py:162-173 | One status note per attempt, and one more on success; nothing else on the bus changes but its counters. |
| `Voice.VoiceProcessor.ProcessRequest` | pubsub/voice_processor.py:154-192 | Answers with the chain's response over the processors in preference order, publishing one status note per processor tried and one for the success, and touching nothing else on the bus but its counters. |
| `Voice.VoiceProcessor.HandleRequest` | pubsub/voice_processor.py:99-152 | An unreadable payload is rejected with the whole bus and every counter unchanged. A readable one is counted as received, leaves `voice.request` alone, adds one "received" note plus the chain's notes to `voice.status`, and records the response on `voice.response`; when it was queued the request leaves the active table and exactly one of processed/failed grows, by the response's success; when the queue was full the error response follows it (queued, or escaping on a second full queue) and the request stays active. Every other topic and every subscriber list stay as they were, and the bus counters move only by the status and response messages. |
| `Voice.VoiceProcessor.Admit` | pubsub/voice_processor.py:112-114 | Counts the request and marks it active; the bus is untouched. |
| `Voice.VoiceProcessor.Work` | pubsub/voice_processor.py:116-120 | The "received" note, then the chain's response; nothing else on the bus changes but its counters. |
| `Voice.VoiceProcessor.Reply` | pubsub/voice_processor.py:122-127 | Publishes the response on `voice.response`, or falls back to the error response when the queue is full; nothing else on the bus changes but its counters. |
| `Voice.VoiceProcessor.ReplyError` | pubsub/voice_processor.py:137-152 | Publishes an unsuccessful response carrying the error for the request's id, which escapes when the queue is full again; nothing else on the bus changes but its counters. |
| `Voice.VoiceProcessor.Retire` | pubsub/voice_processor.py:129-135 | Removes the request from the active table and counts it as processed or failed by success; the bus is untouched. |
| `Voice.VoiceProcessor.RequestAudio` | pubsub/voice_processor.py:211-234 | Publishes a request with the given fields and a fresh id on `voice.request` at normal priority and returns that id; a full queue raises. The bus changes exactly as its publish does: history, queued entry, counter, creation order and counts. |
| `VideoIds.SplitPiece` | scripts/modular_youtube_downloader.py:59 | `s.split(a)[1].split(b)[0]` is the text after the first `a`, cut where the next `a` or `b` begins, a contiguous piece of `s`. |
| `VideoIds.ExtractModular` | scripts/modular_youtube_downloader.py:58-68 | A "youtube.com/video/" URL gives the text after the first "/video/" up to "/"; else a watch URL with "v=" gives the text after the first "v=" up to "&" or "v="; else a "youtu.be/" URL gives the text after it up to "?"; else the input itself. |
| `VideoIds.StudioBranchUnreachable` | scripts/modular_youtube_downloader.py:64-65 | Every studio URL already matches the first branch. |
| `VideoIds.PlainIdKept` | scripts/modular_youtube_downloader.py:66-68 | A bare id passes through both extractors unchanged. |
| `VideoIds.ExtractSimple` | scripts/youtube_downloader.py:40-50 | A "/video/" URL gives its segment; else "youtu.be/" is checked before "v=", so a short link with a "v=" query keeps its short id; else any "v=" gives the text after it, with no domain check; else the input itself. |
| `VideoIds.ExtractorsAgree` | scripts/youtube_downloader.py:42-47 | Without a short link and with "v=" only in watch URLs, the two extractors agree. |
| `VideoIds.ExtractorsDiverge` | scripts/youtube_downloader.py:46-47 | A "v=" outside a watch URL is passed through by one extractor and cut by the other. |
| `VideoIds.WatchUrlRoundTrip` | scripts/youtube_downloader.py:69 | Either extractor reads back the id that the watch URL was built from. |
| `VideoIds.OutputTemplate` | scripts/modular_youtube_downloader.py:113-127 | A non-empty output path is used verbatim; otherwise the name holds the id exactly when asked, the title exactly when asked, and ends in the extension. |
| `VideoIds.TemplatePredictsFile` | scripts/modular_youtube_downloader.py:158-166 | Without a title, the file the template produces is the file the downloader looks for. |
| `VideoIds.SimplePathMatchesTemplate` | scripts/youtube_downloader.py:55-68 | The reported path `output_dir/{video_id}.mp3` is the file the download template produces. |
| `Text.Count` | analyze_channel_and_find_tools.py:131 | The non-overlapping count is positive exactly when the keyword occurs. |
| `Text.CountIsSplitsMinusOne` | analyze_channel_and_find_tools.py:131 | The count is one less than the number of split pieces. |
| `Text.JoinSplit` | analyze_channel_and_find_tools.py:72 | Joining the pieces of a split gives back the string. |
| `Channel.ParseLine` | analyze_channel_and_find_tools.py:70-82 | A line is a video exactly when it has at least three `|||` fields; its URL is the watch URL of its id. |
| `Channel.ParseLineRejoins` | analyze_channel_and_find_tools.py:72-82 | The parsed fields rejoin to the line, and each missing field holds its default ("0" for duration and view count, "" for upload date). |
| `Channel.ParsedVideosFromLines` | analyze_channel_and_find_tools.py:69-83 | A video is listed exactly when some line parses to it, and there are no more videos than lines. |
| `Channel.ParseVideos` | analyze_channel_and_find_tools.py:69-84 | The listing loop gives the parsed videos of the stripped, split output. |
| `Channel.ParseLines` | analyze_channel_and_find_tools.py:70-83 | The loop over the lines keeps the videos of the lines seen so far, in order. |
| `Channel.TypeKeywords` | analyze_channel_and_find_tools.py:110-116 | Every type keyword is non-empty. |
| `Channel.KeywordCountsMeaning` | analyze_channel_and_find_tools.py:128-133 | A keyword is listed with count c exactly when it is an automation keyword occurring c > 0 times. |
| `Channel.TypeScorePositive` | analyze_channel_and_find_tools.py:136-137 | A type's score is positive exactly when one of its keywords occurs. |
| `Channel.TypeScoresMeaning` | analyze_channel_and_find_tools.py:135-139 | Exactly the types with a positive score are recorded, each with its score. |
| `Channel.TechHintsMeaning` | analyze_channel_and_find_tools.py:141-145 | A tech term is a hint exactly when it occurs. |
| `Channel.PatternOf` | analyze_channel_and_find_tools.py:153-161 | Coding over 5 gives coding tutorials; else ai over 5 gives ai content; else automated over 3 gives automated content; else mixed. |
| `Channel.QuietTextIsMixed` | analyze_channel_and_find_tools.py:153-161 | Text without any type keyword is mixed content. |
| `Channel.CountKeywords` | analyze_channel_and_find_tools.py:129-133 | The keyword loop gives the keyword counts. |
| `Channel.ScoreTypes` | analyze_channel_and_find_tools.py:136-139 | The type loop gives the type scores. |
| `Channel.FindTechHints` | analyze_channel_and_find_tools.py:142-145 | The term loop gives the tech hints. |
| `Channel.ChannelAnalyzer.constructor` | analyze_channel_and_find_tools.py:40-43 | Starts with no videos and an empty analysis. |
| `Channel.ChannelAnalyzer.FetchChannelVideos` | analyze_channel_and_find_tools.py:45-90 | On a tool error returns false and keeps the videos; otherwise stores the parsed videos and returns true. |
| `Channel.ChannelAnalyzer.AnalyzeVideoPatterns` | analyze_channel_and_find_tools.py:92-171 | With no videos returns the empty analysis and leaves the stored one; otherwise returns and stores the analysis of the videos. |
| `Channel.FirstKeywords` | analyze_channel_and_find_tools.py:188 | The names of the first (at most) n counted keywords, in order. |
| `Channel.QueriesLayout` | analyze_channel_and_find_tools.py:182-231 | Three pattern queries for coding or ai content only, one per python/api hint, then one per keyword for at most three keywords, in order; the count leaves no place for the unused base queries. |
| `Channel.SearchUrlQuery` | analyze_channel_and_find_tools.py:241 | The query part of the search URL has no spaces, and a query without "+" can be read back from it. |
| `Channel.GitHubToolFinder.constructor` | analyze_channel_and_find_tools.py:177-180 | Starts with the given analysis and no queries or repositories. |
| `Channel.GitHubToolFinder.GenerateSearchQueries` | analyze_channel_and_find_tools.py:182-231 | Returns and stores the queries of the analysis. |
| `Channel.GitHubToolFinder.FindRelevantRepos` | analyze_channel_and_find_tools.py:249-263 | One search result (query, URL, no results) for each of the first five queries, in order, stored and returned. |
| `Channel.FirstIndex` | analyze_channel_and_find_tools.py:339-345 | The first position holding a URL. |
| `Channel.UniqueUrls` | analyze_channel_and_find_tools.py:339-345 | De-duplication keeps every URL, and each only once. |
| `Channel.UniqueKeepsFirst` | analyze_channel_and_find_tools.py:339-345 | Each kept repository is the first with its URL, and the kept ones stay in the original order. |
| `Channel.Dedup` | analyze_channel_and_find_tools.py:339-345 | The de-duplication loop gives the unique repositories. |

## Left out

- `Voice.VoiceProcessor.constructor`: always receives its bus; the default of a fresh `PubSubService()` when none is given (pubsub/voice_processor.py:65) is not modelled.
- Threads and locks: the worker thread, its 0.1-second polling and `join(timeout)` in `stop` are replaced by the explicit `DeliverNext` step; every operation is one atomic step.
- Subscriber callbacks are opaque: only whether each raises is modelled, not what it does. In particular, `DeliverNext` does not run `VoiceProcessor.HandleRequest`; the handler is a method of its own over the same bus.
- `time.time()`, `uuid4()` and MD5 are parameters (`now`, `ids`, `uuid`, `md5Hex`). `Message` and the queue entry each read the clock in the source; the model uses one reading `now` for both.
- `print` logging, the log of sample titles in `analyze_video_patterns` and the traceback formatting are not modelled.
- `VoiceProcessor`'s output directory creation is not modelled (file system).
- `OpenVoiceProcessor` and `FileAudioProcessor` (HTTP calls, retries, sleeps, file writes) are not part of this model; processors are abstract functions.
- `Voice.RequestFromDict`: a dictionary value of the wrong type (say `style=None`) is refused, where Python would store it unchecked in the dataclass.
- `Voice.ResponseFromDict`: every field is type-checked, where `AudioResponse(**d)` stores whatever it is given. A dictionary is refused when `request_id` is not a string, `audio_path` or `error` is neither a string nor `None`, `audio_data` is neither bytes nor `None`, `metadata` is neither a dictionary nor `None`, or `success` is not a boolean (Python would take any truthy value). A processor that hands back such a dictionary counts as not answering, so the chain moves on to the next processor and may end at the fixed failure, where Python would return that dictionary's response, successful or not.
- `Text.Lower`: ASCII case mapping only; Python's `str.lower` maps all of Unicode.
- `PubSub.PubSubService.Stop`: the wait for the worker thread is not modelled; messages still queued stay in the queue.
- `PubSub.Topic.SubscriberCount` (`get_subscriber_count`) is modelled as a plain accessor with no contract of its own.
- The download tool's invocation in `fetch_channel_videos` (its arguments, the 120-second timeout) is replaced by its result; `web_search_github` and the pauses between searches are not modelled.
- The downloaders' I/O (running the download tool, globbing for files, picking the newest file) is not modelled; only the template and the path choice are.
