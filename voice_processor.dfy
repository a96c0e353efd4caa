/** The voice request/response protocol on the bus: requests arrive on
    `voice.request`, are handed to the registered processors in a fixed
    order until one succeeds, and exactly one answer is queued on
    `voice.response`; progress notes go to `voice.status`.

    Processors are abstract: a processor is a function from a request to
    what it hands back (a response, a dictionary, some other value, or an
    exception). Clock readings are passed in as `now`, fresh request ids as
    `uuid`, and message ids as the bus's `ids` stream. */
module Voice {
  import opened Values
  import opened PubSub
  import Text

  const RequestTopic: string := "voice.request"
  const ResponseTopic: string := "voice.response"
  const StatusTopic: string := "voice.status"

  /** `AudioRequest.style`'s default. */
  const DefaultStyle: string := "en_default"

  /** The error of the response given when no processor succeeds. */
  const NoProcessorError: string := "No processor available or all processors failed"

  datatype AudioRequest = AudioRequest(
    text: string,
    referenceAudioPath: Option<string>,
    referenceAudioData: Option<seq<bv8>>,
    style: string,
    metadata: map<string, Value>,
    requestId: string)

  datatype AudioResponse = AudioResponse(
    requestId: string,
    audioPath: Option<string>,
    audioData: Option<seq<bv8>>,
    success: bool,
    error: Option<string>,
    metadata: map<string, Value>)

  /** What travels on the bus in this protocol: request objects, response
      objects, dictionaries (status notes, or requests sent as plain
      dictionaries), and anything else a client may publish. */
  datatype Payload =
    | RequestPayload(request: AudioRequest)
    | ResponsePayload(response: AudioResponse)
    | DictPayload(fields: map<string, Value>)
    | OtherPayload

  // ---------------------------------------------------------------------
  // Records and their dictionary forms

  /** `AudioRequest(text=text)`: every other field takes its default, and
      `__post_init__` draws a fresh id. */
  function RequestFor(text: string, uuid: string): AudioRequest
  {
    AudioRequest(text, None, None, DefaultStyle, map[], uuid)
  }

  /** `AudioResponse(request_id=id)`: not successful, no error, no audio. */
  function ResponseFor(requestId: string): AudioResponse
  {
    AudioResponse(requestId, None, None, false, None, map[])
  }

  /** The response of a chain in which no processor succeeded. */
  function Fallback(requestId: string): AudioResponse
  {
    ResponseFor(requestId).(error := Some(NoProcessorError))
  }

  /** The response sent when publishing the real response failed. */
  function ErrorResponse(requestId: string, error: string): AudioResponse
  {
    ResponseFor(requestId).(error := Some(error))
  }

  const RequestFields: set<string> :=
    {"text", "reference_audio_path", "reference_audio_data", "style", "metadata", "request_id"}

  const ResponseFields: set<string> :=
    {"request_id", "audio_path", "audio_data", "success", "error", "metadata"}

  /** An optional string argument: absent or `None` is `None`; `None` at the
      outer level means the value has the wrong type. */
  function OptionalString(d: map<string, Value>, key: string): Option<Option<string>>
  {
    if key !in d then Some(None)
    else match d[key]
      case Null => Some(None)
      case Str(s) => Some(Some(s))
      case _ => None
  }

  /** An optional bytes argument, read like `OptionalString`. */
  function OptionalBytes(d: map<string, Value>, key: string): Option<Option<seq<bv8>>>
  {
    if key !in d then Some(None)
    else match d[key]
      case Null => Some(None)
      case Bytes(b) => Some(Some(b))
      case _ => None
  }

  /** A metadata argument: absent or `None` becomes the empty dictionary,
      as `__post_init__` does. */
  function MetadataArg(d: map<string, Value>): Option<map<string, Value>>
  {
    if "metadata" !in d then Some(map[])
    else match d["metadata"]
      case Null => Some(map[])
      case Dict(m) => Some(m)
      case _ => None
  }

  /** `AudioRequest(**d)`: an unknown key or a missing `text` is a
      `TypeError`; a missing or `None` id is replaced by `uuid`. */
  function RequestFromDict(d: map<string, Value>, uuid: string): (r: Option<AudioRequest>)
    ensures r.Some? ==> d.Keys <= RequestFields && "text" in d && d["text"] == Str(r.value.text)
    ensures r.Some? && "request_id" in d && d["request_id"].Str? ==> r.value.requestId == d["request_id"].s
    ensures r.Some? && ("request_id" !in d || d["request_id"].Null?) ==> r.value.requestId == uuid
  {
    if !(d.Keys <= RequestFields) || "text" !in d || !d["text"].Str? then None
    else
      var path := OptionalString(d, "reference_audio_path");
      var data := OptionalBytes(d, "reference_audio_data");
      var id := OptionalString(d, "request_id");
      var meta := MetadataArg(d);
      var style := if "style" in d then (if d["style"].Str? then Some(d["style"].s) else None) else Some(DefaultStyle);
      if path.None? || data.None? || id.None? || meta.None? || style.None? then None
      else
        Some(AudioRequest(d["text"].s, path.value, data.value, style.value, meta.value,
                          if id.value.Some? then id.value.value else uuid))
  }

  /** `AudioResponse(**d)`: an unknown key or a missing `request_id` is a
      `TypeError`. */
  function ResponseFromDict(d: map<string, Value>): (r: Option<AudioResponse>)
    ensures r.Some? ==> d.Keys <= ResponseFields && "request_id" in d && d["request_id"] == Str(r.value.requestId)
    ensures r.Some? && "success" !in d ==> !r.value.success
    ensures r.Some? && "success" in d ==> d["success"] == Bool(r.value.success)
    ensures r.Some? ==> && OptionalStringValue(r.value.audioPath) == Given(d, "audio_path")
                        && OptionalBytesValue(r.value.audioData) == Given(d, "audio_data")
                        && OptionalStringValue(r.value.error) == Given(d, "error")
    ensures r.Some? && "metadata" in d && d["metadata"].Dict? ==> r.value.metadata == d["metadata"].entries
  {
    if !(d.Keys <= ResponseFields) || "request_id" !in d || !d["request_id"].Str? then None
    else
      var path := OptionalString(d, "audio_path");
      var data := OptionalBytes(d, "audio_data");
      var error := OptionalString(d, "error");
      var meta := MetadataArg(d);
      var success := if "success" in d then (if d["success"].Bool? then Some(d["success"].b) else None) else Some(false);
      if path.None? || data.None? || error.None? || meta.None? || success.None? then None
      else Some(AudioResponse(d["request_id"].s, path.value, data.value, success.value, error.value, meta.value))
  }

  /** The value given for `key`, with `None` standing for an absent key. */
  function Given(d: map<string, Value>, key: string): Value
  {
    if key in d then d[key] else Null
  }

  function OptionalStringValue(o: Option<string>): Value
  {
    if o.Some? then Str(o.value) else Null
  }

  function OptionalBytesValue(o: Option<seq<bv8>>): Value
  {
    if o.Some? then Bytes(o.value) else Null
  }

  /** `dataclasses.asdict` of a request. */
  function RequestToDict(r: AudioRequest): map<string, Value>
  {
    map["text" := Str(r.text),
        "reference_audio_path" := OptionalStringValue(r.referenceAudioPath),
        "reference_audio_data" := OptionalBytesValue(r.referenceAudioData),
        "style" := Str(r.style),
        "metadata" := Dict(r.metadata),
        "request_id" := Str(r.requestId)]
  }

  /** `dataclasses.asdict` of a response. */
  function ResponseToDict(r: AudioResponse): map<string, Value>
  {
    map["request_id" := Str(r.requestId),
        "audio_path" := OptionalStringValue(r.audioPath),
        "audio_data" := OptionalBytesValue(r.audioData),
        "success" := Bool(r.success),
        "error" := OptionalStringValue(r.error),
        "metadata" := Dict(r.metadata)]
  }

  /** A request survives the trip through its dictionary form, whatever id
      would have been drawn. */
  lemma RequestDictRoundTrip(r: AudioRequest, uuid: string)
    ensures RequestFromDict(RequestToDict(r), uuid) == Some(r)
  {
    var d := RequestToDict(r);
    assert d.Keys == RequestFields;
  }

  /** A response survives the trip through its dictionary form. */
  lemma ResponseDictRoundTrip(r: AudioResponse)
    ensures ResponseFromDict(ResponseToDict(r)) == Some(r)
  {
    var d := ResponseToDict(r);
    assert d.Keys == ResponseFields;
  }

  /** A dictionary holding only `text` gives the request with every default:
      style "en_default", empty metadata, a fresh id, no reference audio. */
  lemma RequestDefaults(text: string, uuid: string)
    ensures RequestFromDict(map["text" := Str(text)], uuid) == Some(RequestFor(text, uuid))
    ensures RequestFor(text, uuid).style == DefaultStyle && RequestFor(text, uuid).metadata == map[]
  {
    var d := map["text" := Str(text)];
    assert d.Keys <= RequestFields;
  }

  /** A dictionary holding only `request_id` gives an unsuccessful response
      with no error. */
  lemma ResponseDefaults(requestId: string)
    ensures ResponseFromDict(map["request_id" := Str(requestId)]) == Some(ResponseFor(requestId))
    ensures !ResponseFor(requestId).success && ResponseFor(requestId).error.None?
  {
    var d := map["request_id" := Str(requestId)];
    assert d.Keys <= ResponseFields;
  }

  /** The request `_handle_request` works on: a request object as it is, a
      dictionary through `AudioRequest(**d)`; anything else is refused. */
  function RequestOf(p: Payload, uuid: string): (r: Option<AudioRequest>)
    ensures p.RequestPayload? ==> r == Some(p.request)
    ensures p.ResponsePayload? || p.OtherPayload? ==> r.None?
    ensures p.DictPayload? ==> r == RequestFromDict(p.fields, uuid)
  {
    match p
    case RequestPayload(req) => Some(req)
    case DictPayload(d) => RequestFromDict(d, uuid)
    case _ => None
  }

  // ---------------------------------------------------------------------
  // Processors and the order they are tried in

  /** What a processor hands back for a request. */
  datatype ProcessorResult =
    | Returned(response: AudioResponse)
    | ReturnedDict(fields: map<string, Value>)
    | ReturnedOther
    | Raised

  type Processor = AudioRequest -> ProcessorResult

  /** The response a processor's result stands for; `None` when the result
      is handled like an exception (an unconvertible dictionary, another
      type, or a raise). */
  function AsResponse(r: ProcessorResult): (o: Option<AudioResponse>)
    ensures r.Returned? ==> o == Some(r.response)
    ensures r.ReturnedDict? ==> o == ResponseFromDict(r.fields)
    ensures r.ReturnedOther? || r.Raised? ==> o.None?
  {
    match r
    case Returned(resp) => Some(resp)
    case ReturnedDict(d) => ResponseFromDict(d)
    case _ => None
  }

  /** The processor ends the chain for this request. */
  predicate Succeeds(p: Processor, req: AudioRequest)
  {
    AsResponse(p(req)).Some? && AsResponse(p(req)).value.success
  }

  function Names(reg: seq<(string, Processor)>): (names: seq<string>)
    ensures |names| == |reg|
    ensures forall i :: 0 <= i < |reg| ==> names[i] == reg[i].0
  {
    seq(|reg|, i requires 0 <= i < |reg| => reg[i].0)
  }

  /** `processors[name]`: the processor registered under `name`. */
  function Lookup(reg: seq<(string, Processor)>, name: string): (p: Processor)
    requires name in Names(reg)
    ensures exists i :: 0 <= i < |reg| && reg[i].0 == name && reg[i].1 == p
  {
    if reg[0].0 == name then reg[0].1
    else
      assert name in Names(reg[1..]) by {
        var i :| 0 <= i < |reg| && reg[i].0 == name;
        assert Names(reg[1..])[i - 1] == name;
      }
      Lookup(reg[1..], name)
  }

  /** `processors[name] = processor`: an existing name keeps its place and
      gets the new processor; a new name goes to the end. */
  function Registered(reg: seq<(string, Processor)>, name: string, p: Processor): seq<(string, Processor)>
  {
    if reg == [] then [(name, p)]
    else if reg[0].0 == name then [(name, p)] + reg[1..]
    else [reg[0]] + Registered(reg[1..], name, p)
  }

  /** Registering keeps the names in insertion order: an existing name
      stays where it is, a new one is appended. */
  lemma {:induction false} RegisteredNames(reg: seq<(string, Processor)>, name: string, p: Processor)
    ensures Names(Registered(reg, name, p)) == if name in Names(reg) then Names(reg) else Names(reg) + [name]
  {
    if reg != [] {
      var tail := reg[1..];
      assert Names(reg) == [reg[0].0] + Names(tail);
      if reg[0].0 == name {
        assert Names(Registered(reg, name, p)) == [name] + Names(tail);
      } else {
        RegisteredNames(tail, name, p);
        assert Names(Registered(reg, name, p)) == [reg[0].0] + Names(Registered(tail, name, p));
      }
    }
  }

  lemma AppendFresh<T>(s: seq<T>, x: T)
    requires NoDuplicates(s) && x !in s
    ensures NoDuplicates(s + [x])
  {
  }

  /** After registering, `name` looks up the new processor and every other
      registered name still looks up its own. */
  lemma {:induction false} RegisteredLookup(reg: seq<(string, Processor)>, name: string, p: Processor, n: string)
    requires n == name || n in Names(reg)
    ensures n in Names(Registered(reg, name, p))
    ensures Lookup(Registered(reg, name, p), n) == if n == name then p else Lookup(reg, n)
  {
    RegisteredNames(reg, name, p);
    if reg != [] && reg[0].0 != name && n != reg[0].0 {
      var tail := reg[1..];
      assert n in Names(tail) || n == name by {
        if n != name {
          var i :| 0 <= i < |reg| && Names(reg)[i] == n;
          assert Names(tail)[i - 1] == n;
        }
      }
      RegisteredLookup(tail, name, p, n);
      assert Registered(reg, name, p)[1..] == Registered(tail, name, p);
    } else if reg != [] && reg[0].0 == name && n != name {
      assert Registered(reg, name, p)[1..] == reg[1..];
    }
  }

  /** `register_processor` keeps the registered names unique. */
  lemma RegisteredUnique(reg: seq<(string, Processor)>, name: string, p: Processor)
    requires NoDuplicates(Names(reg))
    ensures NoDuplicates(Names(Registered(reg, name, p)))
  {
    RegisteredNames(reg, name, p);
    if name !in Names(reg) {
      AppendFresh(Names(reg), name);
    }
  }

  /** A processor whose lower-cased name contains "openvoice" is tried
      before the others. */
  predicate Preferred(name: string)
  {
    Text.Contains(Text.Lower(name), "openvoice")
  }

  /** The names of one class (preferred or not), in their original order. */
  function Filter(names: seq<string>, preferred: bool): (r: seq<string>)
    ensures |r| <= |names|
    ensures forall n :: n in r <==> n in names && Preferred(n) == preferred
  {
    if names == [] then []
    else if Preferred(names[0]) == preferred then [names[0]] + Filter(names[1..], preferred)
    else Filter(names[1..], preferred)
  }

  /** `sorted(processors, key=lambda x: 0 if 'openvoice' in x.lower() else 1)`:
      Python's sort is stable, so this is the preferred names followed by
      the others, each in registration order. */
  function ProcessorOrder(names: seq<string>): seq<string>
  {
    Filter(names, true) + Filter(names, false)
  }

  lemma {:induction false} FilterAppend(a: seq<string>, b: seq<string>, preferred: bool)
    ensures Filter(a + b, preferred) == Filter(a, preferred) + Filter(b, preferred)
  {
    if a == [] {
      assert a + b == b;
    } else {
      assert (a + b)[0] == a[0] && (a + b)[1..] == a[1..] + b;
      FilterAppend(a[1..], b, preferred);
    }
  }

  lemma {:induction false} FilterOfFilter(names: seq<string>, preferred: bool, keep: bool)
    ensures Filter(Filter(names, preferred), keep) == if preferred == keep then Filter(names, preferred) else []
  {
    if names != [] {
      FilterOfFilter(names[1..], preferred, keep);
      if Preferred(names[0]) == preferred {
        assert ([names[0]] + Filter(names[1..], preferred))[1..] == Filter(names[1..], preferred);
      }
    }
  }

  lemma {:induction false} FilterSplits(names: seq<string>)
    ensures multiset(Filter(names, true)) + multiset(Filter(names, false)) == multiset(names)
  {
    if names != [] {
      FilterSplits(names[1..]);
      assert names == [names[0]] + names[1..];
    }
  }

  /** The order is a permutation of the registered names. */
  lemma ProcessorOrderPermutes(names: seq<string>)
    ensures multiset(ProcessorOrder(names)) == multiset(names)
  {
    FilterSplits(names);
  }

  /** Every preferred name comes before every other one. */
  lemma ProcessorOrderPreferredFirst(names: seq<string>)
    ensures forall i, j :: 0 <= i < j < |ProcessorOrder(names)| && Preferred(ProcessorOrder(names)[j])
              ==> Preferred(ProcessorOrder(names)[i])
  {
    var a, b := Filter(names, true), Filter(names, false);
    var o := ProcessorOrder(names);
    assert forall k :: |a| <= k < |o| ==> o[k] == b[k - |a|];
    assert forall k :: 0 <= k < |a| ==> o[k] == a[k];
  }

  /** Each class keeps its registration order: the sort is stable. */
  lemma ProcessorOrderStable(names: seq<string>)
    ensures Filter(ProcessorOrder(names), true) == Filter(names, true)
    ensures Filter(ProcessorOrder(names), false) == Filter(names, false)
  {
    var a, b := Filter(names, true), Filter(names, false);
    FilterAppend(a, b, true);
    FilterAppend(a, b, false);
    FilterOfFilter(names, true, true);
    FilterOfFilter(names, true, false);
    FilterOfFilter(names, false, true);
    FilterOfFilter(names, false, false);
  }

  // ---------------------------------------------------------------------
  // The fallback chain

  /** The position in `order` of the first processor that succeeds. */
  function FirstSuccess(order: seq<Processor>, req: AudioRequest): (r: Option<nat>)
    ensures r.Some? ==> r.value < |order| && Succeeds(order[r.value], req)
    ensures r.Some? ==> forall j :: 0 <= j < r.value ==> !Succeeds(order[j], req)
    ensures r.None? <==> forall j :: 0 <= j < |order| ==> !Succeeds(order[j], req)
  {
    if order == [] then None
    else if Succeeds(order[0], req) then Some(0)
    else
      match FirstSuccess(order[1..], req)
      case None => None
      case Some(i) => Some(i + 1)
  }

  /** `_process_request`'s answer: the first successful response, exactly
      as its processor gave it, or the fallback. */
  function ChainResponse(order: seq<Processor>, req: AudioRequest): AudioResponse
  {
    match FirstSuccess(order, req)
    case Some(i) => AsResponse(order[i](req)).value
    case None => Fallback(req.requestId)
  }

  /** The chain answers with success exactly when some processor succeeds;
      otherwise the answer is the fixed failure for the request's id, even
      with no processor at all. */
  lemma ChainResponseSpec(order: seq<Processor>, req: AudioRequest)
    ensures ChainResponse(order, req).success <==> exists j :: 0 <= j < |order| && Succeeds(order[j], req)
    ensures !ChainResponse(order, req).success ==>
      ChainResponse(order, req) == Fallback(req.requestId) && ChainResponse(order, req).error == Some(NoProcessorError)
    ensures order == [] ==> ChainResponse(order, req) == Fallback(req.requestId)
  {
    match FirstSuccess(order, req)
    case Some(i) =>
    case None =>
      assert forall j :: 0 <= j < |order| ==> !Succeeds(order[j], req);
  }

  /** How many status notes `_process_request` publishes: one per processor
      tried, and one more on success. */
  function StatusNotes(order: seq<Processor>, req: AudioRequest): nat
  {
    match FirstSuccess(order, req)
    case Some(i) => i + 2
    case None => |order|
  }

  /** Trying processor `i` while no earlier one succeeded: either it is the
      one that answers, or the first success still lies further on. */
  lemma ChainStep(order: seq<Processor>, req: AudioRequest, i: nat)
    requires i < |order|
    requires FirstSuccess(order, req).None? || i <= FirstSuccess(order, req).value
    ensures Succeeds(order[i], req) ==>
      && ChainResponse(order, req) == AsResponse(order[i](req)).value
      && StatusNotes(order, req) == i + 2
    ensures !Succeeds(order[i], req) ==>
      FirstSuccess(order, req).None? || i + 1 <= FirstSuccess(order, req).value
  {
  }

  /** With every processor tried, the chain gives the fallback. */
  lemma ChainExhausted(order: seq<Processor>, req: AudioRequest)
    requires FirstSuccess(order, req).None? || |order| <= FirstSuccess(order, req).value
    ensures ChainResponse(order, req) == Fallback(req.requestId)
    ensures StatusNotes(order, req) == |order|
  {
  }

  /** The processors in the order they are tried. */
  function Chain(reg: seq<(string, Processor)>): (order: seq<Processor>)
    ensures |order| == |reg| == |ProcessorOrder(Names(reg))|
  {
    var names := ProcessorOrder(Names(reg));
    ProcessorOrderPermutes(Names(reg));
    assert |names| == |reg| by {
      assert |multiset(names)| == |multiset(Names(reg))|;
    }
    seq(|names|, i requires 0 <= i < |names| => (assert names[i] in multiset(Names(reg)); Lookup(reg, names[i])))
  }

  // ---------------------------------------------------------------------
  // What the protocol leaves on the bus

  /** How many messages were ever published to topic `name`: its
      `message_count`, or 0 while the topic does not exist. */
  function Published(snap: map<string, TopicState<Payload>>, name: string): nat
  {
    if name in snap then snap[name].messageCount else 0
  }

  /** The payload of the newest message in `name`'s history. */
  function Newest(snap: map<string, TopicState<Payload>>, name: string): Option<Payload>
  {
    if name in snap && |snap[name].history| > 0 then Some(snap[name].history[|snap[name].history| - 1].payload)
    else None
  }

  /** How many pending deliveries in queue `q` are for topic `name`. */
  function Queued(q: seq<Entry<Payload>>, name: string): nat
  {
    if q == [] then 0
    else Queued(q[..|q| - 1], name) + (if q[|q| - 1].message.topic == name then 1 else 0)
  }

  /** What can be seen of one topic: messages published, the newest
      payload, and deliveries pending. */
  datatype Observation = Observation(published: nat, newest: Option<Payload>, queued: nat)

  function Observe(snap: map<string, TopicState<Payload>>, q: seq<Entry<Payload>>, name: string): Observation
  {
    Observation(Published(snap, name), Newest(snap, name), Queued(q, name))
  }

  /** The three topics of the voice protocol. */
  datatype Traffic = Traffic(requests: Observation, statuses: Observation, responses: Observation)

  function TrafficOf(snap: map<string, TopicState<Payload>>, q: seq<Entry<Payload>>): Traffic
  {
    Traffic(Observe(snap, q, RequestTopic), Observe(snap, q, StatusTopic), Observe(snap, q, ResponseTopic))
  }

  /** One more message with `payload`, queued when `queued` holds. */
  function Noted(o: Observation, payload: Payload, queued: bool): Observation
  {
    Observation(o.published + 1, Some(payload), o.queued + (if queued then 1 else 0))
  }

  /** The traffic after a publish to `name`; other topics are not seen. */
  function Posted(tr: Traffic, name: string, payload: Payload, queued: bool): Traffic
  {
    if name == RequestTopic then tr.(requests := Noted(tr.requests, payload, queued))
    else if name == StatusTopic then tr.(statuses := Noted(tr.statuses, payload, queued))
    else if name == ResponseTopic then tr.(responses := Noted(tr.responses, payload, queued))
    else tr
  }

  /** A publish to `name` counts one more message there and makes its
      payload the newest of `name`; no other topic changes. */
  lemma PublishEffect(snap: map<string, TopicState<Payload>>, name: string, m: Message<Payload>, now: int, t: string)
    ensures var after := snap[name := WithMessage(StateOrNew(snap, name, now), m)];
      && Published(after, t) == Published(snap, t) + (if t == name then 1 else 0)
      && Newest(after, t) == if t == name then Some(m.payload) else Newest(snap, t)
  {
  }

  /** A delivery queued behind the others is counted for its own topic only. */
  lemma QueueEffect(q: seq<Entry<Payload>>, e: Entry<Payload>, t: string)
    ensures Queued(q + [e], t) == Queued(q, t) + (if e.message.topic == t then 1 else 0)
  {
    assert (q + [e])[..|q|] == q;
  }

  /** The traffic after `publish(name, payload)`: the history always takes
      the message, the queue only when `queued`. */
  lemma PostedTraffic(snap: map<string, TopicState<Payload>>, q: seq<Entry<Payload>>, m: Message<Payload>,
                      now: int, e: Entry<Payload>, queued: bool)
    requires e.message == m
    ensures var after := snap[m.topic := WithMessage(StateOrNew(snap, m.topic, now), m)];
      TrafficOf(after, if queued then q + [e] else q) == Posted(TrafficOf(snap, q), m.topic, m.payload, queued)
  {
    PublishEffect(snap, m.topic, m, now, RequestTopic);
    PublishEffect(snap, m.topic, m, now, StatusTopic);
    PublishEffect(snap, m.topic, m, now, ResponseTopic);
    if queued {
      QueueEffect(q, e, RequestTopic);
      QueueEffect(q, e, StatusTopic);
      QueueEffect(q, e, ResponseTopic);
    }
  }

  /** The whole bus as values: every topic's state, the pending deliveries,
      the creation order of the topics, the next queue counter, the
      statistics and the running flag. */
  datatype Bus = Bus(
    snap: map<string, TopicState<Payload>>,
    queue: seq<Entry<Payload>>,
    order: seq<string>,
    counter: nat,
    stats: Stats,
    running: bool)

  /** The topics the protocol's own publishes leave alone: all but
      `voice.status` and `voice.response`. */
  function Others(snap: map<string, TopicState<Payload>>): map<string, TopicState<Payload>>
  {
    snap - {StatusTopic, ResponseTopic}
  }

  /** Messages ever published to the status and response topics. */
  function Sent(snap: map<string, TopicState<Payload>>): nat
  {
    Published(snap, StatusTopic) + Published(snap, ResponseTopic)
  }

  /** What publishing to `voice.status` and `voice.response` leaves as it
      was: every other topic; the subscribers of those two; and, once those
      publishes are set aside, the queue counter, the published and failed
      counts, the deliveries pending, and the topics created but not yet
      listed. Nothing is delivered and the worker's flag stays. */
  datatype Kept = Kept(
    others: map<string, TopicState<Payload>>,
    statusSubscribers: seq<Callback>,
    responseSubscribers: seq<Callback>,
    countersElsewhere: int,
    countedElsewhere: int,
    pendingUncounted: int,
    createdUnlisted: int,
    delivered: nat,
    running: bool)

  function KeptOf(b: Bus): Kept
  {
    Kept(Others(b.snap), SubscribersOf(b.snap, StatusTopic), SubscribersOf(b.snap, ResponseTopic),
         b.counter - Sent(b.snap), b.stats.published + b.stats.failed - Sent(b.snap),
         |b.queue| - b.stats.published, b.stats.topicsCreated - |b.order|, b.stats.delivered, b.running)
  }

  /** The bus went from `b0` to `b1` by publishes to `voice.status` and
      `voice.response` only: what `Kept` names stayed, and the queue and
      the creation order only grew. */
  ghost predicate Accounted(b0: Bus, b1: Bus)
  {
    KeptOf(b1) == KeptOf(b0) && b0.queue <= b1.queue && b0.order <= b1.order
  }

  /** What `Accounted` says, change by change: every topic but the status
      and response topics stays as it was, `voice.request` included; no
      subscriber list changes; each publish draws one queue counter and is
      counted once, as published exactly when it was queued; every created
      topic is counted; nothing is delivered. */
  lemma AccountedMeans(b0: Bus, b1: Bus)
    requires Accounted(b0, b1)
    ensures forall n :: n != StatusTopic && n != ResponseTopic ==>
      (n in b1.snap <==> n in b0.snap) && (n in b0.snap ==> b1.snap[n] == b0.snap[n])
    ensures forall n :: SubscribersOf(b1.snap, n) == SubscribersOf(b0.snap, n)
    ensures b1.counter - b0.counter == Sent(b1.snap) - Sent(b0.snap)
    ensures (b1.stats.published + b1.stats.failed) - (b0.stats.published + b0.stats.failed) == Sent(b1.snap) - Sent(b0.snap)
    ensures b0.queue <= b1.queue && |b1.queue| - |b0.queue| == b1.stats.published - b0.stats.published
    ensures b1.stats.topicsCreated - b0.stats.topicsCreated == |b1.order| - |b0.order|
    ensures b1.stats.delivered == b0.stats.delivered && b1.running == b0.running
  {
    forall n | n != StatusTopic && n != ResponseTopic
      ensures (n in b1.snap <==> n in b0.snap) && (n in b0.snap ==> b1.snap[n] == b0.snap[n])
    {
      assert n in b1.snap <==> n in Others(b1.snap);
      assert n in b0.snap <==> n in Others(b0.snap);
      if n in b0.snap {
        assert b0.snap[n] == Others(b0.snap)[n] == Others(b1.snap)[n] == b1.snap[n];
      }
    }
  }

  /** One publish of `m` to a status or response topic, queued as `e` when
      `ok`, is accounted for. */
  lemma PublishAccounted(b0: Bus, b1: Bus, m: Message<Payload>, now: int, e: Entry<Payload>, ok: bool)
    requires m.topic == StatusTopic || m.topic == ResponseTopic
    requires e.message == m
    requires b1.snap == b0.snap[m.topic := WithMessage(StateOrNew(b0.snap, m.topic, now), m)]
    requires b1.queue == b0.queue + (if ok then [e] else [])
    requires b1.order == b0.order + (if m.topic in b0.snap then [] else [m.topic])
    requires b1.counter == b0.counter + 1
    requires b1.stats.published == b0.stats.published + (if ok then 1 else 0)
    requires b1.stats.failed == b0.stats.failed + (if ok then 0 else 1)
    requires b1.stats.topicsCreated == b0.stats.topicsCreated + (if m.topic in b0.snap then 0 else 1)
    requires b1.stats.delivered == b0.stats.delivered && b1.running == b0.running
    ensures Accounted(b0, b1)
  {
    assert Others(b1.snap) == Others(b0.snap);
  }

  /** Two runs of such publishes make one. */
  lemma AccountedTrans(b0: Bus, b1: Bus, b2: Bus)
    requires Accounted(b0, b1) && Accounted(b1, b2)
    ensures Accounted(b0, b2)
  {
    assert b0.queue <= b2.queue by {
      assert b2.queue[..|b0.queue|] == b1.queue[..|b1.queue|][..|b0.queue|];
    }
    assert b0.order <= b2.order by {
      assert b2.order[..|b0.order|] == b1.order[..|b1.order|][..|b0.order|];
    }
  }

  /** `_publish_status`'s payload. */
  function StatusNote(requestId: string, status: string, text: string, now: int): Payload
  {
    DictPayload(map["request_id" := Str(requestId), "status" := Str(status), "message" := Str(text), "timestamp" := Int(now)])
  }
  datatype VoiceStats = VoiceStats(received: nat, processed: nat, failed: nat)

  /** `get_stats`'s dictionary. */
  datatype StatsReport = StatsReport(
    received: nat,
    processed: nat,
    failed: nat,
    activeRequests: nat,
    registeredProcessors: seq<string>)

  /** How `_handle_request` ends. `Rejected` and `Escaped` leave it by an
      exception, which the bus counts as a failed delivery. */
  datatype Outcome =
    | Rejected                              // no request could be read; the except block itself raises
    | Responded(response: AudioResponse)    // the chain's response was queued
    | ErrorResponded(response: AudioResponse) // queueing it failed; an error response was queued instead
    | Escaped(error: string)                // queueing the error response failed too

  /** Marking a request active and then retiring it leaves the other
      active requests as they were. */
  lemma RetireAdded(m: map<string, AudioRequest>, k: string, v: AudioRequest)
    ensures k in m[k := v] && m[k := v] - {k} == m - {k}
  {
  }

  /** How publishing `response` to `request` ends on `voice.response`,
      observed before (`seen0`) and after (`seen1`): either the answer is
      queued, or it is only recorded and the error response follows it. */
  ghost predicate Answered(outcome: Outcome, request: AudioRequest, response: AudioResponse,
                           seen0: Observation, seen1: Observation)
  {
    var answer := Noted(seen0, ResponsePayload(response), outcome.Responded?);
    var error := ErrorResponse(request.requestId, QueueFullError(ResponseTopic));
    && !outcome.Rejected?
    && (outcome.Responded? ==> outcome.response == response && seen1 == answer)
    && (outcome.ErrorResponded? ==> outcome.response == error && seen1 == Noted(answer, ResponsePayload(error), true))
    && (outcome.Escaped? ==> outcome.error == QueueFullError(ResponseTopic) && seen1 == Noted(answer, ResponsePayload(error), false))
  }

  class VoiceProcessor {
    const service: PubSubService<Payload>
    const publisher: Publisher<Payload>
    const subscriber: Subscriber<Payload>
    var processors: seq<(string, Processor)>
    var active: map<string, AudioRequest>
    var stats: VoiceStats

    /** The registry is a dictionary: each name at most once. */
    ghost predicate Valid()
      reads this`processors
    {
      NoDuplicates(Names(processors))
    }

    /** The publisher answers on `voice.response` of this processor's bus. */
    predicate Wired()
    {
      publisher.service == service && publisher.defaultTopic == Some(ResponseTopic)
    }

    /** The voice topics as they stand on the bus. */
    ghost function Traffic(): Traffic
      reads service, service.topics.Values
    {
      TrafficOf(service.Snapshot(), service.queue)
    }

    /** The bus as it stands. */
    ghost function View(): Bus
      reads service, service.topics.Values
    {
      Bus(service.Snapshot(), service.queue, service.topicOrder, service.queueCounter, service.stats, service.running)
    }

    /** Subscribes `handler` (this processor's `_handle_request`) to
        `voice.request`, creating the topic when needed. */
    constructor (service: PubSubService<Payload>, handler: Callback, now: int)
      requires service.Valid()
      modifies service, service.topics.Values
      ensures Wired() && Valid() && this.service == service && subscriber.service == service
      ensures processors == [] && active == map[] && stats == VoiceStats(0, 0, 0)
      ensures service.Valid()
      ensures var before := StateOrNew(old(service.Snapshot()), RequestTopic, now);
        service.Snapshot() == old(service.Snapshot())[RequestTopic := WithSubscriber(before, handler)]
      ensures handler in service.Snapshot()[RequestTopic].subscribers
      ensures service.topicOrder == old(service.topicOrder) + (if RequestTopic in old(service.topics) then [] else [RequestTopic])
      ensures service.stats == old(service.stats).(topicsCreated := old(service.stats.topicsCreated) + (if RequestTopic in old(service.topics) then 0 else 1))
      ensures service.queue == old(service.queue) && service.queueCounter == old(service.queueCounter)
      ensures service.running == old(service.running)
    {
      this.service := service;
      publisher := new Publisher(service, Some(ResponseTopic));
      subscriber := new Subscriber(service);
      processors := [];
      active := map[];
      stats := VoiceStats(0, 0, 0);
      new;
      service.RegistryUnchanged();
      var _ := subscriber.Subscribe(RequestTopic, handler, now);
    }

    /** `register_processor`: a known name keeps its place in the registry
        and gets the new processor; a new name is added last. */
    method RegisterProcessor(name: string, p: Processor)
      requires Valid()
      modifies this`processors
      ensures Valid()
      ensures processors == Registered(old(processors), name, p)
      ensures Names(processors) == if name in Names(old(processors)) then Names(old(processors)) else Names(old(processors)) + [name]
      ensures Lookup(processors, name) == p
    {
      RegisteredUnique(processors, name, p);
      RegisteredNames(processors, name, p);
      RegisteredLookup(processors, name, p, name);
      processors := Registered(processors, name, p);
    }

    /** `get_stats`: the counters, the number of requests in flight, and
        the processor names in registration order. */
    function GetStats(): (r: StatsReport)
      reads this`stats, this`active, this`processors
      ensures r.registeredProcessors == Names(processors)
      ensures r.activeRequests == |active|
      ensures r.received == stats.received && r.processed == stats.processed && r.failed == stats.failed
    {
      StatsReport(stats.received, stats.processed, stats.failed, |active|, Names(processors))
    }

    /** `service.publish(name, payload, metadata=metadata)` at normal priority. */
    method Post(name: string, payload: Payload, metadata: map<string, Value>, ids: nat -> string, now: int)
      returns (r: Result<string, string>)
      requires service.Valid()
      modifies service, service.topics.Values
      ensures service.Valid() && (forall n :: n in service.topics ==> (n in old(service.topics) && service.topics[n] == old(service.topics)[n]) || fresh(service.topics[n]))
      ensures r.Ok? <==> !service.Full(|old(service.queue)|)
      ensures r.Err? ==> r.error == QueueFullError(name)
      ensures var m := Message(name, payload, ids(old(service.queueCounter)), now, Normal, metadata);
        && service.Snapshot() == old(service.Snapshot())[name := WithMessage(StateOrNew(old(service.Snapshot()), name, now), m)]
        && service.queue == old(service.queue) + (if r.Ok? then [Entry(-PriorityValue(Normal), now, old(service.queueCounter), m)] else [])
      ensures service.topicOrder == old(service.topicOrder) + (if name in old(service.topics) then [] else [name])
      ensures service.queueCounter == old(service.queueCounter) + 1
      ensures service.stats.published == old(service.stats.published) + (if r.Ok? then 1 else 0)
      ensures service.stats.failed == old(service.stats.failed) + (if r.Ok? then 0 else 1)
      ensures service.stats.topicsCreated == old(service.stats.topicsCreated) + (if name in old(service.topics) then 0 else 1)
      ensures service.stats.delivered == old(service.stats.delivered)
      ensures service.running == old(service.running)
      ensures Traffic() == Posted(old(Traffic()), name, payload, r.Ok?)
      ensures unchanged(this)
    {
      ghost var s0, q0, c0 := service.Snapshot(), service.queue, service.queueCounter;
      r := service.Publish(name, payload, Normal, metadata, ids, now);
      ghost var m := Message(name, payload, ids(c0), now, Normal, metadata);
      PostedTraffic(s0, q0, m, now, Entry(-PriorityValue(Normal), now, c0, m), r.Ok?);
    }

    /** `publisher.publish(payload, topic="voice.response", metadata=metadata)`. */
    method Respond(payload: Payload, metadata: map<string, Value>, ids: nat -> string, now: int)
      returns (r: Result<string, string>)
      requires Wired() && service.Valid()
      modifies service, service.topics.Values
      ensures service.Valid() && (forall n :: n in service.topics ==> (n in old(service.topics) && service.topics[n] == old(service.topics)[n]) || fresh(service.topics[n]))
      ensures r.Ok? <==> !service.Full(|old(service.queue)|)
      ensures r.Err? ==> r.error == QueueFullError(ResponseTopic)
      ensures var m := Message(ResponseTopic, payload, ids(old(service.queueCounter)), now, Normal, metadata);
        && service.Snapshot() == old(service.Snapshot())[ResponseTopic := WithMessage(StateOrNew(old(service.Snapshot()), ResponseTopic, now), m)]
        && service.queue == old(service.queue) + (if r.Ok? then [Entry(-PriorityValue(Normal), now, old(service.queueCounter), m)] else [])
      ensures Accounted(old(View()), View())
      ensures Traffic() == Posted(old(Traffic()), ResponseTopic, payload, r.Ok?)
      ensures unchanged(this)
    {
      ghost var v0 := View();
      assert ChooseTopic(Some(ResponseTopic), publisher.defaultTopic) == Some(ResponseTopic);
      r := publisher.Publish(payload, Some(ResponseTopic), Normal, metadata, ids, now);
      ghost var m := Message(ResponseTopic, payload, ids(v0.counter), now, Normal, metadata);
      ghost var e := Entry(-PriorityValue(Normal), now, v0.counter, m);
      PostedTraffic(v0.snap, v0.queue, m, now, e, r.Ok?);
      PublishAccounted(v0, View(), m, now, e, r.Ok?);
    }

    /** `_publish_status`: a note on `voice.status`; a full queue is
        ignored. */
    method PublishStatus(requestId: string, status: string, text: string, ids: nat -> string, now: int, ghost from: Bus)
      requires service.Valid()
      requires Accounted(from, View())
      modifies service, service.topics.Values
      ensures service.Valid() && (forall n :: n in service.topics ==> (n in old(service.topics) && service.topics[n] == old(service.topics)[n]) || fresh(service.topics[n]))
      ensures Traffic().requests == old(Traffic()).requests && Traffic().responses == old(Traffic()).responses
      ensures Traffic().statuses.published == old(Traffic()).statuses.published + 1
      ensures Traffic().statuses.newest == Some(StatusNote(requestId, status, text, now))
      ensures Accounted(from, View())
      ensures unchanged(this)
    {
      ghost var v0 := View();
      var sent := Post(StatusTopic, StatusNote(requestId, status, text, now), map[], ids, now);
      ghost var m := Message(StatusTopic, StatusNote(requestId, status, text, now), ids(v0.counter), now, Normal, map[]);
      PublishAccounted(v0, View(), m, now, Entry(-PriorityValue(Normal), now, v0.counter, m), sent.Ok?);
      AccountedTrans(from, v0, View());
    }

    /** The notes for one processor: the attempt, and the success when it
        answered. */
    method Announce(requestId: string, name: string, succeeded: bool, ids: nat -> string, now: int, ghost from: Bus)
      requires service.Valid()
      requires Accounted(from, View())
      modifies service, service.topics.Values
      ensures service.Valid()
      ensures forall n :: n in service.topics ==> (n in old(service.topics) && service.topics[n] == old(service.topics)[n]) || fresh(service.topics[n])
      ensures Traffic().requests == old(Traffic()).requests && Traffic().responses == old(Traffic()).responses
      ensures Traffic().statuses.published == old(Traffic()).statuses.published + (if succeeded then 2 else 1)
      ensures Accounted(from, View())
      ensures unchanged(this)
    {
      PublishStatus(requestId, "processing", "Trying processor: " + name, ids, now, from);
      if succeeded {
        PublishStatus(requestId, "completed", "Successfully processed with " + name, ids, now, from);
      }
    }

    /** `_process_request`: tries the processors in `ProcessorOrder`,
        announcing each attempt on `voice.status`, and answers with the
        first successful response, or the fallback. */
    method ProcessRequest(request: AudioRequest, ids: nat -> string, now: int) returns (response: AudioResponse)
      requires service.Valid()
      modifies service, service.topics.Values
      ensures service.Valid() && (forall n :: n in service.topics ==> (n in old(service.topics) && service.topics[n] == old(service.topics)[n]) || fresh(service.topics[n]))
      ensures response == ChainResponse(Chain(processors), request)
      ensures Traffic().requests == old(Traffic()).requests && Traffic().responses == old(Traffic()).responses
      ensures Traffic().statuses.published == old(Traffic()).statuses.published + StatusNotes(Chain(processors), request)
      ensures Accounted(old(View()), View())
      ensures unchanged(this)
    {
      var order := ProcessorOrder(Names(processors));
      var chain := Chain(processors);
      ghost var first := FirstSuccess(chain, request);
      var i := 0;
      while i < |order|
        invariant 0 <= i <= |order|
        invariant service.Valid()
        invariant forall n :: n in service.topics ==> (n in old(service.topics) && service.topics[n] == old(service.topics)[n]) || fresh(service.topics[n])
        invariant first.None? || i <= first.value
        invariant Traffic().requests == old(Traffic()).requests && Traffic().responses == old(Traffic()).responses
        invariant Traffic().statuses.published == old(Traffic()).statuses.published + i
        invariant Accounted(old(View()), View())
      {
        var name := order[i];
        var result := AsResponse(chain[i](request));
        ChainStep(chain, request, i);
        var succeeded := result.Some? && result.value.success;
        Announce(request.requestId, name, succeeded, ids, now, old(View()));
        if succeeded {
          return result.value;
        }
        i := i + 1;
      }
      ChainExhausted(chain, request);
      return Fallback(request.requestId);
    }

    /** `_handle_request`: reads the request, counts it and marks it active,
        runs the chain, and answers on `voice.response`. When that answer
        cannot be queued, an error response takes its place and the request
        stays active and uncounted. */
    method HandleRequest(message: Message<Payload>, uuid: string, ids: nat -> string, now: int)
      returns (outcome: Outcome)
      requires Wired() && service.Valid()
      modifies this`active, this`stats, service, service.topics.Values
      ensures service.Valid()
      ensures RequestOf(message.payload, uuid).None? ==>
        && outcome == Rejected && active == old(active) && stats == old(stats)
        && View() == old(View())
      ensures RequestOf(message.payload, uuid).Some? ==>
        var request := RequestOf(message.payload, uuid).value;
        && !outcome.Rejected?
        && Accounted(old(View()), View())
        && stats.received == old(stats.received) + 1
        && Traffic().requests == old(Traffic()).requests
        && Traffic().statuses.published == old(Traffic()).statuses.published + 1 + StatusNotes(Chain(old(processors)), request)
      ensures RequestOf(message.payload, uuid).Some? ==>
        var request := RequestOf(message.payload, uuid).value;
        var response := ChainResponse(Chain(old(processors)), request);
        && Answered(outcome, request, response, old(Traffic()).responses, Traffic().responses)
        && (outcome.Responded? ==>
              && active == old(active) - {request.requestId}
              && stats.processed == old(stats.processed) + (if response.success then 1 else 0)
              && stats.failed == old(stats.failed) + (if response.success then 0 else 1))
        && (!outcome.Responded? ==>
              && active == old(active)[request.requestId := request]
              && stats.processed == old(stats.processed) && stats.failed == old(stats.failed))
      ensures service.maxQueueSize <= 0 ==> !outcome.ErrorResponded? && !outcome.Escaped?
    {
      var read := RequestOf(message.payload, uuid);
      if read.None? {
        return Rejected;
      }
      var request := read.value;
      Admit(request);
      var response := Work(request, ids, now);
      ghost var v1 := View();
      outcome := Reply(request, response, ids, now);
      AccountedTrans(old(View()), v1, View());
      if outcome.Responded? {
        Retire(request.requestId, response.success);
        RetireAdded(old(active), request.requestId, request);
      }
    }

    /** A request read from the bus is counted and marked active. */
    method Admit(request: AudioRequest)
      requires service.Valid()
      modifies this`active, this`stats
      ensures active == old(active)[request.requestId := request]
      ensures stats == old(stats).(received := old(stats.received) + 1)
      ensures service.Valid() && service.Snapshot() == old(service.Snapshot()) && service.queue == old(service.queue)
      ensures Traffic() == old(Traffic()) && View() == old(View())
    {
      stats := stats.(received := stats.received + 1);
      active := active[request.requestId := request];
      service.RegistryUnchanged();
    }

    /** A request whose answer was queued is no longer active, and counts
        as processed or failed by the answer's success. */
    method Retire(requestId: string, success: bool)
      requires service.Valid()
      modifies this`active, this`stats
      ensures active == old(active) - {requestId}
      ensures stats == if success then old(stats).(processed := old(stats.processed) + 1)
                       else old(stats).(failed := old(stats.failed) + 1)
      ensures service.Valid() && service.Snapshot() == old(service.Snapshot()) && service.queue == old(service.queue)
      ensures Traffic() == old(Traffic()) && View() == old(View())
    {
      if requestId in active {
        active := active - {requestId};
      }
      if success {
        stats := stats.(processed := stats.processed + 1);
      } else {
        stats := stats.(failed := stats.failed + 1);
      }
      service.RegistryUnchanged();
    }

    /** The processing half of `_handle_request`: the "received" note,
        then the chain. */
    method Work(request: AudioRequest, ids: nat -> string, now: int) returns (response: AudioResponse)
      requires service.Valid()
      modifies service, service.topics.Values
      ensures service.Valid() && (forall n :: n in service.topics ==> (n in old(service.topics) && service.topics[n] == old(service.topics)[n]) || fresh(service.topics[n]))
      ensures response == ChainResponse(Chain(processors), request)
      ensures Traffic().requests == old(Traffic()).requests && Traffic().responses == old(Traffic()).responses
      ensures Traffic().statuses.published == old(Traffic()).statuses.published + 1 + StatusNotes(Chain(processors), request)
      ensures Accounted(old(View()), View())
      ensures unchanged(this)
    {
      PublishStatus(request.requestId, "processing", "Request received, processing...", ids, now, old(View()));
      ghost var v1 := View();
      response := ProcessRequest(request, ids, now);
      AccountedTrans(old(View()), v1, View());
    }

    /** The answering half of `_handle_request`: publishes `response`, or
        the error response when the queue refuses it. */
    method Reply(request: AudioRequest, response: AudioResponse, ids: nat -> string, now: int)
      returns (outcome: Outcome)
      requires Wired() && service.Valid()
      modifies service, service.topics.Values
      ensures service.Valid() && (forall n :: n in service.topics ==> (n in old(service.topics) && service.topics[n] == old(service.topics)[n]) || fresh(service.topics[n]))
      ensures Traffic().requests == old(Traffic()).requests && Traffic().statuses == old(Traffic()).statuses
      ensures Answered(outcome, request, response, old(Traffic()).responses, Traffic().responses)
      ensures service.maxQueueSize <= 0 ==> outcome.Responded?
      ensures Accounted(old(View()), View())
      ensures unchanged(this)
    {
      var sent := Respond(ResponsePayload(response),
                          map["request_id" := Str(request.requestId), "timestamp" := Int(now)], ids, now);
      if sent.Ok? {
        return Responded(response);
      }
      ghost var v1 := View();
      outcome := ReplyError(request.requestId, sent.error, ids, now);
      AccountedTrans(old(View()), v1, View());
    }

    /** The except block of `_handle_request`: an error response carrying
        `error`, flagged as such in its metadata. */
    method ReplyError(requestId: string, error: string, ids: nat -> string, now: int)
      returns (outcome: Outcome)
      requires Wired() && service.Valid()
      modifies service, service.topics.Values
      ensures service.Valid() && (forall n :: n in service.topics ==> (n in old(service.topics) && service.topics[n] == old(service.topics)[n]) || fresh(service.topics[n]))
      ensures unchanged(this)
      ensures Traffic().requests == old(Traffic()).requests && Traffic().statuses == old(Traffic()).statuses
      ensures outcome.ErrorResponded? || outcome.Escaped?
      ensures outcome.ErrorResponded? ==> outcome.response == ErrorResponse(requestId, error)
      ensures outcome.Escaped? ==> outcome.error == QueueFullError(ResponseTopic)
      ensures Traffic().responses == Noted(old(Traffic()).responses, ResponsePayload(ErrorResponse(requestId, error)), outcome.ErrorResponded?)
      ensures outcome.ErrorResponded? <==> !service.Full(|old(service.queue)|)
      ensures Accounted(old(View()), View())
    {
      var errorResponse := ErrorResponse(requestId, error);
      var resent := Respond(ResponsePayload(errorResponse), map["error" := Bool(true), "timestamp" := Int(now)], ids, now);
      if resent.Ok? {
        return ErrorResponded(errorResponse);
      }
      return Escaped(resent.error);
    }

    /** `request_audio`: publishes a fresh request on `voice.request` and
        returns its id; a full queue raises. */
    method RequestAudio(text: string, referenceAudioPath: Option<string>, style: string,
                        metadata: Option<map<string, Value>>, uuid: string, ids: nat -> string, now: int)
      returns (r: Result<string, string>)
      requires service.Valid()
      modifies service, service.topics.Values
      ensures service.Valid()
      ensures forall n :: n in service.topics ==> (n in old(service.topics) && service.topics[n] == old(service.topics)[n]) || fresh(service.topics[n])
      ensures r.Ok? <==> !service.Full(|old(service.queue)|)
      ensures r.Ok? ==> r.value == uuid
      ensures var request := AudioRequest(text, referenceAudioPath, None, style, OrEmpty(metadata), uuid);
        var m := Message(RequestTopic, RequestPayload(request), ids(old(service.queueCounter)), now, Normal, map["request_id" := Str(uuid)]);
        && service.Snapshot() == old(service.Snapshot())[RequestTopic := WithMessage(StateOrNew(old(service.Snapshot()), RequestTopic, now), m)]
        && service.queue == old(service.queue) + (if r.Ok? then [Entry(-PriorityValue(Normal), now, old(service.queueCounter), m)] else [])
      ensures service.topicOrder == old(service.topicOrder) + (if RequestTopic in old(service.topics) then [] else [RequestTopic])
      ensures service.queueCounter == old(service.queueCounter) + 1
      ensures service.stats.published == old(service.stats.published) + (if r.Ok? then 1 else 0)
      ensures service.stats.failed == old(service.stats.failed) + (if r.Ok? then 0 else 1)
      ensures service.stats.topicsCreated == old(service.stats.topicsCreated) + (if RequestTopic in old(service.topics) then 0 else 1)
      ensures service.stats.delivered == old(service.stats.delivered)
      ensures service.running == old(service.running)
      ensures r.Err? ==> r.error == QueueFullError(RequestTopic)
      ensures var request := AudioRequest(text, referenceAudioPath, None, style, OrEmpty(metadata), uuid);
        Traffic() == old(Traffic()).(requests := Noted(old(Traffic()).requests, RequestPayload(request), r.Ok?))
    {
      var request := AudioRequest(text, referenceAudioPath, None, style, OrEmpty(metadata), uuid);
      var sent := Post(RequestTopic, RequestPayload(request), map["request_id" := Str(request.requestId)], ids, now);
      if sent.Err? {
        return Err(sent.error);
      }
      return Ok(request.requestId);
    }
  }
}
