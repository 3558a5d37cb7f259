/**
  Replay of a tool transcript: the automaton that walks a chat message list, and the grammar
  it recognises. A message is reduced to what the automaton reads from it.
*/
module ToolReplay {
  import opened Outcomes
  import opened Json
  import VertexCallId

  datatype Provider = Anthropic | VertexAi | Bedrock

  /** `gemini3`: the provider model id starts with `gemini-3`, ignoring case. */
  datatype Config = Config(provider: Provider, gemini3: bool, toolNames: set<string>)

  datatype ArgumentText = NotText | Undecodable | Decoded(value: Json)

  datatype Function = Function(fields: set<string>, name: Option<string>, arguments: ArgumentText)

  /** `id`, `callType` and `name` are None when absent or not text; an absent `extra` is Null. */
  datatype Call =
    | NotAnObject
    | Call(fields: set<string>, callType: Option<string>, id: Option<string>,
           target: Option<Function>, extra: Json)

  datatype ToolCalls = Absent | NotAList | Calls(calls: seq<Call>)

  datatype Role = Assistant | Tool | OtherRole

  datatype Message =
    | NotAMessage
    | Message(role: Role, toolCalls: ToolCalls, toolCallId: Option<string>, contentIsText: bool)

  const GATEWAY_CALL_ID_PREFIX: string := "function-call-gateway-"

  predicate BedrockToolUseId(id: string) {
    1 <= |id| <= 64 &&
    forall i :: 0 <= i < |id| ==>
      'a' <= id[i] <= 'z' || 'A' <= id[i] <= 'Z' || '0' <= id[i] <= '9'
      || id[i] == '_' || id[i] == '.' || id[i] == ':' || id[i] == '-'
  }

  predicate ExtraContentOk(extra: Json, callId: string) {
    extra == Null ||
    (extra == Obj([("litestar_gateway", Obj([("synthetic_call_id", Bool(true))]))])
     && GATEWAY_CALL_ID_PREFIX <= callId)
  }

  predicate ArgumentsOk(arguments: ArgumentText) {
    arguments.Decoded? && arguments.value.Obj? && Depth(arguments.value) <= MAX_TOOL_JSON_DEPTH
  }

  /** Everything required of one call apart from its id being new. */
  predicate CallOk(cfg: Config, call: Call, index: nat) {
    && call.Call?
    && call.fields <= {"id", "type", "function"} + (if cfg.provider.VertexAi? then {"extra_content"} else {})
    && {"id", "type", "function"} <= call.fields
    && call.callType == Some("function")
    && call.id.Some? && call.id.value != ""
    && call.target.Some?
    && call.target.value.fields == {"name", "arguments"}
    && call.target.value.name.Some? && call.target.value.name.value in cfg.toolNames
    && (cfg.provider.Bedrock? ==> BedrockToolUseId(call.id.value))
    && ArgumentsOk(call.target.value.arguments)
    && (cfg.provider.VertexAi? ==>
          && ExtraContentOk(call.extra, call.id.value)
          && VertexCallId.DecodeCallId(call.id.value).Ok?
          && (Signed(call.id.value) ==> index == 0))
  }

  predicate Signed(callId: string) {
    var decoded := VertexCallId.DecodeCallId(callId);
    decoded.Ok? && decoded.value.1.Some?
  }

  predicate CallsOk(cfg: Config, calls: seq<Call>) {
    && calls != []
    && (forall i :: 0 <= i < |calls| ==> CallOk(cfg, calls[i], i))
    && (cfg.provider.VertexAi? && cfg.gemini3 ==> Signed(calls[0].id.value))
  }

  function IdOf(call: Call): string {
    if call.Call? && call.id.Some? then call.id.value else ""
  }

  function Ids(calls: seq<Call>): seq<string> {
    seq(|calls|, i requires 0 <= i < |calls| => IdOf(calls[i]))
  }

  predicate IsGroup(m: Message) { m.Message? && m.role.Assistant? && !m.toolCalls.Absent? }
  predicate IsResult(m: Message) { m.Message? && m.role.Tool? }
  predicate IsPlain(m: Message) { m.Message? && !IsGroup(m) && !IsResult(m) }

  // ---- The grammar ----

  datatype Segment = Plain(message: Message) | Exchange(head: Message, results: seq<Message>)

  predicate Distinct(s: seq<string>) {
    forall i, j :: 0 <= i < j < |s| ==> s[i] != s[j]
  }

  predicate ResultsOk(results: seq<Message>) {
    forall i :: 0 <= i < |results| ==>
      IsResult(results[i]) && results[i].toolCallId.Some? && results[i].contentIsText
  }

  function ResultIds(results: seq<Message>): seq<string>
    requires ResultsOk(results)
  {
    seq(|results|, i requires 0 <= i < |results| => results[i].toolCallId.value)
  }

  /** The results answer the calls: each exactly once, and for Vertex in call order. */
  predicate Answers(cfg: Config, results: seq<Message>, ids: seq<string>) {
    && ResultsOk(results)
    && multiset(ResultIds(results)) == multiset(ids)
    && (cfg.provider.VertexAi? ==> ResultIds(results) == ids)
  }

  predicate SegmentOk(cfg: Config, segment: Segment) {
    match segment
    case Plain(m) => IsPlain(m)
    case Exchange(head, results) =>
      && IsGroup(head) && head.toolCalls.Calls?
      && CallsOk(cfg, head.toolCalls.calls)
      && Answers(cfg, results, Ids(head.toolCalls.calls))
  }

  function SegmentMessages(segment: Segment): seq<Message> {
    match segment
    case Plain(m) => [m]
    case Exchange(head, results) => [head] + results
  }

  function SegmentIds(segment: Segment): seq<string> {
    if segment.Exchange? && segment.head.Message? && segment.head.toolCalls.Calls?
    then Ids(segment.head.toolCalls.calls) else []
  }

  function Transcript(segments: seq<Segment>): seq<Message> {
    if segments == [] then [] else SegmentMessages(segments[0]) + Transcript(segments[1..])
  }

  function CallIds(segments: seq<Segment>): seq<string> {
    if segments == [] then [] else SegmentIds(segments[0]) + CallIds(segments[1..])
  }

  /** Entries of the list that are not objects are skipped wherever they stand. */
  function Objects(messages: seq<Message>): seq<Message> {
    if messages == [] then []
    else (if messages[0].Message? then [messages[0]] else []) + Objects(messages[1..])
  }

  predicate Fresh(ids: seq<string>, seen: set<string>) {
    Distinct(ids) && forall i :: 0 <= i < |ids| ==> ids[i] !in seen
  }

  /** `messages` finishes a group still waiting for `pending` and then parses into segments. */
  predicate ParsesAs(cfg: Config, messages: seq<Message>, seen: set<string>, pending: seq<string>,
                     results: seq<Message>, segments: seq<Segment>) {
    && Objects(messages) == results + Transcript(segments)
    && Answers(cfg, results, pending)
    && (forall i :: 0 <= i < |segments| ==> SegmentOk(cfg, segments[i]))
    && Fresh(CallIds(segments), seen)
  }

  /** The language: plain messages and answered call groups, call ids unique over the whole list. */
  ghost predicate WellFormed(cfg: Config, messages: seq<Message>) {
    exists segments :: ParsesAs(cfg, messages, {}, [], [], segments)
  }

  // ---- The automaton on values ----

  function Remove(ids: seq<string>, id: string): (r: seq<string>)
    requires id in ids
    ensures |r| == |ids| - 1
    ensures multiset(r) == multiset(ids) - multiset{id}
    ensures ids[0] == id ==> r == ids[1..]
  {
    assert ids == [ids[0]] + ids[1..];
    if ids[0] == id then ids[1..] else [ids[0]] + Remove(ids[1..], id)
  }

  predicate AcceptsResult(cfg: Config, m: Message, pending: seq<string>) {
    && pending != []
    && m.Message? && m.toolCallId.Some? && m.toolCallId.value in pending
    && m.contentIsText
    && (cfg.provider.VertexAi? ==> m.toolCallId.value == pending[0])
  }

  predicate AcceptsGroup(cfg: Config, m: Message, seen: set<string>) {
    && m.Message? && m.toolCalls.Calls?
    && CallsOk(cfg, m.toolCalls.calls)
    && Fresh(Ids(m.toolCalls.calls), seen)
  }

  function Elements(ids: seq<string>): set<string> { set id | id in ids }

  predicate Scan(cfg: Config, messages: seq<Message>, seen: set<string>, pending: seq<string>) {
    if messages == [] then pending == []
    else
      var m, rest := messages[0], messages[1..];
      if m.NotAMessage? then Scan(cfg, rest, seen, pending)
      else if IsGroup(m) then
        pending == [] && AcceptsGroup(cfg, m, seen)
        && Scan(cfg, rest, seen + Elements(Ids(m.toolCalls.calls)), Ids(m.toolCalls.calls))
      else if IsResult(m) then
        AcceptsResult(cfg, m, pending) && Scan(cfg, rest, seen, Remove(pending, m.toolCallId.value))
      else pending == [] && Scan(cfg, rest, seen, pending)
  }

  // ---- The automaton recognises the grammar ----

  lemma FreshConcat(a: seq<string>, b: seq<string>, seen: set<string>)
    ensures Fresh(a + b, seen) <==> Fresh(a, seen) && Fresh(b, seen + Elements(a))
  {
    var s := a + b;
    if Fresh(s, seen) {
      forall i | 0 <= i < |b| ensures b[i] !in seen + Elements(a) {
        assert b[i] == s[|a| + i];
        forall k | 0 <= k < |a| ensures a[k] != b[i] { assert s[k] == a[k]; }
      }
      forall i, j | 0 <= i < j < |a| ensures a[i] != a[j] { assert s[i] != s[j]; }
      forall i, j | 0 <= i < j < |b| ensures b[i] != b[j] { assert s[|a| + i] != s[|a| + j]; }
      forall i | 0 <= i < |a| ensures a[i] !in seen { assert s[i] == a[i]; }
    }
    if Fresh(a, seen) && Fresh(b, seen + Elements(a)) {
      forall i, j | 0 <= i < j < |s| ensures s[i] != s[j] {
        if i < |a| <= j { assert s[i] in a && s[j] == b[j - |a|]; }
      }
      forall i | 0 <= i < |s| ensures s[i] !in seen {
        if i >= |a| { assert s[i] == b[i - |a|]; }
      }
    }
  }

  lemma AnswersCons(cfg: Config, m: Message, results: seq<Message>, pending: seq<string>)
    requires IsResult(m)
    ensures Answers(cfg, [m] + results, pending) <==>
              AcceptsResult(cfg, m, pending) && Answers(cfg, results, Remove(pending, m.toolCallId.value))
  {
    var all := [m] + results;
    ResultsOkCons(m, results);
    if ResultsOk(all) {
      hide ResultsOk, Remove, ResultIds;
      HeadAnswers(m.toolCallId.value, ResultIds(results), pending);
      HeadAnswersInOrder(m.toolCallId.value, ResultIds(results), pending);
    }
  }

  lemma HeadAnswers(id: string, others: seq<string>, pending: seq<string>)
    ensures multiset([id] + others) == multiset(pending) <==>
              id in pending && multiset(others) == multiset(Remove(pending, id))
  {
    hide Remove;
    var mine := [id] + others;
    assert multiset(mine) == multiset{id} + multiset(others);
    assert id in multiset(mine);
    if id in pending {
      TakeOne(multiset(others), multiset(pending), multiset(Remove(pending, id)), id);
    } else {
      assert id !in multiset(pending);
    }
  }

  lemma TakeOne(others: multiset<string>, all: multiset<string>, rest: multiset<string>, id: string)
    requires id in all && rest == all - multiset{id}
    ensures multiset{id} + others == all <==> others == rest
  {
    assert all == multiset{id} + rest;
    assert (multiset{id} + others) - multiset{id} == others;
  }

  lemma HeadAnswersInOrder(id: string, others: seq<string>, pending: seq<string>)
    ensures [id] + others == pending <==>
              id in pending && id == pending[0] && others == Remove(pending, id)
  {
    hide Remove;
    var mine := [id] + others;
    assert mine[0] == id && mine[1..] == others;
    if pending != [] {
      assert pending == [pending[0]] + pending[1..];
      assert pending[0] in pending;
    }
  }

  lemma ResultsOkCons(m: Message, results: seq<Message>)
    ensures ResultsOk([m] + results) <==>
              IsResult(m) && m.toolCallId.Some? && m.contentIsText && ResultsOk(results)
    ensures ResultsOk([m] + results) ==>
              ResultIds([m] + results) == [m.toolCallId.value] + ResultIds(results)
  {
    var all := [m] + results;
    assert all[0] == m && all[1..] == results;
    if ResultsOk(all) {
      forall i | 0 <= i < |results| ensures results[i] == all[i + 1] {}
    }
  }

  lemma NoResultsAnswerOnlyNothing(cfg: Config, pending: seq<string>)
    ensures Answers(cfg, [], pending) <==> pending == []
  {
    if pending != [] { assert pending[0] in multiset(pending); }
    else { assert ResultIds([]) == []; }
  }

  lemma SplitHead<T>(head: T, tail: seq<T>, a: seq<T>, b: seq<T>)
    requires [head] + tail == a + b && a != []
    ensures a == [head] + a[1..] && tail == a[1..] + b
  {
    var whole := [head] + tail;
    assert whole[0] == head && whole[1..] == tail;
    assert (a + b)[0] == a[0] && (a + b)[1..] == a[1..] + b;
  }

  /** Soundness: an accepted suffix has a parse. */
  lemma {:induction false} ScanSound(cfg: Config, messages: seq<Message>, seen: set<string>, pending: seq<string>)
    returns (results: seq<Message>, segments: seq<Segment>)
    requires Scan(cfg, messages, seen, pending)
    ensures ParsesAs(cfg, messages, seen, pending, results, segments)
  {
    hide CallsOk, ParsesAs, Answers, Fresh;
    if messages == [] {
      NothingParses(cfg, seen);
      return [], [];
    }
    var m, rest := messages[0], messages[1..];
    assert messages == [m] + rest;
    if m.NotAMessage? {
      results, segments := ScanSound(cfg, rest, seen, pending);
      PrependSkipped(cfg, m, rest, seen, pending, results, segments);
    } else if IsGroup(m) {
      var ids := Ids(m.toolCalls.calls);
      var rs, ss := ScanSound(cfg, rest, seen + Elements(ids), ids);
      results, segments := [], [Exchange(m, rs)] + ss;
      PrependExchange(cfg, m, rest, seen, rs, ss);
    } else if IsResult(m) {
      var rs, ss := ScanSound(cfg, rest, seen, Remove(pending, m.toolCallId.value));
      results, segments := [m] + rs, ss;
      PrependResult(cfg, m, rest, seen, pending, rs, ss);
    } else {
      var rs, ss := ScanSound(cfg, rest, seen, pending);
      results, segments := [], [Plain(m)] + ss;
      PrependPlain(cfg, m, rest, seen, rs, ss);
    }
  }

  lemma NothingParses(cfg: Config, seen: set<string>)
    ensures ParsesAs(cfg, [], seen, [], [], [])
  {
    NoResultsAnswerOnlyNothing(cfg, []);
  }

  lemma ObjectsCons(m: Message, rest: seq<Message>)
    ensures Objects([m] + rest) == (if m.Message? then [m] else []) + Objects(rest)
  {
    assert ([m] + rest)[1..] == rest;
  }

  lemma PrependSkipped(cfg: Config, m: Message, rest: seq<Message>, seen: set<string>, pending: seq<string>,
                       results: seq<Message>, segments: seq<Segment>)
    requires m.NotAMessage? && ParsesAs(cfg, rest, seen, pending, results, segments)
    ensures ParsesAs(cfg, [m] + rest, seen, pending, results, segments)
  {
    ObjectsCons(m, rest);
  }

  lemma PrependResult(cfg: Config, m: Message, rest: seq<Message>, seen: set<string>, pending: seq<string>,
                      results: seq<Message>, segments: seq<Segment>)
    requires IsResult(m) && AcceptsResult(cfg, m, pending)
    requires ParsesAs(cfg, rest, seen, Remove(pending, m.toolCallId.value), results, segments)
    ensures ParsesAs(cfg, [m] + rest, seen, pending, [m] + results, segments)
  {
    hide Answers, AcceptsResult, Remove, SegmentOk, Fresh, Objects, Transcript, CallIds;
    AnswersCons(cfg, m, results, pending);
    ObjectsCons(m, rest);
    assert [m] + (results + Transcript(segments)) == [m] + results + Transcript(segments);
  }

  lemma PrependPlain(cfg: Config, m: Message, rest: seq<Message>, seen: set<string>,
                     results: seq<Message>, segments: seq<Segment>)
    requires IsPlain(m) && ParsesAs(cfg, rest, seen, [], results, segments)
    ensures ParsesAs(cfg, [m] + rest, seen, [], [], [Plain(m)] + segments)
  {
    hide CallsOk, Fresh;
    var all := [Plain(m)] + segments;
    NoResultsAnswerOnlyNothing(cfg, []);
    assert |results| == |ResultIds(results)| == |multiset(ResultIds(results))| == 0;
    assert all[1..] == segments;
    ObjectsCons(m, rest);
    assert [m] + (results + Transcript(segments)) == [] + Transcript(all);
    assert [] + CallIds(segments) == CallIds(segments);
  }

  lemma ExchangeUnfolds(m: Message, results: seq<Message>, segments: seq<Segment>)
    requires IsGroup(m) && m.toolCalls.Calls?
    ensures var all := [Exchange(m, results)] + segments;
            && Transcript(all) == [m] + (results + Transcript(segments))
            && CallIds(all) == Ids(m.toolCalls.calls) + CallIds(segments)
  {
    hide Ids;
    assert ([Exchange(m, results)] + segments)[1..] == segments;
    assert [m] + (results + Transcript(segments)) == [m] + results + Transcript(segments);
  }

  lemma PrependOk(cfg: Config, first: Segment, segments: seq<Segment>)
    requires SegmentOk(cfg, first) && forall i :: 0 <= i < |segments| ==> SegmentOk(cfg, segments[i])
    ensures forall i :: 0 <= i < |segments| + 1 ==> SegmentOk(cfg, ([first] + segments)[i])
  {
    hide SegmentOk;
  }

  lemma PrependExchange(cfg: Config, m: Message, rest: seq<Message>, seen: set<string>,
                        results: seq<Message>, segments: seq<Segment>)
    requires IsGroup(m) && AcceptsGroup(cfg, m, seen)
    requires var ids := Ids(m.toolCalls.calls); ParsesAs(cfg, rest, seen + Elements(ids), ids, results, segments)
    ensures ParsesAs(cfg, [m] + rest, seen, [], [], [Exchange(m, results)] + segments)
  {
    hide CallsOk, Answers, Fresh, Ids, Objects, Transcript, CallIds, Elements;
    NoResultsAnswerOnlyNothing(cfg, []);
    ExchangeUnfolds(m, results, segments);
    FreshConcat(Ids(m.toolCalls.calls), CallIds(segments), seen);
    ObjectsCons(m, rest);
    assert SegmentOk(cfg, Exchange(m, results));
    hide SegmentOk, AcceptsGroup;
    PrependOk(cfg, Exchange(m, results), segments);
    var all := [Exchange(m, results)] + segments;
    assert Objects([m] + rest) == [] + Transcript(all);
  }

  /** Completeness: a suffix with a parse is accepted. */
  lemma {:induction false} ScanComplete(cfg: Config, messages: seq<Message>, seen: set<string>, pending: seq<string>,
                                        results: seq<Message>, segments: seq<Segment>)
    requires ParsesAs(cfg, messages, seen, pending, results, segments)
    ensures Scan(cfg, messages, seen, pending)
  {
    hide CallsOk;
    NoResultsAnswerOnlyNothing(cfg, pending);
    if messages == [] {
      assert results == [];
    } else {
      var m, rest := messages[0], messages[1..];
      assert m.Message? ==> Objects(messages) == [m] + Objects(rest);
      if m.NotAMessage? {
        ScanComplete(cfg, rest, seen, pending, results, segments);
      } else if results != [] {
        SplitHead(m, Objects(rest), results, Transcript(segments));
        assert IsResult(results[0]);
        AnswersCons(cfg, m, results[1..], pending);
        ScanComplete(cfg, rest, seen, Remove(pending, m.toolCallId.value), results[1..], segments);
      } else {
        assert [] + Transcript(segments) == Transcript(segments);
        var first, others := segments[0], segments[1..];
        FreshConcat(SegmentIds(first), CallIds(others), seen);
        SplitHead(m, Objects(rest), SegmentMessages(first), Transcript(others));
        assert forall i :: 0 <= i < |others| ==> others[i] == segments[i + 1];
        if first.Plain? {
          assert [m][1..] == [];
          ScanComplete(cfg, rest, seen, pending, [], others);
        } else {
          assert ([m] + first.results)[1..] == first.results;
          ScanComplete(cfg, rest, seen + Elements(SegmentIds(first)), SegmentIds(first), first.results, others);
        }
      }
    }
  }

  /** The automaton accepts exactly the well-formed transcripts. */
  lemma ScanIffWellFormed(cfg: Config, messages: seq<Message>)
    ensures Scan(cfg, messages, {}, []) <==> WellFormed(cfg, messages)
  {
    NoResultsAnswerOnlyNothing(cfg, []);
    if Scan(cfg, messages, {}, []) {
      var results, segments := ScanSound(cfg, messages, {}, []);
      assert |results| == |ResultIds(results)| == |multiset(ResultIds(results))| == 0;
      assert ParsesAs(cfg, messages, {}, [], [], segments);
    }
    if segments :| ParsesAs(cfg, messages, {}, [], [], segments) {
      ScanComplete(cfg, messages, {}, [], [], segments);
    }
  }

  // ---- What an accepted transcript's calls are ----

  /** What a call must be for its provider to take it back; `first` says it is the first of its group. */
  ghost predicate Translates(cfg: Config, call: Call, first: bool) {
    && call.Call? && {"id", "type", "function"} <= call.fields
    && (forall f :: f in call.fields ==>
          f in {"id", "type", "function"} || (f == "extra_content" && cfg.provider.VertexAi?))
    && call.callType == Some("function") && call.id.Some? && call.id.value != ""
    && call.target.Some? && call.target.value.fields == {"name", "arguments"}
    && call.target.value.name.Some? && call.target.value.name.value in cfg.toolNames
    && call.target.value.arguments.Decoded?
    && call.target.value.arguments.value.Obj? && Depth(call.target.value.arguments.value) <= 32
    && (cfg.provider.Bedrock? ==>
          && |call.id.value| <= 64
          && forall c :: c in call.id.value ==>
               'a' <= c <= 'z' || 'A' <= c <= 'Z' || '0' <= c <= '9' || c in {'_', '.', ':', '-'})
    && (cfg.provider.VertexAi? ==>
          && (call.extra == Null
              || (call.extra == Obj([("litestar_gateway", Obj([("synthetic_call_id", Bool(true))]))])
                  && "function-call-gateway-" <= call.id.value))
          && match VertexCallId.DecodeCallId(call.id.value)
             case Err(_) => false
             case Ok((_, signature)) => if first then cfg.gemini3 ==> signature.Some? else signature.None?)
  }

  lemma CallsTranslate(cfg: Config, calls: seq<Call>)
    ensures CallsOk(cfg, calls) <==>
              calls != [] && forall i :: 0 <= i < |calls| ==> Translates(cfg, calls[i], i == 0)
  {
    hide Depth, VertexCallId.DecodeCallId;
    forall i | 0 <= i < |calls|
      ensures Translates(cfg, calls[i], i == 0) <==>
                CallOk(cfg, calls[i], i) && (i == 0 && cfg.provider.VertexAi? && cfg.gemini3 ==> Signed(calls[i].id.value))
    {
      OneCallTranslates(cfg, calls[i], i);
    }
  }

  lemma OneCallTranslates(cfg: Config, call: Call, i: nat)
    ensures Translates(cfg, call, i == 0) <==>
              CallOk(cfg, call, i) && (i == 0 && cfg.provider.VertexAi? && cfg.gemini3 ==> Signed(call.id.value))
  {
    hide Depth, VertexCallId.DecodeCallId;
    if call.Call? && call.id.Some? { LegalIdIs(call.id.value); }
  }

  lemma LegalIdIs(id: string)
    ensures BedrockToolUseId(id) <==>
              id != "" && |id| <= 64 && forall c :: c in id ==>
                'a' <= c <= 'z' || 'A' <= c <= 'Z' || '0' <= c <= '9' || c in {'_', '.', ':', '-'}
  {
    assert forall i :: 0 <= i < |id| ==> id[i] in id;
  }

  lemma {:induction false} ScanChecksCalls(cfg: Config, messages: seq<Message>, seen: set<string>, pending: seq<string>, k: nat)
    requires Scan(cfg, messages, seen, pending) && k < |messages| && IsGroup(messages[k])
    ensures messages[k].toolCalls.Calls? && CallsOk(cfg, messages[k].toolCalls.calls)
  {
    hide CallsOk, Fresh;
    var m, rest := messages[0], messages[1..];
    if k > 0 {
      if m.NotAMessage? { ScanChecksCalls(cfg, rest, seen, pending, k - 1); }
      else if IsGroup(m) { ScanChecksCalls(cfg, rest, seen + Elements(Ids(m.toolCalls.calls)), Ids(m.toolCalls.calls), k - 1); }
      else if IsResult(m) { ScanChecksCalls(cfg, rest, seen, Remove(pending, m.toolCallId.value), k - 1); }
      else { ScanChecksCalls(cfg, rest, seen, pending, k - 1); }
    }
  }

  /** Wherever an accepted transcript has an assistant's calls, there is at least one, and each is one its provider takes. */
  lemma AcceptedCallsTranslate(cfg: Config, messages: seq<Message>, k: nat)
    requires WellFormed(cfg, messages) && k < |messages|
    requires messages[k].Message? && messages[k].role.Assistant? && !messages[k].toolCalls.Absent?
    ensures messages[k].toolCalls.Calls? && messages[k].toolCalls.calls != []
    ensures forall i :: 0 <= i < |messages[k].toolCalls.calls| ==> Translates(cfg, messages[k].toolCalls.calls[i], i == 0)
  {
    ScanIffWellFormed(cfg, messages);
    hide WellFormed, CallsOk;
    ScanChecksCalls(cfg, messages, {}, [], k);
    CallsTranslate(cfg, messages[k].toolCalls.calls);
  }

  /** The next messages are results, as text, for these ids: each once, and for Vertex in this order. */
  ghost predicate AnsweredNext(cfg: Config, messages: seq<Message>, ids: seq<string>) {
    && |ids| <= |messages|
    && (forall i :: 0 <= i < |ids| ==>
          messages[i].Message? && messages[i].role.Tool? && messages[i].toolCallId.Some? && messages[i].contentIsText)
    && multiset(seq(|ids|, i requires 0 <= i < |ids| => messages[i].toolCallId.value)) == multiset(ids)
    && (cfg.provider.VertexAi? ==> forall i :: 0 <= i < |ids| ==> messages[i].toolCallId == Some(ids[i]))
  }

  lemma AnswersInFront(cfg: Config, messages: seq<Message>, results: seq<Message>, more: seq<Message>, ids: seq<string>)
    requires messages == results + more && Answers(cfg, results, ids)
    ensures AnsweredNext(cfg, messages, ids)
  {
    assert |results| == |ResultIds(results)| == |multiset(ResultIds(results))| == |multiset(ids)| == |ids|;
    assert seq(|ids|, i requires 0 <= i < |ids| => messages[i].toolCallId.value) == ResultIds(results);
  }

  lemma {:induction false} AllObjects(messages: seq<Message>)
    requires forall i :: 0 <= i < |messages| ==> messages[i].Message?
    ensures Objects(messages) == messages
  {
    if messages != [] {
      AllObjects(messages[1..]);
      assert messages == [messages[0]] + messages[1..];
    }
  }

  lemma ScanWaits(cfg: Config, messages: seq<Message>, seen: set<string>, ids: seq<string>)
    requires Scan(cfg, messages, seen, ids) && forall i :: 0 <= i < |messages| ==> messages[i].Message?
    ensures AnsweredNext(cfg, messages, ids)
  {
    var results, segments := ScanSound(cfg, messages, seen, ids);
    AllObjects(messages);
    hide Scan, Answers, AnsweredNext, Objects, Transcript, Fresh, SegmentOk;
    AnswersInFront(cfg, messages, results, Transcript(segments), ids);
  }

  lemma {:induction false} ScanWaitsForAnswers(cfg: Config, messages: seq<Message>, seen: set<string>, pending: seq<string>, k: nat)
    requires Scan(cfg, messages, seen, pending) && k < |messages| && IsGroup(messages[k])
    requires forall i :: 0 <= i < |messages| ==> messages[i].Message?
    ensures messages[k].toolCalls.Calls? && AnsweredNext(cfg, messages[k + 1..], Ids(messages[k].toolCalls.calls))
  {
    hide CallsOk, Fresh, AnsweredNext, Ids, Elements;
    var m, rest := messages[0], messages[1..];
    if k == 0 {
      ScanWaits(cfg, rest, seen + Elements(Ids(m.toolCalls.calls)), Ids(m.toolCalls.calls));
    } else {
      assert messages[k + 1..] == rest[k..];
      if IsGroup(m) { ScanWaitsForAnswers(cfg, rest, seen + Elements(Ids(m.toolCalls.calls)), Ids(m.toolCalls.calls), k - 1); }
      else if IsResult(m) { ScanWaitsForAnswers(cfg, rest, seen, Remove(pending, m.toolCallId.value), k - 1); }
      else { ScanWaitsForAnswers(cfg, rest, seen, pending, k - 1); }
    }
  }

  /** Right behind an assistant's calls, an accepted transcript has their results, all of them and nothing in between. */
  lemma AcceptedCallsAreAnswered(cfg: Config, messages: seq<Message>, k: nat)
    requires WellFormed(cfg, messages) && k < |messages| && forall i :: 0 <= i < |messages| ==> messages[i].Message?
    requires messages[k].role.Assistant? && !messages[k].toolCalls.Absent?
    ensures messages[k].toolCalls.Calls?
    ensures var calls := messages[k].toolCalls.calls;
            && (forall i :: 0 <= i < |calls| ==> calls[i].Call? && calls[i].id == Some(Ids(calls)[i]))
            && AnsweredNext(cfg, messages[k + 1..], Ids(calls))
  {
    AcceptedCallsTranslate(cfg, messages, k);
    ScanIffWellFormed(cfg, messages);
    hide WellFormed, CallsOk, Scan, AnsweredNext;
    ScanWaitsForAnswers(cfg, messages, {}, [], k);
    TranslatedCallsHaveIds(cfg, messages[k].toolCalls.calls);
  }

  lemma TranslatedCallsHaveIds(cfg: Config, calls: seq<Call>)
    requires forall i :: 0 <= i < |calls| ==> Translates(cfg, calls[i], i == 0)
    ensures forall i :: 0 <= i < |calls| ==> calls[i].Call? && calls[i].id == Some(Ids(calls)[i])
  {
  }

  /** The smallest exchange: one call and the message behind it are accepted exactly when the call translates and the message answers it. */
  lemma OneCallIsAcceptedIff(cfg: Config, head: Message, call: Call, answer: Message)
    requires head.Message? && head.role.Assistant? && head.toolCalls == Calls([call])
    ensures WellFormed(cfg, [head, answer]) <==>
              && Translates(cfg, call, true)
              && answer.Message? && answer.role.Tool? && answer.toolCallId == call.id && answer.contentIsText
  {
    var messages := [head, answer];
    ScanIffWellFormed(cfg, messages);
    CallsTranslate(cfg, [call]);
    TranslatedHasId(cfg, call);
    var id := IdOf(call);
    assert Ids([call]) == [id] && Fresh([id], {});
    hide WellFormed, CallsOk, Translates, CallOk, Fresh, AcceptsResult;
    assert messages[1..] == [answer];
    OneAnswer(cfg, answer, {} + Elements([id]), id);
    assert CallsOk(cfg, [call]) <==> Translates(cfg, call, true) by { assert [call][0] == call; }
  }

  lemma OneAnswer(cfg: Config, answer: Message, seen: set<string>, id: string)
    ensures Scan(cfg, [answer], seen, [id]) <==>
              answer.Message? && answer.role.Tool? && answer.toolCallId == Some(id) && answer.contentIsText
  {
    assert [answer][1..] == [];
    if answer.Message? && answer.role.Tool? && AcceptsResult(cfg, answer, [id]) {
      assert |Remove([id], answer.toolCallId.value)| == 0;
    }
  }

  lemma TranslatedHasId(cfg: Config, call: Call)
    ensures Translates(cfg, call, true) ==> call.Call? && call.id == Some(IdOf(call))
  {
  }

  lemma Rejected(cfg: Config, messages: seq<Message>, i: nat, seen: set<string>, order: seq<string>)
    requires i < |messages| && messages[i].Message?
    requires var m := messages[i];
             if IsGroup(m) then order != [] || !AcceptsGroup(cfg, m, seen)
             else if IsResult(m) then !AcceptsResult(cfg, m, order)
             else order != []
    ensures !Scan(cfg, messages[i..], seen, order)
  {
  }

  lemma Advanced(cfg: Config, messages: seq<Message>, i: nat, seen: set<string>, order: seq<string>)
    requires i < |messages|
    ensures messages[i..][0] == messages[i] && messages[i..][1..] == messages[i + 1..]
  {
  }

  /** The calls walked so far in one group: each acceptable, and no id met before. */
  predicate WalkedCalls(cfg: Config, calls: seq<Call>, n: nat, seen: set<string>)
    requires n <= |calls|
  {
    (forall i :: 0 <= i < n ==> CallOk(cfg, calls[i], i)) && Fresh(Ids(calls[..n]), seen)
  }

  lemma WalkOneCall(cfg: Config, calls: seq<Call>, n: nat, seen: set<string>)
    requires n < |calls| && WalkedCalls(cfg, calls, n, seen)
    ensures Ids(calls[..n + 1]) == Ids(calls[..n]) + [IdOf(calls[n])]
    ensures WalkedCalls(cfg, calls, n + 1, seen) <==>
              CallOk(cfg, calls[n], n) && IdOf(calls[n]) !in seen + Elements(Ids(calls[..n]))
    ensures !WalkedCalls(cfg, calls, n + 1, seen) ==> !(CallsOk(cfg, calls) && Fresh(Ids(calls), seen))
  {
    hide CallOk;
    assert Ids(calls[..n + 1]) == Ids(calls[..n]) + [IdOf(calls[n])];
    FreshConcat(Ids(calls[..n]), [IdOf(calls[n])], seen);
    assert [IdOf(calls[n])][0] == IdOf(calls[n]);
    assert Ids(calls) == Ids(calls[..n + 1]) + Ids(calls[n + 1..]);
    FreshConcat(Ids(calls[..n + 1]), Ids(calls[n + 1..]), seen);
  }

  /** One group: accepted with its ids queued, or refused. */
  method WalkGroup(cfg: Config, toolCalls: ToolCalls, seen: set<string>)
    returns (ok: bool, seen': set<string>, pending: set<string>, order: seq<string>)
    requires !toolCalls.Absent?
    ensures ok <==> toolCalls.Calls? && CallsOk(cfg, toolCalls.calls) && Fresh(Ids(toolCalls.calls), seen)
    ensures ok ==> order == Ids(toolCalls.calls) && pending == Elements(order) && seen' == seen + pending
  {
    seen', pending, order := seen, {}, [];
    if !toolCalls.Calls? || toolCalls.calls == [] {
      return false, seen', pending, order;
    }
    var calls := toolCalls.calls;
    for index := 0 to |calls|
      invariant WalkedCalls(cfg, calls, index, seen)
      invariant order == Ids(calls[..index]) && pending == Elements(order) && seen' == seen + pending
    {
      hide CallOk, CallsOk, Fresh;
      WalkOneCall(cfg, calls, index, seen);
      var callId := IdOf(calls[index]);
      if !CallOk(cfg, calls[index], index) || callId in seen' {
        return false, seen', pending, order;
      }
      seen' := seen' + {callId};
      pending := pending + {callId};
      order := order + [callId];
    }
    assert calls[..|calls|] == calls;
    ok := cfg.provider.VertexAi? && cfg.gemini3 ==> Signed(calls[0].id.value);
  }

  /** The validator: accepts exactly the well-formed transcripts. */
  method ValidateToolReplay(cfg: Config, messages: seq<Message>) returns (ok: bool)
    ensures ok <==> WellFormed(cfg, messages)
  {
    ScanIffWellFormed(cfg, messages);
    var seen: set<string>, pending: set<string>, order: seq<string> := {}, {}, [];
    for i := 0 to |messages|
      invariant Scan(cfg, messages, {}, []) == Scan(cfg, messages[i..], seen, order)
      invariant pending == Elements(order) && Distinct(order)
    {
      hide CallsOk, WellFormed;
      var m := messages[i];
      Advanced(cfg, messages, i, seen, order);
      if m.NotAMessage? {
        continue;
      }
      if IsGroup(m) {
        if pending != {} {
          Rejected(cfg, messages, i, seen, order);
          return false;
        }
        NothingPending(order);
        var accepted;
        accepted, seen, pending, order := WalkGroup(cfg, m.toolCalls, seen);
        if !accepted {
          return false;
        }
        continue;
      }
      if IsResult(m) {
        if !AcceptsResult(cfg, m, order) {
          Rejected(cfg, messages, i, seen, order);
          return false;
        }
        RemoveKeepsDistinct(order, m.toolCallId.value);
        pending := pending - {m.toolCallId.value};
        order := Remove(order, m.toolCallId.value);
        continue;
      }
      if pending != {} {
        Rejected(cfg, messages, i, seen, order);
        return false;
      }
      NothingPending(order);
    }
    assert messages[|messages|..] == [];
    NothingPending(order);
    return pending == {};
  }

  lemma NothingPending(order: seq<string>)
    ensures Elements(order) == {} <==> order == []
  {
    if order != [] { assert order[0] in Elements(order); }
  }

  lemma NotAnElement(id: string, ids: seq<string>)
    ensures id in Elements(ids) <==> id in ids
  {
  }

  lemma ConsIds(id: string, others: seq<string>)
    ensures Distinct([id] + others) <==> id !in others && Distinct(others)
    ensures Elements([id] + others) == {id} + Elements(others)
  {
    var all := [id] + others;
    assert all[0] == id && forall i :: 0 <= i < |others| ==> all[i + 1] == others[i];
    if Distinct(all) {
      forall i, j | 0 <= i < j < |others| ensures others[i] != others[j] { assert all[i + 1] != all[j + 1]; }
      forall i | 0 <= i < |others| ensures others[i] != id { assert all[0] != all[i + 1]; }
    }
  }

  /** The pending set and the pending list keep describing the same ids. */
  lemma {:induction false} RemoveKeepsDistinct(ids: seq<string>, id: string)
    requires Distinct(ids) && id in ids
    ensures Distinct(Remove(ids, id))
    ensures Elements(Remove(ids, id)) == Elements(ids) - {id}
  {
    hide Distinct, Elements;
    var first, rest := ids[0], ids[1..];
    assert ids == [first] + rest;
    ConsIds(first, rest);
    if first == id {
      NotAnElement(id, rest);
    } else {
      RemoveKeepsDistinct(rest, id);
      ConsIds(first, Remove(rest, id));
      NotAnElement(first, rest);
      NotAnElement(first, Remove(rest, id));
    }
  }
}
