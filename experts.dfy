/** A language expert: a named prompting persona (system message, example
    input and output) together with the generation parameters handed to the
    chat client. The chat client itself is remote; it appears here only as
    the parameters it was built with and as uninterpreted completion
    functions passed to the operations that call it. */
module Experts {
  import opened Wrappers
  import opened PyValues

  type Params = map<string, Value>

  /** The generation keys `change_param` routes into `model_params`. */
  const ModelKeys: set<string> :=
    {"model_name", "temperature", "frequency_penalty", "presence_penalty", "n", "max_tokens"}

  /** The top-level attributes `serialize` copies besides `model_params`. */
  const FieldNames: set<string> :=
    {"name", "system_message", "description", "example_input", "example_output"}

  /** The parameters an expert gets when it is built without any. */
  const DefaultParams: Params := map[
    "model_name" := Str("gpt-4"),
    "temperature" := Float("0.0"),
    "frequency_penalty" := Float("1.0"),
    "presence_penalty" := Float("0.5"),
    "n" := Int(1),
    "max_tokens" := Int(512)]

  /** The default parameters carry exactly the recognised generation keys. */
  lemma DefaultParamsHaveModelKeys()
    ensures DefaultParams.Keys == ModelKeys
    ensures DefaultParams["model_name"] == Str("gpt-4") && DefaultParams["temperature"] == Float("0.0")
    ensures DefaultParams["frequency_penalty"] == Float("1.0") && DefaultParams["presence_penalty"] == Float("0.5")
    ensures DefaultParams["n"] == Int(1) && DefaultParams["max_tokens"] == Int(512)
  {
  }

  /** The `model_params` dictionary: a mutable object that an expert, the
      record `serialize` returns, a registry entry and every expert rebuilt
      from that entry all share. */
  class ParamDict {
    var entries: Params

    constructor (entries: Params)
      ensures this.entries == entries
    {
      this.entries := entries;
    }
  }

  /** The six-field record `serialize` produces. `Record<ParamDict>` is the
      live dictionary (its `model_params` is the shared object);
      `Record<Params>` is its value, as a file written by `json.dump` holds it. */
  datatype Record<P> = Record(
    name: Value,
    systemMessage: Value,
    description: Value,
    exampleInput: Value,
    exampleOutput: Value,
    modelParams: P)

  type Snapshot = Record<Params>

  /** The value of a top-level attribute of a record, looked up by its Python name. */
  function FieldOf<P>(r: Record<P>, fieldName: string): Value
    requires fieldName in FieldNames
  {
    match fieldName
    case "name" => r.name
    case "system_message" => r.systemMessage
    case "description" => r.description
    case "example_input" => r.exampleInput
    case _ => r.exampleOutput
  }

  /** A live record with the dictionary it shares replaced by its current contents. */
  function Freeze(r: Record<ParamDict>): Snapshot
    reads r.modelParams
  {
    Record(r.name, r.systemMessage, r.description, r.exampleInput, r.exampleOutput, r.modelParams.entries)
  }

  /** Everything `change_param` can write: the serialized fields (with the
      parameters as a value) and any other attribute it has added. */
  datatype Attributes = Attributes(fields: Snapshot, extra: map<string, Value>)

  /** Whether `m` and `m'` agree on key `k` (both lack it, or both map it to the same value). */
  predicate AgreeOn(m: Params, m': Params, k: string)
  {
    (k in m <==> k in m') && (k in m ==> m[k] == m'[k])
  }

  /** What `change_param` leaves behind: the attributes after its store, and
      whether the call returned (Pass) or raised. */
  datatype Change = Change(after: Attributes, outcome: Outcome<Error>)

  /** The effect of `change_param(parameterName, newValue)`. A generation key
      is written into `model_params`, a serialized field name into that field,
      `chat` is overwritten by the client rebuild, and any other name becomes an
      extra attribute. The rebuild then raises TypeError when `model_params` is
      given a scalar (`**` needs a mapping) or when an attribute named
      `regen_chat` shadows the rebuilding method (no Value is callable). */
  function ChangeAttributes(a: Attributes, parameterName: string, newValue: Value): (r: Change)
    // a generation key: only that entry of model_params changes
    ensures parameterName in ModelKeys ==>
      && r.after.fields.modelParams.Keys == a.fields.modelParams.Keys + {parameterName}
      && r.after.fields.modelParams[parameterName] == newValue
      && (forall k :: k != parameterName ==> AgreeOn(a.fields.modelParams, r.after.fields.modelParams, k))
      && (forall f :: f in FieldNames ==> FieldOf(r.after.fields, f) == FieldOf(a.fields, f))
      && r.after.extra == a.extra
    // any other name leaves model_params alone
    ensures parameterName !in ModelKeys ==> r.after.fields.modelParams == a.fields.modelParams
    // a serialized top-level field: only that field changes
    ensures parameterName in FieldNames ==>
      && FieldOf(r.after.fields, parameterName) == newValue
      && (forall f :: f in FieldNames && f != parameterName ==> FieldOf(r.after.fields, f) == FieldOf(a.fields, f))
      && r.after.extra == a.extra
    // neither the whole dictionary nor the client is replaced
    ensures parameterName in {"model_params", "chat"} ==> r.after == a
    // any other attribute is recorded beside the serialized fields
    ensures parameterName !in ModelKeys + FieldNames + {"model_params", "chat"} ==>
      r.after == a.(extra := a.extra[parameterName := newValue])
    // the client rebuild fails exactly for a scalar model_params or a shadowed regen_chat
    ensures r.outcome.Fail? <==>
      parameterName in {"model_params", "regen_chat"} || "regen_chat" in a.extra
    ensures r.outcome.Fail? ==> r.outcome.error == TypeError
  {
    var f := a.fields;
    var after :=
      if parameterName in ModelKeys then
        a.(fields := f.(modelParams := f.modelParams[parameterName := newValue]))
      else if parameterName == "name" then a.(fields := f.(name := newValue))
      else if parameterName == "system_message" then a.(fields := f.(systemMessage := newValue))
      else if parameterName == "description" then a.(fields := f.(description := newValue))
      else if parameterName == "example_input" then a.(fields := f.(exampleInput := newValue))
      else if parameterName == "example_output" then a.(fields := f.(exampleOutput := newValue))
      else if parameterName == "model_params" || parameterName == "chat" then a
      else a.(extra := a.extra[parameterName := newValue]);
    var rebuildFails := parameterName == "model_params" || "regen_chat" in after.extra;
    Change(after, if rebuildFails then Fail(TypeError) else Pass)
  }

  // ---------------------------------------------------------------------
  // The system content and the requests sent to the chat client
  // ---------------------------------------------------------------------

  const SystemLabel: string := "System Message: "
  const InputLabel: string := "\n\nExample Input: "
  const OutputLabel: string := "\n\nExample Output: "

  /** The layout of the system content around three rendered texts. */
  function Layout(systemText: string, inputText: string, outputText: string): string
  {
    SystemLabel + systemText + InputLabel + inputText + OutputLabel + outputText
  }

  /** The text of the system message built from the three rendered attributes. */
  function RenderContent(systemMessage: Value, exampleInput: Value, exampleOutput: Value): string
  {
    Layout(PyStr(systemMessage), PyStr(exampleInput), PyStr(exampleOutput))
  }

  /** The content reads back: each label, then the attribute's `str()`, at a
      place that its length and the lengths before it fix. */
  lemma ContentReadsBack(systemMessage: Value, exampleInput: Value, exampleOutput: Value)
    ensures var c := RenderContent(systemMessage, exampleInput, exampleOutput);
      var sm, ei, eo := PyStr(systemMessage), PyStr(exampleInput), PyStr(exampleOutput);
      var inputAt := |SystemLabel| + |sm| + |InputLabel|;
      var outputAt := inputAt + |ei| + |OutputLabel|;
      && |c| == outputAt + |eo|
      && c[..|SystemLabel|] == SystemLabel
      && c[|SystemLabel|..|SystemLabel| + |sm|] == sm
      && c[|SystemLabel| + |sm|..inputAt] == InputLabel
      && c[inputAt..inputAt + |ei|] == ei
      && c[inputAt + |ei|..outputAt] == OutputLabel
      && c[outputAt..] == eo
  {
    var sm, ei, eo := PyStr(systemMessage), PyStr(exampleInput), PyStr(exampleOutput);
    var p2 := SystemLabel + sm;
    var p3 := p2 + InputLabel;
    var p4 := p3 + ei;
    var p5 := p4 + OutputLabel;
    var c := p5 + eo;
    assert c == RenderContent(systemMessage, exampleInput, exampleOutput);
    // peel the content from the right, one piece at a time
    assert c[..|p5|] == p5 && c[|p5|..] == eo;
    assert c[|p4|..|p5|] == p5[|p4|..] == OutputLabel;
    assert c[..|p4|] == p5[..|p4|] == p4;
    assert c[|p3|..|p4|] == p4[|p3|..] == ei;
    assert c[..|p3|] == p4[..|p3|] == p3;
    assert c[|p2|..|p3|] == p3[|p2|..] == InputLabel;
    assert c[..|p2|] == p3[..|p2|] == p2;
    assert c[|SystemLabel|..|p2|] == p2[|SystemLabel|..] == sm;
    assert c[..|SystemLabel|] == p2[..|SystemLabel|] == SystemLabel;
  }

  /** Equal sequences that end alike start alike. */
  lemma CancelRight(x: string, y: string, z: string)
    requires x + z == y + z
    ensures x == y
  {
    assert |x| == |y|;
    assert x == (x + z)[..|x|] == (y + z)[..|y|] == y;
  }

  /** Equal sequences that start alike end alike. */
  lemma CancelLeft(z: string, x: string, y: string)
    requires z + x == z + y
    ensures x == y
  {
    assert x == (z + x)[|z|..] == (z + y)[|z|..] == y;
  }

  /** With the other two texts fixed, the layout determines the system text. */
  lemma LayoutDeterminesSystemText(a: string, a': string, b: string, d: string)
    requires Layout(a, b, d) == Layout(a', b, d)
    ensures a == a'
  {
    var tail := InputLabel + b + OutputLabel + d;
    assert Layout(a, b, d) == SystemLabel + (a + tail);
    assert Layout(a', b, d) == SystemLabel + (a' + tail);
    CancelLeft(SystemLabel, a + tail, a' + tail);
    CancelRight(a, a', tail);
  }

  /** With the other two texts fixed, the layout determines the input text. */
  lemma LayoutDeterminesInputText(a: string, b: string, b': string, d: string)
    requires Layout(a, b, d) == Layout(a, b', d)
    ensures b == b'
  {
    var head := SystemLabel + a + InputLabel;
    var tail := OutputLabel + d;
    assert Layout(a, b, d) == head + (b + tail);
    assert Layout(a, b', d) == head + (b' + tail);
    CancelLeft(head, b + tail, b' + tail);
    CancelRight(b, b', tail);
  }

  /** With the other two texts fixed, the layout determines the output text. */
  lemma LayoutDeterminesOutputText(a: string, b: string, d: string, d': string)
    requires Layout(a, b, d) == Layout(a, b, d')
    ensures d == d'
  {
    var head := SystemLabel + a + InputLabel + b + OutputLabel;
    assert Layout(a, b, d) == head + d;
    assert Layout(a, b, d') == head + d';
    CancelLeft(head, d, d');
  }

  /** The content reflects every edit of a rendered attribute: with two of the
      three attributes rendering alike, the contents are equal exactly when
      the third renders alike as well. */
  lemma ContentReflectsEdits(sm: Value, ei: Value, eo: Value, sm': Value, ei': Value, eo': Value)
    ensures PyStr(ei) == PyStr(ei') && PyStr(eo) == PyStr(eo') ==>
      (RenderContent(sm, ei, eo) == RenderContent(sm', ei', eo') <==> PyStr(sm) == PyStr(sm'))
    ensures PyStr(sm) == PyStr(sm') && PyStr(eo) == PyStr(eo') ==>
      (RenderContent(sm, ei, eo) == RenderContent(sm', ei', eo') <==> PyStr(ei) == PyStr(ei'))
    ensures PyStr(sm) == PyStr(sm') && PyStr(ei) == PyStr(ei') ==>
      (RenderContent(sm, ei, eo) == RenderContent(sm', ei', eo') <==> PyStr(eo) == PyStr(eo'))
  {
    var a, b, d := PyStr(sm), PyStr(ei), PyStr(eo);
    var a', b', d' := PyStr(sm'), PyStr(ei'), PyStr(eo');
    if Layout(a, b, d) == Layout(a', b', d') {
      if b == b' && d == d' {
        LayoutDeterminesSystemText(a, a', b, d);
      }
      if a == a' && d == d' {
        LayoutDeterminesInputText(a, b, b', d);
      }
      if a == a' && b == b' {
        LayoutDeterminesOutputText(a, b, d, d');
      }
    }
  }

  /** A message of a chat request. */
  datatype ChatMessage = SystemMessage(content: string) | HumanMessage(content: string)

  type Request = seq<ChatMessage>

  /** One choice the chat client generated for a request. */
  datatype ChatGeneration = ChatGeneration(text: string)

  /** All the choices generated for one request. */
  type Generation = seq<ChatGeneration>

  /** A single chat call of a client built with the given parameters: the
      text of the reply to a request. */
  type Completion = (Params, Request) -> string

  /** A batched chat call: the generations for a list of requests. */
  type BatchCompletion = (Params, seq<Request>) -> seq<Generation>

  /** The request `generate` sends: the system content, then the message. */
  function SingleRequest(content: string, message: string): (rq: Request)
    ensures |rq| == 2
    ensures rq[0].SystemMessage? && rq[0].content == content
    ensures rq[1].HumanMessage? && rq[1].content == message
  {
    [SystemMessage(content), HumanMessage(message)]
  }

  /** The requests `bulk_generate` sends: one per message, in order, each the
      shared system content followed by that message. */
  function BulkRequests(content: string, messages: seq<string>): (rs: seq<Request>)
    ensures |rs| == |messages|
    ensures forall i :: 0 <= i < |messages| ==> rs[i] == SingleRequest(content, messages[i])
  {
    if messages == [] then []
    else [SingleRequest(content, messages[0])] + BulkRequests(content, messages[1..])
  }

  /** `extract_texts_from_generations`: the text of the first choice of each
      generation, in order; IndexError as soon as a generation has no choice. */
  function ExtractTexts(generations: seq<Generation>): (r: Result<seq<string>, Error>)
    ensures r.Success? <==> forall i :: 0 <= i < |generations| ==> |generations[i]| > 0
    ensures r.Success? ==>
      && |r.value| == |generations|
      && forall i :: 0 <= i < |generations| ==> r.value[i] == generations[i][0].text
    ensures r.Failure? ==> r.error == IndexError
  {
    if generations == [] then Success([])
    else if |generations[0]| == 0 then Failure(IndexError)
    else match ExtractTexts(generations[1..])
      case Success(rest) => Success([generations[0][0].text] + rest)
      case Failure(e) => Failure(e)
  }

  /** Extraction distributes over a split of the batch: the texts of a batch
      are the texts of its first part followed by those of the rest. */
  lemma ExtractTextsAppend(g: seq<Generation>, h: seq<Generation>)
    ensures ExtractTexts(g + h).Success? <==> ExtractTexts(g).Success? && ExtractTexts(h).Success?
    ensures ExtractTexts(g + h).Success? ==>
      ExtractTexts(g + h).value == ExtractTexts(g).value + ExtractTexts(h).value
  {
    var gh := g + h;
    assert forall i :: 0 <= i < |g| ==> gh[i] == g[i];
    assert forall i :: 0 <= i < |h| ==> gh[|g| + i] == h[i];
    assert forall i :: |g| <= i < |gh| ==> gh[i] == h[i - |g|];
    var r := ExtractTexts(gh);
    if r.Success? {
      var t := ExtractTexts(g).value + ExtractTexts(h).value;
      assert |r.value| == |t|;
      assert forall i :: 0 <= i < |t| ==> r.value[i] == t[i];
    }
  }

  /** A stub transport that answers every request with one choice echoing
      the content of its last message (no choice for an empty request). */
  function EchoGenerations(requests: seq<Request>): (gs: seq<Generation>)
    ensures |gs| == |requests|
    ensures forall i :: 0 <= i < |requests| ==>
      gs[i] == if requests[i] == [] then [] else [ChatGeneration(requests[i][|requests[i]| - 1].content)]
  {
    if requests == [] then []
    else
      var rq := requests[0];
      [if rq == [] then [] else [ChatGeneration(rq[|rq| - 1].content)]] + EchoGenerations(requests[1..])
  }

  /** The chat client, known by the parameters it was built with. */
  datatype Client = Client(params: Params)

  class LanguageExpert {
    var name: Value
    var systemMessage: Value
    var description: Value
    var exampleInput: Value
    var exampleOutput: Value
    var modelParams: ParamDict
    var chat: Client
    var extra: map<string, Value>

    /** Builds an expert; without a parameter dictionary it gets a fresh one
        holding the defaults, otherwise it shares the one it is given. */
    constructor (name: Value, systemMessage: Value, description: Value := Null,
                 exampleInput: Value := Null, exampleOutput: Value := Null,
                 modelParams: Option<ParamDict> := None)
      ensures this.name == name && this.systemMessage == systemMessage
      ensures this.description == description
      ensures this.exampleInput == exampleInput && this.exampleOutput == exampleOutput
      ensures modelParams.Some? ==> this.modelParams == modelParams.value
      ensures modelParams.None? ==> fresh(this.modelParams) && this.modelParams.entries == DefaultParams
      ensures chat == Client(this.modelParams.entries)
      ensures extra == map[]
    {
      var params: ParamDict;
      if modelParams.None? {
        params := new ParamDict(DefaultParams);
      } else {
        params := modelParams.value;
      }
      this.name := name;
      this.systemMessage := systemMessage;
      this.description := description;
      this.exampleInput := exampleInput;
      this.exampleOutput := exampleOutput;
      this.modelParams := params;
      chat := Client(params.entries);
      extra := map[];
    }

    /** A top-level attribute, looked up by its Python name. */
    function Attr(fieldName: string): Value
      requires fieldName in FieldNames
      reads this
    {
      match fieldName
      case "name" => name
      case "system_message" => systemMessage
      case "description" => description
      case "example_input" => exampleInput
      case _ => exampleOutput
    }

    /** The six-field record; its parameters are this expert's dictionary
        itself, not a copy. */
    function Serialize(): (r: Record<ParamDict>)
      reads this
      ensures forall f :: f in FieldNames ==> FieldOf(r, f) == Attr(f)
      ensures r.modelParams == modelParams
    {
      Record(name, systemMessage, description, exampleInput, exampleOutput, modelParams)
    }

    /** The attributes `change_param` can write, with the parameters as a value. */
    function State(): Attributes
      reads this, modelParams
    {
      Attributes(Freeze(Serialize()), extra)
    }

    /** `get_content`: the system message of every request this expert sends.
        It reads the three rendered attributes and nothing else. */
    function GetContent(): (m: ChatMessage)
      reads this`systemMessage, this`exampleInput, this`exampleOutput
      ensures m.SystemMessage?
      ensures m.content == RenderContent(systemMessage, exampleInput, exampleOutput)
    {
      SystemMessage(RenderContent(systemMessage, exampleInput, exampleOutput))
    }

    /** `generate` (and `__call__`): one chat call through the client, with
        the current system content and the message. */
    method Generate(message: string, complete: Completion) returns (response: string)
      ensures response == complete(chat.params, SingleRequest(GetContent().content, message))
    {
      var request := [GetContent(), HumanMessage(message)];
      response := complete(chat.params, request);
    }

    /** `bulk_generate`: one batched call carrying one request per message,
        then one text per generation, in order. */
    method BulkGenerate(messages: seq<string>, batch: BatchCompletion) returns (r: Result<seq<string>, Error>)
      ensures var generations := batch(chat.params, BulkRequests(GetContent().content, messages));
        && r == ExtractTexts(generations)
        && (r.Success? <==> forall i :: 0 <= i < |generations| ==> |generations[i]| > 0)
        && (r.Success? ==> |r.value| == |generations|)
        && (r.Success? ==> forall i :: 0 <= i < |generations| ==> r.value[i] == generations[i][0].text)
        && (r.Failure? ==> r.error == IndexError)
    {
      var requests := BulkRequests(GetContent().content, messages);
      var generations := batch(chat.params, requests);
      r := ExtractTexts(generations);
    }

    /** `change_param`: store the value by name, then rebuild the client
        from the (possibly changed) parameters. A generation key is written
        into the shared dictionary, so every record and expert sharing it
        sees the change. The rebuild calls `regen_chat` as looked up after
        the store, so an attribute of that name makes it raise. */
    method ChangeParam(parameterName: string, newValue: Value) returns (r: Outcome<Error>)
      modifies this, modelParams
      ensures modelParams == old(modelParams)
      ensures State() == ChangeAttributes(old(State()), parameterName, newValue).after
      ensures r == ChangeAttributes(old(State()), parameterName, newValue).outcome
      ensures r.Pass? ==> chat == Client(modelParams.entries)
      ensures r.Fail? ==> chat == old(chat)
    {
      if parameterName in ModelKeys {
        modelParams.entries := modelParams.entries[parameterName := newValue];
      } else if parameterName == "name" {
        name := newValue;
      } else if parameterName == "system_message" {
        systemMessage := newValue;
      } else if parameterName == "description" {
        description := newValue;
      } else if parameterName == "example_input" {
        exampleInput := newValue;
      } else if parameterName == "example_output" {
        exampleOutput := newValue;
      } else if parameterName != "model_params" && parameterName != "chat" {
        extra := extra[parameterName := newValue];
      }
      if parameterName == "model_params" || "regen_chat" in extra {
        return Fail(TypeError);
      }
      chat := Client(modelParams.entries);
      r := Pass;
    }
  }

  /** `bulk_generate` preserves order end to end: through the echoing
      transport, the texts that come back are the messages, in order. */
  method BulkEchoReturnsMessages(e: LanguageExpert, messages: seq<string>) returns (r: Result<seq<string>, Error>)
    ensures r == Success(messages)
  {
    r := e.BulkGenerate(messages, (p: Params, rs: seq<Request>) => EchoGenerations(rs));
    assert r.Success?;
    assert |r.value| == |messages|;
    assert forall i :: 0 <= i < |messages| ==> r.value[i] == messages[i];
    assert r.value == messages;
  }

  /** `get_content` is unaffected by every change except one of the three
      rendered attributes, and follows that one. */
  lemma ChangeAndContent(a: Attributes, parameterName: string, newValue: Value)
    ensures var b := ChangeAttributes(a, parameterName, newValue).after;
      var before := RenderContent(a.fields.systemMessage, a.fields.exampleInput, a.fields.exampleOutput);
      var after := RenderContent(b.fields.systemMessage, b.fields.exampleInput, b.fields.exampleOutput);
      && (parameterName !in {"system_message", "example_input", "example_output"} ==> after == before)
      && (parameterName in {"system_message", "example_input", "example_output"} ==>
            (after == before <==> PyStr(newValue) == PyStr(FieldOf(a.fields, parameterName))))
  {
    var b := ChangeAttributes(a, parameterName, newValue).after;
    var f, g := a.fields, b.fields;
    if parameterName in {"system_message", "example_input", "example_output"} {
      assert FieldOf(g, parameterName) == newValue;
      assert FieldOf(g, "system_message") == g.systemMessage && FieldOf(f, "system_message") == f.systemMessage;
      assert FieldOf(g, "example_input") == g.exampleInput && FieldOf(f, "example_input") == f.exampleInput;
      assert FieldOf(g, "example_output") == g.exampleOutput && FieldOf(f, "example_output") == f.exampleOutput;
      ContentReflectsEdits(f.systemMessage, f.exampleInput, f.exampleOutput, g.systemMessage, g.exampleInput, g.exampleOutput);
    }
  }
}
