/**
 * The values the two OpenAI query runners of eval/utils.py work on: instance
 * records (JSON objects with an "id" and a "prompt", to which the runner adds
 * "output" and "response_metadata"), the requests built from them, the
 * responses the API returns, the completion options, and the index of a
 * previous run's output file.
 */
module QueryTypes {
  import opened Wrappers

  /** A value of the completion options (`**completion_kwargs`). */
  datatype Value = Num(x: real) | Text(s: string)

  /** `choice["message"]` of a chat response; its "content" may be missing. */
  datatype MessageBody = MessageBody(content: Option<string>)

  /** One entry of `response["choices"]`: a chat choice has a message, a completion choice a text. */
  datatype Choice = Choice(message: Option<MessageBody>, text: Option<string>)

  datatype Response = Response(choices: seq<Choice>)

  /** An instance: its id, its prompt, and the two keys the runner adds. */
  datatype Record = Record(id: string, prompt: string, output: Option<string>, responseMetadata: Option<Response>)

  /** `{"role": ..., "content": ...}` */
  datatype ChatMessage = ChatMessage(role: string, content: string)

  /** One element of `messages_list`: a chat conversation or a bare prompt. */
  datatype Request = ChatRequest(messages: seq<ChatMessage>) | PromptRequest(prompt: string)

  /** Which of the two runners: `query_openai_chat_model` or `query_openai_model`. */
  datatype Api = Chat | Completion

  /** The request for one instance: `[{"role": "user", "content": prompt}]`, or the prompt itself. */
  function BuildRequest(api: Api, instance: Record): (r: Request)
    ensures api == Chat <==> r.ChatRequest?
    ensures r.ChatRequest? ==> r.messages == [ChatMessage("user", instance.prompt)]
    ensures r.PromptRequest? ==> r.prompt == instance.prompt
  {
    match api
    case Chat => ChatRequest([ChatMessage("user", instance.prompt)])
    case Completion => PromptRequest(instance.prompt)
  }

  /** `messages_list`: one request per instance of the batch, in order. */
  function Requests(api: Api, batch: seq<Record>): (rs: seq<Request>)
    ensures |rs| == |batch|
    ensures forall k :: 0 <= k < |batch| ==> rs[k] == BuildRequest(api, batch[k])
  {
    seq(|batch|, k requires 0 <= k < |batch| => BuildRequest(api, batch[k]))
  }

  /**
   * `output["choices"][0]["message"]["content"]` or `output["choices"][0]["text"]`;
   * None where Python raises IndexError or KeyError.
   */
  function Extract(api: Api, response: Response): (r: Option<string>)
    ensures r.Some? <==>
      && |response.choices| > 0
      && match api
         case Chat => response.choices[0].message.Some? && response.choices[0].message.value.content.Some?
         case Completion => response.choices[0].text.Some?
    ensures r.Some? && api == Chat ==> r.value == response.choices[0].message.value.content.value
    ensures r.Some? && api == Completion ==> r.value == response.choices[0].text.value
  {
    if |response.choices| == 0 then None
    else
      var choice := response.choices[0];
      match api
      case Chat => if choice.message.Some? then choice.message.value.content else None
      case Completion => choice.text
  }

  /** A record the runner has filled in: its output is what the extractor reads from its metadata. */
  predicate Answered(api: Api, r: Record)
  {
    r.output.Some? && r.responseMetadata.Some? && Extract(api, r.responseMetadata.value) == r.output
  }

  /** `if "temperature" not in completion_kwargs: completion_kwargs["temperature"] = 0.0` */
  function WithDefaultTemperature(options: map<string, Value>): (r: map<string, Value>)
    ensures r.Keys == options.Keys + {"temperature"}
    ensures "temperature" in options ==> r == options
    ensures "temperature" !in options ==> r["temperature"] == Num(0.0)
    ensures forall key :: key in options ==> r[key] == options[key]
  {
    if "temperature" in options then options else options["temperature" := Num(0.0)]
  }

  /** `existing_data`: each line of the previous output file keyed by its id, later lines winning. */
  function LogIndex(lines: seq<Record>): (index: map<string, Record>)
  {
    if lines == [] then map[]
    else LogIndex(lines[..|lines| - 1])[lines[|lines| - 1].id := lines[|lines| - 1]]
  }

  /** An id is indexed exactly when some line carries it, and it maps to a line with that id. */
  lemma {:induction false} LogIndexKeys(lines: seq<Record>, id: string)
    ensures id in LogIndex(lines) <==> exists k :: 0 <= k < |lines| && lines[k].id == id
    ensures id in LogIndex(lines) ==> LogIndex(lines)[id].id == id
  {
    if lines != [] {
      var n := |lines| - 1;
      LogIndexKeys(lines[..n], id);
      if k :| 0 <= k < n && lines[..n][k].id == id {
        assert lines[k].id == id;
      }
      if k :| 0 <= k < |lines| && lines[k].id == id {
        if k < n {
          assert lines[..n][k].id == id;
        }
      }
    }
  }

  /** The last line with an id is the one indexed. */
  lemma {:induction false} LogIndexLastWins(lines: seq<Record>, k: nat)
    requires k < |lines|
    requires forall k' :: k < k' < |lines| ==> lines[k'].id != lines[k].id
    ensures lines[k].id in LogIndex(lines) && LogIndex(lines)[lines[k].id] == lines[k]
  {
    var n := |lines| - 1;
    if k < n {
      LogIndexLastWins(lines[..n], k);
      assert lines[n].id != lines[k].id;
    }
  }

  /** Reading the previous output file line by line into `existing_data`. */
  method LoadExisting(lines: seq<Record>) returns (existing: map<string, Record>)
    ensures existing == LogIndex(lines)
  {
    existing := map[];
    var k := 0;
    while k < |lines|
      invariant k <= |lines|
      invariant existing == LogIndex(lines[..k])
    {
      assert lines[..k + 1][..k] == lines[..k];
      existing := existing[lines[k].id := lines[k]];
      k := k + 1;
    }
    assert lines[..k] == lines;
  }
}
