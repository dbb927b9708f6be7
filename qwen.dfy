/** The Qwen (DashScope) trip-plan generator: lazily created client with a key check, the
    prompt built from a trip request, and the extraction of the JSON plan from the model's
    free-text answer. The chat completion, JSON decoding and plan validation are abstract
    parameters; a `ValueError` result stands for the exception each raises, carrying its text. */
module Qwen {
  import opened Wrappers
  import opened Text
  import opened Schemas

  // ---------------------------------------------------------------------------------------
  // Client
  // ---------------------------------------------------------------------------------------

  /** The OpenAI-compatible base URL of DashScope. */
  const DashScopeBaseUrl: string := "https://dashscope.aliyuncs.com/compatible-mode/v1"
  /** Placeholder keys start with this and are refused. */
  const TestKeyPrefix: string := "sk-test-"
  /** The ValueError text for a missing or placeholder key. */
  const InvalidKeyMessage: string := "请设置有效的 DASHSCOPE_API_KEY 环境变量"

  /** A chat client: the key it authenticates with and the endpoint it talks to. */
  datatype Client = Client(apiKey: string, baseUrl: string)

  /** A key `_get_client` accepts: present, non-empty and not a placeholder. */
  predicate UsableKey(key: Option<string>) {
    key.Some? && key.value != "" && !StartsWith(key.value, TestKeyPrefix)
  }

  /** The logged form of a key: its first four characters, "...", its last four. */
  function MaskKey(key: string): (m: string)
    ensures |key| >= 4 ==> m == key[..4] + "..." + key[|key| - 4..]
    ensures |key| < 4 ==> m == key + "..." + key
  {
    PyHead(key, 4) + "..." + PyTail(key, 4)
  }

  /** The mask of any key of at least eight characters has the same length, so it tells
      nothing about how long the key is. */
  lemma MaskLengthFixed(key: string)
    requires |key| >= 8
    ensures |MaskKey(key)| == 11
  {
  }

  /** Keys that agree on their first four and last four characters log identically: the
      middle of a key never reaches the log. */
  lemma {:induction false} MaskHidesMiddle(k1: string, k2: string)
    requires |k1| >= 4 && |k2| >= 4
    requires k1[..4] == k2[..4] && k1[|k1| - 4..] == k2[|k2| - 4..]
    ensures MaskKey(k1) == MaskKey(k2)
  {
    assert MaskKey(k1) == k1[..4] + "..." + k1[|k1| - 4..];
    assert MaskKey(k2) == k2[..4] + "..." + k2[|k2| - 4..];
  }

  // ---------------------------------------------------------------------------------------
  // JSON extraction
  // ---------------------------------------------------------------------------------------

  /** The text from the first '{' through the last '}', when the first comes before the last. */
  function JsonSlice(text: string): (r: Option<string>)
    ensures r.Some? ==> Find(text, '{') >= 0 && Find(text, '{') < RFind(text, '}')
                        && r.value == text[Find(text, '{')..RFind(text, '}') + 1]
    ensures r.None? ==> Find(text, '{') == -1 || RFind(text, '}') + 1 <= Find(text, '{')
  {
    var start := Find(text, '{');
    var end := RFind(text, '}') + 1;
    if start != -1 && end > start then Some(text[start..end]) else None
  }

  /** A slice is taken exactly when some '{' comes before some '}'. */
  lemma {:induction false} JsonSliceTakenIff(text: string)
    ensures JsonSlice(text).Some? <==> exists i, j :: 0 <= i < j < |text| && text[i] == '{' && text[j] == '}'
  {
    var start, last := Find(text, '{'), RFind(text, '}');
    if JsonSlice(text).Some? {
      assert 0 <= start < last < |text| && text[start] == '{' && text[last] == '}';
    }
  }

  /** A taken slice is a piece of the text that opens with '{' and closes with '}'. */
  lemma {:induction false} JsonSliceBraced(text: string)
    requires JsonSlice(text).Some?
    ensures var s := JsonSlice(text).value;
            |s| >= 2 && s[0] == '{' && s[|s| - 1] == '}'
            && Find(text, '{') + |s| <= |text| && s == text[Find(text, '{')..Find(text, '{') + |s|]
  {
    var start, last := Find(text, '{'), RFind(text, '}');
    var s := JsonSlice(text).value;
    assert s[0] == text[start] && s[|s| - 1] == text[last];
  }

  /** An object in the answer, with prose before it that has no '{' and prose after it that
      has no '}', is exactly what the slice recovers. */
  lemma {:induction false} JsonSliceOfWrapped(prefix: string, obj: string, suffix: string)
    requires '{' !in prefix && '}' !in suffix
    requires |obj| >= 2 && obj[0] == '{' && obj[|obj| - 1] == '}'
    ensures JsonSlice(prefix + obj + suffix) == Some(obj)
  {
    var text := prefix + obj + suffix;
    var open, close := |prefix|, |prefix| + |obj| - 1;
    assert text[open] == '{' && text[close] == '}';
    var start := Find(text, '{');
    assert start == open by {
      assert 0 <= start <= open;
    }
    var last := RFind(text, '}');
    assert last == close by {
      assert close <= last;
    }
    assert text[open..close + 1] == obj;
  }

  /** The decoded answer: the slice when there is one and it decodes, else the whole text. */
  function ParseResponse<J>(text: string, decode: string -> Result<J>): (r: Result<J>)
    ensures JsonSlice(text).Some? && decode(JsonSlice(text).value).Ok? ==> r == decode(JsonSlice(text).value)
    ensures !(JsonSlice(text).Some? && decode(JsonSlice(text).value).Ok?) ==> r == decode(text)
  {
    var slice := JsonSlice(text);
    if slice.Some? then
      var d := decode(slice.value);
      if d.Ok? then d else decode(text)
    else
      decode(text)
  }

  /** An answer that wraps a decodable object in such prose decodes to that object. */
  lemma ParseWrappedResponse<J>(prefix: string, obj: string, suffix: string, decode: string -> Result<J>)
    requires '{' !in prefix && '}' !in suffix
    requires |obj| >= 2 && obj[0] == '{' && obj[|obj| - 1] == '}'
    requires decode(obj).Ok?
    ensures ParseResponse(prefix + obj + suffix, decode) == decode(obj)
  {
    JsonSliceOfWrapped(prefix, obj, suffix);
  }

  /** The prefix of the ValueError raised for an answer that does not decode. */
  const JsonErrorPrefix: string := "Qwen 返回的内容不是有效的 JSON 格式: "
  /** The prefix of the ValueError raised for every other failure. */
  const GeneralErrorPrefix: string := "生成旅行计划时出错: "

  /** What happens to the answer text: a decoding failure is reported as invalid JSON, a plan
      that fails validation as a general error, and a valid plan is returned. */
  function PlanFromAnswer<J>(text: string, decode: string -> Result<J>, build: J -> Result<TripPlan>): (r: Result<TripPlan>)
    ensures ParseResponse(text, decode).ValueError? ==>
              r == ValueError(JsonErrorPrefix + ParseResponse(text, decode).message)
    ensures ParseResponse(text, decode).Ok? && build(ParseResponse(text, decode).value).ValueError? ==>
              r == ValueError(GeneralErrorPrefix + build(ParseResponse(text, decode).value).message)
    ensures r.Ok? ==> ParseResponse(text, decode).Ok? && r == build(ParseResponse(text, decode).value)
  {
    var parsed := ParseResponse(text, decode);
    if parsed.ValueError? then ValueError(JsonErrorPrefix + parsed.message)
    else
      var plan := build(parsed.value);
      if plan.Ok? then plan else ValueError(GeneralErrorPrefix + plan.message)
  }

  /** Every failure is one ValueError, whose text names which stage failed. */
  lemma FailuresArePrefixed<J>(text: string, decode: string -> Result<J>, build: J -> Result<TripPlan>)
    ensures PlanFromAnswer(text, decode, build).ValueError? ==>
              StartsWith(PlanFromAnswer(text, decode, build).message, JsonErrorPrefix)
              || StartsWith(PlanFromAnswer(text, decode, build).message, GeneralErrorPrefix)
  {
    var r := PlanFromAnswer(text, decode, build);
    if r.ValueError? {
      var parsed := ParseResponse(text, decode);
      if parsed.ValueError? {
        assert r.message[..|JsonErrorPrefix|] == JsonErrorPrefix;
      } else {
        assert r.message[..|GeneralErrorPrefix|] == GeneralErrorPrefix;
      }
    }
  }

  // ---------------------------------------------------------------------------------------
  // Prompt
  // ---------------------------------------------------------------------------------------

  /** The theme used in the prompt: the request's when it is non-empty, else the default. */
  function PromptTheme(request: TripRequest): (t: string)
    ensures request.theme.Some? && request.theme.value != "" ==> t == request.theme.value
    ensures request.theme.None? || request.theme.value == "" ==> t == DefaultTheme
  {
    if request.theme.Some? && request.theme.value != "" then request.theme.value else DefaultTheme
  }

  /** The fixed requirement lines: destination, length and theme. */
  function PromptHeader(request: TripRequest): string {
    "请为我生成一个详细的" + request.destination + "旅行计划。\n\n要求：\n- 目的地: " + request.destination
    + "\n- 旅行天数: " + IntToString(request.durationDays) + "天\n- 主题: " + PromptTheme(request) + "\n"
  }

  const BudgetLabel: string := "- 预算: "
  const InterestsLabel: string := "- 兴趣爱好: "
  const StartDateLabel: string := "- 开始日期: "

  /** The budget line, when the budget is given and non-zero. */
  function BudgetLine(request: TripRequest): seq<string> {
    if request.budget.Some? && request.budget.value != 0
    then [BudgetLabel + IntToString(request.budget.value) + "元\n"] else []
  }

  /** The interests line, when there are interests. */
  function InterestsLine(request: TripRequest): seq<string> {
    if request.interests.Some? && |request.interests.value| > 0
    then [InterestsLabel + Join(request.interests.value, ", ") + "\n"] else []
  }

  /** The start-date line, when a start date is given. */
  function StartDateLine(request: TripRequest): seq<string> {
    if request.startDate.Some? && request.startDate.value != ""
    then [StartDateLabel + request.startDate.value + "\n"] else []
  }

  /** The optional requirement lines, in order: the budget when it is non-zero, the interests
      when there are any, the start date when it is non-empty. */
  function OptionalLines(request: TripRequest): seq<string> {
    BudgetLine(request) + InterestsLine(request) + StartDateLine(request)
  }

  /** The lines written one after another. */
  function Concat(lines: seq<string>): (s: string)
    ensures |lines| == 0 ==> s == ""
  {
    if |lines| == 0 then "" else Concat(lines[..|lines| - 1]) + lines[|lines| - 1]
  }

  /** Writing one more line after some lines. */
  lemma ConcatSnoc(lines: seq<string>, line: string)
    ensures Concat(lines + [line]) == Concat(lines) + line
  {
    assert (lines + [line])[..|lines|] == lines;
  }

  /** The lines of `OptionalLines` are told apart by their labels. */
  predicate Labelled(lines: seq<string>, tag: string) {
    exists k :: 0 <= k < |lines| && StartsWith(lines[k], tag)
  }

  /** A label is found in two lists written one after the other exactly when it is found in
      one of them. */
  lemma LabelledConcat(a: seq<string>, b: seq<string>, tag: string)
    ensures Labelled(a + b, tag) <==> Labelled(a, tag) || Labelled(b, tag)
  {
    if Labelled(a + b, tag) {
      var k :| 0 <= k < |a + b| && StartsWith((a + b)[k], tag);
      if k < |a| {
        assert a[k] == (a + b)[k];
      } else {
        assert b[k - |a|] == (a + b)[k];
      }
    }
    if Labelled(a, tag) {
      var k :| 0 <= k < |a| && StartsWith(a[k], tag);
      assert (a + b)[k] == a[k];
    }
    if Labelled(b, tag) {
      var k :| 0 <= k < |b| && StartsWith(b[k], tag);
      assert (a + b)[|a| + k] == b[k];
    }
  }

  /** An optional line that starts with `tag` carries `tag` exactly when it is present, and
      never a label that differs from `tag` in its third character. */
  lemma OptionalLine(lines: seq<string>, tag: string, rest: string, present: bool, other1: string, other2: string)
    requires lines == if present then [tag + rest] else []
    requires |tag| > 2 && |other1| > 2 && |other2| > 2
    requires tag[2] != other1[2] && tag[2] != other2[2]
    ensures Labelled(lines, tag) <==> present
    ensures !Labelled(lines, other1) && !Labelled(lines, other2)
  {
    if present {
      var line := tag + rest;
      assert lines[0] == line && line[..|tag|] == tag;
      assert line[2] == tag[2];
      assert !StartsWith(line, other1) by {
        if |other1| <= |line| {
          assert line[..|other1|][2] == line[2];
        }
      }
      assert !StartsWith(line, other2) by {
        if |other2| <= |line| {
          assert line[..|other2|][2] == line[2];
        }
      }
    }
  }

  /** The budget line appears exactly when the budget is given and non-zero (so a budget of 0
      is left out); likewise the interests line for a non-empty list and the start-date line
      for a non-empty date. */
  lemma {:induction false} OptionalLinesPresence(request: TripRequest)
    ensures Labelled(OptionalLines(request), BudgetLabel) <==> request.budget.Some? && request.budget.value != 0
    ensures Labelled(OptionalLines(request), InterestsLabel) <==> request.interests.Some? && |request.interests.value| > 0
    ensures Labelled(OptionalLines(request), StartDateLabel) <==> request.startDate.Some? && request.startDate.value != ""
  {
    var b := request.budget.Some? && request.budget.value != 0;
    var i := request.interests.Some? && |request.interests.value| > 0;
    var d := request.startDate.Some? && request.startDate.value != "";
    var restB := if b then IntToString(request.budget.value) + "元\n" else "";
    var restI := if i then Join(request.interests.value, ", ") + "\n" else "";
    var restD := if d then request.startDate.value + "\n" else "";
    assert BudgetLabel[2] == '预' && InterestsLabel[2] == '兴' && StartDateLabel[2] == '开';
    assert b ==> BudgetLine(request)[0] == BudgetLabel + restB;
    assert i ==> InterestsLine(request)[0] == InterestsLabel + restI;
    assert d ==> StartDateLine(request)[0] == StartDateLabel + restD;
    OptionalLine(BudgetLine(request), BudgetLabel, restB, b, InterestsLabel, StartDateLabel);
    OptionalLine(InterestsLine(request), InterestsLabel, restI, i, BudgetLabel, StartDateLabel);
    OptionalLine(StartDateLine(request), StartDateLabel, restD, d, BudgetLabel, InterestsLabel);
    var first := BudgetLine(request) + InterestsLine(request);
    LabelledConcat(BudgetLine(request), InterestsLine(request), BudgetLabel);
    LabelledConcat(BudgetLine(request), InterestsLine(request), InterestsLabel);
    LabelledConcat(BudgetLine(request), InterestsLine(request), StartDateLabel);
    LabelledConcat(first, StartDateLine(request), BudgetLabel);
    LabelledConcat(first, StartDateLine(request), InterestsLabel);
    LabelledConcat(first, StartDateLine(request), StartDateLabel);
  }

  /** The schema part of the prompt before the number of days, line by line. */
  const SchemaIntroLines: seq<string> :=
    [
      "\n",
      "请返回严格符合以下JSON Schema的旅行计划：\n",
      "\n",
      "{\n",
      "  \"destination\": \"目的地名称\",\n",
      "  \"duration_days\": "
    ]

  /** The schema part of the prompt after the number of days, line by line. */
  const SchemaRestLines: seq<string> :=
    [
      ",\n",
      "  \"theme\": \"旅行主题\",\n",
      "  \"start_date\": \"开始日期 (YYYY-MM-DD)\",\n",
      "  \"end_date\": \"结束日期 (YYYY-MM-DD)\",\n",
      "  \"daily_plans\": [\n",
      "    {\n",
      "      \"date\": \"日期 (YYYY-MM-DD)\",\n",
      "      \"day_title\": \"当日主题\",\n",
      "      \"activities\": [\n",
      "        {\n",
      "          \"name\": \"活动名称\",\n",
      "          \"type\": \"活动类型 (sightseeing/dining/shopping/entertainment/transportation/accommodation/culture/nature)\",\n",
      "          \"location\": \"详细地址\",\n",
      "          \"start_time\": \"开始时间 (HH:MM)\",\n",
      "          \"end_time\": \"结束时间 (HH:MM)\",\n",
      "          \"duration_minutes\": 活动时长分钟数,\n",
      "          \"description\": \"详细描述\",\n",
      "          \"estimated_cost\": 预估费用数字,\n",
      "          \"tips\": \"实用小贴士\"\n",
      "        }\n",
      "      ],\n",
      "      \"daily_summary\": \"当日总结\",\n",
      "      \"estimated_daily_cost\": 当日总费用数字\n",
      "    }\n",
      "  ],\n",
      "  \"total_estimated_cost\": 总费用数字,\n",
      "  \"general_tips\": [\"建议1\", \"建议2\", \"建议3\"]\n",
      "}\n",
      "\n",
      "注意事项：\n",
      "1. 确保时间安排合理，活动之间留有足够的交通时间\n",
      "2. 费用估算要实际合理\n",
      "3. 景点和餐厅要真实存在\n",
      "4. 每天安排4-6个主要活动\n",
      "5. 包含早中晚餐安排\n",
      "6. 给出实用的旅行建议\n",
      "7. 只返回JSON，不要任何其他文字说明\n",
      "\n",
      "请严格按照上述JSON格式返回旅行计划："
    ]

  /** The schema part of the prompt for a trip of `days` days. */
  function SchemaPart(days: int): string {
    Concat(SchemaIntroLines) + IntToString(days) + Concat(SchemaRestLines)
  }

  /** The pieces of the prompt: requirement lines, optional lines, then the JSON schema to follow. */
  function PromptParts(request: TripRequest): seq<string> {
    [PromptHeader(request)] + OptionalLines(request) + [SchemaPart(request.durationDays)]
  }

  /** The full prompt. */
  function Prompt(request: TripRequest): string {
    Concat(PromptParts(request))
  }

  /** The generator, holding the client once it has been created. */
  class QwenService {
    var client: Option<Client>

    constructor ()
      ensures client == None
    {
      client := None;
    }

    /** The client, created on first use from the environment's key. A created client is kept
        and returned on every later call; without one, a missing, empty or placeholder key is
        refused. `logged` is the masked key written to the log when a client is created. */
    method GetClient(envKey: Option<string>) returns (r: Result<Client>, logged: Option<string>)
      modifies this`client
      ensures old(client).Some? ==> r == Ok(old(client).value) && client == old(client) && logged == None
      ensures old(client).None? && !UsableKey(envKey) ==>
                r == ValueError(InvalidKeyMessage) && client == None && logged == None
      ensures old(client).None? && UsableKey(envKey) ==>
                r == Ok(Client(envKey.value, DashScopeBaseUrl)) && client == Some(r.value)
                && logged == Some(MaskKey(envKey.value))
    {
      logged := None;
      if client.None? {
        if envKey.None? || envKey.value == "" || StartsWith(envKey.value, TestKeyPrefix) {
          return ValueError(InvalidKeyMessage), None;
        }
        logged := Some(MaskKey(envKey.value));
        client := Some(Client(envKey.value, DashScopeBaseUrl));
      }
      r := Ok(client.value);
    }

    /** Builds the prompt line by line. */
    method BuildPrompt(request: TripRequest) returns (prompt: string)
      ensures prompt == Prompt(request)
    {
      prompt := PromptHeader(request);
      ghost var parts: seq<string> := [prompt];
      assert Concat(parts) == prompt by {
        ConcatSnoc([], prompt);
        assert [] + [prompt] == parts;
      }
      if request.budget.Some? && request.budget.value != 0 {
        var line := BudgetLabel + IntToString(request.budget.value) + "元\n";
        ConcatSnoc(parts, line);
        prompt, parts := prompt + line, parts + [line];
      }
      assert prompt == Concat(parts) && parts == [PromptHeader(request)] + BudgetLine(request);
      if request.interests.Some? && |request.interests.value| > 0 {
        var line := InterestsLabel + Join(request.interests.value, ", ") + "\n";
        ConcatSnoc(parts, line);
        prompt, parts := prompt + line, parts + [line];
      }
      assert prompt == Concat(parts) && parts == [PromptHeader(request)] + BudgetLine(request) + InterestsLine(request);
      if request.startDate.Some? && request.startDate.value != "" {
        var line := StartDateLabel + request.startDate.value + "\n";
        ConcatSnoc(parts, line);
        prompt, parts := prompt + line, parts + [line];
      }
      assert prompt == Concat(parts) && parts == [PromptHeader(request)] + OptionalLines(request);
      var schema := SchemaPart(request.durationDays);
      ConcatSnoc(parts, schema);
      prompt, parts := prompt + schema, parts + [schema];
    }

    /** Generates a plan: builds the prompt, gets the client (a refused key becomes a general
        error), asks the model, and turns the answer into a plan. */
    method GenerateTripPlan<J>(request: TripRequest, envKey: Option<string>,
                               complete: (Client, string) -> Result<string>,
                               decode: string -> Result<J>, build: J -> Result<TripPlan>)
      returns (r: Result<TripPlan>)
      modifies this`client
      ensures old(client).None? && !UsableKey(envKey) ==>
                r == ValueError(GeneralErrorPrefix + InvalidKeyMessage) && client == None
      ensures old(client).Some? || UsableKey(envKey) ==>
                var c := if old(client).Some? then old(client).value else Client(envKey.value, DashScopeBaseUrl);
                var answer := complete(c, Prompt(request));
                client == Some(c)
                && (answer.ValueError? ==> r == ValueError(GeneralErrorPrefix + answer.message))
                && (answer.Ok? ==> r == PlanFromAnswer(answer.value, decode, build))
    {
      var prompt := BuildPrompt(request);
      var c, _ := GetClient(envKey);
      if c.ValueError? {
        return ValueError(GeneralErrorPrefix + c.message);
      }
      var answer := complete(c.value, prompt);
      if answer.ValueError? {
        return ValueError(GeneralErrorPrefix + answer.message);
      }
      r := PlanFromAnswer(answer.value, decode, build);
    }
  }
}
