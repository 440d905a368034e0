/** Configured actions: parsing the `/action add` payload, and the stored JSON document. */
module Actions {
  import opened Basics
  import opened Models
  import opened ScheduleGrammar

  datatype ActionError = Usage | BadSchedule(reason: ParseError) | UnknownRecipe | BadParam | UnknownDelivery

  // ---------------------------------------------------------------- recipes and delivery

  const SOURCE_KEYS := ["window"]
  const SINK_KEYS := ["page"]
  const TRANSFORM_KEYS := ["lang", "model", "temp"] // sorted, as the steps receive them
  const RECIPES := ["summarize", "talking_points", "stats"]
  const DELIVERIES := ["wiki", "wiki+subs", "subs"]

  function Plain(name: string): StepSpec {
    StepSpec(name, [])
  }

  function PromptStep(template: string): StepSpec {
    StepSpec("prompt", [("template", template)])
  }

  /** The sinks a delivery mode stands for. */
  function DeliverySinks(mode: string): Option<seq<StepSpec>> {
    if mode == "wiki" then Some([Plain("wiki_section")])
    else if mode == "wiki+subs" then Some([Plain("wiki_section"), Plain("subscriber_dm")])
    else if mode == "subs" then Some([Plain("subscriber_dm")])
    else None
  }

  function Transforms(recipe: string): Option<seq<StepSpec>> {
    var cut := CutAt(recipe, ':');
    if cut.Some? && cut.value.0 == "prompt" && cut.value.1 != "" then Some([PromptStep(cut.value.1)])
    else if recipe == "stats" then Some([Plain("stats")])
    else if recipe == "stats_narrative" then Some([Plain("stats"), PromptStep("stats_narrative")])
    else if recipe in RECIPES then Some([PromptStep(recipe)])
    else None
  }

  predicate KnownKey(key: string) {
    key in SOURCE_KEYS || key in SINK_KEYS || key in TRANSFORM_KEYS || key == "delivery"
  }

  /** One `key=value` token, when it is acceptable; `valid` stands for the per-key value checks. */
  function Param(valid: (string, string) -> bool, token: string): Option<(string, string)> {
    match CutAt(token, '=')
    case None => None
    case Some((key, value)) =>
      if value != "" && KnownKey(key) && valid(key, value) then Some((key, value)) else None
  }

  /** Later tokens win; one bad token refuses them all. */
  function Params(valid: (string, string) -> bool, tokens: seq<string>): Option<map<string, string>> {
    if tokens == [] then Some(map[])
    else match Params(valid, tokens[..|tokens| - 1])
      case None => None
      case Some(before) =>
        match Param(valid, tokens[|tokens| - 1])
        case None => None
        case Some((key, value)) => Some(before[key := value])
  }

  lemma {:induction false} OneBadTokenRefuses(valid: (string, string) -> bool, tokens: seq<string>, n: nat)
    requires n < |tokens| && (Params(valid, tokens[..n]).None? || Param(valid, tokens[n]).None?)
    ensures Params(valid, tokens).None?
  {
    var front := tokens[..|tokens| - 1];
    if n < |front| {
      assert front[..n] == tokens[..n];
      OneBadTokenRefuses(valid, front, n);
    }
  }

  method ParseParams(valid: (string, string) -> bool, tokens: seq<string>) returns (params: Option<map<string, string>>)
    ensures params == Params(valid, tokens)
  {
    var collected: map<string, string> := map[];
    for n := 0 to |tokens|
      invariant Params(valid, tokens[..n]) == Some(collected)
    {
      assert tokens[..n + 1][..n] == tokens[..n];
      var cut := CutAt(tokens[n], '=');
      if cut.None? || cut.value.1 == "" || !KnownKey(cut.value.0) || !valid(cut.value.0, cut.value.1) {
        OneBadTokenRefuses(valid, tokens, n);
        return None;
      }
      collected := collected[cut.value.0 := cut.value.1];
    }
    assert tokens[..|tokens|] == tokens;
    params := Some(collected);
  }

  /** The picked pairs, in the order of `keys`. */
  function PickParams(params: map<string, string>, keys: seq<string>): seq<(string, string)> {
    if keys == [] then []
    else PickParams(params, keys[..|keys| - 1])
         + (var key := keys[|keys| - 1]; if key in params then [(key, params[key])] else [])
  }

  function WithParams(step: StepSpec, params: map<string, string>, keys: seq<string>): StepSpec {
    StepSpec(step.name, step.params + PickParams(params, keys))
  }

  function WithParamsAll(steps: seq<StepSpec>, params: map<string, string>, keys: seq<string>): seq<StepSpec> {
    seq(|steps|, k requires 0 <= k < |steps| => WithParams(steps[k], params, keys))
  }

  /** The mode asked for: the last `delivery=`, or the default. */
  function Mode(params: map<string, string>): string {
    if "delivery" in params then params["delivery"] else "wiki"
  }

  function ParseAction(valid: (string, string) -> bool, id: string, tokens: seq<string>, now: Option<int>)
      : Result<ActionSpec, ActionError>
  {
    if |tokens| < 2 then Err(Usage)
    else match ParseSchedule(tokens[0])
      case Err(e) => Err(BadSchedule(e))
      case Ok(schedule) =>
        match Transforms(tokens[1])
        case None => Err(UnknownRecipe)
        case Some(transforms) =>
          match Params(valid, tokens[2..])
          case None => Err(BadParam)
          case Some(params) =>
            match DeliverySinks(Mode(params))
            case None => Err(UnknownDelivery)
            case Some(sinks) =>
              Ok(ActionSpec(
                id,
                TriggerSpec(OnSchedule, "", Some(schedule)),
                WithParams(Plain("archive_window"), params, SOURCE_KEYS),
                WithParamsAll(transforms, params, TRANSFORM_KEYS),
                WithParamsAll(sinks, params, SINK_KEYS),
                now))
  }

  // ---------------------------------------------------------------- what an accepted command says

  /** The token gives `key` a value. */
  predicate Gives(token: string, key: string) {
    key + ['='] <= token
  }

  /** The value the last token that gives `key` one gives it. */
  function LastValue(tokens: seq<string>, key: string): Option<string> {
    if tokens == [] then None
    else
      var last := tokens[|tokens| - 1];
      if Gives(last, key) then Some(last[|key| + 1..]) else LastValue(tokens[..|tokens| - 1], key)
  }

  const KEYS := ["window", "page", "lang", "model", "temp", "delivery"]

  /** One of the six keys, an equals sign, and a value that is not empty and passes the key's check. */
  ghost predicate Acceptable(valid: (string, string) -> bool, token: string) {
    exists k :: 0 <= k < |KEYS| && Gives(token, KEYS[k])
      && token[|KEYS[k]| + 1..] != "" && valid(KEYS[k], token[|KEYS[k]| + 1..])
  }

  lemma GivesIsCut(token: string, key: string)
    requires '=' !in key
    ensures Gives(token, key) <==> CutAt(token, '=').Some? && CutAt(token, '=').value.0 == key
    ensures Gives(token, key) ==> CutAt(token, '=').value.1 == token[|key| + 1..]
  {
    CutAtPrefix(token, '=', key);
  }

  lemma KnownKeys(key: string)
    ensures KnownKey(key) <==> key in KEYS
    ensures key in KEYS ==> '=' !in key
  {
    assert KEYS == SOURCE_KEYS + SINK_KEYS + TRANSFORM_KEYS[..1] + TRANSFORM_KEYS[1..] + ["delivery"];
  }

  /** A token is accepted exactly when it is acceptable, and is then the pair it spells. */
  lemma ParamExactly(valid: (string, string) -> bool, token: string)
    ensures Param(valid, token).Some? <==> Acceptable(valid, token)
  {
    if Param(valid, token).Some? {
      var key := Param(valid, token).value.0;
      KnownKeys(key);
      GivesIsCut(token, key);
      var k :| 0 <= k < |KEYS| && KEYS[k] == key;
      assert Gives(token, KEYS[k]);
    }
    if Acceptable(valid, token) {
      var k :| 0 <= k < |KEYS| && Gives(token, KEYS[k])
        && token[|KEYS[k]| + 1..] != "" && valid(KEYS[k], token[|KEYS[k]| + 1..]);
      KnownKeys(KEYS[k]);
      GivesIsCut(token, KEYS[k]);
    }
  }

  ghost predicate AllAcceptable(valid: (string, string) -> bool, tokens: seq<string>) {
    forall k :: 0 <= k < |tokens| ==> Acceptable(valid, tokens[k])
  }

  lemma AllAcceptableNext(valid: (string, string) -> bool, front: seq<string>, last: string)
    ensures AllAcceptable(valid, front + [last]) <==> AllAcceptable(valid, front) && Acceptable(valid, last)
  {
    assert (front + [last])[|front|] == last;
    assert forall k :: 0 <= k < |front| ==> (front + [last])[k] == front[k];
  }

  /** All tokens are accepted or none. */
  lemma {:induction false} ParamsExactly(valid: (string, string) -> bool, tokens: seq<string>)
    ensures Params(valid, tokens).Some? <==> AllAcceptable(valid, tokens)
  {
    if tokens != [] {
      var front, last := tokens[..|tokens| - 1], tokens[|tokens| - 1];
      assert tokens == front + [last];
      ParamsExactly(valid, front);
      ParamExactly(valid, last);
      AllAcceptableNext(valid, front, last);
    }
  }

  /** Each key then has the value the last token for it gave. */
  lemma {:induction false} ParamsSay(valid: (string, string) -> bool, tokens: seq<string>, key: string)
    requires Params(valid, tokens).Some? && '=' !in key
    ensures Lookup(Params(valid, tokens).value, key) == LastValue(tokens, key)
  {
    if tokens != [] {
      ParamsSay(valid, tokens[..|tokens| - 1], key);
      GivesIsCut(tokens[|tokens| - 1], key);
    }
  }

  /** The parameter `key` as a step shows it. */
  function Shown(tokens: seq<string>, key: string): seq<(string, string)> {
    match LastValue(tokens, key)
    case None => []
    case Some(value) => [(key, value)]
  }

  /** What the keys show, in their order. */
  function AllShown(tokens: seq<string>, keys: seq<string>): seq<(string, string)> {
    if keys == [] then [] else AllShown(tokens, keys[..|keys| - 1]) + Shown(tokens, keys[|keys| - 1])
  }

  lemma {:induction false} PicksShown(valid: (string, string) -> bool, tokens: seq<string>, keys: seq<string>)
    requires Params(valid, tokens).Some? && forall k :: 0 <= k < |keys| ==> '=' !in keys[k]
    ensures PickParams(Params(valid, tokens).value, keys) == AllShown(tokens, keys)
  {
    if keys != [] {
      ParamsSay(valid, tokens, keys[|keys| - 1]);
      PicksShown(valid, tokens, keys[..|keys| - 1]);
    }
  }

  lemma KeysAre()
    ensures SOURCE_KEYS == ["window"] && SINK_KEYS == ["page"] && TRANSFORM_KEYS == ["lang", "model", "temp"]
  {
  }

  /** The steps, each with these parameters behind its own. */
  ghost predicate Gets(given: seq<StepSpec>, steps: seq<StepSpec>, shown: seq<(string, string)>) {
    && |given| == |steps|
    && forall k :: 0 <= k < |steps| ==> given[k] == StepSpec(steps[k].name, steps[k].params + shown)
  }

  lemma StepsGet(valid: (string, string) -> bool, tokens: seq<string>, steps: seq<StepSpec>, keys: seq<string>)
    requires Params(valid, tokens).Some? && forall k :: 0 <= k < |keys| ==> '=' !in keys[k]
    ensures Gets(WithParamsAll(steps, Params(valid, tokens).value, keys), steps, AllShown(tokens, keys))
  {
    PicksShown(valid, tokens, keys);
  }

  /** What an accepted command is made of. */
  lemma AcceptedParts(
      valid: (string, string) -> bool, id: string, tokens: seq<string>, now: Option<int>, spec: ActionSpec)
    requires ParseAction(valid, id, tokens, now) == Ok(spec)
    ensures |tokens| >= 2 && Transforms(tokens[1]).Some? && Params(valid, tokens[2..]).Some?
    ensures spec.actionId == id && spec.lastRun == now
    ensures var params := Params(valid, tokens[2..]).value;
      && DeliverySinks(Mode(params)).Some?
      && spec.source == WithParams(Plain("archive_window"), params, SOURCE_KEYS)
      && spec.transforms == WithParamsAll(Transforms(tokens[1]).value, params, TRANSFORM_KEYS)
      && spec.sinks == WithParamsAll(DeliverySinks(Mode(params)).value, params, SINK_KEYS)
  {
  }

  lemma KeysAreClean()
    ensures forall k :: 0 <= k < |SOURCE_KEYS| ==> '=' !in SOURCE_KEYS[k]
    ensures forall k :: 0 <= k < |SINK_KEYS| ==> '=' !in SINK_KEYS[k]
    ensures forall k :: 0 <= k < |TRANSFORM_KEYS| ==> '=' !in TRANSFORM_KEYS[k]
  {
  }

  /**
   Every parameter reaches its own step and no other: an accepted command reads the window given last,
   gives every transform the language, model and temperature given last, and every sink the page.
   */
  lemma ParamsReachTheirSteps(
      valid: (string, string) -> bool, id: string, tokens: seq<string>, now: Option<int>, spec: ActionSpec)
    requires ParseAction(valid, id, tokens, now) == Ok(spec)
    ensures |tokens| >= 2 && Transforms(tokens[1]).Some? && spec.actionId == id && spec.lastRun == now
    ensures Gets([spec.source], [StepSpec("archive_window", [])], AllShown(tokens[2..], SOURCE_KEYS))
    ensures Gets(spec.transforms, Transforms(tokens[1]).value, AllShown(tokens[2..], TRANSFORM_KEYS))
    ensures forall k :: 0 <= k < |spec.sinks| ==> spec.sinks[k].params == AllShown(tokens[2..], SINK_KEYS)
  {
    AcceptedParts(valid, id, tokens, now, spec);
    KeysAreClean();
    var mode := Mode(Params(valid, tokens[2..]).value);
    PicksShown(valid, tokens[2..], SOURCE_KEYS);
    StepsGet(valid, tokens[2..], Transforms(tokens[1]).value, TRANSFORM_KEYS);
    StepsGet(valid, tokens[2..], DeliverySinks(mode).value, SINK_KEYS);
    SinksArePlain(mode);
  }

  lemma SinksArePlain(mode: string)
    ensures DeliverySinks(mode).Some? ==> forall k :: 0 <= k < |DeliverySinks(mode).value| ==>
      DeliverySinks(mode).value[k].params == []
  {
  }

  /** A token of the last key given decides the delivery: without one, the wiki alone. */
  lemma DeliverySays(
      valid: (string, string) -> bool, id: string, tokens: seq<string>, now: Option<int>, spec: ActionSpec)
    requires ParseAction(valid, id, tokens, now) == Ok(spec)
    ensures |tokens| >= 2 && match LastValue(tokens[2..], "delivery")
      case None => Names(spec.sinks) == ["wiki_section"]
      case Some(mode) =>
        || (mode == "wiki" && Names(spec.sinks) == ["wiki_section"])
        || (mode == "wiki+subs" && Names(spec.sinks) == ["wiki_section", "subscriber_dm"])
        || (mode == "subs" && Names(spec.sinks) == ["subscriber_dm"])
  {
    ParamsSay(valid, tokens[2..], "delivery");
    var params := Params(valid, tokens[2..]).value;
    assert Names(spec.sinks) == Names(DeliverySinks(Mode(params)).value);
    SinksNamed(Mode(params));
  }

  lemma SinksNamed(mode: string)
    requires DeliverySinks(mode).Some?
    ensures var names := Names(DeliverySinks(mode).value);
      || (mode == "wiki" && names == ["wiki_section"])
      || (mode == "wiki+subs" && names == ["wiki_section", "subscriber_dm"])
      || (mode == "subs" && names == ["subscriber_dm"])
  {
    SinkNames();
  }

  /** The three delivery modes, or none named. */
  predicate KnownDelivery(mode: Option<string>) {
    mode == None || mode == Some("wiki") || mode == Some("wiki+subs") || mode == Some("subs")
  }

  /**
   What `/action add` accepts, in full: a schedule that parses, a recipe that exists, acceptable
   parameters, and a delivery mode that exists.
   */
  lemma AcceptedExactly(valid: (string, string) -> bool, id: string, tokens: seq<string>, now: Option<int>)
    ensures ParseAction(valid, id, tokens, now).Ok? <==>
      && |tokens| >= 2
      && ParseSchedule(tokens[0]).Ok?
      && Transforms(tokens[1]).Some?
      && AllAcceptable(valid, tokens[2..])
      && KnownDelivery(LastValue(tokens[2..], "delivery"))
  {
    if |tokens| >= 2 {
      ParamsExactly(valid, tokens[2..]);
      if Params(valid, tokens[2..]).Some? {
        ParamsSay(valid, tokens[2..], "delivery");
        KnownModes(Params(valid, tokens[2..]).value);
      }
    }
  }

  /** Why a command is refused: the first of its faults, in this order. */
  lemma RefusedBecause(valid: (string, string) -> bool, id: string, tokens: seq<string>, now: Option<int>)
    requires ParseAction(valid, id, tokens, now).Err?
    ensures var error := ParseAction(valid, id, tokens, now).error;
      if |tokens| < 2 then error == Usage
      else if ParseSchedule(tokens[0]).Err? then error == BadSchedule(ParseSchedule(tokens[0]).error)
      else if Transforms(tokens[1]).None? then error == UnknownRecipe
      else if !AllAcceptable(valid, tokens[2..]) then error == BadParam
      else error == UnknownDelivery
  {
    if |tokens| >= 2 {
      ParamsExactly(valid, tokens[2..]);
    }
  }

  lemma KnownModes(params: map<string, string>)
    ensures DeliverySinks(Mode(params)).Some? <==> KnownDelivery(Lookup(params, "delivery"))
  {
  }

  /** The steps each recipe names, and that there are no others. */
  lemma RecipeNames(recipe: string)
    ensures recipe == "stats" ==> Transforms(recipe) == Some([StepSpec("stats", [])])
    ensures recipe == "stats_narrative" ==>
      Transforms(recipe) == Some([StepSpec("stats", []), StepSpec("prompt", [("template", "stats_narrative")])])
    ensures recipe == "summarize" || recipe == "talking_points" ==>
      Transforms(recipe) == Some([StepSpec("prompt", [("template", recipe)])])
    ensures |recipe| > 7 && recipe[..7] == "prompt:" ==>
      Transforms(recipe) == Some([StepSpec("prompt", [("template", recipe[7..])])])
    ensures Transforms(recipe).Some? ==>
      || recipe == "stats" || recipe == "stats_narrative" || recipe == "summarize" || recipe == "talking_points"
      || (|recipe| > 7 && recipe[..7] == "prompt:")
  {
    if |recipe| > 7 && recipe[..7] == "prompt:" {
      assert recipe == "prompt" + [':'] + recipe[7..];
      CutAtFirst("prompt", ':', recipe[7..]);
    }
  }

  function Names(steps: seq<StepSpec>): seq<string> {
    seq(|steps|, k requires 0 <= k < |steps| => steps[k].name)
  }

  /** The first mode whose sinks carry these names, or the default. */
  function DeliveryFrom(names: seq<string>, modes: seq<string>): string {
    if modes == [] then "wiki"
    else
      var sinks := DeliverySinks(modes[0]);
      if sinks.Some? && Names(sinks.value) == names then modes[0] else DeliveryFrom(names, modes[1..])
  }

  function DeliveryOf(spec: ActionSpec): string {
    DeliveryFrom(Names(spec.sinks), DELIVERIES)
  }

  lemma SinkNames()
    ensures Names([Plain("wiki_section")]) == ["wiki_section"]
    ensures Names([Plain("subscriber_dm")]) == ["subscriber_dm"]
    ensures Names([Plain("wiki_section"), Plain("subscriber_dm")]) == ["wiki_section", "subscriber_dm"]
  {
  }

  lemma ModeOfNames(mode: string)
    requires DeliverySinks(mode).Some?
    ensures DeliveryFrom(Names(DeliverySinks(mode).value), DELIVERIES) == mode
  {
    var names := Names(DeliverySinks(mode).value);
    SinkNames();
    assert DELIVERIES[1..] == ["wiki+subs", "subs"] && DELIVERIES[1..][1..] == ["subs"];
    assert |"wiki_section"| == 12 && |"subscriber_dm"| == 13;
    assert ["wiki_section"][0] != ["subscriber_dm"][0];
    assert |"wiki"| == 4 && |"subs"| == 4 && "wiki"[0] != "subs"[0];
    if mode == "subs" {
      assert DeliveryFrom(names, ["subs"]) == "subs";
      assert DeliveryFrom(names, ["wiki+subs", "subs"]) == DeliveryFrom(names, ["subs"]);
    } else if mode == "wiki+subs" {
      assert DeliveryFrom(names, ["wiki+subs", "subs"]) == "wiki+subs";
    }
  }

  /** Sinks that no mode stands for read as the default. */
  lemma HandBuiltReadsAsWiki(spec: ActionSpec)
    requires forall mode :: DeliverySinks(mode).Some? ==> Names(DeliverySinks(mode).value) != Names(spec.sinks)
    ensures DeliveryOf(spec) == "wiki"
  {
    assert DELIVERIES[1..] == ["wiki+subs", "subs"] && DELIVERIES[1..][1..] == ["subs"];
    var names := Names(spec.sinks);
    assert DeliveryFrom(names, ["subs"]) == DeliveryFrom(names, []);
    assert DeliveryFrom(names, ["wiki+subs", "subs"]) == DeliveryFrom(names, ["subs"]);
  }

  /** Reading the mode off a parsed action gives the mode that was asked for. */
  lemma DeliveryIsRecovered(valid: (string, string) -> bool, id: string, tokens: seq<string>, now: Option<int>)
    ensures match ParseAction(valid, id, tokens, now)
      case Ok(spec) => |tokens| >= 2 && Params(valid, tokens[2..]).Some?
        && DeliveryOf(spec) == Mode(Params(valid, tokens[2..]).value)
      case Err(_) => true
  {
    match ParseAction(valid, id, tokens, now)
    case Ok(spec) =>
      var params := Params(valid, tokens[2..]).value;
      assert Names(spec.sinks) == Names(DeliverySinks(Mode(params)).value);
      ModeOfNames(Mode(params));
    case Err(_) =>
  }

  // ---------------------------------------------------------------- the stored document

  /** The field names a stored row uses; `sink` is the legacy one. */
  datatype Key =
    | KeyId | KeyTrigger | KeySource | KeyTransforms | KeySinks | KeySink | KeyLastRun
    | KeyKind | KeySchedule | KeyCommand | KeyName | KeyParams

  /** JSON values; `Instant` stands for ISO-8601 text. */
  datatype Json = Text(text: string) | Instant(at: int) | List(items: seq<Json>) | Object(fields: map<Key, Json>)

  function PairToJson(pair: (string, string)): Json {
    List([Text(pair.0), Text(pair.1)])
  }

  function PairsToJson(pairs: seq<(string, string)>): seq<Json> {
    if pairs == [] then [] else PairsToJson(pairs[..|pairs| - 1]) + [PairToJson(pairs[|pairs| - 1])]
  }

  function StepToJson(step: StepSpec): Json {
    var name := map[KeyName := Text(step.name)];
    Object(if step.params == [] then name
           else name[KeyParams := List(PairsToJson(step.params))])
  }

  function StepItems(steps: seq<StepSpec>): seq<Json> {
    if steps == [] then [] else StepItems(steps[..|steps| - 1]) + [StepToJson(steps[|steps| - 1])]
  }

  function StepsToJson(steps: seq<StepSpec>): Json {
    List(StepItems(steps))
  }

  function TriggerToJson(t: TriggerSpec): Json
    requires t.Valid()
  {
    var kind := map[KeyKind := Text(if t.kind == OnCommand then "command" else "schedule")];
    var scheduled := if t.schedule.Some? then kind[KeySchedule := Text(Token(t.schedule.value))] else kind;
    Object(if t.command != "" then scheduled[KeyCommand := Text(t.command)] else scheduled)
  }

  function ActionToJson(spec: ActionSpec): Json
    requires spec.trigger.Valid()
  {
    var data := map[
      KeyId := Text(spec.actionId),
      KeyTrigger := TriggerToJson(spec.trigger),
      KeySource := StepToJson(spec.source),
      KeyTransforms := StepsToJson(spec.transforms),
      KeySinks := StepsToJson(spec.sinks)];
    Object(if spec.lastRun.Some? then data[KeyLastRun := Instant(spec.lastRun.value)] else data)
  }

  ghost predicate AllValid(actions: seq<ActionSpec>) {
    forall k :: 0 <= k < |actions| ==> actions[k].trigger.Valid()
  }

  function ActionItems(actions: seq<ActionSpec>): seq<Json>
    requires AllValid(actions)
  {
    if actions == [] then [] else ActionItems(actions[..|actions| - 1]) + [ActionToJson(actions[|actions| - 1])]
  }

  function DumpActions(actions: seq<ActionSpec>): Json
    requires AllValid(actions)
  {
    List(ActionItems(actions))
  }

  // Loading: `None` stands for the exception a malformed document raises.

  function Field(j: Json, key: Key): Option<Json> {
    if j.Object? then Lookup(j.fields, key) else None
  }

  function TextOf(j: Option<Json>): Option<string> {
    if j.Some? && j.value.Text? then Some(j.value.text) else None
  }

  function PairFromJson(j: Json): Option<(string, string)> {
    if j.List? && |j.items| == 2 && j.items[0].Text? && j.items[1].Text?
    then Some((j.items[0].text, j.items[1].text)) else None
  }

  function PairsFromJson(items: seq<Json>): Option<seq<(string, string)>> {
    if items == [] then Some([])
    else match (PairsFromJson(items[..|items| - 1]), PairFromJson(items[|items| - 1]))
      case (Some(front), Some(pair)) => Some(front + [pair])
      case _ => None
  }

  function StepFromJson(j: Json): Option<StepSpec> {
    var name, params := TextOf(Field(j, KeyName)), Field(j, KeyParams);
    if name.None? || name.value == "" then None
    else if params.None? then Some(StepSpec(name.value, []))
    else if !params.value.List? then None
    else match PairsFromJson(params.value.items)
      case Some(pairs) => Some(StepSpec(name.value, pairs))
      case None => None
  }

  function StepsFromItems(items: seq<Json>): Option<seq<StepSpec>> {
    if items == [] then Some([])
    else match (StepsFromItems(items[..|items| - 1]), StepFromJson(items[|items| - 1]))
      case (Some(front), Some(step)) => Some(front + [step])
      case _ => None
  }

  function StepsFromJson(j: Option<Json>): Option<seq<StepSpec>> {
    if j.Some? && j.value.List? then StepsFromItems(j.value.items) else None
  }

  /** Rows written before actions had several sinks hold one `sink` object. */
  function SinksFromJson(j: Json): Option<seq<StepSpec>> {
    if Field(j, KeySinks).Some? then StepsFromJson(Field(j, KeySinks))
    else if Field(j, KeySink).None? then None
    else match StepFromJson(Field(j, KeySink).value)
      case Some(step) => Some([step])
      case None => None
  }

  function KindFromText(kind: Option<string>): Option<TriggerKind> {
    if kind == Some("command") then Some(OnCommand)
    else if kind == Some("schedule") then Some(OnSchedule)
    else None
  }

  function ScheduleFromJson(j: Option<Json>): Option<Option<Schedule>> {
    if j.None? then Some(None)
    else if !j.value.Text? then None
    else match ParseSchedule(j.value.text)
      case Ok(s) => Some(Some(s))
      case Err(_) => None
  }

  /** An absent command reads as the empty one. */
  function CommandFromJson(j: Option<Json>): Option<string> {
    if j.None? then Some("") else TextOf(j)
  }

  function TriggerFrom(kind: Option<TriggerKind>, schedule: Option<Option<Schedule>>, command: Option<string>)
      : Option<TriggerSpec>
  {
    if kind.None? || schedule.None? || command.None? then None
    else
      var trigger := TriggerSpec(kind.value, command.value, schedule.value);
      if trigger.Valid() then Some(trigger) else None
  }

  function TriggerFromJson(j: Option<Json>): Option<TriggerSpec> {
    if j.None? then None
    else TriggerFrom(
      KindFromText(TextOf(Field(j.value, KeyKind))),
      ScheduleFromJson(Field(j.value, KeySchedule)),
      CommandFromJson(Field(j.value, KeyCommand)))
  }

  predicate IsText(row: map<Key, Json>, key: Key) {
    key in row && row[key].Text?
  }

  predicate IsSchedule(row: map<Key, Json>) {
    IsText(row, KeySchedule) && ParseSchedule(row[KeySchedule].text).Ok?
  }

  /** A stored trigger loads exactly when it is a command with a name, or a schedule that parses. */
  lemma TriggerLoadsExactly(row: map<Key, Json>)
    ensures TriggerFromJson(Some(Object(row))).Some? <==>
      && (KeyCommand in row ==> IsText(row, KeyCommand)) && (KeySchedule in row ==> IsSchedule(row))
      && IsText(row, KeyKind)
      && (|| (row[KeyKind].text == "command" && KeyCommand in row && row[KeyCommand].text != "")
          || (row[KeyKind].text == "schedule" && KeySchedule in row))
  {
    if IsSchedule(row) {
      ParsedIsNormalForm(row[KeySchedule].text);
    }
  }

  function StampFromJson(j: Option<Json>): Option<Option<int>> {
    if j.None? then Some(None)
    else if j.value.Instant? then Some(Some(j.value.at))
    else None
  }

  function ActionFrom(id: Option<string>, trigger: Option<TriggerSpec>, source: Option<StepSpec>,
                      transforms: Option<seq<StepSpec>>,
                      sinks: Option<seq<StepSpec>>, stamp: Option<Option<int>>): Option<ActionSpec> {
    if id.None? || trigger.None? || source.None? || transforms.None? || sinks.None? || stamp.None? then None
    else Some(ActionSpec(id.value, trigger.value, source.value, transforms.value, sinks.value, stamp.value))
  }

  function OneStepFromJson(j: Option<Json>): Option<StepSpec> {
    if j.None? then None else StepFromJson(j.value)
  }

  function ActionFromJson(j: Json): Option<ActionSpec> {
    ActionFrom(
      TextOf(Field(j, KeyId)),
      TriggerFromJson(Field(j, KeyTrigger)),
      OneStepFromJson(Field(j, KeySource)),
      StepsFromJson(Field(j, KeyTransforms)),
      SinksFromJson(j),
      StampFromJson(Field(j, KeyLastRun)))
  }

  function ActionsFromItems(items: seq<Json>): Option<seq<ActionSpec>> {
    if items == [] then Some([])
    else match (ActionsFromItems(items[..|items| - 1]), ActionFromJson(items[|items| - 1]))
      case (Some(front), Some(spec)) => Some(front + [spec])
      case _ => None
  }

  function LoadActions(document: Option<Json>): Option<seq<ActionSpec>> {
    if document.None? then Some([])
    else if document.value.List? then ActionsFromItems(document.value.items)
    else None
  }

  // ---------------------------------------------------------------- round trip

  ghost predicate AllConstructible(actions: seq<ActionSpec>) {
    AllValid(actions) && forall k :: 0 <= k < |actions| ==> Constructible(actions[k])
  }

  ghost predicate NamedSteps(steps: seq<StepSpec>) {
    forall k :: 0 <= k < |steps| ==> steps[k].name != ""
  }

  /** What construction accepts. */
  ghost predicate Constructible(spec: ActionSpec) {
    spec.trigger.Valid() && spec.source.name != "" && NamedSteps(spec.transforms) && NamedSteps(spec.sinks)
  }

  function NormalTrigger(t: TriggerSpec): TriggerSpec {
    if t.schedule.Some? then t.(schedule := Some(Normal(t.schedule.value))) else t
  }

  function NormalAction(spec: ActionSpec): ActionSpec {
    spec.(trigger := NormalTrigger(spec.trigger))
  }

  function NormalActions(actions: seq<ActionSpec>): seq<ActionSpec> {
    seq(|actions|, k requires 0 <= k < |actions| => NormalAction(actions[k]))
  }

  lemma OnePairMore(items: seq<Json>, front: seq<(string, string)>, last: (string, string))
    requires PairsFromJson(items) == Some(front)
    ensures PairsFromJson(items + [PairToJson(last)]) == Some(front + [last])
  {
    var all := items + [PairToJson(last)];
    assert all[..|all| - 1] == items;
    assert PairFromJson(PairToJson(last)) == Some(last);
  }

  lemma {:induction false} PairsLoad(pairs: seq<(string, string)>)
    ensures PairsFromJson(PairsToJson(pairs)) == Some(pairs)
  {
    if pairs != [] {
      var front, last := pairs[..|pairs| - 1], pairs[|pairs| - 1];
      PairsLoad(front);
      OnePairMore(PairsToJson(front), front, last);
      assert front + [last] == pairs;
    }
  }

  lemma StepLoads(step: StepSpec)
    requires step.name != ""
    ensures StepFromJson(StepToJson(step)) == Some(step)
  {
    PairsLoad(step.params);
    assert Field(StepToJson(step), KeyParams)
      == if step.params == [] then None else Some(List(PairsToJson(step.params)));
  }

  lemma {:induction false} StepsLoad(steps: seq<StepSpec>)
    requires NamedSteps(steps)
    ensures StepsFromItems(StepItems(steps)) == Some(steps)
  {
    if steps != [] {
      var items := StepItems(steps);
      StepsLoad(steps[..|steps| - 1]);
      StepLoads(steps[|steps| - 1]);
      assert items[..|items| - 1] == StepItems(steps[..|steps| - 1]);
      assert steps[..|steps| - 1] + [steps[|steps| - 1]] == steps;
    }
  }

  lemma ScheduleLoads(s: Schedule)
    requires s.Valid()
    ensures ScheduleFromJson(Some(Text(Token(s)))) == Some(Some(Normal(s))) && Normal(s).Valid()
  {
    TokenParses(s);
  }

  lemma TriggerFields(t: TriggerSpec)
    requires t.Valid()
    ensures var j := TriggerToJson(t);
      && Field(j, KeyKind) == Some(Text(if t.kind == OnCommand then "command" else "schedule"))
      && Field(j, KeySchedule) == (if t.schedule.Some? then Some(Text(Token(t.schedule.value))) else None)
      && Field(j, KeyCommand) == (if t.command != "" then Some(Text(t.command)) else None)
  {
  }

  lemma KindLoads(kind: TriggerKind)
    ensures KindFromText(Some(if kind == OnCommand then "command" else "schedule")) == Some(kind)
  {
    assert |"command"| == 7 && |"schedule"| == 8;
  }

  lemma NormalTriggerFrom(t: TriggerSpec)
    requires t.Valid() && (t.schedule.Some? ==> Normal(t.schedule.value).Valid())
    ensures TriggerFrom(Some(t.kind), Some(NormalTrigger(t).schedule), Some(t.command)) == Some(NormalTrigger(t))
  {
  }

  lemma TriggerLoads(t: TriggerSpec)
    requires t.Valid()
    ensures TriggerFromJson(Some(TriggerToJson(t))) == Some(NormalTrigger(t))
  {
    TriggerFields(t);
    KindLoads(t.kind);
    var j := TriggerToJson(t);
    assert ScheduleFromJson(Field(j, KeySchedule)) == Some(NormalTrigger(t).schedule)
        && (t.schedule.Some? ==> Normal(t.schedule.value).Valid()) by {
      if t.schedule.Some? {
        ScheduleLoads(t.schedule.value);
      }
    }
    NormalTriggerFrom(t);
  }

  lemma ActionFields(spec: ActionSpec)
    requires spec.trigger.Valid()
    ensures var j := ActionToJson(spec);
      && Field(j, KeyId) == Some(Text(spec.actionId))
      && Field(j, KeyTrigger) == Some(TriggerToJson(spec.trigger))
      && Field(j, KeySource) == Some(StepToJson(spec.source))
      && Field(j, KeyTransforms) == Some(StepsToJson(spec.transforms))
      && Field(j, KeySinks) == Some(StepsToJson(spec.sinks))
      && Field(j, KeyLastRun) == (if spec.lastRun.Some? then Some(Instant(spec.lastRun.value)) else None)
  {
  }

  lemma ActionLoads(spec: ActionSpec)
    requires Constructible(spec)
    ensures ActionFromJson(ActionToJson(spec)) == Some(NormalAction(spec))
  {
    ActionFields(spec);
    TriggerLoads(spec.trigger);
    StepLoads(spec.source);
    StepsLoad(spec.transforms);
    StepsLoad(spec.sinks);
  }

  lemma OneMoreLoads(items: seq<Json>, j: Json, actions: seq<ActionSpec>, spec: ActionSpec)
    ensures ActionsFromItems(items) == Some(actions) && ActionFromJson(j) == Some(spec) ==>
      ActionsFromItems(items + [j]) == Some(actions + [spec])
  {
    assert (items + [j])[..|items|] == items;
  }

  lemma FrontConstructible(actions: seq<ActionSpec>)
    requires actions != [] && AllConstructible(actions)
    ensures AllConstructible(actions[..|actions| - 1]) && Constructible(actions[|actions| - 1])
  {
  }

  lemma {:induction false} ActionsLoad(actions: seq<ActionSpec>)
    requires AllConstructible(actions)
    ensures ActionsFromItems(ActionItems(actions)) == Some(NormalActions(actions))
  {
    if actions != [] {
      var front, last := actions[..|actions| - 1], actions[|actions| - 1];
      FrontConstructible(actions);
      ActionsLoad(front);
      ActionLoads(last);
      OneMoreLoads(ActionItems(front), ActionToJson(last), NormalActions(front), NormalAction(last));
      NormalActionsAppend(actions);
      assert ActionItems(actions) == ActionItems(front) + [ActionToJson(last)];
    } else {
      assert NormalActions(actions) == [];
    }
  }

  lemma NormalActionsAppend(actions: seq<ActionSpec>)
    requires actions != []
    ensures NormalActions(actions)
            == NormalActions(actions[..|actions| - 1]) + [NormalAction(actions[|actions| - 1])]
  {
  }

  /**
   Storing and loading gives the same actions back, state included, exactly when every schedule is
   one its own token can name.
   */
  lemma StorageRoundTripExact(actions: seq<ActionSpec>)
    requires AllConstructible(actions)
    ensures LoadActions(Some(DumpActions(actions))) == Some(actions)
        <==> forall k :: 0 <= k < |actions| && actions[k].trigger.schedule.Some? ==>
               actions[k].trigger.schedule.value == Normal(actions[k].trigger.schedule.value)
  {
    ActionsLoad(actions);
    if NormalActions(actions) == actions {
      forall k | 0 <= k < |actions| && actions[k].trigger.schedule.Some?
        ensures actions[k].trigger.schedule.value == Normal(actions[k].trigger.schedule.value)
      {
        assert NormalActions(actions)[k] == actions[k];
      }
    }
  }

  lemma WithParamsNamed(steps: seq<StepSpec>, params: map<string, string>, keys: seq<string>)
    requires NamedSteps(steps)
    ensures NamedSteps(WithParamsAll(steps, params, keys))
  {
  }

  /** What an accepted command builds passes its constructors' checks, on the schedule it named. */
  lemma ParsedIsConstructible(valid: (string, string) -> bool, id: string, tokens: seq<string>, now: Option<int>)
    ensures match ParseAction(valid, id, tokens, now)
      case Ok(spec) => Constructible(spec) && |tokens| >= 2
        && ParseSchedule(tokens[0]).Ok? && spec.trigger.schedule == Some(ParseSchedule(tokens[0]).value)
      case Err(_) => true
  {
    match ParseAction(valid, id, tokens, now)
    case Ok(_) =>
      var params := Params(valid, tokens[2..]).value;
      ParsedIsNormalForm(tokens[0]);
      RecipeNamed(tokens[1]);
      WithParamsNamed(Transforms(tokens[1]).value, params, TRANSFORM_KEYS);
      WithParamsNamed(DeliverySinks(Mode(params)).value, params, SINK_KEYS);
    case Err(_) =>
  }

  lemma RecipeNamed(recipe: string)
    ensures Transforms(recipe).Some? ==> NamedSteps(Transforms(recipe).value)
  {
  }

  /** Everything `/action add` accepts is stored and loaded unchanged. */
  lemma ParsedActionIsStored(valid: (string, string) -> bool, id: string, tokens: seq<string>, now: Option<int>)
    ensures match ParseAction(valid, id, tokens, now)
      case Ok(spec) => Constructible(spec) && LoadActions(Some(DumpActions([spec]))) == Some([spec])
      case Err(_) => true
  {
    match ParseAction(valid, id, tokens, now)
    case Ok(spec) =>
      ParsedIsConstructible(valid, id, tokens, now);
      ParsedIsNormalForm(tokens[0]);
      StorageRoundTripExact([spec]);
    case Err(_) =>
  }

  lemma LegacySinks(j: Json, step: StepSpec)
    requires j.Object? && KeySinks !in j.fields && KeySink in j.fields
    requires step.name != "" && j.fields[KeySink] == StepToJson(step)
    ensures SinksFromJson(j) == Some([step])
  {
    StepLoads(step);
  }

  lemma ModernSinks(fields: map<Key, Json>, step: StepSpec)
    requires step.name != ""
    ensures SinksFromJson(Object(fields[KeySinks := StepsToJson([step])])) == Some([step])
  {
    StepsLoad([step]);
  }

  /** Rows that differ in their sink fields only load alike when their sinks do. */
  lemma LoadsAlike(j: Json, k: Json)
    requires SinksFromJson(j) == SinksFromJson(k)
    requires forall key :: key != KeySinks ==> Field(k, key) == Field(j, key)
    ensures ActionFromJson(j) == ActionFromJson(k)
  {
  }

  /** A row with one legacy sink object loads as if it had been written with a one-element list. */
  lemma LegacySinkLoads(j: Json, step: StepSpec)
    requires j.Object? && KeySinks !in j.fields && KeySink in j.fields
    requires step.name != "" && j.fields[KeySink] == StepToJson(step)
    ensures SinksFromJson(j) == Some([step])
    ensures ActionFromJson(j) == ActionFromJson(Object(j.fields[KeySinks := StepsToJson([step])]))
  {
    LegacySinks(j, step);
    ModernSinks(j.fields, step);
    LoadsAlike(j, Object(j.fields[KeySinks := StepsToJson([step])]));
  }
}
