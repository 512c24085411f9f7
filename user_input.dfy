/** The first agent of the pipeline (agents/user_input.py): it reads the
    topic and the previous output from the state and returns the content
    settings, all fixed but the topic, the trending topics and the related
    queries. As a pipeline step it either returns that dictionary or raises
    the error Python would raise on an ill-typed state. */
module UserInput {
  import opened Values
  import Pipeline

  /** The keys of the returned dictionary, in order. */
  const OUTPUT_KEYS: seq<string> := [
    "topic_confirmed", "target_word_count", "tone", "target_audience", "content_type", "seo_focus",
    "include_images", "trending_topics_to_include", "related_queries_to_address", "call_to_action",
    "brand_voice"]

  const AUDIENCE_PREFIX := "general audience interested in "

  /** The returned dictionary for a topic and the two extracted lists. */
  function Settings(topic: string, trending: Value, related: Value): seq<(string, Value)> {
    [("topic_confirmed", Str(topic)), ("target_word_count", Int(2000)), ("tone", Str("professional")),
     ("target_audience", Str(AUDIENCE_PREFIX + topic)), ("content_type", Str("informational blog post")),
     ("seo_focus", Bool(true)), ("include_images", Bool(true)), ("trending_topics_to_include", trending),
     ("related_queries_to_address", related), ("call_to_action", Str("Subscribe for more content")),
     ("brand_voice", Str("informative and engaging"))]
  }

  function Min(a: nat, b: nat): nat {
    if a < b then a else b
  }

  /** `v[:n]`: lists and strings are cut to at most `n` items; other values
      cannot be sliced. */
  function Head(v: Value, n: nat): (r: Result<Value, string>)
    ensures r.Ok? <==> v.List? || v.Str?
  {
    match v
    case List(items) => Ok(List(items[..Min(n, |items|)]))
    case Str(s) => Ok(Str(s[..Min(n, |s|)]))
    case Obj(_) => Err("unhashable type: 'slice'")
    case _ => Err("'" + TypeName(v) + "' object is not subscriptable")
  }

  /** `list(d.keys())[:n]`, as string values. */
  function FirstKeys(entries: seq<(string, Value)>, n: nat): (r: seq<Value>)
    ensures |r| == Min(n, |entries|)
    ensures forall i :: 0 <= i < |r| ==> r[i] == Str(entries[i].0)
  {
    seq(Min(n, |entries|), i requires 0 <= i < Min(n, |entries|) => Str(entries[i].0))
  }

  /** `trending_topics[:3] if trending_topics else []` */
  function Trending(v: Value): Result<Value, string> {
    if Truthy(v) then Head(v, 3) else Ok(List([]))
  }

  /** `list(related_queries.keys())[:5] if related_queries else []` */
  function Related(v: Value): Result<Value, string> {
    if !Truthy(v) then Ok(List([]))
    else if v.Obj? then Ok(List(FirstKeys(v.entries, 5)))
    else Err(NoAttribute(v, "keys"))
  }

  /** `UserInputAgent().run(state)`. The dictionary's values are computed in
      order, so a bad topic is reported before a bad trending list, and that
      before a bad related-queries value. */
  function UserInputRun(state: Value): Pipeline.StepResult {
    if !state.Obj? then Pipeline.Raised(NoAttribute(state, "get"))
    else
      var topic := GetOr(state.entries, "topic", Str(""));
      var previous := GetOr(state.entries, "previous_output", Obj([]));
      if !previous.Obj? then Pipeline.Raised(NoAttribute(previous, "get"))
      else
        var trending := GetOr(previous.entries, "trending_now", List([]));
        var related := GetOr(previous.entries, "related_queries", Obj([]));
        if !topic.Str? then Pipeline.Raised("can only concatenate str (not \"" + TypeName(topic) + "\") to str")
        else
          match Trending(trending)
          case Err(e) => Pipeline.Raised(e)
          case Ok(t) =>
            match Related(related)
            case Err(e) => Pipeline.Raised(e)
            case Ok(q) => Pipeline.Returned(Obj(Settings(topic.s, t, q)))
  }

  /** The keys of the settings, which include neither 'error' nor 'topic'. */
  lemma SettingsKeys(topic: string, trending: Value, related: Value)
    ensures Keys(Settings(topic, trending, related)) == OUTPUT_KEYS
    ensures forall k :: HasKey(Settings(topic, trending, related), k) <==> k in OUTPUT_KEYS
    ensures !HasKey(Settings(topic, trending, related), "error")
    ensures !HasKey(Settings(topic, trending, related), "topic")
  {
    var e := Settings(topic, trending, related);
    SettingsKeyList(topic, trending, related);
    forall k ensures HasKey(e, k) <==> k in OUTPUT_KEYS {
      HasKeyInKeys(e, k);
    }
    ReservedKeys();
  }

  lemma SettingsKeyList(topic: string, trending: Value, related: Value)
    ensures Keys(Settings(topic, trending, related)) == OUTPUT_KEYS
  {
    var e := Settings(topic, trending, related);
    var keys := Keys(e);
    assert |keys| == |OUTPUT_KEYS|;
    forall i | 0 <= i < |keys| ensures keys[i] == OUTPUT_KEYS[i] {
      assert keys[i] == e[i].0;
    }
  }

  lemma ReservedKeys()
    ensures "error" !in OUTPUT_KEYS && "topic" !in OUTPUT_KEYS
  {
    assert forall i :: 0 <= i < |OUTPUT_KEYS| ==> |OUTPUT_KEYS[i]| != 5 || OUTPUT_KEYS[i] == "tone";
  }

  /** The step raises exactly on an ill-typed state: a state or previous
      output that is not a dictionary, a topic that is not a string, a
      truthy trending value that cannot be sliced, or a truthy related value
      without keys. Otherwise its result carries the topic, the audience built
      from it, at most three trending topics and at most five query keys, in
      order. */
  lemma UserInputSpec(state: Value)
    ensures var r := UserInputRun(state);
      r.Returned? <==>
        && state.Obj?
        && GetOr(state.entries, "previous_output", Obj([])).Obj?
        && GetOr(state.entries, "topic", Str("")).Str?
        && Trending(GetOr(GetOr(state.entries, "previous_output", Obj([])).entries, "trending_now", List([]))).Ok?
        && Related(GetOr(GetOr(state.entries, "previous_output", Obj([])).entries, "related_queries", Obj([]))).Ok?
    ensures var r := UserInputRun(state);
      r.Returned? ==>
        var topic := GetOr(state.entries, "topic", Str("")).s;
        var previous := GetOr(state.entries, "previous_output", Obj([])).entries;
        && r.value.Obj?
        && Keys(r.value.entries) == OUTPUT_KEYS
        && !Pipeline.IsErrorDict(r.value)
        && !HasKey(r.value.entries, "topic")
        && Get(r.value.entries, "topic_confirmed") == Some(Str(topic))
        && Get(r.value.entries, "target_audience") == Some(Str(AUDIENCE_PREFIX + topic))
        && Get(r.value.entries, "trending_topics_to_include") == Some(Trending(GetOr(previous, "trending_now", List([]))).value)
        && Get(r.value.entries, "related_queries_to_address") == Some(Related(GetOr(previous, "related_queries", Obj([]))).value)
  {
    if state.Obj? {
      var topic := GetOr(state.entries, "topic", Str(""));
      var previous := GetOr(state.entries, "previous_output", Obj([]));
      if previous.Obj? && topic.Str? {
        var t := Trending(GetOr(previous.entries, "trending_now", List([])));
        var q := Related(GetOr(previous.entries, "related_queries", Obj([])));
        if t.Ok? && q.Ok? {
          assert UserInputRun(state) == Pipeline.Returned(Obj(Settings(topic.s, t.value, q.value)));
          SettingsKeys(topic.s, t.value, q.value);
          SettingsTopic(topic.s, t.value, q.value);
          SettingsLists(topic.s, t.value, q.value);
        }
      }
    }
  }

  /** The settings carry the topic and the audience built from it. */
  lemma SettingsTopic(topic: string, trending: Value, related: Value)
    ensures Get(Settings(topic, trending, related), "topic_confirmed") == Some(Str(topic))
    ensures Get(Settings(topic, trending, related), "target_audience") == Some(Str(AUDIENCE_PREFIX + topic))
  {
    var e := Settings(topic, trending, related);
    GetAt(e, "topic_confirmed", 0);
    assert |e[0].0| == 15 && |e[1].0| == 17 && |e[2].0| == 4;
    GetAt(e, "target_audience", 3);
  }

  /** The settings carry the two extracted lists under their keys. */
  lemma SettingsLists(topic: string, trending: Value, related: Value)
    ensures Get(Settings(topic, trending, related), "trending_topics_to_include") == Some(trending)
    ensures Get(Settings(topic, trending, related), "related_queries_to_address") == Some(related)
  {
    var e := Settings(topic, trending, related);
    forall j | 0 <= j < 7 ensures e[j].0 != e[7].0 && e[j].0 != e[8].0 {
      assert |e[j].0| <= 17;
    }
    GetAt(e, e[7].0, 7);
    assert e[7].0[0] != e[8].0[0];
    GetAt(e, e[8].0, 8);
  }

  /** A trending list keeps its first three items; the related queries are
      the first five keys of their dictionary, in order. */
  lemma ExtractedListsSpec(trending: Value, related: Value)
    ensures trending.List? && trending.items != [] ==>
      Trending(trending) == Ok(List(trending.items[..Min(3, |trending.items|)]))
    ensures !Truthy(trending) ==> Trending(trending) == Ok(List([]))
    ensures related.Obj? ==> Related(related).Ok?
    ensures related.Obj? ==>
      var q := Related(related).value.items;
      && |q| == Min(5, |related.entries|)
      && (forall i :: 0 <= i < |q| ==> q[i] == Str(related.entries[i].0))
  {
  }

  /** On the pipeline's initial state `{"topic": topic}` the step returns
      the settings for that topic with empty trending and query lists, so the
      orchestrator passes it and hands its output on as the next state. */
  lemma FirstStep(topic: string, agent: Pipeline.AgentInfo, behave: Pipeline.Behaviour, repr: Value -> string)
    requires behave.run(agent, Pipeline.InitialState(topic)) == UserInputRun(Pipeline.InitialState(topic))
    ensures UserInputRun(Pipeline.InitialState(topic)) == Pipeline.Returned(Obj(Settings(topic, List([]), List([]))))
    ensures Pipeline.AgentStep(agent, Pipeline.InitialState(topic), behave, repr)
            == Pipeline.Passed(Obj(Settings(topic, List([]), List([]))))
  {
    var s := Pipeline.InitialState(topic);
    assert GetOr(s.entries, "topic", Str("")) == Str(topic);
    assert !HasKey(s.entries, "previous_output");
    SettingsKeys(topic, List([]), List([]));
  }
}
