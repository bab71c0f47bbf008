/**
 * The persona-switch executor (backend/workflow/04-tools-execution.go): the
 * two tools Riker can call, run in detection order over a batch, each one
 * possibly re-pointing the local "selected agent" and appending to the
 * memory of the agent it points at.
 *
 * The specification works on catalog keys: `Routing` is the selected key and
 * every persona's message list; `ChooseClone` and `DetectTopic` are the two
 * tools; `Run` is a batch. The methods below do the same on the `Agent`
 * objects and are proved to agree with it.
 */
module ToolExecution {

  import opened Wrappers
  import opened Text
  import opened Labels
  import opened Personas

  /** A detected tool call with its (string) argument. */
  datatype Invocation = ChooseCloneOfBob(cloneName: string) | DetectRealTopic(topicName: string)

  /** Which persona the local pointer designates, and every persona's messages. */
  datatype Routing = Routing(selected: Persona, histories: map<Persona, seq<Message>>)

  predicate Routable(r: Routing)
  {
    Total(r.histories)
  }

  /** One tool call's effect: the new routing, the tool's return value, the labels it wrote. */
  datatype Step = Step(routing: Routing, result: string, statuses: seq<Status>)

  /** A batch's effect: the final routing, the results in order, all labels written. */
  datatype Outcome = Outcome(routing: Routing, results: seq<string>, statuses: seq<Status>)

  const HandOffPrefix := "You have been selected to speak with the user, your name is: "
  const AcknowledgementPrefix := "I understand that you want to talk about: "
  const UnknownClonePrefix := "Unknown clone of Bob: "

  /** The system note recorded in the memory of a persona the user is handed to. */
  function HandOff(name: string): Message { System(HandOffPrefix + name) }

  /** The assistant note recorded for a declared topic. */
  function Acknowledgement(topic: string): Message { Assistant(AcknowledgementPrefix + topic) }

  const SelectingClone := Status("yellow", "Selecting Bob clone...")
  const DetectingTopic := Status("step", "Detecting the real topic in user message...")
  const ExecutingTools := Status("orange", "Executing tool calls...")

  const Topics: set<string> := {"docker", "docker compose", "docker model runner", "docker bake"}

  /** The persona a topic label routes to and the colour of the label announcing it. */
  function TopicRoute(topic: string): (r: Option<(Persona, string)>)
    ensures r.Some? <==> topic in Topics
    ensures r.Some? ==> IsClone(r.value.0)
  {
    match topic
    case "docker" => Some((Bob, "pink"))
    case "docker compose" => Some((Bill, "orange"))
    case "docker model runner" => Some((Garfield, "red"))
    case "docker bake" => Some((Milo, "warning"))
    case _ => None
  }

  /**
   * The `choose_clone_of_bob` tool. The name is lower-cased; one of the four
   * clones is selected and told so in its memory, and its title-cased name is
   * returned; any other name (Riker and Khan included) changes nothing and
   * is reported as unknown.
   */
  function ChooseClone(r: Routing, cloneName: string, models: map<Persona, string>): (s: Step)
    requires Routable(r) && Total(models)
    ensures Routable(s.routing)
    ensures |s.statuses| == 2 && s.statuses[0] == SelectingClone
    ensures match CloneNamed(ToLower(cloneName))
      case Some(p) =>
        && s.routing.selected == p
        && s.routing.histories == r.histories[p := r.histories[p] + [HandOff(DisplayName(p))]]
        && s.result == DisplayName(p)
      case None =>
        s.routing == r && s.result == UnknownClonePrefix + ToLower(cloneName)
  {
    var name := ToLower(cloneName);
    match CloneNamed(name)
    case Some(p) =>
      var title := Capitalize(Key(p));
      CapitalizedKey(p);
      Step(Routing(p, r.histories[p := r.histories[p] + [HandOff(DisplayName(p))]]),
           title,
           [SelectingClone, Status("enhancement", "Hey, it's " + title + ", " + models[p])])
    case None =>
      Step(r, UnknownClonePrefix + name, [SelectingClone, Status("bug", UnknownClonePrefix + name)])
  }

  /**
   * The `detect_the_real_topic_in_user_message` tool. The four topic labels,
   * matched exactly, select their persona; any other topic keeps the current
   * one. Either way the acknowledgement goes to the persona selected
   * afterwards, and the topic is returned.
   */
  function DetectTopic(r: Routing, topic: string): (s: Step)
    requires Routable(r)
    ensures Routable(s.routing)
    ensures s.routing.selected == (if topic in Topics then TopicRoute(topic).value.0 else r.selected)
    ensures var p := s.routing.selected;
      s.routing.histories == r.histories[p := r.histories[p] + [Acknowledgement(topic)]]
    ensures s.result == topic
    ensures |s.statuses| == (if topic in Topics then 3 else 2) && s.statuses[0] == DetectingTopic
  {
    var route := TopicRoute(topic);
    var selected := if route.Some? then route.value.0 else r.selected;
    var announce := if route.Some?
      then [Status(route.value.1, "You are speaking with " + DisplayName(route.value.0))]
      else [];
    Step(Routing(selected, r.histories[selected := r.histories[selected] + [Acknowledgement(topic)]]),
         topic,
         [DetectingTopic, Status("white", "Topic: " + topic)] + announce)
  }

  function Apply(r: Routing, call: Invocation, models: map<Persona, string>): (s: Step)
    requires Routable(r) && Total(models)
    ensures Routable(s.routing)
  {
    match call
    case ChooseCloneOfBob(name) => ChooseClone(r, name, models)
    case DetectRealTopic(topic) => DetectTopic(r, topic)
  }

  /**
   * A batch run with any step function: each call sees the routing the
   * previous ones left. A proof device for `RunAppend` (see `RunIsRunWith`);
   * the source's batch is `Run`.
   */
  function RunWith(step: (Routing, Invocation) -> Step, r: Routing, calls: seq<Invocation>): (o: Outcome)
    ensures |o.results| == |calls|
    decreases |calls|
  {
    if |calls| == 0 then Outcome(r, [], [])
    else
      var before := RunWith(step, r, calls[..|calls| - 1]);
      var s := step(before.routing, calls[|calls| - 1]);
      Outcome(s.routing, before.results + [s.result], before.statuses + s.statuses)
  }

  /** The tools as a step function on every routing (a routing that is not total is left alone); a proof device for `RunAppend`. */
  function Tools(models: map<Persona, string>): (Routing, Invocation) -> Step
  {
    (r: Routing, c: Invocation) => if Routable(r) && Total(models) then Apply(r, c, models) else Step(r, "", [])
  }

  /** A batch of tool calls run in order, each seeing the selection the previous ones left. */
  function Run(r: Routing, calls: seq<Invocation>, models: map<Persona, string>): (o: Outcome)
    requires Routable(r) && Total(models)
    ensures Routable(o.routing)
    ensures |o.results| == |calls|
    decreases |calls|
  {
    if |calls| == 0 then Outcome(r, [], [])
    else
      var before := Run(r, calls[..|calls| - 1], models);
      var s := Apply(before.routing, calls[|calls| - 1], models);
      Outcome(s.routing, before.results + [s.result], before.statuses + s.statuses)
  }

  /** `Run` is `RunWith` of the tools. */
  lemma {:induction false} RunIsRunWith(r: Routing, calls: seq<Invocation>, models: map<Persona, string>)
    requires Routable(r) && Total(models)
    ensures Run(r, calls, models) == RunWith(Tools(models), r, calls)
    decreases |calls|
  {
    if |calls| > 0 {
      var init := calls[..|calls| - 1];
      RunIsRunWith(r, init, models);
      var before := Run(r, init, models);
      assert Tools(models)(before.routing, calls[|calls| - 1]) == Apply(before.routing, calls[|calls| - 1], models);
    }
  }

  lemma {:induction false} RunWithAppend(step: (Routing, Invocation) -> Step, r: Routing, a: seq<Invocation>, b: seq<Invocation>)
    ensures var first := RunWith(step, r, a);
      var second := RunWith(step, first.routing, b);
      RunWith(step, r, a + b) == Outcome(second.routing, first.results + second.results, first.statuses + second.statuses)
    decreases |b|
  {
    if |b| == 0 {
      assert a + b == a;
    } else {
      var b' := b[..|b| - 1];
      assert (a + b)[..|a + b| - 1] == a + b';
      assert (a + b)[|a + b| - 1] == b[|b| - 1];
      RunWithAppend(step, r, a, b');
      var first := RunWith(step, r, a);
      var part := RunWith(step, first.routing, b');
      var s := step(part.routing, b[|b| - 1]);
      assert first.results + part.results + [s.result] == first.results + (part.results + [s.result]);
      assert first.statuses + part.statuses + s.statuses == first.statuses + (part.statuses + s.statuses);
    }
  }

  /** Lower-casing is idempotent, so a clone name is accepted whatever its case. */
  lemma ToLowerIdempotent(s: string)
    ensures ToLower(ToLower(s)) == ToLower(s)
  {
    forall i | 0 <= i < |s|
      ensures ToLower(ToLower(s))[i] == ToLower(s)[i]
    {
      var c := s[i];
      assert LowerChar(LowerChar(c)) == LowerChar(c);
    }
  }

  lemma ChooseCloneIgnoresCase(r: Routing, cloneName: string, models: map<Persona, string>)
    requires Routable(r) && Total(models)
    ensures ChooseClone(r, cloneName, models) == ChooseClone(r, ToLower(cloneName), models)
  {
    ToLowerIdempotent(cloneName);
  }

  /** Riker and Khan cannot be chosen: their own keys fall to the unknown branch. */
  lemma RoutingAgentsNotSelectable(r: Routing, p: Persona, models: map<Persona, string>)
    requires Routable(r) && Total(models) && !IsClone(p)
    ensures var s := ChooseClone(r, Key(p), models);
      s.routing == r && s.result == UnknownClonePrefix + Key(p)
  {
    if p == Riker {
      assert ToLower("riker") == "riker";
    } else {
      assert ToLower("khan") == "khan";
    }
  }

  /** Running two batches one after the other is running their concatenation. */
  lemma RunAppend(r: Routing, a: seq<Invocation>, b: seq<Invocation>, models: map<Persona, string>)
    requires Routable(r) && Total(models)
    ensures var first := Run(r, a, models);
      var second := Run(first.routing, b, models);
      Run(r, a + b, models) == Outcome(second.routing, first.results + second.results, first.statuses + second.statuses)
  {
    var first := Run(r, a, models);
    RunIsRunWith(r, a + b, models);
    RunIsRunWith(r, a, models);
    RunIsRunWith(first.routing, b, models);
    RunWithAppend(Tools(models), r, a, b);
  }

  /** A tool only appends: every persona's messages stay a prefix of its new ones. */
  lemma ApplyOnlyAppends(r: Routing, c: Invocation, models: map<Persona, string>, p: Persona)
    requires Routable(r) && Total(models)
    ensures r.histories[p] <= Apply(r, c, models).routing.histories[p]
  {
  }

  /** A batch only appends: every persona's earlier messages stay a prefix of its new ones. */
  lemma {:induction false} RunOnlyAppends(r: Routing, calls: seq<Invocation>, models: map<Persona, string>, p: Persona)
    requires Routable(r) && Total(models)
    ensures r.histories[p] <= Run(r, calls, models).routing.histories[p]
    decreases |calls|
  {
    if |calls| > 0 {
      var before := Run(r, calls[..|calls| - 1], models);
      RunOnlyAppends(r, calls[..|calls| - 1], models, p);
      ApplyOnlyAppends(before.routing, calls[|calls| - 1], models, p);
    }
  }

  /** What each tool returns: the clone's name or the unknown-clone report, or the topic. */
  function ResultOf(call: Invocation): string
  {
    match call
    case ChooseCloneOfBob(name) =>
      (match CloneNamed(ToLower(name))
       case Some(p) => DisplayName(p)
       case None => UnknownClonePrefix + ToLower(name))
    case DetectRealTopic(topic) => topic
  }

  /** The i-th result of a batch is what the i-th call returns, whatever the selection was. */
  lemma {:induction false} RunResults(r: Routing, calls: seq<Invocation>, models: map<Persona, string>, i: nat)
    requires Routable(r) && Total(models)
    requires i < |calls|
    ensures Run(r, calls, models).results[i] == ResultOf(calls[i])
    decreases |calls|
  {
    if i < |calls| - 1 {
      RunResults(r, calls[..|calls| - 1], models, i);
    }
  }

  /**
   * A switch made by one call is seen by the next: choosing a clone and then
   * naming an unknown topic leaves both notes in the chosen clone's memory.
   */
  lemma SwitchSeenByLaterCall(r: Routing, cloneName: string, topic: string, models: map<Persona, string>)
    requires Routable(r) && Total(models)
    requires CloneNamed(ToLower(cloneName)).Some? && topic !in Topics
    ensures var k := CloneNamed(ToLower(cloneName)).value;
      var o := Run(r, [ChooseCloneOfBob(cloneName), DetectRealTopic(topic)], models);
      && o.routing.selected == k
      && o.routing.histories[k] == r.histories[k] + [HandOff(DisplayName(k)), Acknowledgement(topic)]
      && o.results == [DisplayName(k), topic]
  {
    var k := CloneNamed(ToLower(cloneName)).value;
    var calls := [ChooseCloneOfBob(cloneName), DetectRealTopic(topic)];
    assert calls[..1] == [ChooseCloneOfBob(cloneName)];
    assert calls[..1][..0] == [];
    var s1 := ChooseClone(r, cloneName, models);
    assert Run(r, calls[..1], models) == Outcome(s1.routing, [s1.result], s1.statuses);
    assert s1.routing.selected == k;
    assert s1.routing.histories[k] == r.histories[k] + [HandOff(DisplayName(k))];
    var s2 := DetectTopic(s1.routing, topic);
    assert s2.routing.selected == k;
    assert s2.routing.histories[k] == s1.routing.histories[k] + [Acknowledgement(topic)];
    assert Run(r, calls, models).routing == s2.routing;
  }

  /** The closing label of a batch: the error, or the success note. */
  function ExecutionResultStatus(err: Option<string>): (s: Status)
    ensures s.tag == (if err.Some? then "error" else "success")
    ensures err.Some? ==> s.text == "Tool execution failed: " + err.value
  {
    match err
    case Some(e) => Status("error", "Tool execution failed: " + e)
    case None => Status("success", "Tool calls executed successfully")
  }

  /** The accepted branch of `choose_clone_of_bob`: point at the clone, announce it, tell it. */
  method SelectClone(response: Response, catalog: map<Persona, Agent>, p: Persona)
    returns (next: Agent, title: string)
    requires ValidCatalog(catalog) && IsClone(p)
    modifies response, catalog.Values
    ensures next == catalog[p] && title == Capitalize(Key(p)) && title == DisplayName(p)
    ensures Histories(catalog) == old(Histories(catalog))[p := old(Histories(catalog))[p] + [HandOff(DisplayName(p))]]
    ensures response.events == old(response.events)
      + Emitted([Status("enhancement", "Hey, it's " + title + ", " + Models(catalog)[p])])
  {
    next := catalog[p];
    title := Capitalize(Key(p));
    CapitalizedKey(p);
    Report(response, Status("enhancement", "Hey, it's " + title + ", " + next.model));
    HistoriesUnchanged(catalog);
    AppendMessages(catalog, p, next, [System(HandOffPrefix + next.name)]);
  }

  /** `choose_clone_of_bob` on the agents: as `ChooseClone` says. */
  method ChooseCloneTool(response: Response, catalog: map<Persona, Agent>, current: Agent, ghost key: Persona, cloneName: string)
    returns (next: Agent, ghost nextKey: Persona, result: string)
    requires ValidCatalog(catalog) && key in catalog && catalog[key] == current
    modifies response, catalog.Values
    ensures var s := ChooseClone(Routing(key, old(Histories(catalog))), cloneName, Models(catalog));
      && nextKey == s.routing.selected && nextKey in catalog && next == catalog[nextKey]
      && Histories(catalog) == s.routing.histories
      && result == s.result
      && response.events == old(response.events) + Emitted(s.statuses)
  {
    ghost var s := ChooseClone(Routing(key, Histories(catalog)), cloneName, Models(catalog));
    ghost var e0 := response.events;
    Report(response, SelectingClone);
    HistoriesUnchanged(catalog);
    ghost var e1 := response.events;
    var name := ToLower(cloneName);
    match CloneNamed(name)
    case Some(p) =>
      next, result := SelectClone(response, catalog, p);
      nextKey := p;
    case None =>
      Report(response, Status("bug", UnknownClonePrefix + name));
      HistoriesUnchanged(catalog);
      next, nextKey := current, key;
      result := UnknownClonePrefix + name;
    EventsGrow(e0, e1, response.events, [SelectingClone], [s.statuses[1]]);
    assert [SelectingClone] + [s.statuses[1]] == s.statuses;
  }

  /** The announcing branch of the topic tool: point at the topic's clone and say so. */
  method AnnounceTopic(response: Response, catalog: map<Persona, Agent>, p: Persona, colour: string)
    returns (next: Agent)
    requires ValidCatalog(catalog) && IsClone(p)
    modifies response
    ensures next == catalog[p]
    ensures response.events == old(response.events)
      + Emitted([Status(colour, "You are speaking with " + DisplayName(p))])
  {
    next := catalog[p];
    Report(response, Status(colour, "You are speaking with " + next.name));
  }

  /** `detect_the_real_topic_in_user_message` on the agents: as `DetectTopic` says. */
  method DetectTopicTool(response: Response, catalog: map<Persona, Agent>, current: Agent, ghost key: Persona, topic: string)
    returns (next: Agent, ghost nextKey: Persona, result: string)
    requires ValidCatalog(catalog) && key in catalog && catalog[key] == current
    modifies response, catalog.Values
    ensures var s := DetectTopic(Routing(key, old(Histories(catalog))), topic);
      && nextKey == s.routing.selected && nextKey in catalog && next == catalog[nextKey]
      && Histories(catalog) == s.routing.histories
      && result == s.result
      && response.events == old(response.events) + Emitted(s.statuses)
  {
    ghost var s := DetectTopic(Routing(key, Histories(catalog)), topic);
    ghost var e0 := response.events;
    var written := [DetectingTopic, Status("white", "Topic: " + topic)];
    Report(response, written[0]);
    ghost var e1 := response.events;
    Report(response, written[1]);
    EventsGrow(e0, e1, response.events, [written[0]], [written[1]]);
    assert [written[0]] + [written[1]] == written;
    ghost var e2 := response.events;
    next, nextKey := current, key;
    match TopicRoute(topic) {
      case Some((p, colour)) =>
        next := AnnounceTopic(response, catalog, p, colour);
        nextKey := p;
        EventsGrow(e0, e2, response.events, written, [s.statuses[2]]);
      case None =>
    }
    assert response.events == e0 + Emitted(s.statuses);
    HistoriesUnchanged(catalog);
    AppendMessages(catalog, nextKey, next, [Assistant(AcknowledgementPrefix + topic)]);
    result := topic;
  }

  /** One call of a batch on the agents, dispatched on the tool's name: as `Apply` says. */
  method ApplyTool(response: Response, catalog: map<Persona, Agent>, current: Agent, ghost key: Persona, call: Invocation)
    returns (next: Agent, ghost nextKey: Persona, result: string)
    requires ValidCatalog(catalog) && key in catalog && catalog[key] == current
    modifies response, catalog.Values
    ensures var s := Apply(Routing(key, old(Histories(catalog))), call, Models(catalog));
      && nextKey == s.routing.selected && nextKey in catalog && next == catalog[nextKey]
      && Histories(catalog) == s.routing.histories
      && result == s.result
      && response.events == old(response.events) + Emitted(s.statuses)
  {
    match call
    case ChooseCloneOfBob(name) =>
      next, nextKey, result := ChooseCloneTool(response, catalog, current, key, name);
    case DetectRealTopic(topic) =>
      next, nextKey, result := DetectTopicTool(response, catalog, current, key, topic);
  }

  /** The first i + 1 calls of a batch are the first i followed by call i. */
  lemma RunPrefixStep(r: Routing, calls: seq<Invocation>, models: map<Persona, string>, i: nat)
    requires Routable(r) && Total(models)
    requires i < |calls|
    ensures var before := Run(r, calls[..i], models);
      var s := Apply(before.routing, calls[i], models);
      Run(r, calls[..i + 1], models) == Outcome(s.routing, before.results + [s.result], before.statuses + s.statuses)
  {
    assert calls[..i + 1][..i] == calls[..i];
    assert calls[..i + 1][i] == calls[i];
  }

  /** The loop of `ExecuteToolCalls`: every call in order, as `Run` says. */
  method RunCalls(response: Response, catalog: map<Persona, Agent>, selected: Agent, ghost selectedKey: Persona,
                  calls: seq<Invocation>)
    returns (results: seq<string>)
    requires ValidCatalog(catalog) && selectedKey in catalog && catalog[selectedKey] == selected
    modifies response, catalog.Values
    ensures var o := Run(Routing(selectedKey, old(Histories(catalog))), calls, Models(catalog));
      && results == o.results
      && Histories(catalog) == o.routing.histories
      && response.events == old(response.events) + Emitted(o.statuses)
  {
    ghost var start := Routing(selectedKey, Histories(catalog));
    ghost var models := Models(catalog);
    ghost var events0 := response.events;
    var current := selected;
    ghost var key := selectedKey;
    results := [];
    for i := 0 to |calls|
      invariant key in catalog && catalog[key] == current
      invariant var o := Run(start, calls[..i], models);
        && key == o.routing.selected
        && Histories(catalog) == o.routing.histories
        && results == o.results
        && response.events == events0 + Emitted(o.statuses)
    {
      ghost var before := Run(start, calls[..i], models);
      assert Routing(key, Histories(catalog)) == before.routing;
      ghost var s := Apply(before.routing, calls[i], models);
      ghost var eventsBefore := response.events;
      RunPrefixStep(start, calls, models, i);
      var result;
      current, key, result := ApplyTool(response, catalog, current, key, calls[i]);
      results := results + [result];
      EventsGrow(events0, eventsBefore, response.events, before.statuses, s.statuses);
    }
    assert calls[..|calls|] == calls;
  }

  /** The labelled part of `ExecuteToolCalls`: an opening label, the calls, a closing label. */
  method RunAndReport(response: Response, catalog: map<Persona, Agent>, selected: Agent, ghost selectedKey: Persona,
                      calls: seq<Invocation>, opening: Status, closing: Status)
    returns (results: seq<string>)
    requires ValidCatalog(catalog) && selectedKey in catalog && catalog[selectedKey] == selected
    modifies response, catalog.Values
    ensures var o := Run(Routing(selectedKey, old(Histories(catalog))), calls, Models(catalog));
      && results == o.results
      && Histories(catalog) == o.routing.histories
      && response.events == old(response.events) + Emitted([opening]) + Emitted(o.statuses) + Emitted([closing])
  {
    Report(response, opening);
    HistoriesUnchanged(catalog);
    results := RunCalls(response, catalog, selected, selectedKey, calls);
    label ran:
    Report(response, closing);
    HistoriesUnchanged@ran(catalog);
  }

  /**
   * `ExecuteToolCalls`: announces the batch, runs its calls in order on a
   * local copy of the selected-agent pointer, reports the library's error or
   * success, and empties Riker's messages. Only the results and the error are
   * returned: a new selection is not passed back to the caller, while the
   * messages appended through it stay.
   */
  method ExecuteToolCalls(response: Response, catalog: map<Persona, Agent>, riker: Agent,
                          selected: Agent, ghost selectedKey: Persona,
                          calls: seq<Invocation>, libraryErr: Option<string>)
    returns (results: seq<string>, err: Option<string>)
    requires ValidCatalog(catalog) && selectedKey in catalog && catalog[selectedKey] == selected
    modifies response, riker, catalog.Values
    ensures var o := Run(Routing(selectedKey, old(Histories(catalog))), calls, Models(catalog));
      && results == o.results
      && err == libraryErr
      && riker.messages == []
      && (forall p :: p in catalog && catalog[p] != riker ==> catalog[p].messages == o.routing.histories[p])
      && response.events == old(response.events)
           + Emitted([ExecutingTools]) + Emitted(o.statuses) + Emitted([ExecutionResultStatus(libraryErr)])
  {
    results := RunAndReport(response, catalog, selected, selectedKey, calls, ExecutingTools, ExecutionResultStatus(libraryErr));
    err := libraryErr;
    ghost var h := Histories(catalog);
    assert forall p :: p in catalog ==> catalog[p].messages == h[p];
    riker.messages := [];
  }
}
