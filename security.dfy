/** The screening policy: when a tool or a server interaction is judged safe, which
    counters move, and which tools survive the list filter. Verdicts come from the
    Lakera Guard client; its failures are absorbed here (fail-open), while a flagged
    verdict either refuses quietly or raises `SecurityViolation`. */
module Security {
  import opened Common
  import opened Text
  import opened OrderedDict
  import opened Json
  import opened Errors
  import opened Lakera

  /** The four counters of `screening_stats`. */
  datatype ScreeningStats = ScreeningStats(
    toolsScreened: nat,
    interactionsScreened: nat,
    violationsDetected: nat,
    screeningErrors: nat)

  const ZeroStats := ScreeningStats(0, 0, 0, 0)

  /** No counter of `a` is ahead of the same counter of `b`. */
  predicate StatsLe(a: ScreeningStats, b: ScreeningStats) {
    && a.toolsScreened <= b.toolsScreened
    && a.interactionsScreened <= b.interactionsScreened
    && a.violationsDetected <= b.violationsDetected
    && a.screeningErrors <= b.screeningErrors
  }

  /** The three switches of a security manager. */
  datatype Settings = Settings(toolScreening: bool, interactionScreening: bool, failOnViolation: bool)

  /** A dict of category flags as the JSON object it prints as. */
  function FlagsAsJson(categories: Dict<bool>): Json {
    JObj(seq(|categories|, i requires 0 <= i < |categories| => Entry(categories[i].key, JBool(categories[i].value))))
  }

  /** The text screened for a tool: its name and description, then its parameters
      when they are present and non-empty. */
  function ToolContent(name: Json, description: Json, parameters: Json): string {
    "Tool: " + Str(name) + "\nDescription: " + Str(description)
    + (if Truthy(parameters) then "\nParameters: " + Str(parameters) else "")
  }

  /** The verdict on a tool. */
  function ToolVerdict(client: LakeraClient, name: Json, description: Json, parameters: Json, guard: Guard): Outcome<GuardResponse> {
    ScreenToolDescription(client, ToolContent(name, description, parameters), guard)
  }

  function ToolViolationMessage(name: Json): string {
    "Tool '" + Str(name) + "' flagged by security screening"
  }

  /** `screen_tool_registration` as a decision on the verdict: what the call returns or
      raises, and the counters afterwards. */
  function ToolStep(stats: ScreeningStats, settings: Settings, name: Json, verdict: Outcome<GuardResponse>)
    : (Outcome<bool>, ScreeningStats)
  {
    if !settings.toolScreening then (Returned(true), stats)
    else
      match verdict
      case Raised(_) => (Returned(true), stats.(screeningErrors := stats.screeningErrors + 1))
      case Returned(response) =>
        var screened := stats.(toolsScreened := stats.toolsScreened + 1);
        if !response.flagged then (Returned(true), screened)
        else
          var counted := screened.(violationsDetected := screened.violationsDetected + 1);
          if settings.failOnViolation then
            (Raised(SecurityViolation(ToolViolationMessage(name), response.categories, response.categoryScores)),
             counted.(screeningErrors := counted.screeningErrors + 1))
          else (Returned(false), counted)
  }

  /** What `screen_tool_registration` returns or raises for each verdict, and how it
      moves the counters: no screening changes nothing, a failed screening counts an
      error and lets the tool through, a clean verdict counts a screened tool, and a
      flagged one counts a violation and either raises (counting an error as well) or
      rejects the tool. The counters never go down. */
  lemma ToolStepOutcome(stats: ScreeningStats, settings: Settings, name: Json, verdict: Outcome<GuardResponse>)
    ensures var r := ToolStep(stats, settings, name, verdict);
      && (!settings.toolScreening ==> r == (Returned(true), stats))
      && (settings.toolScreening && verdict.Raised? ==>
            r == (Returned(true), stats.(screeningErrors := stats.screeningErrors + 1)))
      && (settings.toolScreening && verdict.Returned? && !verdict.value.flagged ==>
            r == (Returned(true), stats.(toolsScreened := stats.toolsScreened + 1)))
      && (settings.toolScreening && verdict.Returned? && verdict.value.flagged ==>
            && r.1.toolsScreened == stats.toolsScreened + 1
            && r.1.violationsDetected == stats.violationsDetected + 1
            && r.1.interactionsScreened == stats.interactionsScreened
            && (settings.failOnViolation ==>
                  && r.0 == Raised(SecurityViolation(ToolViolationMessage(name), verdict.value.categories, verdict.value.categoryScores))
                  && r.1.screeningErrors == stats.screeningErrors + 1)
            && (!settings.failOnViolation ==> r.0 == Returned(false) && r.1.screeningErrors == stats.screeningErrors))
      && (r.0.Raised? ==> r.0.exc.SecurityViolation?)
      && StatsLe(stats, r.1)
  {
  }

  /** The text screened for a server's response: the method name and the response. */
  function ResponseContent(methodName: string, responseData: Json): Content {
    Text("Response for " + methodName + ": " + Str(responseData))
  }

  /** The verdicts on an interaction: on the request always, and on the response only
      when there is a non-empty one. */
  function InteractionVerdicts(client: LakeraClient, methodName: string, params: Json, responseData: Json, guard: Guard)
    : (r: (Outcome<GuardResponse>, Option<Outcome<GuardResponse>>))
    ensures r.0 == Lakera.ScreenServerInteraction(client, methodName, params, guard)
    ensures r.1.Some? <==> Truthy(responseData)
  {
    (Lakera.ScreenServerInteraction(client, methodName, params, guard),
     if Truthy(responseData) then Some(ScreenContent(client, ResponseContent(methodName, responseData), guard))
     else None)
  }

  /** Both screenings that were attempted produced a verdict. */
  predicate InteractionScreened(request: Outcome<GuardResponse>, response: Option<Outcome<GuardResponse>>) {
    request.Returned? && (response.None? || response.value.Returned?)
  }

  /** One of the verdicts flags the interaction. */
  predicate InteractionFlagged(request: Outcome<GuardResponse>, response: Option<Outcome<GuardResponse>>)
    requires InteractionScreened(request, response)
  {
    request.value.flagged || (response.Some? && response.value.value.flagged)
  }

  function InteractionViolationMessage(request: GuardResponse, response: Option<Outcome<GuardResponse>>): string
    requires response.Some? ==> response.value.Returned?
  {
    "Server interaction flagged by security screening"
    + (if request.flagged then " (request: " + Str(FlagsAsJson(request.categories)) + ")" else "")
    + (if response.Some? && response.value.value.flagged
       then " (response: " + Str(FlagsAsJson(response.value.value.categories)) + ")" else "")
  }

  /** `screen_server_interaction` as a decision on the verdicts. */
  function InteractionStep(stats: ScreeningStats, settings: Settings, request: Outcome<GuardResponse>,
                           response: Option<Outcome<GuardResponse>>): (Outcome<bool>, ScreeningStats)
  {
    if !settings.interactionScreening then (Returned(true), stats)
    else if !InteractionScreened(request, response) then
      (Returned(true), stats.(screeningErrors := stats.screeningErrors + 1))
    else
      var screened := stats.(interactionsScreened := stats.interactionsScreened + 1);
      if !InteractionFlagged(request, response) then (Returned(true), screened)
      else
        var counted := screened.(violationsDetected := screened.violationsDetected + 1);
        if settings.failOnViolation then
          (Raised(SecurityViolation(InteractionViolationMessage(request.value, response),
                                    request.value.categories, request.value.categoryScores)),
           counted.(screeningErrors := counted.screeningErrors + 1))
        else (Returned(false), counted)
  }

  /** What `screen_server_interaction` returns or raises for the verdicts, and how it
      moves the counters: no screening changes nothing, a failed screening counts an
      error and lets the call through, otherwise one interaction is counted, and it is
      allowed exactly when neither verdict flags it; a flagged one counts a violation
      and either raises with the request's categories (counting an error as well) or
      is refused. The counters never go down. */
  lemma InteractionStepOutcome(stats: ScreeningStats, settings: Settings, request: Outcome<GuardResponse>,
                               response: Option<Outcome<GuardResponse>>)
    ensures var r := InteractionStep(stats, settings, request, response);
      && (!settings.interactionScreening ==> r == (Returned(true), stats))
      && (settings.interactionScreening && !InteractionScreened(request, response) ==>
            r == (Returned(true), stats.(screeningErrors := stats.screeningErrors + 1)))
      && (settings.interactionScreening && InteractionScreened(request, response) ==>
            && r.1.interactionsScreened == stats.interactionsScreened + 1
            && r.1.toolsScreened == stats.toolsScreened
            && (r.0 == Returned(true) <==> !InteractionFlagged(request, response))
            && (r.1.violationsDetected == stats.violationsDetected + 1 <==> InteractionFlagged(request, response))
            && (!InteractionFlagged(request, response) ==> r.1 == stats.(interactionsScreened := stats.interactionsScreened + 1))
            && (InteractionFlagged(request, response) && !settings.failOnViolation ==> r.0 == Returned(false))
            && (InteractionFlagged(request, response) && settings.failOnViolation ==>
                  r.0.Raised? && r.1.screeningErrors == stats.screeningErrors + 1))
      && (r.0.Raised? ==> r.0.exc.SecurityViolation? && request.Returned?
                          && r.0.exc.categories == request.value.categories
                          && r.0.exc.scores == request.value.categoryScores)
      && StatsLe(stats, r.1)
  {
  }

  /** Interaction screening never lowers a counter, and what it raises is a security
      violation. */
  lemma InteractionStepMonotone(stats: ScreeningStats, settings: Settings, request: Outcome<GuardResponse>,
                                response: Option<Outcome<GuardResponse>>)
    ensures var r := InteractionStep(stats, settings, request, response);
            StatsLe(stats, r.1) && (r.0.Raised? ==> r.0.exc.SecurityViolation?)
  {
    InteractionStepOutcome(stats, settings, request, response);
  }

  /** A clean request with nothing to screen in the response only counts one
      interaction, whatever the response text would have been. */
  lemma EmptyResponseNotScreened(client: LakeraClient, settings: Settings, stats: ScreeningStats,
                                 methodName: string, params: Json, guard: Guard)
    requires settings.interactionScreening
    requires var v := Lakera.ScreenServerInteraction(client, methodName, params, guard); v.Returned? && !v.value.flagged
    ensures var (request, response) := InteractionVerdicts(client, methodName, params, JObj([]), guard);
            InteractionStep(stats, settings, request, response)
            == (Returned(true), stats.(interactionsScreened := stats.interactionsScreened + 1))
  {
    EmptyObjectFalsy();
    var verdicts := InteractionVerdicts(client, methodName, params, JObj([]), guard);
    assert verdicts.1.None?;
  }

  /** The name, description and parameters `screen_tools_list` reads from a tool. */
  function ToolName(tool: Dict<Json>): Json { GetOr(tool, "name", JStr("Unknown")) }
  function ToolDescription(tool: Dict<Json>): Json { GetOr(tool, "description", JStr("")) }
  function ToolParameters(tool: Dict<Json>): Json { GetOr(tool, "parameters", JNull) }

  /** The verdict on a listed tool. */
  function ListedToolVerdict(client: LakeraClient, tool: Dict<Json>, guard: Guard): Outcome<GuardResponse> {
    ToolVerdict(client, ToolName(tool), ToolDescription(tool), ToolParameters(tool), guard)
  }

  /** A tool is kept when screening it fails or does not flag it. */
  predicate JudgedSafe(client: LakeraClient, tool: Json, guard: Guard)
    requires tool.JObj?
  {
    var v := ListedToolVerdict(client, tool.fields, guard);
    v.Raised? || !v.value.flagged
  }

  predicate AllObjects(tools: seq<Json>) {
    forall i :: 0 <= i < |tools| ==> tools[i].JObj?
  }

  /** The tools judged safe, in their original order: the reference the filter is
      measured against. */
  function SafeTools(client: LakeraClient, tools: seq<Json>, guard: Guard): seq<Json>
    requires AllObjects(tools)
  {
    if tools == [] then []
    else
      var init := SafeTools(client, tools[..|tools| - 1], guard);
      if JudgedSafe(client, tools[|tools| - 1], guard) then init + [tools[|tools| - 1]] else init
  }

  /** The loop of `screen_tools_list` over the first tools: the tools kept so far (or
      the error that ended the loop) and the counters. */
  function ScreenList(client: LakeraClient, settings: Settings, stats: ScreeningStats, tools: seq<Json>, guard: Guard)
    : (r: (Outcome<seq<Json>>, ScreeningStats))
    ensures StatsLe(stats, r.1)
  {
    if tools == [] then (Returned([]), stats)
    else
      var (kept, counted) := ScreenList(client, settings, stats, tools[..|tools| - 1], guard);
      var tool := tools[|tools| - 1];
      if kept.Raised? then (kept, counted)
      else if !tool.JObj? then (Raised(AttributeError), counted)
      else
        var (ok, after) := ToolStep(counted, settings, ToolName(tool.fields), ListedToolVerdict(client, tool.fields, guard));
        (if ok == Returned(true) then Returned(kept.value + [tool]) else kept, after)
  }

  /** One more tool through the loop, when the earlier ones ended without an error. */
  lemma ScreenListStep(client: LakeraClient, settings: Settings, stats: ScreeningStats, tools: seq<Json>,
                       i: nat, guard: Guard)
    requires i < |tools| && tools[i].JObj?
    requires ScreenList(client, settings, stats, tools[..i], guard).0.Returned?
    ensures var (kept, counted) := ScreenList(client, settings, stats, tools[..i], guard);
            var tool := tools[i];
            var (ok, after) := ToolStep(counted, settings, ToolName(tool.fields), ListedToolVerdict(client, tool.fields, guard));
            ScreenList(client, settings, stats, tools[..i + 1], guard)
            == (if ok == Returned(true) then Returned(kept.value + [tool]) else kept, after)
  {
    assert tools[..i + 1][..i] == tools[..i];
  }

  /** Once an error ends the loop, later tools change nothing. */
  lemma {:induction false} ScreenListStopsAtError(client: LakeraClient, settings: Settings, stats: ScreeningStats,
                                                  tools: seq<Json>, n: nat, guard: Guard)
    requires n <= |tools| && ScreenList(client, settings, stats, tools[..n], guard).0.Raised?
    ensures ScreenList(client, settings, stats, tools, guard) == ScreenList(client, settings, stats, tools[..n], guard)
    decreases |tools| - n
  {
    if n < |tools| {
      var init := tools[..|tools| - 1];
      assert init[..n] == tools[..n];
      ScreenListStopsAtError(client, settings, stats, init, n, guard);
    } else {
      assert tools[..n] == tools;
    }
  }

  /** With tool screening on, the filter keeps exactly the tools judged safe, in order;
      a flagged tool is dropped whether it raised `SecurityViolation` or returned false. */
  lemma {:induction false} ScreenListKeepsSafeTools(client: LakeraClient, settings: Settings, stats: ScreeningStats,
                                                   tools: seq<Json>, guard: Guard)
    requires settings.toolScreening
    ensures AllObjects(tools) ==> ScreenList(client, settings, stats, tools, guard).0 == Returned(SafeTools(client, tools, guard))
  {
    if tools != [] && AllObjects(tools) {
      var init := tools[..|tools| - 1];
      assert AllObjects(init) by {
        forall i | 0 <= i < |init| ensures init[i].JObj? {
          assert init[i] == tools[i];
        }
      }
      ScreenListKeepsSafeTools(client, settings, stats, init, guard);
    }
  }

  /** The filter keeps the order of the tools it keeps. */
  lemma {:induction false} SafeToolsSubsequence(client: LakeraClient, tools: seq<Json>, guard: Guard)
    requires AllObjects(tools)
    ensures IsSubsequence(SafeTools(client, tools, guard), tools)
  {
    if tools != [] {
      var init := tools[..|tools| - 1];
      var last := tools[|tools| - 1];
      assert AllObjects(init) by {
        forall i | 0 <= i < |init| ensures init[i].JObj? {
          assert init[i] == tools[i];
        }
      }
      SafeToolsSubsequence(client, init, guard);
      var s := SafeTools(client, init, guard);
      SplitLast(tools);
      if JudgedSafe(client, last, guard) {
        SubsequenceOfBothLonger(s, init, last);
      } else {
        SubsequenceOfLonger(s, init, last);
      }
    }
  }

  /** A tool is kept exactly when it is listed and judged safe. */
  lemma {:induction false} SafeToolsMembers(client: LakeraClient, tools: seq<Json>, guard: Guard, t: Json)
    requires AllObjects(tools)
    ensures t in SafeTools(client, tools, guard) <==> t in tools && JudgedSafe(client, t, guard)
  {
    if tools != [] {
      var init := tools[..|tools| - 1];
      assert AllObjects(init) by {
        forall i | 0 <= i < |init| ensures init[i].JObj? {
          assert init[i] == tools[i];
        }
      }
      SafeToolsMembers(client, init, guard, t);
      SplitLast(tools);
    }
  }

  /** `screen_tools_list(tools)` on whatever value it is handed: the list itself when
      tool screening is off, the filtered list otherwise. Iterating an empty string or
      dict yields nothing; a non-empty one yields strings, which have no `.get`; any
      other value cannot be iterated. */
  function ToolsListOutcome(client: LakeraClient, settings: Settings, stats: ScreeningStats, tools: Json, guard: Guard)
    : (r: (Outcome<Json>, ScreeningStats))
    ensures !settings.toolScreening ==> r == (Returned(tools), stats)
    ensures settings.toolScreening && tools.JArr? && AllObjects(tools.items) ==>
              r.0 == Returned(JArr(SafeTools(client, tools.items, guard)))
    ensures r.0.Returned? && settings.toolScreening ==> r.0.value.JArr?
    ensures StatsLe(stats, r.1)
  {
    if !settings.toolScreening then (Returned(tools), stats)
    else
      match tools
      case JArr(items) =>
        ScreenListKeepsSafeTools(client, settings, stats, items, guard);
        var (kept, after) := ScreenList(client, settings, stats, items, guard);
        (if kept.Raised? then Raised(kept.exc) else Returned(JArr(kept.value)), after)
      case JStr(s) => (if s == "" then Returned(JArr([])) else Raised(AttributeError), stats)
      case JObj(fields) => (if fields == [] then Returned(JArr([])) else Raised(AttributeError), stats)
      case _ => (Raised(TypeError), stats)
  }

  /** The counters as `get_screening_stats` reports them. */
  function StatsDict(stats: ScreeningStats): Dict<int> {
    [Entry("tools_screened", stats.toolsScreened as int),
     Entry("interactions_screened", stats.interactionsScreened as int),
     Entry("violations_detected", stats.violationsDetected as int),
     Entry("screening_errors", stats.screeningErrors as int)]
  }

  /** The report holds the four counters, each under its own key. */
  lemma StatsDictFacts(stats: ScreeningStats)
    ensures var r := StatsDict(stats);
            && Keys(r) == ["tools_screened", "interactions_screened", "violations_detected", "screening_errors"]
            && Get(r, "tools_screened") == Some(stats.toolsScreened as int)
            && Get(r, "interactions_screened") == Some(stats.interactionsScreened as int)
            && Get(r, "violations_detected") == Some(stats.violationsDetected as int)
            && Get(r, "screening_errors") == Some(stats.screeningErrors as int)
  {
    var r := StatsDict(stats);
    var ks := ["tools_screened", "interactions_screened", "violations_detected", "screening_errors"];
    assert Keys(r) == ks;
    assert forall i, j :: 0 <= i < j < |ks| ==> ks[i] != ks[j];
    assert DistinctKeys(r) by {
      forall i, j | 0 <= i < j < |r| ensures r[i].key != r[j].key {
        assert r[i].key == ks[i] && r[j].key == ks[j];
      }
    }
    GetEntry(r, 0);
    GetEntry(r, 1);
    GetEntry(r, 2);
    GetEntry(r, 3);
  }

  /** `screen_tool_registration` on the counters it starts from: screening off keeps
      the tool, a failed screening counts an error and keeps it, and otherwise the
      verdict decides. */
  method ScreenTool(client: LakeraClient, settings: Settings, stats: ScreeningStats, name: Json, description: Json,
                    parameters: Json, guard: Guard) returns (r: Outcome<bool>, counters: ScreeningStats)
    ensures (r, counters) == ToolStep(stats, settings, name, ToolVerdict(client, name, description, parameters, guard))
  {
    if !settings.toolScreening {
      r, counters := Returned(true), stats;
    } else {
      var verdict := ScreenToolDescription(client, ToolContent(name, description, parameters), guard);
      r, counters := DecideTool(stats, settings, name, verdict);
    }
  }

  /** The loop of `screen_tools_list` over a list of tools, each through
      `screen_tool_registration`, on the counters it starts from. */
  method ScreenTools(client: LakeraClient, settings: Settings, stats: ScreeningStats, items: seq<Json>, guard: Guard)
    returns (r: Outcome<seq<Json>>, counters: ScreeningStats)
    requires settings.toolScreening
    ensures (r, counters) == ScreenList(client, settings, stats, items, guard)
  {
    var safe := [];
    counters := stats;
    var i := 0;
    while i < |items|
      invariant 0 <= i <= |items|
      invariant ScreenList(client, settings, stats, items[..i], guard) == (Returned(safe), counters)
    {
      var tool := items[i];
      if !tool.JObj? {
        assert items[..i + 1][..i] == items[..i];
        ScreenListStopsAtError(client, settings, stats, items, i + 1, guard);
        return Raised(AttributeError), counters;
      }
      ScreenListStep(client, settings, stats, items, i, guard);
      var ok;
      ok, counters := ScreenTool(client, settings, counters, ToolName(tool.fields), ToolDescription(tool.fields),
                                 ToolParameters(tool.fields), guard);
      if ok == Returned(true) {
        safe := safe + [tool];
      }
      i := i + 1;
    }
    assert items[..i] == items;
    return Returned(safe), counters;
  }

  /** The end of `screen_tool_registration` once the verdict is in: a failed screening
      counts an error and keeps the tool; otherwise one more tool screened, then a
      violation when the verdict flags it. */
  method DecideTool(stats: ScreeningStats, settings: Settings, name: Json, verdict: Outcome<GuardResponse>)
    returns (r: Outcome<bool>, counters: ScreeningStats)
    requires settings.toolScreening
    ensures (r, counters) == ToolStep(stats, settings, name, verdict)
  {
    if verdict.Raised? {
      return Returned(true), stats.(screeningErrors := stats.screeningErrors + 1);
    }
    var response := verdict.value;
    counters := stats.(toolsScreened := stats.toolsScreened + 1);
    if !response.flagged {
      return Returned(true), counters;
    }
    counters := counters.(violationsDetected := counters.violationsDetected + 1);
    if settings.failOnViolation {
      counters := counters.(screeningErrors := counters.screeningErrors + 1);
      return Raised(SecurityViolation(ToolViolationMessage(name), response.categories, response.categoryScores)), counters;
    }
    return Returned(false), counters;
  }

  /** The end of `screen_server_interaction` once both verdicts are in: one more
      interaction screened, then a violation when either verdict flags it. */
  method DecideInteraction(stats: ScreeningStats, settings: Settings, request: GuardResponse,
                           response: Option<Outcome<GuardResponse>>) returns (r: Outcome<bool>, counters: ScreeningStats)
    requires settings.interactionScreening && (response.Some? ==> response.value.Returned?)
    ensures (r, counters) == InteractionStep(stats, settings, Returned(request), response)
  {
    counters := stats.(interactionsScreened := stats.interactionsScreened + 1);
    var requestFlagged := request.flagged;
    var responseFlagged := response.Some? && response.value.value.flagged;
    if !requestFlagged && !responseFlagged {
      return Returned(true), counters;
    }
    counters := counters.(violationsDetected := counters.violationsDetected + 1);
    if settings.failOnViolation {
      counters := counters.(screeningErrors := counters.screeningErrors + 1);
      return Raised(SecurityViolation(InteractionViolationMessage(request, response),
                                      request.categories, request.categoryScores)), counters;
    }
    return Returned(false), counters;
  }

  /** A security manager: a screening client, three switches and the counters. */
  class SecurityManager {
    const lakera: LakeraClient
    const settings: Settings
    var stats: ScreeningStats

    /** `SecurityManager(lakera_client, ...)` with a client at hand. */
    constructor(lakera: LakeraClient, enableToolScreening: bool := true,
                enableInteractionScreening: bool := true, failOnViolation: bool := true)
      ensures this.lakera == lakera
      ensures settings == Settings(enableToolScreening, enableInteractionScreening, failOnViolation)
      ensures stats == ZeroStats
    {
      this.lakera := lakera;
      settings := Settings(enableToolScreening, enableInteractionScreening, failOnViolation);
      stats := ZeroStats;
    }

    /** `SecurityManager(...)` with or without a client: without one it builds a
        default client from the environment key, which fails when there is none. */
    static method Create(given: Option<LakeraClient>, envKey: Option<string>, enableToolScreening: bool := true,
                         enableInteractionScreening: bool := true, failOnViolation: bool := true)
      returns (r: Outcome<SecurityManager>)
      ensures r.Raised? <==> given.None? && (envKey.None? || envKey.value == "")
      ensures r.Raised? ==> r.exc == ValueError(MissingKeyMessage)
      ensures r.Returned? ==> fresh(r.value) && r.value.stats == ZeroStats
      ensures r.Returned? ==> r.value.settings == Settings(enableToolScreening, enableInteractionScreening, failOnViolation)
      ensures r.Returned? && given.Some? ==> r.value.lakera == given.value
      ensures r.Returned? && given.None? ==> r.value.lakera == NewLakeraClient(None, envKey).value
    {
      var client := if given.Some? then Returned(given.value) else NewLakeraClient(None, envKey);
      if client.Raised? {
        return Raised(client.exc);
      }
      var m := new SecurityManager(client.value, enableToolScreening, enableInteractionScreening, failOnViolation);
      return Returned(m);
    }

    /** `screen_tool_registration(tool_name, tool_description, tool_parameters)`. */
    method ScreenToolRegistration(name: Json, description: Json, parameters: Json, guard: Guard) returns (r: Outcome<bool>)
      modifies this
      ensures (r, stats) == ToolStep(old(stats), settings, name, ToolVerdict(lakera, name, description, parameters, guard))
    {
      r, stats := ScreenTool(lakera, settings, stats, name, description, parameters, guard);
    }

    /** `screen_server_interaction(method, params, response_data)`; an absent argument
        is `JNull`. */
    method ScreenServerInteraction(methodName: string, params: Json, responseData: Json, guard: Guard) returns (r: Outcome<bool>)
      modifies this
      ensures var verdicts := InteractionVerdicts(lakera, methodName, params, responseData, guard);
              (r, stats) == InteractionStep(old(stats), settings, verdicts.0, verdicts.1)
    {
      if !settings.interactionScreening {
        return Returned(true);
      }
      ghost var verdicts := InteractionVerdicts(lakera, methodName, params, responseData, guard);
      var request := Lakera.ScreenServerInteraction(lakera, methodName, params, guard);
      if request.Raised? {
        InteractionStepOutcome(stats, settings, verdicts.0, verdicts.1);
        stats := stats.(screeningErrors := stats.screeningErrors + 1);
        return Returned(true);
      }
      var response: Option<Outcome<GuardResponse>> := None;
      if Truthy(responseData) {
        var verdict := ScreenContent(lakera, ResponseContent(methodName, responseData), guard);
        assert verdicts.1 == Some(verdict);
        if verdict.Raised? {
          InteractionStepOutcome(stats, settings, verdicts.0, verdicts.1);
          stats := stats.(screeningErrors := stats.screeningErrors + 1);
          return Returned(true);
        }
        response := Some(verdict);
      }
      assert verdicts == (request, response);
      r, stats := DecideInteraction(stats, settings, request.value, response);
    }

    /** `screen_tools_list(tools)`. */
    method ScreenToolsList(tools: Json, guard: Guard) returns (r: Outcome<Json>)
      modifies this
      ensures (r, stats) == ToolsListOutcome(lakera, settings, old(stats), tools, guard)
    {
      if !settings.toolScreening {
        return Returned(tools);
      }
      match tools {
        case JArr(items) =>
          var kept;
          kept, stats := ScreenTools(lakera, settings, stats, items, guard);
          return if kept.Raised? then Raised(kept.exc) else Returned(JArr(kept.value));
        case JStr(s) =>
          return if s == "" then Returned(JArr([])) else Raised(AttributeError);
        case JObj(fields) =>
          return if fields == [] then Returned(JArr([])) else Raised(AttributeError);
        case _ =>
          return Raised(TypeError);
      }
    }

    /** `get_screening_stats()`: a copy of the four counters. */
    function GetScreeningStats(): Dict<int>
      reads this
    {
      StatsDict(stats)
    }

    /** `reset_stats()`. */
    method ResetStats()
      modifies this
      ensures stats == ZeroStats
      ensures GetScreeningStats() == StatsDict(ZeroStats)
    {
      stats := ZeroStats;
    }
  }
}
