/**
 * The agent configuration main assembles: two function tools, registered
 * under fixed names and in a fixed order, on one root agent. The model
 * client, the launcher and the runtime's dispatch are outside this model;
 * the configuration is kept as data so that its names can be stated.
 */
module Agent {
  import opened Wrappers
  import opened Handlers

  /** Which handler a tool wraps. */
  datatype HandlerKind = WeatherHandler | CurrentTimeHandler

  /** A function tool: its advertised name and description, and its handler. */
  datatype Tool = Tool(name: string, description: string, handler: HandlerKind)

  datatype AgentConfig = AgentConfig(name: string, description: string, instruction: string, tools: seq<Tool>)

  const WeatherTool := Tool("get_weather", "Retrieves the current weather report for a specified city.", WeatherHandler)
  const TimeTool := Tool("get_current_time", "Returns the current time in a specified city.", CurrentTimeHandler)

  const RootAgent := AgentConfig(
    "weather_time_agent",
    "Agent to answer questions about the time and weather in a city.",
    "You are a helpful agent who can answer user questions about the time and weather in a city.",
    [WeatherTool, TimeTool])

  /** The names of `tools`, in registration order. */
  function ToolNames(tools: seq<Tool>): (names: seq<string>)
    ensures |names| == |tools|
    ensures forall i :: 0 <= i < |tools| ==> names[i] == tools[i].name
  {
    if tools == [] then [] else [tools[0].name] + ToolNames(tools[1..])
  }

  /** The first tool registered under `name`, if any. */
  function FindTool(tools: seq<Tool>, name: string): (r: Option<Tool>)
    ensures r.Some? ==> r.value in tools && r.value.name == name
    ensures r.None? <==> name !in ToolNames(tools)
    ensures r.Some? ==> forall i :: 0 <= i < |tools| && tools[i].name == name ==>
      (forall j :: 0 <= j < i ==> tools[j].name != name) ==> tools[i] == r.value
  {
    if tools == [] then None
    else if tools[0].name == name then Some(tools[0])
    else FindTool(tools[1..], name)
  }

  /** Runs the handler a tool wraps on the tool's argument and the foreign inputs. */
  function Invoke(h: HandlerKind, args: CityArgs, tz: TzLoad, now: string): (out: HandlerReturn)
    ensures out.err == None
    ensures out.result.Success? ==> IsKnownCity(args.city)
  {
    match h
    case WeatherHandler => GetWeather(args)
    case CurrentTimeHandler => GetCurrentTime(args, tz, now)
  }

  /** The root agent's name and its tools' names, in order. */
  lemma RootAgentTools()
    ensures RootAgent.name == "weather_time_agent"
    ensures ToolNames(RootAgent.tools) == ["get_weather", "get_current_time"]
  {
  }

  /**
   * Each registered name reaches its own handler and no other name reaches
   * any tool, so the runtime's lookup by name is unambiguous.
   */
  lemma RootAgentLookup(name: string)
    ensures FindTool(RootAgent.tools, name) ==
      if name == "get_weather" then Some(WeatherTool)
      else if name == "get_current_time" then Some(TimeTool)
      else None
  {
    RootAgentTools();
  }

  /**
   * The registration binds each name to its own handler: the tool found
   * under "get_weather" runs the weather handler, and the tool found under
   * "get_current_time" runs the time handler.
   */
  lemma RegisteredHandlers(args: CityArgs, tz: TzLoad, now: string)
    ensures FindTool(RootAgent.tools, "get_weather").Some?
    ensures FindTool(RootAgent.tools, "get_current_time").Some?
    ensures Invoke(FindTool(RootAgent.tools, "get_weather").value.handler, args, tz, now) == GetWeather(args)
    ensures Invoke(FindTool(RootAgent.tools, "get_current_time").value.handler, args, tz, now)
      == GetCurrentTime(args, tz, now)
  {
    RootAgentLookup("get_weather");
    RootAgentLookup("get_current_time");
  }
}
