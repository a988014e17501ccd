/**
 * The tool registry (backend/tools/__init__.py): the descriptors offered to the model,
 * the name-to-function table the orchestrator executes through, and the display
 * names of arguments.
 */
module Tools {
  import opened Wrappers
  import opened Json
  import Weather
  import Dealership
  import Appointment

  /** One parameter of a descriptor's `properties`. */
  datatype Param = Param(name: string, kind: string, description: string)

  /** One entry of `TOOLS`: a function tool, its parameters and the ones it requires. */
  datatype Descriptor = Descriptor(
    kind: string, name: string, description: string, properties: seq<Param>, required: seq<string>)

  const Descriptors: seq<Descriptor> := [
    Descriptor("function", "get_weather", "Get the current weather information for a city",
      [Param("city", "string", "The city to get weather information for")],
      ["city"]),
    Descriptor("function", "get_dealership_address", "Get the address of a SuperCar dealership",
      [Param("dealership_id", "string", "The ID of the dealership")],
      ["dealership_id"]),
    Descriptor("function", "check_appointment_availability", "Check available appointment slots for a test drive",
      [Param("dealership_id", "string", "The ID of the dealership"),
       Param("date", "string", "The date to check in YYYY-MM-DD format")],
      ["dealership_id", "date"]),
    Descriptor("function", "schedule_appointment", "Schedule a test drive appointment",
      [Param("user_id", "string", "The ID of the user scheduling the appointment"),
       Param("dealership_id", "string", "The ID of the dealership"),
       Param("date", "string", "The date of the appointment in YYYY-MM-DD format"),
       Param("time", "string", "The time of the appointment in HH:MM format"),
       Param("car_model", "string", "The car model for the test drive")],
      ["user_id", "dealership_id", "date", "time", "car_model"])
  ]

  /**
   * `TOOL_FUNCTIONS`, each function given by its name and its parameter list; what
   * each one computes is in Run.
   */
  const ToolFunctions: map<string, seq<string>> := map[
    "get_weather" := ["city"],
    "get_dealership_address" := ["dealership_id"],
    "check_appointment_availability" := ["dealership_id", "date"],
    "schedule_appointment" := ["user_id", "dealership_id", "date", "time", "car_model"]
  ]

  /** `ARGUMENTS_NAMES`: labels for argument names. */
  const ArgumentNames: map<string, string> := map[
    "dealership_id" := "dealership ID",
    "date" := "date (YYYY-MM-DD)",
    "user_id" := "user ID",
    "time" := "time (HH:MM)",
    "car_model" := "car model"
  ]

  /** `ARGUMENTS_NAMES.get(key, key)`. */
  function DisplayName(key: string): (shown: string)
    ensures key in ArgumentNames ==> shown == ArgumentNames[key]
    ensures key !in ArgumentNames ==> shown == key
  {
    if key in ArgumentNames then ArgumentNames[key] else key
  }

  function ParamNames(ps: seq<Param>): (names: seq<string>)
    ensures |names| == |ps|
    ensures forall i :: 0 <= i < |ps| ==> names[i] == ps[i].name
  {
    seq(|ps|, i requires 0 <= i < |ps| => ps[i].name)
  }

  /** The function names the descriptors offer, in order. */
  function OfferedNames(): (names: seq<string>)
    ensures |names| == |Descriptors|
    ensures forall i :: 0 <= i < |Descriptors| ==> names[i] == Descriptors[i].name
  {
    seq(|Descriptors|, i requires 0 <= i < |Descriptors| => Descriptors[i].name)
  }

  /** There are four descriptors and no two share a function name. */
  lemma DescriptorNamesDistinct()
    ensures |Descriptors| == 4
    ensures forall i, j :: 0 <= i < j < |Descriptors| ==> Descriptors[i].name != Descriptors[j].name
  {
  }

  /**
   * Descriptor i offers a function of the table, with the table function's parameters
   * in the same order, every one of them required and typed as a string.
   */
  lemma DescriptorMatchesFunction(i: nat)
    requires i < |Descriptors|
    ensures var d := Descriptors[i];
            && d.kind == "function"
            && d.name in ToolFunctions
            && ParamNames(d.properties) == ToolFunctions[d.name]
            && d.required == ParamNames(d.properties)
            && (forall j :: 0 <= j < |d.properties| ==> d.properties[j].kind == "string")
  {
    var d := Descriptors[i];
    if i == 0 {
      assert ParamNames(d.properties) == ["city"];
    } else if i == 1 {
      assert ParamNames(d.properties) == ["dealership_id"];
    } else if i == 2 {
      assert ParamNames(d.properties) == ["dealership_id", "date"];
    } else {
      assert ParamNames(d.properties) == ["user_id", "dealership_id", "date", "time", "car_model"];
    }
  }

  /** The descriptors offer exactly the functions the table can execute. */
  lemma OfferedIsExecutable()
    ensures (set n | n in OfferedNames()) == ToolFunctions.Keys
  {
    assert OfferedNames() == ["get_weather", "get_dealership_address", "check_appointment_availability", "schedule_appointment"];
  }

  /** Every labelled key is a parameter of scheduling, the tool that takes them all; `city` has no label. */
  lemma ArgumentNamesAreParameters()
    ensures forall k :: k in ArgumentNames ==> k in ParamNames(Descriptors[3].properties)
    ensures forall k :: k in ParamNames(Descriptors[3].properties) ==> k in ArgumentNames
    ensures DisplayName("city") == "city" && DisplayName("date") == "date (YYYY-MM-DD)"
  {
    assert ParamNames(Descriptors[3].properties) == ["user_id", "dealership_id", "date", "time", "car_model"];
  }

  /** The library oracles the tools need: the seeded sampler and the calendar. */
  datatype Oracles = Oracles(draw: nat -> Appointment.Sample, calendar: Appointment.Calendar)

  /** `str(KeyError(name))`: the missing key in quotes. */
  function KeyErrorMessage(name: string): string
  {
    "'" + name + "'"
  }

  /** The text of the TypeError raised when arguments and parameters do not match. */
  function ArgumentErrorMessage(name: string): string
  {
    name + "() got arguments that do not match its parameters"
  }

  /** The parameter names of a table function, as a set. */
  function Params(name: string): set<string>
    requires name in ToolFunctions
  {
    set p | p in ToolFunctions[name]
  }

  /** The result of a table function, its arguments bound by keyword. */
  function Run(name: string, args: map<string, string>, oracles: Oracles): JValue
    requires name in ToolFunctions && args.Keys == Params(name)
  {
    if name == "get_weather" then
      assert ToolFunctions[name] == ["city"] && ToolFunctions[name][0] in Params(name);
      JStr(Weather.GetWeather(args["city"]))
    else if name == "get_dealership_address" then
      assert ToolFunctions[name] == ["dealership_id"] && ToolFunctions[name][0] in Params(name);
      JStr(Dealership.GetDealershipAddress(args["dealership_id"]))
    else if name == "check_appointment_availability" then
      var ps := ToolFunctions[name];
      assert ps == ["dealership_id", "date"] && ps[0] in Params(name) && ps[1] in Params(name);
      SlotsJson(Appointment.Availability(args["dealership_id"], args["date"], oracles.draw))
    else
      var ps := ToolFunctions[name];
      assert ps == ["user_id", "dealership_id", "date", "time", "car_model"];
      assert ps[0] in Params(name) && ps[1] in Params(name) && ps[2] in Params(name);
      assert ps[3] in Params(name) && ps[4] in Params(name);
      Appointment.BookingJson(Appointment.ScheduleAppointment(
        args["user_id"], args["dealership_id"], args["date"], args["time"], args["car_model"],
        oracles.calendar))
  }

  function SlotsJson(slots: seq<string>): JValue
  {
    JArr(seq(|slots|, i requires 0 <= i < |slots| => JStr(slots[i])))
  }

  /**
   * `TOOL_FUNCTIONS[name](**arguments)`. An unknown name raises KeyError; arguments
   * whose names are not exactly the function's parameters raise TypeError; otherwise
   * the tools never fail.
   */
  function Execute(name: string, args: map<string, string>, oracles: Oracles): (r: Result<JValue, string>)
    ensures name !in ToolFunctions ==> r == Failure(KeyErrorMessage(name))
    ensures name in ToolFunctions ==> (r.Success? <==> args.Keys == Params(name))
  {
    if name !in ToolFunctions then Failure(KeyErrorMessage(name))
    else if args.Keys != Params(name) then Failure(ArgumentErrorMessage(name))
    else Success(Run(name, args, oracles))
  }

  /** Executes a tool call, running the availability check in place. */
  method Invoke(name: string, args: map<string, string>, oracles: Oracles) returns (r: Result<JValue, string>)
    ensures r == Execute(name, args, oracles)
  {
    if name !in ToolFunctions {
      return Failure(KeyErrorMessage(name));
    }
    if args.Keys != Params(name) {
      return Failure(ArgumentErrorMessage(name));
    }
    if name == "check_appointment_availability" {
      assert "dealership_id" in ToolFunctions[name] && "date" in ToolFunctions[name];
      var slots := Appointment.CheckAvailability(args["dealership_id"], args["date"], oracles.draw);
      return Success(SlotsJson(slots));
    }
    return Success(Run(name, args, oracles));
  }

  /** A weather call with its one argument answers with the weather sentence for that city. */
  lemma WeatherCallAnswers(city: string, oracles: Oracles)
    ensures Execute("get_weather", map["city" := city], oracles) == Success(JStr(Weather.GetWeather(city)))
  {
    assert map["city" := city].Keys == Params("get_weather");
  }

  /** An address call with its one argument answers with that dealership's address line. */
  lemma AddressCallAnswers(dealershipId: string, oracles: Oracles)
    ensures Execute("get_dealership_address", map["dealership_id" := dealershipId], oracles)
            == Success(JStr(Dealership.GetDealershipAddress(dealershipId)))
  {
    assert map["dealership_id" := dealershipId].Keys == Params("get_dealership_address");
  }

  /** An availability call answers with the slots drawn for that dealership and date, as strings. */
  lemma AvailabilityCallAnswers(dealershipId: string, date: string, oracles: Oracles)
    ensures Execute("check_appointment_availability", map["dealership_id" := dealershipId, "date" := date], oracles)
            == Success(SlotsJson(Appointment.Availability(dealershipId, date, oracles.draw)))
  {
    assert map["dealership_id" := dealershipId, "date" := date].Keys == Params("check_appointment_availability");
  }

  /** A booking call with its five arguments answers with the booking's dictionary. */
  lemma BookingCallAnswers(userId: string, dealershipId: string, date: string, time: string, carModel: string,
                           oracles: Oracles)
    ensures var args := map["user_id" := userId, "dealership_id" := dealershipId, "date" := date,
                            "time" := time, "car_model" := carModel];
            Execute("schedule_appointment", args, oracles)
            == Success(Appointment.BookingJson(Appointment.ScheduleAppointment(
                 userId, dealershipId, date, time, carModel, oracles.calendar)))
  {
    var args := map["user_id" := userId, "dealership_id" := dealershipId, "date" := date,
                    "time" := time, "car_model" := carModel];
    var ps := ToolFunctions["schedule_appointment"];
    assert ps == ["user_id", "dealership_id", "date", "time", "car_model"];
    assert Params("schedule_appointment") == {ps[0], ps[1], ps[2], ps[3], ps[4]};
    assert args.Keys == Params("schedule_appointment");
  }
}
