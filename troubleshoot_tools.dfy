/** The troubleshooting agent's tools
    (agents/troubleshoot/_tools/troubleshoot_tools.py): a mock status report,
    a mock remote test, a mock firmware reset and a repair booking, and the
    map from tool names to them. */
module TroubleshootTools {
  import opened Wrappers
  import opened Json
  import opened PyText
  import opened BaseAgent

  /** The tool names the schema declares, in its order. */
  const TroubleshootToolNames: seq<string> := ["get_robot_status", "run_remote_diag", "reset_firmware", "schedule_repair"]

  /** The parameters each schema entry declares, all of them required. */
  function TroubleshootParams(name: string): set<string> {
    if name == "get_robot_status" || name == "run_remote_diag" || name == "reset_firmware" then {"serial_number"}
    else if name == "schedule_repair" then {"serial_number", "part_needed", "address"}
    else {}
  }

  function Component(name: string, status: string): Json {
    JObj(map["component" := JStr(name), "status" := JStr(status)])
  }

  /** The fixed report: low battery, firmware v2.1.0, the left wheel motor
      stalled, and the last error E102. */
  const StatusReport: Json := JObj(map[
    "battery_level" := JInt(15),
    "firmware_version" := JStr("v2.1.0"),
    "last_error_code" := JStr("E102"),
    "component_health" := JArr([
      Component("Lidar Sensor", "OK"),
      Component("Left Wheel Motor", "STALLED"),
      Component("Suction Fan", "OK"),
      Component("Main Brush", "OK")]),
    "error_history" := JArr([JStr("E102: Wheel Motor Obstruction"), JStr("E004: Battery Low")])])

  /** `get_robot_status`: one diagnostic record carrying the serial number
      exactly as given (it is not converted to text). */
  function GetRobotStatus(serial: Json): (r: Json)
    ensures r.JArr? && |r.items| == 1 && r.items[0].JObj?
    ensures "serial_number" in r.items[0].fields && r.items[0].fields["serial_number"] == serial
  {
    JArr([JObj(map[
      "serial_number" := serial,
      "model" := JStr("SmartClean Pro-X"),
      "owner" := JStr("John Doe"),
      "status_report" := StatusReport])])
  }

  /** The one component the report does not call OK. */
  const StalledComponent := "Left Wheel Motor"

  /** The report is the same whatever the serial number, and in it exactly
      one component, the left wheel motor, is not OK, while the last error
      code is the code of the newest history entry. */
  lemma RobotStatusReport(a: Json, b: Json)
    ensures GetRobotStatus(a).items[0].fields["status_report"] == GetRobotStatus(b).items[0].fields["status_report"] == StatusReport
    ensures var health := StatusReport.fields["component_health"].items;
      forall k :: 0 <= k < |health| ==>
        (health[k].fields["status"] != JStr("OK") <==> health[k].fields["component"] == JStr(StalledComponent))
    ensures StatusReport.fields["error_history"].items[0].s[..4] == StatusReport.fields["last_error_code"].s
  {
    var health := StatusReport.fields["component_health"].items;
    assert |health| == 4;
    assert "E102: Wheel Motor Obstruction"[..4] == "E102";
  }

  /** `run_remote_diag`: the test result, naming the robot. */
  function RunRemoteDiag(py: Py, serial: Json): (r: string)
    ensures Contains(r, Str(py, serial)) && Contains(r, StalledComponent)
  {
    var parts := ["Remote diagnostics for ", Str(py, serial),
      " completed. Result: Detected high resistance in ", StalledComponent, ". Suction and Lidar tests passed."];
    JoinContainsPart(parts, "", 1);
    JoinContainsPart(parts, "", 3);
    Join(parts, "")
  }

  /** The firmware the reset installs. */
  const ResetFirmwareVersion := "v2.1.1"

  /** `reset_firmware`: the reset notice, naming the robot and the new
      firmware. */
  function ResetFirmware(py: Py, serial: Json): (r: string)
    ensures Contains(r, Str(py, serial)) && Contains(r, ResetFirmwareVersion)
  {
    var parts := ["Factory reset initiated for ", Str(py, serial),
      ". Custom maps and schedules have been cleared. Robot is now on firmware ", ResetFirmwareVersion, "."];
    JoinContainsPart(parts, "", 1);
    JoinContainsPart(parts, "", 3);
    Join(parts, "")
  }

  const MissingRepairDetails := "Error: Missing part identification or service address."
  const RepairTicketOpening := "Repair ticket created for "

  /** `schedule_repair`: refused when the part or the address is falsy;
      otherwise a ticket naming the robot, the address and the part. */
  function ScheduleRepair(py: Py, serial: Json, part: Json, address: Json): (r: string)
    ensures !Truthy(part) || !Truthy(address) ==> r == MissingRepairDetails
    ensures Truthy(part) && Truthy(address) ==> StartsWith(r, RepairTicketOpening)
    ensures Truthy(part) && Truthy(address) ==>
      Contains(r, Str(py, serial)) && Contains(r, Str(py, address)) && Contains(r, Str(py, part))
  {
    if !Truthy(part) || !Truthy(address) then MissingRepairDetails
    else
      var parts := [RepairTicketOpening, Str(py, serial), ". A technician will arrive at ",
        Str(py, address), " with a replacement ", Str(py, part), " within 48 hours."];
      JoinContainsPart(parts, "", 1);
      JoinContainsPart(parts, "", 3);
      JoinContainsPart(parts, "", 5);
      var r := Join(parts, "");
      assert r == parts[0] + "" + Join(parts[1..], "");
      assert r[..|parts[0]|] == parts[0];
      r
  }

  /** A tool called by name with keyword arguments, as `func(**params)`. */
  function CallTroubleshootTool(py: Py, name: string, args: map<string, Json>): (r: Result<Json, Fault>)
    ensures !Binds(args, TroubleshootParams(name)) ==> r == Failure(BadKeywords)
    ensures name in TroubleshootToolNames && Binds(args, TroubleshootParams(name)) ==> r.Success?
  {
    if !Binds(args, TroubleshootParams(name)) then Failure(BadKeywords)
    else if name == "get_robot_status" then Success(GetRobotStatus(args["serial_number"]))
    else if name == "run_remote_diag" then Success(JStr(RunRemoteDiag(py, args["serial_number"])))
    else if name == "reset_firmware" then Success(JStr(ResetFirmware(py, args["serial_number"])))
    else if name == "schedule_repair" then
      Success(JStr(ScheduleRepair(py, args["serial_number"], args["part_needed"], args["address"])))
    else Failure(BadKeywords)
  }

  /** `TROUBLESHOOT_TOOL_MAP`. */
  function TroubleshootToolMap(py: Py): (m: map<string, ToolFn>)
    ensures m.Keys == set n | n in TroubleshootToolNames
    ensures forall n :: n in m ==> forall args :: m[n](args) == CallTroubleshootTool(py, n, args)
  {
    map["get_robot_status" := (args: map<string, Json>) => CallTroubleshootTool(py, "get_robot_status", args),
        "run_remote_diag" := (args: map<string, Json>) => CallTroubleshootTool(py, "run_remote_diag", args),
        "reset_firmware" := (args: map<string, Json>) => CallTroubleshootTool(py, "reset_firmware", args),
        "schedule_repair" := (args: map<string, Json>) => CallTroubleshootTool(py, "schedule_repair", args)]
  }

  /** Through the worker's tool executor, a troubleshooting call never
      reports an exception of the tool itself: once its arguments decode
      to the declared keywords, it reports the tool's output. */
  lemma TroubleshootCallsThroughExecutor(py: Py, parse: string -> Option<Json>, call: ToolCall, fields: map<string, Json>)
    requires call.name in TroubleshootToolNames && parse(call.arguments) == Some(JObj(fields))
    requires Binds(fields, TroubleshootParams(call.name))
    ensures ToolResult(py, TroubleshootToolMap(py), parse, call)
         == Str(py, CallTroubleshootTool(py, call.name, fields).value)
  {
    var m := TroubleshootToolMap(py);
    assert call.name in m;
  }
}
