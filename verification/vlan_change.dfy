/**
 * What a `/change-vlan` request does, stated once for both copies of the
 * handler (main.py and changvlan.py): validate the three required form
 * fields, find the host by inventory name, build the configuration lines,
 * push them to the device and classify the outcome as an HTTP answer.
 */
module VlanChange {
  import opened Options
  import opened Text
  import opened Inventory

  /** What the device transport reports for the host a request targets. */
  datatype PushResult = Pushed | PushFailed(result: string)

  /** The handler's answer: an HTTPException of status 400, 404 or 500, or the success record. */
  datatype Outcome =
    | BadRequest(detail: string)
    | NotFound(detail: string)
    | ServerError(detail: string)
    | Success(message: string, host: string, interface: string, vlan: string, description: Option<string>)

  /** The answer, and the configuration lines handed to the device (None when nothing was pushed). */
  datatype Reply = Reply(outcome: Outcome, pushed: Option<seq<string>>)

  function Status(o: Outcome): nat {
    match o
    case BadRequest(_) => 400
    case NotFound(_) => 404
    case ServerError(_) => 500
    case Success(_, _, _, _, _) => 200
  }

  const MissingDataDetail := "Missing required VLAN change data."

  function NotFoundDetail(host: string): string {
    "Host '" + host + "' not found in inventory."
  }

  function FailureDetail(result: string): string {
    "Failed to change VLAN: " + result
  }

  const SuccessPrefix := "Successfully changed "

  function SuccessMessage(intf: string, vlan: string, host: string): string {
    SuccessPrefix + intf + " to VLAN " + vlan + " on " + host
  }

  /** `not all([host, interface, new_vlan])`: some required field is the empty string. */
  predicate MissingField(host: string, interface: string, newVlan: string) {
    host == "" || interface == "" || newVlan == ""
  }

  /** Python truthiness of the optional description: present and non-empty. */
  predicate Truthy(description: Option<string>) {
    description.Some? && description.value != ""
  }

  /** The configuration lines for the device, in the order they are sent. */
  function ConfigCommands(intf: string, vlan: string, description: Option<string>): seq<string> {
    ["interface " + intf, "switchport access vlan " + vlan]
    + (if Truthy(description) then ["description " + description.value] else [])
    + ["exit"]
  }

  /**
   * The answer to a request whose interface expands to `intf`: validation
   * first, then the inventory lookup by name, then the push whose result
   * decides between 500 and success.
   */
  function Respond(inventory: seq<Host>, push: seq<string> -> PushResult, host: string,
                   interface: string, newVlan: string, description: Option<string>,
                   intf: string): Reply
  {
    if MissingField(host, interface, newVlan) then Reply(BadRequest(MissingDataDetail), None)
    else if Filter(inventory, Name, host) == [] then Reply(NotFound(NotFoundDetail(host)), None)
    else
      var cmds := ConfigCommands(intf, newVlan, description);
      match push(cmds)
      case PushFailed(result) => Reply(ServerError(FailureDetail(result)), Some(cmds))
      case Pushed => Reply(Success(SuccessMessage(intf, newVlan, host), host, intf, newVlan, description), Some(cmds))
  }

  /**
   * The command list enters the interface, sets the access VLAN, adds a
   * description line exactly when the description is truthy, and ends
   * with its only `exit`.
   */
  lemma CommandsShape(intf: string, vlan: string, description: Option<string>)
    ensures var cmds := ConfigCommands(intf, vlan, description);
      && |cmds| == (if Truthy(description) then 4 else 3)
      && cmds[0] == "interface " + intf
      && cmds[1] == "switchport access vlan " + vlan
      && (Truthy(description) ==> cmds[2] == "description " + description.value)
      && cmds[|cmds| - 1] == "exit"
      && forall i :: 0 <= i < |cmds| - 1 ==> cmds[i] != "exit"
  {
    var cmds := ConfigCommands(intf, vlan, description);
    forall i | 0 <= i < |cmds| - 1
      ensures cmds[i] != "exit"
    {
      assert cmds[i][0] != 'e';
    }
  }

  /** An empty required field is a 400, whatever the inventory and the device would do. */
  lemma MissingFieldIsBadRequest(inventory: seq<Host>, push: seq<string> -> PushResult, host: string,
                                 interface: string, newVlan: string, description: Option<string>,
                                 intf: string)
    requires MissingField(host, interface, newVlan)
    ensures var r := Respond(inventory, push, host, interface, newVlan, description, intf);
      r.outcome == BadRequest(MissingDataDetail) && Status(r.outcome) == 400 && r.pushed == None
  {
  }

  /** A valid request for a host the inventory does not name is a 404, and nothing is pushed. */
  lemma UnknownHostIsNotFound(inventory: seq<Host>, push: seq<string> -> PushResult, host: string,
                              interface: string, newVlan: string, description: Option<string>,
                              intf: string)
    requires !MissingField(host, interface, newVlan)
    requires forall i :: 0 <= i < |inventory| ==> inventory[i].name != host
    ensures var r := Respond(inventory, push, host, interface, newVlan, description, intf);
      r.outcome == NotFound(NotFoundDetail(host)) && Status(r.outcome) == 404 && r.pushed == None
  {
    FilterEmpty(inventory, Name, host);
  }

  /**
   * A valid request for a known host pushes exactly the command list; a
   * failed push is a 500 carrying the device's text, a successful one
   * echoes the request with the expanded interface.
   */
  lemma KnownHostIsPushed(inventory: seq<Host>, push: seq<string> -> PushResult, host: string,
                          interface: string, newVlan: string, description: Option<string>,
                          intf: string, k: nat)
    requires !MissingField(host, interface, newVlan)
    requires k < |inventory| && inventory[k].name == host
    ensures var r := Respond(inventory, push, host, interface, newVlan, description, intf);
      var cmds := ConfigCommands(intf, newVlan, description);
      && r.pushed == Some(cmds)
      && (push(cmds).PushFailed? ==>
            r.outcome == ServerError(FailureDetail(push(cmds).result)) && Status(r.outcome) == 500)
      && (push(cmds).Pushed? ==>
            && r.outcome.Success? && Status(r.outcome) == 200
            && r.outcome.host == host && r.outcome.interface == intf
            && r.outcome.vlan == newVlan && r.outcome.description == description
            && HasPrefix(r.outcome.message, SuccessPrefix)
            && r.outcome.message == SuccessMessage(intf, newVlan, host))
  {
    FilterEmpty(inventory, Name, host);
    var m := SuccessMessage(intf, newVlan, host);
    assert m[..|SuccessPrefix|] == SuccessPrefix;
  }
}
