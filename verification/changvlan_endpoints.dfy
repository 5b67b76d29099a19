/**
 * The handlers of changvlan.py: its own `expand_interface` and a second
 * `/change-vlan` handler that expands the interface and builds the command
 * list before it looks the host up. The answer is the same as main.py's;
 * the lines built for an unknown host are never pushed.
 */
module ChangVlanEndpoints {
  import opened Options
  import opened Inventory
  import opened VlanChange

  /** A placeholder that passes interface names through unchanged. */
  function ExpandInterface(interface: string): (r: string)
    ensures r == interface
  {
    interface
  }

  lemma ExpandInterfaceIdempotent(interface: string)
    ensures ExpandInterface(ExpandInterface(interface)) == ExpandInterface(interface)
  {
  }

  /** `/change-vlan`: validate, expand, build the lines, then look the host up, push, classify. */
  method ChangeVlan(inventory: seq<Host>, push: seq<string> -> PushResult, host: string,
                    interface: string, newVlan: string, description: Option<string>)
    returns (reply: Reply)
    ensures reply == Respond(inventory, push, host, interface, newVlan, description, ExpandInterface(interface))
  {
    if MissingField(host, interface, newVlan) {
      return Reply(BadRequest(MissingDataDetail), None);
    }
    var intfFull := ExpandInterface(interface);
    var cmds := ["interface " + intfFull, "switchport access vlan " + newVlan];
    if Truthy(description) {
      cmds := cmds + ["description " + description.value];
    }
    cmds := cmds + ["exit"];
    assert cmds == ConfigCommands(intfFull, newVlan, description);
    var target := Filter(inventory, Name, host);
    if target == [] {
      return Reply(NotFound(NotFoundDetail(host)), None);
    }
    var task := push(cmds);
    if task.PushFailed? {
      return Reply(ServerError(FailureDetail(task.result)), Some(cmds));
    }
    return Reply(Success(SuccessMessage(intfFull, newVlan, host), host, intfFull, newVlan, description), Some(cmds));
  }
}
