# fastapi-net: VLAN change and running-config report, modelled in Dafny

fastapi-net is a small FastAPI service that drives network switches through
Nornir. This project models the decision-making in its two core files and
leaves out the HTTP and device plumbing.

- **`/change-vlan`**. There are two copies of this handler, one in `main.py`
  and one in `changvlan.py`. The handler rejects a request with an empty
  `host`, `interface` or `new_vlan` (400). It then looks the host up by
  inventory name (404 if absent). It builds the configuration lines:
  `interface X`, `switchport access vlan V`, an optional `description D`, and
  `exit`. It pushes them with Netmiko and answers 500 with the device's text
  or a success record. `changvlan.py` builds the lines before the lookup,
  while `main.py` builds them after it. Both give the same answer, and lines
  built for an unknown host are never pushed.
- **`fetch_config`** (`main.py`). It selects the hosts whose `hostname`
  attribute matches, and fails with not-found when there are none. It then
  runs the NAPALM "config" getter on every selected host and writes a text
  report. Each host gets a banner of 50 `=` around `Configuration for {host}`.
  After the banner comes either one failure line, or a line-count header, a
  rule of 30 `-` and the running configuration line by line. A failed host
  does not stop the hosts after it. `/get-config` turns not-found into 404
  and any other exception into 500.

Modules, one per concept:

- `Options` (`options.dfy`): the optional value used for the description
  and for parse results.
- `Text` (`text.dfy`): `str(n)` and its inverse, and `splitlines` on `'\n'`
  with its inverse.
- `Inventory` (`inventory.dfy`): hosts with a name and a `hostname`, and
  Nornir's attribute filter.
- `VlanChange` (`vlan_change.dfy`): the outcome types and `Respond`, the
  one specification both handlers are proved against.
- `ConfigReport` (`config_report.dfy`): the report as a list of lines, a
  parser that reads it back, and the round-trip proof.
- `MainEndpoints` (`main_endpoints.dfy`) and `ChangVlanEndpoints`
  (`changvlan_endpoints.dfy`): the handlers of each source file, as methods.

The external parts are parameters:

- The inventory is a `seq<Host>`, in inventory order.
- `netmiko_send_config` is `push: seq<string> -> PushResult`.
- `napalm_get` is `getConfig: string -> HostResult`.
- A `Reply` records the lines handed to the device (`pushed`), so "nothing
  was pushed" can be stated.

## Model

| member | source | states |
|---|---|---|
| `MainEndpoints.ExpandInterface` | main.py:13-15 | returns the interface name unchanged |
| `MainEndpoints.ExpandInterfaceIdempotent` | main.py:13-15 | expanding twice is the same as expanding once |
| `MainEndpoints.BuildCommands` | main.py:80-87 | the lines built by appending are exactly `ConfigCommands` (shape in `CommandsShape`) |
| `MainEndpoints.ChangeVlan` | main.py:63-101 | the answer and the pushed lines equal `Respond` for the expanded interface (400, 404, 500 and success in `VlanChange`'s lemmas) |
| `VlanChange.CommandsShape` | main.py:81-87 | `interface X`, then `switchport access vlan V`, then `description D` exactly when the description is truthy, then `exit`; 4 lines with a truthy description, else 3; `exit` last and only there |
| `VlanChange.MissingFieldIsBadRequest` | main.py:73-74 | an empty host, interface or VLAN gives 400 with the fixed detail, whatever the inventory and device; nothing is pushed |
| `VlanChange.UnknownHostIsNotFound` | main.py:76-78 | a valid request for a host no inventory entry names gives 404 "Host '{host}' not found in inventory."; nothing is pushed |
| `VlanChange.KnownHostIsPushed` | main.py:80-101 | for a known host exactly the command list is pushed; a failed push gives 500 "Failed to change VLAN: {result}"; a successful one echoes host, VLAN and description, sets interface to the expanded name and the message to "Successfully changed {intf} to VLAN {vlan} on {host}" |
| `ChangVlanEndpoints.ExpandInterface` | changvlan.py:12-14 | returns the interface name unchanged |
| `ChangVlanEndpoints.ExpandInterfaceIdempotent` | changvlan.py:12-14 | expanding twice is the same as expanding once |
| `ChangVlanEndpoints.ChangeVlan` | changvlan.py:17-58 | with the lines built before the lookup, the answer and the pushed lines still equal `Respond`: 400 first, and for an unknown host a 404 with the built lines never pushed |
| `Inventory.Filter` | main.py:36 | keeps exactly the inventory hosts whose attribute equals the value (`hostname` here, `name` at main.py:76), never more hosts than the inventory has |
| `Inventory.FilterOne` | main.py:36 | a single host is kept, once, exactly when its attribute equals the value |
| `Inventory.FilterAppend` | main.py:36 | filtering two host lists in a row gives the first list's kept hosts followed by the second's, so the filter keeps inventory order and keeps each matching host exactly once |
| `Inventory.FilterEmpty` | main.py:37-38 | the filter is empty exactly when no host carries the value |
| `MainEndpoints.RunConfigGetter` | main.py:40 | one result per selected host, in inventory order, each the outcome of that host's own getter call |
| `MainEndpoints.FetchConfig` | main.py:32-60 | not-found with "Host '{hostname}' not found in inventory" exactly when no host matches; otherwise the text written host by host equals `Report` of the getter results; never any other exception |
| `MainEndpoints.WriteSection` | main.py:44-58 | the writes for one host append exactly that host's section lines: the banner, then the failure line, or the count line, the rule and every config line in order |
| `MainEndpoints.HeaderWritten` | main.py:44-46 | the three banner writes append the empty line, the `=` rule, the host line and the `=` rule |
| `MainEndpoints.GetConfig` | main.py:18-29 | a report is answered with the requested hostname and the text; not-found becomes 404 with its message; any other exception becomes 500 with detail "Error: {message}" |
| `MainEndpoints.SelectedHostsReported` | main.py:36-58 | every selected host has its "Configuration for {name}" line in the report, and the report text reads back to every host's failure text or exact config lines, in order |
| `ConfigReport.RuleWidths` | main.py:44-46 | the banner is 50 `=` and the rule under the count line is 30 `-` |
| `ConfigReport.CountLineRoundTrip` | main.py:55 | the number in "Running Configuration (N lines):" reads back as N |
| `ConfigReport.ReportAppend` | main.py:43-50 | the report of two result lists in a row is the two reports concatenated, so a failed host neither stops nor changes the later sections |
| `ConfigReport.ReportLinesRoundTrip` | main.py:43-58 | parsing the report lines gives back each host once, in result order: a failed host with its exception text, any other host with exactly its config lines, as many as its count line says |
| `ConfigReport.ReportRoundTrip` | main.py:42-60 | the report text, split at line breaks, parses back to the same hosts and sections |
| `ConfigReport.HostLineReported` | main.py:44-46 | every host of the result list gets its "Configuration for {host}" line |
| `ConfigReport.ReportLinesUnbroken` | main.py:43-58 | when host names and exception texts have no line break, no report line has one |
| `Text.Repeat` | main.py:44 | `c * n` has length n and every character is c |
| `Text.Decimal` | main.py:55 | `str(n)` is a non-empty string of digits that starts with `0` only for 0 |
| `Text.ParseDecimal` | main.py:55 | a digit string reads as a number exactly when it is non-empty and all digits |
| `Text.DecimalRoundTrip` | main.py:55 | reading `str(n)` back gives n |
| `Text.SplitLines` | main.py:53 | `splitlines` yields pieces without line breaks, and none for the empty text |
| `Text.JoinLines` | main.py:57-58 | writing lines with a trailing `'\n'` each ends in `'\n'` whenever there is a line |
| `Text.SplitJoin` | main.py:53-58 | config lines written with `'\n'` and split again are the same lines |
| `Text.JoinSplit` | main.py:53-58 | splitting a text and writing each line with `'\n'` restores the text, with a `'\n'` added when it did not end with one |

## Left out

- HTTP routing, `Form`/`Query` binding and `HTTPException` (main.py:1-11, main.py:18-19, changvlan.py:1-23). Status codes are outcome constructors (`VlanChange.Outcome`, `MainEndpoints.ConfigResponse`).
- `InitNornir(config_file="config.yaml")` and config loading. The inventory is a parameter.
- The NAPALM and Netmiko transports. They are function parameters (`push`, `getConfig`) and always return an answer. Nornir's concurrent fan-out is a sequence of results in inventory order.
- Exceptions raised by Nornir or the transports inside `fetch_config`. `FetchOutcome.Raised` stands for them at the endpoint, and `FetchConfig` never produces it.
- `list(result.values())[0]` at main.py:90 and changvlan.py:47. Inventory names are unique keys, so `F(name=host)` selects one host and `push` gives that host's result. An inventory with repeated names is not modelled.
- `StringIO`. The buffer is a string that is appended to.
- `str.splitlines` also breaks at `\r`, `\r\n`, `\v`, `\f`, `\x1c`-`\x1e`, `\x85`, U+2028 and U+2029. `Text.SplitLines` breaks at `'\n'` only.
- `ConfigReport.ReportRoundTrip`: requires host names and exception texts without `'\n'`, because such a break would split a report line. `ConfigReport.ReportLinesRoundTrip` needs no such condition.
- `MainEndpoints.SelectedHostsReported`: requires the same condition, for the same reason.
- `/find-mac` is called by test_app.py:28 but no handler exists in main.py, so it is not modelled.
- Interface shorthand expansion (`gi` → `GigabitEthernet`, …), port-status logic and MAC-location logic. The code has none of them: `expand_interface` returns its input (main.py:13-15, changvlan.py:12-14), so `Gi1/0/48` stays `Gi1/0/48`.
