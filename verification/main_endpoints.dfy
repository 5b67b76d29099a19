/**
 * The handlers of main.py: `expand_interface`, the `/change-vlan` handler
 * (lookup before the command list is built), and `fetch_config` with the
 * `/get-config` endpoint that classifies its outcome.
 *
 * The inventory is a parameter; the device transport is a function from
 * the request to the device's answer (`push` for `netmiko_send_config`,
 * `getConfig` for `napalm_get` with the "config" getter).
 */
module MainEndpoints {
  import opened Options
  import opened Text
  import opened Inventory
  import opened VlanChange
  import opened ConfigReport

  /** Interface names are passed through unchanged; there is no shorthand table. */
  function ExpandInterface(interface: string): (r: string)
    ensures r == interface
  {
    interface
  }

  lemma ExpandInterfaceIdempotent(interface: string)
    ensures ExpandInterface(ExpandInterface(interface)) == ExpandInterface(interface)
  {
  }

  /** Builds the configuration lines by appending, as the handler does. */
  method BuildCommands(intfFull: string, newVlan: string, description: Option<string>)
    returns (cmds: seq<string>)
    ensures cmds == ConfigCommands(intfFull, newVlan, description)
  {
    cmds := ["interface " + intfFull, "switchport access vlan " + newVlan];
    if Truthy(description) {
      cmds := cmds + ["description " + description.value];
    }
    cmds := cmds + ["exit"];
  }

  /** `/change-vlan`: validate, look the host up by name, build the lines, push them, classify. */
  method ChangeVlan(inventory: seq<Host>, push: seq<string> -> PushResult, host: string,
                    interface: string, newVlan: string, description: Option<string>)
    returns (reply: Reply)
    ensures reply == Respond(inventory, push, host, interface, newVlan, description, ExpandInterface(interface))
  {
    if MissingField(host, interface, newVlan) {
      return Reply(BadRequest(MissingDataDetail), None);
    }
    var target := Filter(inventory, Name, host);
    if target == [] {
      return Reply(NotFound(NotFoundDetail(host)), None);
    }
    var intfFull := ExpandInterface(interface);
    var cmds := BuildCommands(intfFull, newVlan, description);
    var task := push(cmds);
    if task.PushFailed? {
      return Reply(ServerError(FailureDetail(task.result)), Some(cmds));
    }
    return Reply(Success(SuccessMessage(intfFull, newVlan, host), host, intfFull, newVlan, description), Some(cmds));
  }

  /**
   * The fan-out of the "config" getter over the selected hosts: one result
   * per host, in inventory order, each from that host's own call.
   */
  function RunConfigGetter(hosts: seq<Host>, getConfig: string -> HostResult): (rs: seq<Entry>)
    ensures |rs| == |hosts|
    ensures forall i :: 0 <= i < |hosts| ==> rs[i] == Entry(hosts[i].name, getConfig(hosts[i].name))
  {
    seq(|hosts|, i requires 0 <= i < |hosts| => Entry(hosts[i].name, getConfig(hosts[i].name)))
  }

  /** What `fetch_config` returns or raises; `Raised` stands for any other exception. */
  datatype FetchOutcome = ConfigText(text: string) | HostNotFound(message: string) | Raised(message: string)

  function NotInInventory(hostname: string): string {
    "Host '" + hostname + "' not found in inventory"
  }

  /**
   * `fetch_config`: select the hosts whose `hostname` attribute matches,
   * fail with not-found if there are none, otherwise write the report
   * host by host and line by line.
   */
  method FetchConfig(inventory: seq<Host>, getConfig: string -> HostResult, hostname: string)
    returns (r: FetchOutcome)
    ensures !r.Raised?
    ensures r.HostNotFound? <==> Filter(inventory, Hostname, hostname) == []
    ensures r.HostNotFound? ==> r.message == NotInInventory(hostname)
    ensures r.ConfigText? ==> r.text == Report(RunConfigGetter(Filter(inventory, Hostname, hostname), getConfig))
  {
    var filtered := Filter(inventory, Hostname, hostname);
    if filtered == [] {
      return HostNotFound(NotInInventory(hostname));
    }
    var result := RunConfigGetter(filtered, getConfig);
    var output := "";
    for i := 0 to |result|
      invariant output == JoinLines(ReportLines(result[..i]))
    {
      ghost var done := ReportLines(result[..i]);
      output := WriteSection(output, result[i].host, result[i].result, done);
      ReportLinesSnoc(result, i);
    }
    assert result[..|result|] == result;
    return ConfigText(output);
  }

  /** Writes one host's section after the lines already written. */
  method WriteSection(output: string, host: string, taskResult: HostResult, ghost done: seq<string>)
    returns (out: string)
    requires output == JoinLines(done)
    ensures out == JoinLines(done + SectionLines(Entry(host, taskResult)))
  {
    out := output + ("\n" + Banner + "\n");
    out := out + (HostLine(host) + "\n");
    out := out + (Banner + "\n");
    HeaderWritten(output, host);
    ghost var written := HeaderLines(host);
    match taskResult {
    case Failed(exception) =>
      var line := FailurePrefix(host) + exception;
      LineWritten(output, written, line);
      out := out + (line + "\n");
      written := written + [line];
      assert written == SectionLines(Entry(host, taskResult));
    case Ok(running) =>
      var configLines := SplitLines(running);
      LineWritten(output, written, CountLine(|configLines|));
      out := out + (CountLine(|configLines|) + "\n");
      written := written + [CountLine(|configLines|)];
      LineWritten(output, written, Rule);
      out := out + (Rule + "\n");
      written := written + [Rule];
      ghost var counted := written;
      for j := 0 to |configLines|
        invariant out == output + JoinLines(written)
        invariant written == counted + configLines[..j]
      {
        LineWritten(output, written, configLines[j]);
        out := out + (configLines[j] + "\n");
        written := written + [configLines[j]];
        TakeOneMore(counted, configLines, j);
      }
      assert configLines[..|configLines|] == configLines;
      BodyAfterHeader(HeaderLines(host), CountLine(|configLines|), configLines);
      assert written == SectionLines(Entry(host, taskResult));
    }
    JoinLinesAppend(done, written);
  }

  /** The three banner writes put the header's lines after what was written before. */
  lemma HeaderWritten(output: string, host: string)
    ensures output + ("\n" + Banner + "\n") + (HostLine(host) + "\n") + (Banner + "\n")
            == output + JoinLines(HeaderLines(host))
  {
    var h := HeaderLines(host);
    assert h[3..] == [Banner];
    assert JoinLines(h[3..]) == Banner + "\n" + JoinLines([]);
    assert h[2..][1..] == h[3..];
    assert JoinLines(h[2..]) == HostLine(host) + "\n" + JoinLines(h[3..]);
    assert h[1..][1..] == h[2..];
    assert JoinLines(h[1..]) == Banner + "\n" + JoinLines(h[2..]);
    assert JoinLines(h) == "" + "\n" + JoinLines(h[1..]);
  }

  lemma TakeOneMore(counted: seq<string>, lines: seq<string>, j: nat)
    requires j < |lines|
    ensures counted + lines[..j] + [lines[j]] == counted + lines[..j + 1]
  {
    assert lines[..j + 1] == lines[..j] + [lines[j]];
  }

  lemma BodyAfterHeader(header: seq<string>, count: string, lines: seq<string>)
    ensures header + [count] + [Rule] + lines == header + ([count, Rule] + lines)
  {
  }

  /** Writing one more line with its '\n' extends the written lines by that line. */
  lemma LineWritten(output: string, written: seq<string>, line: string)
    ensures output + JoinLines(written) + (line + "\n") == output + JoinLines(written + [line])
  {
    JoinLinesSnoc(written, line);
  }

  /** The answer of `/get-config`: the report, or an HTTP error status with its detail. */
  datatype ConfigResponse = ConfigOk(hostname: string, config: string) | ConfigError(status: nat, detail: string)

  /** `/get-config`: a not-found error is the client's 404, any other exception a 500. */
  function GetConfig(hostname: string, fetched: FetchOutcome): (resp: ConfigResponse)
    ensures resp.ConfigOk? <==> fetched.ConfigText?
    ensures resp.ConfigOk? ==> resp.hostname == hostname && resp.config == fetched.text
    ensures fetched.HostNotFound? ==> resp == ConfigError(404, fetched.message)
    ensures fetched.Raised? ==> resp == ConfigError(500, "Error: " + fetched.message)
  {
    match fetched
    case ConfigText(text) => ConfigOk(hostname, text)
    case HostNotFound(message) => ConfigError(404, message)
    case Raised(message) => ConfigError(500, "Error: " + message)
  }

  /**
   * Every host the request selects is reported under its own banner, in
   * inventory order, and its section can be read back from the text.
   */
  lemma SelectedHostsReported(inventory: seq<Host>, getConfig: string -> HostResult, hostname: string)
    requires forall i :: 0 <= i < |inventory| ==> '\n' !in inventory[i].name
    requires forall name :: getConfig(name).Failed? ==> '\n' !in getConfig(name).exception
    ensures var selected := Filter(inventory, Hostname, hostname);
      var results := RunConfigGetter(selected, getConfig);
      && (forall k :: 0 <= k < |selected| ==> HostLine(selected[k].name) in ReportLines(results))
      && ParseReport(SplitLines(Report(results))) == Some(Summaries(results))
  {
    var selected := Filter(inventory, Hostname, hostname);
    var results := RunConfigGetter(selected, getConfig);
    forall k | 0 <= k < |selected|
      ensures HostLine(selected[k].name) in ReportLines(results)
    {
      HostLineReported(results, k);
    }
    assert Readable(results) by {
      forall i | 0 <= i < |results|
        ensures '\n' !in results[i].host
      {
        assert selected[i] in inventory;
      }
    }
    ReportRoundTrip(results);
  }
}
