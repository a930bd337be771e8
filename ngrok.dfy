/** The ngrok backend (src/providers/ngrok.ts): the command line it is
    spawned with, the choice of the public URL from the local API's tunnel
    listing, and the start attempt as a state machine driven by the poller,
    the timeout, stderr output and process events. Spawning, the HTTP poll
    of the local API and the timers themselves are outside the model. */
module Ngrok {
  import opened Wrappers
  import opened ProviderBase
  import Strings

  /** The two words of a `--flag value` pair, or nothing when the value is falsy. */
  function Flag(name: string, value: Option<string>): seq<string> {
    if Truthy(value) then [name, value.value] else []
  }

  /** The words before the optional flags: the `command` split on single spaces,
      or `http <port>`. */
  function BaseArgs(o: NgrokOptions, config: ProviderConfig): seq<string> {
    if Truthy(o.command) then Strings.Split(o.command.value) else ["http", PortText(config)]
  }

  /** The optional flags, in their fixed order. */
  function FlagArgs(o: NgrokOptions): seq<string> {
    Flag("--region", o.region) + Flag("--subdomain", o.subdomain) + Flag("--auth", o.auth)
  }

  /** `this.config.ngrok || {}`. */
  function OptionsOf(config: ProviderConfig): NgrokOptions {
    config.ngrok.GetOr(NgrokOptions(None, None, None, None))
  }

  /** `buildNgrokArgs`: pushes the base words, then each present flag pair. */
  method BuildNgrokArgs(config: ProviderConfig) returns (args: seq<string>)
    ensures args == BaseArgs(OptionsOf(config), config) + FlagArgs(OptionsOf(config))
  {
    var o := OptionsOf(config);
    if Truthy(o.command) {
      args := Strings.Split(o.command.value);
    } else {
      args := ["http", PortText(config)];
    }
    ghost var base := args;
    if Truthy(o.region) {
      args := args + ["--region", o.region.value];
    }
    assert args == base + Flag("--region", o.region);
    if Truthy(o.subdomain) {
      args := args + ["--subdomain", o.subdomain.value];
    }
    assert args == base + (Flag("--region", o.region) + Flag("--subdomain", o.subdomain));
    if Truthy(o.auth) {
      args := args + ["--auth", o.auth.value];
    }
  }

  function CountTruthy(o: NgrokOptions): nat {
    (if Truthy(o.region) then 1 else 0) + (if Truthy(o.subdomain) then 1 else 0)
      + (if Truthy(o.auth) then 1 else 0)
  }

  /** Nothing but the present flags is appended: two words for each. */
  lemma FlagArgsLength(o: NgrokOptions)
    ensures |FlagArgs(o)| == 2 * CountTruthy(o)
  {
  }

  /** Reads `--flag value` pairs back into the options they came from; a
      later pair for the same flag wins. */
  function ReadFlags(words: seq<string>, acc: NgrokOptions): NgrokOptions
    decreases |words|
  {
    if |words| < 2 then acc
    else
      var acc' :=
        if words[0] == "--region" then acc.(region := Some(words[1]))
        else if words[0] == "--subdomain" then acc.(subdomain := Some(words[1]))
        else if words[0] == "--auth" then acc.(auth := Some(words[1]))
        else acc;
      ReadFlags(words[2..], acc')
  }

  /** The option as the flags carry it: present exactly when truthy. */
  function Carried(v: Option<string>): Option<string> {
    if Truthy(v) then v else None
  }

  lemma ReadFlagsAppend(a: seq<string>, b: seq<string>, acc: NgrokOptions)
    requires |a| % 2 == 0
    ensures ReadFlags(a + b, acc) == ReadFlags(b, ReadFlags(a, acc))
    decreases |a|
  {
    if |a| >= 2 {
      assert (a + b)[2..] == a[2..] + b;
      assert (a + b)[..2] == a[..2];
      ReadFlagsAppend(a[2..], b, ReadFlags(a[..2], acc));
    } else {
      assert a + b == b;
    }
  }

  /** The flag words determine the options: reading them back yields each flag's
      value exactly when it was given a truthy value. */
  lemma {:induction false} FlagArgsRoundTrip(o: NgrokOptions)
    ensures ReadFlags(FlagArgs(o), NgrokOptions(None, None, None, None))
         == NgrokOptions(None, Carried(o.region), Carried(o.subdomain), Carried(o.auth))
  {
    var none := NgrokOptions(None, None, None, None);
    var r, s, a := Flag("--region", o.region), Flag("--subdomain", o.subdomain), Flag("--auth", o.auth);
    ReadFlagsAppend(r, s + a, none);
    assert r + s + a == r + (s + a);
    ReadFlagsAppend(s, a, ReadFlags(r, none));
    var afterR := ReadFlags(r, none);
    assert afterR == none.(region := Carried(o.region)) by {
      if Truthy(o.region) { assert r[2..] == []; }
    }
    var afterS := ReadFlags(s, afterR);
    assert afterS == afterR.(subdomain := Carried(o.subdomain)) by {
      if Truthy(o.subdomain) { assert s[2..] == []; }
    }
    assert ReadFlags(a, afterS) == afterS.(auth := Carried(o.auth)) by {
      if Truthy(o.auth) { assert a[2..] == []; }
    }
  }

  /** With no options at all the command line is exactly `http 3000`. */
  lemma DefaultArgs()
    ensures BaseArgs(OptionsOf(ProviderConfig(None, None)), ProviderConfig(None, None))
          + FlagArgs(OptionsOf(ProviderConfig(None, None))) == ["http", "3000"]
  {
    assert Strings.NatToString(3) == "3";
    assert Strings.NatToString(30) == "30";
    assert Strings.NatToString(300) == "300";
    assert Strings.NatToString(3000) == "3000";
  }

  /** A `command` replaces `http <port>`: its space-separated words come first and
      join back to the command. */
  lemma CommandReplacesBase(config: ProviderConfig)
    requires Truthy(OptionsOf(config).command)
    ensures var base := BaseArgs(OptionsOf(config), config);
      && Strings.Join(base) == OptionsOf(config).command.value
      && forall k :: 0 <= k < |base| ==> Strings.NoSpace(base[k])
  {
    Strings.JoinSplit(OptionsOf(config).command.value);
    Strings.SplitPiecesHaveNoSpace(OptionsOf(config).command.value);
  }

  /** An entry of the local API's `/api/tunnels` listing (fields the model reads). */
  datatype TunnelInfo = TunnelInfo(name: string, publicUrl: string, proto: string)

  predicate IsFirstHttps(tunnels: seq<TunnelInfo>, i: int)
    requires 0 <= i < |tunnels|
  {
    tunnels[i].proto == "https" && forall j :: 0 <= j < i ==> tunnels[j].proto != "https"
  }

  /** `tunnels.find(t => t.proto === 'https')`, as an index. */
  function FindHttps(tunnels: seq<TunnelInfo>): (r: Option<nat>)
    ensures r.Some? ==> r.value < |tunnels| && IsFirstHttps(tunnels, r.value)
    ensures r.None? ==> forall j :: 0 <= j < |tunnels| ==> tunnels[j].proto != "https"
  {
    if tunnels == [] then None
    else if tunnels[0].proto == "https" then Some(0)
    else
      match FindHttps(tunnels[1..])
      case None => None
      case Some(i) => Some(i + 1)
  }

  /** The URL a poll resolves with: the first https tunnel's `public_url`, when that
      is not empty. A later https entry is never consulted. */
  function SelectHttpsUrl(tunnels: seq<TunnelInfo>): (u: Option<string>)
    ensures u.Some? <==>
      exists i :: 0 <= i < |tunnels| && IsFirstHttps(tunnels, i) && tunnels[i].publicUrl != ""
    ensures u.Some? ==>
      exists i :: 0 <= i < |tunnels| && IsFirstHttps(tunnels, i) && tunnels[i].publicUrl == u.value
  {
    match FindHttps(tunnels)
    case None => None
    case Some(i) =>
      FirstHttpsUnique(tunnels, i);
      if tunnels[i].publicUrl != "" then Some(tunnels[i].publicUrl) else None
  }

  /** At most one index is the first https entry. */
  lemma FirstHttpsUnique(tunnels: seq<TunnelInfo>, i: nat)
    requires i < |tunnels| && IsFirstHttps(tunnels, i)
    ensures forall j :: 0 <= j < |tunnels| && IsFirstHttps(tunnels, j) ==> j == i
  {
  }

  /** The listing the API returns in the provider's test yields its https URL. */
  lemma SelectsListedHttpsUrl()
    ensures SelectHttpsUrl([TunnelInfo("command_line", "https://ngrok.test", "https")])
         == Some("https://ngrok.test")
  {
    assert IsFirstHttps([TunnelInfo("command_line", "https://ngrok.test", "https")], 0);
  }

  class NgrokProvider {
    const config: ProviderConfig
    var currentUrl: string
    /** A child process has been spawned and not stopped. */
    var running: bool
    /** The one-second poller of the local API is installed. */
    var pollerActive: bool
    /** The 30-second start timeout is installed. */
    var timeoutPending: bool
    /** The state of the current start attempt's promise. */
    var settled: Settlement

    /** Timers are cleared whenever the attempt settles, and a resolved attempt
        published its URL. */
    ghost predicate Valid()
      reads this
    {
      && (pollerActive || timeoutPending ==> settled.None?)
      && (settled.Some? && settled.value.Ok? ==> currentUrl == settled.value.value)
    }

    constructor (config: ProviderConfig)
      ensures Valid()
      ensures this.config == config && currentUrl == "" && !running
      ensures !pollerActive && !timeoutPending && settled.None?
    {
      this.config := config;
      currentUrl := "";
      running := false;
      pollerActive := false;
      timeoutPending := false;
      settled := None;
    }

    /** `start`: spawns ngrok with the built arguments and installs the poller and
        the timeout of a fresh, pending attempt. */
    method Start() returns (args: seq<string>)
      modifies this
      ensures Valid()
      ensures args == BaseArgs(OptionsOf(config), config) + FlagArgs(OptionsOf(config))
      ensures IsRunning() && pollerActive && timeoutPending && settled.None?
      ensures currentUrl == old(currentUrl)
    {
      args := BuildNgrokArgs(config);
      running := true;
      pollerActive := true;
      timeoutPending := true;
      settled := None;
    }

    /** One tick of the poller. `listing` is `None` when the API request failed,
        which the poller ignores. A selected URL resolves the attempt, becomes
        `currentUrl` and clears both timers. */
    method OnPoll(listing: Option<seq<TunnelInfo>>)
      requires Valid()
      modifies this
      ensures Valid()
      ensures running == old(running)
      ensures var resolves := old(pollerActive) && listing.Some? && SelectHttpsUrl(listing.value).Some?;
        && (resolves ==>
              && currentUrl == SelectHttpsUrl(listing.value).value
              && settled == Some(Ok(currentUrl))
              && !pollerActive && !timeoutPending)
        && (!resolves ==>
              && currentUrl == old(currentUrl) && settled == old(settled)
              && pollerActive == old(pollerActive) && timeoutPending == old(timeoutPending))
    {
      if !pollerActive || listing.None? {
        return;
      }
      var url := SelectHttpsUrl(listing.value);
      if url.Some? {
        pollerActive := false;
        timeoutPending := false;
        currentUrl := url.value;
        settled := Settle(settled, Ok(url.value));
      }
    }

    /** The start timeout fires, if it is still installed: the poller stops and the
        attempt rejects. */
    method OnTimeout()
      requires Valid()
      modifies this
      ensures Valid()
      ensures currentUrl == old(currentUrl) && running == old(running)
      ensures old(timeoutPending) ==> settled == Some(Err(Timeout)) && !pollerActive && !timeoutPending
      ensures !old(timeoutPending) ==>
        settled == old(settled) && pollerActive == old(pollerActive) && !timeoutPending
    {
      if timeoutPending {
        timeoutPending := false;
        pollerActive := false;
        settled := Settle(settled, Err(Timeout));
      }
    }

    /** A chunk of stderr output: one that reports `failed to start tunnel` clears
        both timers and rejects the attempt (ignored if it already settled). */
    method OnStderr(output: string)
      requires Valid()
      modifies this
      ensures Valid()
      ensures currentUrl == old(currentUrl) && running == old(running)
      ensures Strings.Contains(output, "failed to start tunnel") ==>
        && settled == Settle(old(settled), Err(TunnelFailed(output)))
        && !pollerActive && !timeoutPending
      ensures !Strings.Contains(output, "failed to start tunnel") ==>
        && settled == old(settled)
        && pollerActive == old(pollerActive) && timeoutPending == old(timeoutPending)
    {
      if Strings.Contains(output, "failed to start tunnel") {
        pollerActive := false;
        timeoutPending := false;
        settled := Settle(settled, Err(TunnelFailed(output)));
      }
    }

    /** The process exits: the poller stops, but the attempt stays pending until
        the timeout fires, and the process handle is kept. */
    method OnExit(code: Option<int>)
      requires Valid()
      modifies this
      ensures Valid()
      ensures !pollerActive
      ensures timeoutPending == old(timeoutPending) && settled == old(settled)
      ensures currentUrl == old(currentUrl) && running == old(running)
    {
      pollerActive := false;
    }

    /** The process could not be spawned: both timers are cleared and the attempt rejects. */
    method OnError(message: string)
      requires Valid()
      modifies this
      ensures Valid()
      ensures !pollerActive && !timeoutPending
      ensures settled == Settle(old(settled), Err(SpawnFailed(message)))
      ensures currentUrl == old(currentUrl) && running == old(running)
    {
      pollerActive := false;
      timeoutPending := false;
      settled := Settle(settled, Err(SpawnFailed(message)));
    }

    /** `stop` (src/providers/base.ts): the process is terminated and forgotten. */
    method Stop()
      modifies this
      ensures !IsRunning()
      ensures currentUrl == old(currentUrl) && settled == old(settled)
      ensures pollerActive == old(pollerActive) && timeoutPending == old(timeoutPending)
    {
      if running {
        running := false;
      }
    }

    /** `isRunning` (src/providers/base.ts): whether a process handle is held. */
    function IsRunning(): (r: bool)
      reads this
      ensures r <==> running
    {
      running
    }
  }
}
