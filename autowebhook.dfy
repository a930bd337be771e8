/** The orchestrator (src/autowebhook.ts): it owns a table of named managed
    tunnels, starts them one after another with partial success, restarts a
    tunnel whose health checker escalates, and stops everything.

    A provider's `start()` is an external operation: its outcome is a parameter
    (`Some(url)` when it resolved, `None` when it rejected). The provider itself
    is a handle holding its kind, configuration, URL and running flag. Events
    are returned as sequences; asynchronous interleaving is not modelled. The
    pure functions below describe each operation on the table with the health
    checker objects left out; the class's methods are proved against them. */
module Orchestrator {
  import opened Wrappers
  import opened JsMap
  import opened Health
  import opened ProviderBase

  /** A tunnel's `provider` field: one of the two known tags, or any other text. */
  datatype ProviderTag = NgrokTag | LocalhostRunTag | Unknown(text: string)

  /** The text of a tag. */
  function TagName(t: ProviderTag): string {
    match t
    case NgrokTag => "ngrok"
    case LocalhostRunTag => "localhost.run"
    case Unknown(text) => text
  }

  /** Reads a `provider` field. */
  function TagOf(s: string): (t: ProviderTag)
    ensures t == NgrokTag <==> s == "ngrok"
    ensures t == LocalhostRunTag <==> s == "localhost.run"
    ensures t.Unknown? ==> t.text == s
  {
    if s == "ngrok" then NgrokTag
    else if s == "localhost.run" then LocalhostRunTag
    else Unknown(s)
  }

  /** Reading a `provider` field loses nothing. */
  lemma TagRoundTrip(s: string)
    ensures TagName(TagOf(s)) == s
  {
  }

  /** One entry of the `tunnels` configuration. */
  datatype TunnelConfig = TunnelConfig(
    name: string,
    provider: ProviderTag,
    port: Option<int>,
    ngrok: Option<NgrokOptions>)

  /** The constructor's argument (the `expanded` logging switch is left out). */
  datatype AutoWebhookConfig = AutoWebhookConfig(
    port: Option<int>,
    healthCheck: Option<HealthCheckOptions>,
    tunnels: seq<TunnelConfig>)

  const DefaultPort: int := 3000
  const MaxStartAttempts: nat := 5

  /** `{ port: 3000, healthCheck: {…defaults}, ...config }`: a supplied field replaces
      the default wholesale. */
  function ResolveConfig(config: AutoWebhookConfig): (c: AutoWebhookConfig)
    ensures c.tunnels == config.tunnels
    ensures c.port == if config.port.Some? then config.port else Some(DefaultPort)
    ensures config.healthCheck.Some? ==> c.healthCheck == config.healthCheck
    ensures config.healthCheck.None? ==> c.healthCheck.Some?
    ensures ResolveHealthConfig(c.healthCheck) == ResolveHealthConfig(config.healthCheck)
  {
    AutoWebhookConfig(
      if config.port.Some? then config.port else Some(DefaultPort),
      if config.healthCheck.Some? then config.healthCheck
      else Some(HealthCheckOptions(Some(DefaultEnabled), Some(DefaultInterval),
                                   Some(DefaultTimeout), Some(DefaultMaxFailures))),
      config.tunnels)
  }

  datatype ProviderKind = NgrokKind | LocalhostRunKind

  /** A provider instance as the orchestrator sees it (src/providers/base.ts). */
  datatype ProviderHandle = ProviderHandle(
    kind: ProviderKind,
    config: ProviderConfig,
    currentUrl: string,
    running: bool)

  /** Why `startTunnel` threw. */
  datatype TunnelError = UnknownProvider(tag: string) | ProviderStartFailed

  datatype WebhookError = StartFailed(name: string) | MaxRestartAttemptsReached(name: string)

  datatype WebhookEvent =
    | TunnelReady(name: string, url: string)
    | TunnelDown(name: string, cause: HealthError)
    | Error(error: WebhookError)

  /** `createProvider`: the port falls back from the tunnel's to the orchestrator's
      to 3000, each skipped when falsy; the tag selects the backend. */
  function CreateProvider(tc: TunnelConfig, defaultPort: Option<int>): (r: Result<ProviderHandle, TunnelError>)
    ensures r.Ok? <==> !tc.provider.Unknown?
    ensures r.Err? ==> r.error == UnknownProvider(TagName(tc.provider))
    ensures r.Ok? ==>
      && r.value.kind == (if tc.provider == NgrokTag then NgrokKind else LocalhostRunKind)
      && r.value.config.ngrok == tc.ngrok
      && r.value.currentUrl == "" && !r.value.running
      && r.value.config.port == Some(
           if TruthyPort(tc.port) then tc.port.value
           else if TruthyPort(defaultPort) then defaultPort.value
           else 3000)
  {
    var config := ProviderConfig(Some(PortOr(tc.port, PortOr(defaultPort, 3000))), tc.ngrok);
    match tc.provider
    case NgrokTag => Ok(ProviderHandle(NgrokKind, config, "", false))
    case LocalhostRunTag => Ok(ProviderHandle(LocalhostRunKind, config, "", false))
    case Unknown(text) => Err(UnknownProvider(text))
  }

  /** An entry of the table: what `ManagedTunnel` holds apart from its health
      checker, which the orchestrator keeps beside it under the same name. */
  datatype ManagedTunnel = ManagedTunnel(
    config: TunnelConfig,
    provider: ProviderHandle,
    url: string,
    startAttempts: nat)

  // ---------------------------------------------------------------------
  // The operations on the table
  // ---------------------------------------------------------------------

  /** A table whose entries sit under their own tunnel's name and never exceed the
      restart cap. */
  ghost predicate WellFormed(table: OrderedMap<ManagedTunnel>) {
    && table.Valid()
    && forall n :: table.Has(n) ==>
         table.entries[n].config.name == n && table.entries[n].startAttempts <= MaxStartAttempts
  }

  datatype StartOutcome = StartOutcome(
    table: OrderedMap<ManagedTunnel>,
    result: Result<string, TunnelError>,
    events: seq<WebhookEvent>)

  /** `startTunnel`: a name already in the table answers with its URL and changes
      nothing; otherwise a provider is created and started, and on success the new
      entry is appended with zero attempts and announced. */
  function StartTunnelSpec(table: OrderedMap<ManagedTunnel>, tc: TunnelConfig, outcome: Option<string>,
                           defaultPort: Option<int>): (s: StartOutcome)
    requires WellFormed(table)
    ensures WellFormed(s.table)
  {
    if table.Has(tc.name) then StartOutcome(table, Ok(table.entries[tc.name].url), [])
    else
      match CreateProvider(tc, defaultPort)
      case Err(e) => StartOutcome(table, Err(e), [])
      case Ok(p) =>
        match outcome
        case None => StartOutcome(table, Err(ProviderStartFailed), [])
        case Some(url) =>
          var entry := ManagedTunnel(tc, p.(currentUrl := url, running := true), url, 0);
          StartOutcome(table.Set(tc.name, entry), Ok(url), [TunnelReady(tc.name, url)])
  }

  /** The cases of `startTunnel`: a known name answers with its URL and changes
      nothing; an unknown provider tag or a rejected start changes nothing; a
      resolved start appends the new entry with zero attempts and announces it. No
      other entry is touched. */
  lemma StartTunnelCases(table: OrderedMap<ManagedTunnel>, tc: TunnelConfig, outcome: Option<string>,
                         defaultPort: Option<int>)
    requires WellFormed(table)
    ensures var s := StartTunnelSpec(table, tc, outcome, defaultPort);
      table.Has(tc.name) ==>
      s.table == table && s.result == Ok(table.entries[tc.name].url) && s.events == []
    ensures var s := StartTunnelSpec(table, tc, outcome, defaultPort);
      !table.Has(tc.name) && CreateProvider(tc, defaultPort).Err? ==>
      s.table == table && s.result == Err(UnknownProvider(TagName(tc.provider))) && s.events == []
    ensures var s := StartTunnelSpec(table, tc, outcome, defaultPort);
      !table.Has(tc.name) && CreateProvider(tc, defaultPort).Ok? && outcome.None? ==>
      s.table == table && s.result == Err(ProviderStartFailed) && s.events == []
    ensures var s := StartTunnelSpec(table, tc, outcome, defaultPort);
      !table.Has(tc.name) && CreateProvider(tc, defaultPort).Ok? && outcome.Some? ==>
      && s.result == Ok(outcome.value)
      && s.events == [TunnelReady(tc.name, outcome.value)]
      && s.table.keys == table.keys + [tc.name]
      && s.table.entries[tc.name].config == tc
      && s.table.entries[tc.name].url == outcome.value
      && s.table.entries[tc.name].provider.currentUrl == outcome.value
      && s.table.entries[tc.name].provider.running
      && s.table.entries[tc.name].startAttempts == 0
    ensures var s := StartTunnelSpec(table, tc, outcome, defaultPort);
      forall n :: n != tc.name ==> (s.table.Has(n) <==> table.Has(n))
    ensures var s := StartTunnelSpec(table, tc, outcome, defaultPort);
      forall n :: table.Has(n) ==> s.table.Has(n) && s.table.entries[n] == table.entries[n]
  {
  }

  /** What `startTunnel` answers for a name not yet in the table. */
  lemma StartTunnelFreshResult(table: OrderedMap<ManagedTunnel>, tc: TunnelConfig, outcome: Option<string>,
                               defaultPort: Option<int>)
    requires WellFormed(table) && !table.Has(tc.name)
    ensures var s := StartTunnelSpec(table, tc, outcome, defaultPort);
      && (s.result.Ok? <==> Succeeds(tc, outcome, defaultPort))
      && (s.result.Ok? ==> s.result.value == outcome.value && s.events == [TunnelReady(tc.name, outcome.value)])
  {
  }

  /** The table `startTunnel` leaves for a name not yet in it. */
  lemma StartTunnelFreshTable(table: OrderedMap<ManagedTunnel>, tc: TunnelConfig, outcome: Option<string>,
                              defaultPort: Option<int>)
    requires WellFormed(table) && !table.Has(tc.name)
    ensures var s := StartTunnelSpec(table, tc, outcome, defaultPort);
      && (s.table.Has(tc.name) <==> Succeeds(tc, outcome, defaultPort))
      && s.table.keys == table.keys + (if Succeeds(tc, outcome, defaultPort) then [tc.name] else [])
      && (s.table.Has(tc.name) ==>
            s.table.entries[tc.name].url == outcome.value && s.table.entries[tc.name].startAttempts == 0)
      && (forall n :: n != tc.name ==> (s.table.Has(n) <==> table.Has(n)))
      && (forall n :: table.Has(n) ==> s.table.entries[n] == table.entries[n])
  {
  }

  datatype StartAllOutcome = StartAllOutcome(
    table: OrderedMap<ManagedTunnel>,
    urls: seq<string>,
    events: seq<WebhookEvent>)

  /** The first `k` iterations of `start`'s loop: each configured tunnel in order; a
      failure emits an error and the loop goes on. */
  function StartLoop(table: OrderedMap<ManagedTunnel>, tcs: seq<TunnelConfig>, outcomes: seq<Option<string>>,
                     defaultPort: Option<int>, k: nat): (r: StartAllOutcome)
    requires WellFormed(table) && |tcs| == |outcomes| && k <= |tcs|
    ensures WellFormed(r.table)
  {
    if k == 0 then StartAllOutcome(table, [], [])
    else StartStep(StartLoop(table, tcs, outcomes, defaultPort, k - 1), tcs[k - 1], outcomes[k - 1], defaultPort)
  }

  /** One iteration of `start`'s loop: a started tunnel contributes its URL and its
      events, a failed one an `error` event. */
  function StartStep(before: StartAllOutcome, tc: TunnelConfig, outcome: Option<string>,
                     defaultPort: Option<int>): (r: StartAllOutcome)
    requires WellFormed(before.table)
    ensures WellFormed(r.table)
  {
    var s := StartTunnelSpec(before.table, tc, outcome, defaultPort);
    match s.result
    case Ok(url) => StartAllOutcome(s.table, before.urls + [url], before.events + s.events)
    case Err(_) => StartAllOutcome(s.table, before.urls, before.events + [Error(StartFailed(tc.name))])
  }

  /** One iteration of `start`'s loop for a name not yet in the table: the name is
      appended exactly when the tunnel starts, with its URL and zero attempts, and no
      other entry changes. */
  lemma StepFreshTable(before: StartAllOutcome, tc: TunnelConfig, outcome: Option<string>, defaultPort: Option<int>)
    requires WellFormed(before.table) && !before.table.Has(tc.name)
    ensures var r := StartStep(before, tc, outcome, defaultPort);
      var ok := Succeeds(tc, outcome, defaultPort);
      && r.table.keys == before.table.keys + (if ok then [tc.name] else [])
      && (r.table.Has(tc.name) ==> ok && r.table.entries[tc.name].url == outcome.value
                                     && r.table.entries[tc.name].startAttempts == 0)
      && (forall n :: r.table.Has(n) && n != tc.name ==> before.table.Has(n) && r.table.entries[n] == before.table.entries[n])
  {
    StartTunnelFreshTable(before.table, tc, outcome, defaultPort);
  }

  /** One iteration of `start`'s loop for a name not yet in the table contributes its
      URL if it starts and exactly one event. */
  lemma StepFreshResult(before: StartAllOutcome, tc: TunnelConfig, outcome: Option<string>, defaultPort: Option<int>)
    requires WellFormed(before.table) && !before.table.Has(tc.name)
    ensures var r := StartStep(before, tc, outcome, defaultPort);
      var ok := Succeeds(tc, outcome, defaultPort);
      && r.urls == before.urls + (if ok then [outcome.value] else [])
      && r.events == before.events + [if ok then TunnelReady(tc.name, outcome.value) else Error(StartFailed(tc.name))]
  {
    StartTunnelFreshResult(before.table, tc, outcome, defaultPort);
  }

  /** The tunnel starts: its provider tag is known and its provider resolved. */
  predicate Succeeds(tc: TunnelConfig, outcome: Option<string>, defaultPort: Option<int>) {
    CreateProvider(tc, defaultPort).Ok? && outcome.Some?
  }

  /** The URLs of those of the first `k` tunnels that start, in configuration order. */
  function SuccessUrls(tcs: seq<TunnelConfig>, outcomes: seq<Option<string>>, defaultPort: Option<int>,
                       k: nat): seq<string>
    requires |tcs| == |outcomes| && k <= |tcs|
  {
    if k == 0 then []
    else
      SuccessUrls(tcs, outcomes, defaultPort, k - 1)
        + if Succeeds(tcs[k - 1], outcomes[k - 1], defaultPort) then [outcomes[k - 1].value] else []
  }

  /** The names of those of the first `k` tunnels that start, in configuration order. */
  function SuccessNames(tcs: seq<TunnelConfig>, outcomes: seq<Option<string>>, defaultPort: Option<int>,
                        k: nat): seq<string>
    requires |tcs| == |outcomes| && k <= |tcs|
  {
    if k == 0 then []
    else
      SuccessNames(tcs, outcomes, defaultPort, k - 1)
        + if Succeeds(tcs[k - 1], outcomes[k - 1], defaultPort) then [tcs[k - 1].name] else []
  }

  predicate DistinctNames(tcs: seq<TunnelConfig>) {
    forall i, j :: 0 <= i < j < |tcs| ==> tcs[i].name != tcs[j].name
  }

  /** One iteration of `start`'s loop keeps every entry present before it and adds
      at most the entry of its own tunnel. */
  lemma StepKeeps(before: StartAllOutcome, tc: TunnelConfig, outcome: Option<string>, defaultPort: Option<int>)
    requires WellFormed(before.table)
    ensures var r := StartStep(before, tc, outcome, defaultPort);
      && (forall n :: before.table.Has(n) ==> r.table.Has(n) && r.table.entries[n] == before.table.entries[n])
      && (forall n :: r.table.Has(n) ==> before.table.Has(n) || n == tc.name)
  {
    StartTunnelCases(before.table, tc, outcome, defaultPort);
  }

  /** What `start` has done to `table` after `k` iterations: kept every entry, and
      added only entries named after the first `k` tunnels. */
  ghost predicate OnlyAdded(table: OrderedMap<ManagedTunnel>, tcs: seq<TunnelConfig>, k: nat, r: StartAllOutcome)
    requires k <= |tcs|
  {
    && (forall x :: table.Has(x) ==> r.table.Has(x) && r.table.entries[x] == table.entries[x])
    && (forall x :: r.table.Has(x) && !table.Has(x) ==> exists i :: 0 <= i < k && tcs[i].name == x)
  }

  lemma OnlyAddedStep(table: OrderedMap<ManagedTunnel>, tcs: seq<TunnelConfig>, outcomes: seq<Option<string>>,
                      defaultPort: Option<int>, k: nat, before: StartAllOutcome)
    requires |tcs| == |outcomes| && 0 < k <= |tcs| && WellFormed(before.table)
    requires OnlyAdded(table, tcs, k - 1, before)
    ensures OnlyAdded(table, tcs, k, StartStep(before, tcs[k - 1], outcomes[k - 1], defaultPort))
  {
    StepKeeps(before, tcs[k - 1], outcomes[k - 1], defaultPort);
    var r := StartStep(before, tcs[k - 1], outcomes[k - 1], defaultPort);
    forall x | r.table.Has(x) && !table.Has(x)
      ensures exists i :: 0 <= i < k && tcs[i].name == x
    {
      if x != tcs[k - 1].name {
        var i :| 0 <= i < k - 1 && tcs[i].name == x;
      }
    }
  }

  /** `start` only adds entries, each under the name of a configured tunnel; the
      entries already present are untouched. */
  lemma {:induction false} StartLoopOnlyAdds(table: OrderedMap<ManagedTunnel>, tcs: seq<TunnelConfig>,
                                             outcomes: seq<Option<string>>, defaultPort: Option<int>, k: nat)
    requires WellFormed(table) && |tcs| == |outcomes| && k <= |tcs|
    ensures var r := StartLoop(table, tcs, outcomes, defaultPort, k);
      && (forall x :: table.Has(x) ==> r.table.Has(x) && r.table.entries[x] == table.entries[x])
      && (forall x :: r.table.Has(x) && !table.Has(x) ==> exists i :: 0 <= i < k && tcs[i].name == x)
  {
    OnlyAddedLoop(table, tcs, outcomes, defaultPort, k);
  }

  lemma {:induction false} OnlyAddedLoop(table: OrderedMap<ManagedTunnel>, tcs: seq<TunnelConfig>,
                                         outcomes: seq<Option<string>>, defaultPort: Option<int>, k: nat)
    requires WellFormed(table) && |tcs| == |outcomes| && k <= |tcs|
    ensures OnlyAdded(table, tcs, k, StartLoop(table, tcs, outcomes, defaultPort, k))
  {
    if k > 0 {
      OnlyAddedLoop(table, tcs, outcomes, defaultPort, k - 1);
      OnlyAddedStep(table, tcs, outcomes, defaultPort, k, StartLoop(table, tcs, outcomes, defaultPort, k - 1));
    }
  }

  /** With distinct names, a tunnel's name is among the started names exactly when it
      starts, and every started name is a configured one. */
  lemma {:induction false} SuccessNamesMembers(tcs: seq<TunnelConfig>, outcomes: seq<Option<string>>,
                                               defaultPort: Option<int>, k: nat)
    requires |tcs| == |outcomes| && k <= |tcs| && DistinctNames(tcs)
    ensures forall i :: 0 <= i < k ==>
      (tcs[i].name in SuccessNames(tcs, outcomes, defaultPort, k) <==> Succeeds(tcs[i], outcomes[i], defaultPort))
    ensures forall x :: x in SuccessNames(tcs, outcomes, defaultPort, k) ==> exists i :: 0 <= i < k && tcs[i].name == x
  {
    if k > 0 {
      SuccessNamesMembers(tcs, outcomes, defaultPort, k - 1);
      assert tcs[k - 1].name !in SuccessNames(tcs, outcomes, defaultPort, k - 1);
    }
  }

  /** The event a tunnel's start contributes to `start`'s events. */
  function EventFor(tc: TunnelConfig, outcome: Option<string>, defaultPort: Option<int>): WebhookEvent {
    if Succeeds(tc, outcome, defaultPort) then TunnelReady(tc.name, outcome.value) else Error(StartFailed(tc.name))
  }

  /** The events of the first `k` tunnels, one each. */
  function ExpectedEvents(tcs: seq<TunnelConfig>, outcomes: seq<Option<string>>, defaultPort: Option<int>,
                          k: nat): seq<WebhookEvent>
    requires |tcs| == |outcomes| && k <= |tcs|
  {
    if k == 0 then [] else ExpectedEvents(tcs, outcomes, defaultPort, k - 1) + [EventFor(tcs[k - 1], outcomes[k - 1], defaultPort)]
  }

  lemma {:induction false} ExpectedEventsAt(tcs: seq<TunnelConfig>, outcomes: seq<Option<string>>,
                                            defaultPort: Option<int>, k: nat)
    requires |tcs| == |outcomes| && k <= |tcs|
    ensures |ExpectedEvents(tcs, outcomes, defaultPort, k)| == k
    ensures forall i :: 0 <= i < k ==>
      ExpectedEvents(tcs, outcomes, defaultPort, k)[i] == EventFor(tcs[i], outcomes[i], defaultPort)
  {
    if k > 0 {
      ExpectedEventsAt(tcs, outcomes, defaultPort, k - 1);
    }
  }

  /** New tunnels to start: distinct names, none of them in the table yet. */
  ghost predicate FreshStart(table: OrderedMap<ManagedTunnel>, tcs: seq<TunnelConfig>, outcomes: seq<Option<string>>) {
    && WellFormed(table) && |tcs| == |outcomes| && DistinctNames(tcs)
    && forall i :: 0 <= i < |tcs| ==> !table.Has(tcs[i].name)
  }

  /** After the first `k - 1` of distinct new names, the `k`-th is absent. */
  lemma NextIsAbsent(table: OrderedMap<ManagedTunnel>, tcs: seq<TunnelConfig>,
                     outcomes: seq<Option<string>>, defaultPort: Option<int>, k: nat, before: StartAllOutcome)
    requires FreshStart(table, tcs, outcomes) && 0 < k <= |tcs|
    requires before.table.Valid()
    requires before.table.keys == table.keys + SuccessNames(tcs, outcomes, defaultPort, k - 1)
    ensures !before.table.Has(tcs[k - 1].name)
  {
    SuccessNamesMembers(tcs, outcomes, defaultPort, k - 1);
    assert tcs[k - 1].name !in SuccessNames(tcs, outcomes, defaultPort, k - 1);
    assert tcs[k - 1].name !in table.keys;
  }

  /** The table after `k` iterations over distinct new names: the started names
      appended in order, each with its URL and zero attempts. */
  ghost predicate FreshTable(table: OrderedMap<ManagedTunnel>, tcs: seq<TunnelConfig>, outcomes: seq<Option<string>>,
                             defaultPort: Option<int>, k: nat, r: StartAllOutcome)
    requires |tcs| == |outcomes| && k <= |tcs|
  {
    && r.table.Valid()
    && r.table.keys == table.keys + SuccessNames(tcs, outcomes, defaultPort, k)
    && forall i :: 0 <= i < k && r.table.Has(tcs[i].name) ==>
         Some(r.table.entries[tcs[i].name].url) == outcomes[i] && r.table.entries[tcs[i].name].startAttempts == 0
  }

  lemma FreshTableStep(table: OrderedMap<ManagedTunnel>, tcs: seq<TunnelConfig>, outcomes: seq<Option<string>>,
                       defaultPort: Option<int>, k: nat, before: StartAllOutcome)
    requires FreshStart(table, tcs, outcomes) && 0 < k <= |tcs| && WellFormed(before.table)
    requires FreshTable(table, tcs, outcomes, defaultPort, k - 1, before)
    ensures FreshTable(table, tcs, outcomes, defaultPort, k, StartStep(before, tcs[k - 1], outcomes[k - 1], defaultPort))
  {
    NextIsAbsent(table, tcs, outcomes, defaultPort, k, before);
    StepFreshTable(before, tcs[k - 1], outcomes[k - 1], defaultPort);
    var r := StartStep(before, tcs[k - 1], outcomes[k - 1], defaultPort);
    forall i | 0 <= i < k && r.table.Has(tcs[i].name)
      ensures Some(r.table.entries[tcs[i].name].url) == outcomes[i]
      ensures r.table.entries[tcs[i].name].startAttempts == 0
    {
      if i < k - 1 {
        assert tcs[i].name != tcs[k - 1].name;
      }
    }
  }

  lemma {:induction false} FreshTableLoop(table: OrderedMap<ManagedTunnel>, tcs: seq<TunnelConfig>,
                                          outcomes: seq<Option<string>>, defaultPort: Option<int>, k: nat)
    requires FreshStart(table, tcs, outcomes) && k <= |tcs|
    ensures FreshTable(table, tcs, outcomes, defaultPort, k, StartLoop(table, tcs, outcomes, defaultPort, k))
  {
    if k > 0 {
      FreshTableLoop(table, tcs, outcomes, defaultPort, k - 1);
      FreshTableStep(table, tcs, outcomes, defaultPort, k, StartLoop(table, tcs, outcomes, defaultPort, k - 1));
    }
  }

  lemma {:induction false} FreshResultsLoop(table: OrderedMap<ManagedTunnel>, tcs: seq<TunnelConfig>,
                                            outcomes: seq<Option<string>>, defaultPort: Option<int>, k: nat)
    requires FreshStart(table, tcs, outcomes) && k <= |tcs|
    ensures var r := StartLoop(table, tcs, outcomes, defaultPort, k);
      r.urls == SuccessUrls(tcs, outcomes, defaultPort, k) && r.events == ExpectedEvents(tcs, outcomes, defaultPort, k)
  {
    if k > 0 {
      var before := StartLoop(table, tcs, outcomes, defaultPort, k - 1);
      FreshResultsLoop(table, tcs, outcomes, defaultPort, k - 1);
      FreshTableLoop(table, tcs, outcomes, defaultPort, k - 1);
      NextIsAbsent(table, tcs, outcomes, defaultPort, k, before);
      StepFreshResult(before, tcs[k - 1], outcomes[k - 1], defaultPort);
    }
  }

  /** Starting tunnels with distinct new names: each one that starts is appended to
      the table in configuration order with zero attempts and its URL, and each one
      that does not stays absent. */
  lemma StartLoopFreshTable(table: OrderedMap<ManagedTunnel>, tcs: seq<TunnelConfig>,
                            outcomes: seq<Option<string>>, defaultPort: Option<int>, k: nat)
    requires FreshStart(table, tcs, outcomes) && k <= |tcs|
    ensures var r := StartLoop(table, tcs, outcomes, defaultPort, k);
      && r.table.keys == table.keys + SuccessNames(tcs, outcomes, defaultPort, k)
      && (forall i :: 0 <= i < k ==>
            && (r.table.Has(tcs[i].name) <==> Succeeds(tcs[i], outcomes[i], defaultPort))
            && (r.table.Has(tcs[i].name) ==>
                  r.table.entries[tcs[i].name].url == outcomes[i].value
                  && r.table.entries[tcs[i].name].startAttempts == 0))
  {
    FreshTableLoop(table, tcs, outcomes, defaultPort, k);
    SuccessNamesMembers(tcs, outcomes, defaultPort, k);
    var r := StartLoop(table, tcs, outcomes, defaultPort, k);
    forall i | 0 <= i < k
      ensures r.table.Has(tcs[i].name) <==> Succeeds(tcs[i], outcomes[i], defaultPort)
    {
      assert tcs[i].name !in table.keys;
    }
  }

  /** Starting tunnels with distinct new names: the URLs returned are exactly those of
      the tunnels that started, in configuration order, and each tunnel yields exactly
      one event, `tunnelReady` with its URL or `error`. */
  lemma StartLoopFreshResults(table: OrderedMap<ManagedTunnel>, tcs: seq<TunnelConfig>,
                              outcomes: seq<Option<string>>, defaultPort: Option<int>, k: nat)
    requires FreshStart(table, tcs, outcomes) && k <= |tcs|
    ensures var r := StartLoop(table, tcs, outcomes, defaultPort, k);
      && r.urls == SuccessUrls(tcs, outcomes, defaultPort, k)
      && |r.events| == k
      && (forall i :: 0 <= i < k ==>
            r.events[i] == if Succeeds(tcs[i], outcomes[i], defaultPort)
                           then TunnelReady(tcs[i].name, outcomes[i].value)
                           else Error(StartFailed(tcs[i].name)))
  {
    FreshResultsLoop(table, tcs, outcomes, defaultPort, k);
    ExpectedEventsAt(tcs, outcomes, defaultPort, k);
  }

  /** Starting tunnels whose names are all in the table already: the table is left
      as it was, no event is emitted, and each tunnel answers with the URL it already
      has. */
  lemma {:induction false} StartLoopAllKnown(table: OrderedMap<ManagedTunnel>, tcs: seq<TunnelConfig>,
                                             outcomes: seq<Option<string>>, defaultPort: Option<int>, k: nat)
    requires WellFormed(table) && |tcs| == |outcomes| && k <= |tcs|
    requires forall i :: 0 <= i < |tcs| ==> table.Has(tcs[i].name)
    ensures var r := StartLoop(table, tcs, outcomes, defaultPort, k);
      && r.table == table && r.events == [] && |r.urls| == k
      && forall i :: 0 <= i < k ==> r.urls[i] == table.entries[tcs[i].name].url
    decreases k
  {
    if k > 0 {
      StartLoopAllKnown(table, tcs, outcomes, defaultPort, k - 1);
      var before := StartLoop(table, tcs, outcomes, defaultPort, k - 1);
      StepKnown(before, tcs[k - 1], outcomes[k - 1], defaultPort);
      var r := StartLoop(table, tcs, outcomes, defaultPort, k);
      assert r.urls == before.urls + [table.entries[tcs[k - 1].name].url];
      forall i | 0 <= i < k - 1
        ensures r.urls[i] == table.entries[tcs[i].name].url
      {
        assert r.urls[i] == before.urls[i];
      }
    }
  }

  /** One iteration of `start`'s loop for a name already in the table. */
  lemma StepKnown(before: StartAllOutcome, tc: TunnelConfig, outcome: Option<string>, defaultPort: Option<int>)
    requires WellFormed(before.table) && before.table.Has(tc.name)
    ensures StartStep(before, tc, outcome, defaultPort)
         == StartAllOutcome(before.table, before.urls + [before.table.entries[tc.name].url], before.events)
  {
    assert before.events + [] == before.events;
  }

  /** `restartTunnel`: ignored while stopping or for an absent name; otherwise the
      entry is removed first, the attempt count goes up by one, and past the cap the
      tunnel is given up; below it, a successful start re-inserts it with the carried
      count, while a failed start leaves it removed. */
  function RestartSpec(table: OrderedMap<ManagedTunnel>, isStopping: bool, tc: TunnelConfig,
                       outcome: Option<string>, defaultPort: Option<int>): (r: (OrderedMap<ManagedTunnel>, seq<WebhookEvent>))
    requires WellFormed(table)
    ensures WellFormed(r.0)
  {
    if isStopping || !table.Has(tc.name) then (table, [])
    else RestartRemoved(table.Delete(tc.name), tc, outcome, defaultPort, table.entries[tc.name].startAttempts + 1)
  }

  /** A restart once the entry is removed, with its raised attempt count: past the
      cap it reports the error, below it it starts the tunnel again. */
  function RestartRemoved(removed: OrderedMap<ManagedTunnel>, tc: TunnelConfig, outcome: Option<string>,
                          defaultPort: Option<int>, attempts: nat): (r: (OrderedMap<ManagedTunnel>, seq<WebhookEvent>))
    requires WellFormed(removed) && attempts <= MaxStartAttempts + 1
    ensures WellFormed(r.0)
  {
    if attempts > MaxStartAttempts then (removed, [Error(MaxRestartAttemptsReached(tc.name))])
    else StartAgainSpec(removed, tc, outcome, defaultPort, attempts)
  }

  /** The start a restart makes on the table without the entry; a started entry
      carries the raised attempt count. */
  function StartAgainSpec(removed: OrderedMap<ManagedTunnel>, tc: TunnelConfig, outcome: Option<string>,
                          defaultPort: Option<int>, attempts: nat): (r: (OrderedMap<ManagedTunnel>, seq<WebhookEvent>))
    requires WellFormed(removed) && attempts <= MaxStartAttempts
    ensures WellFormed(r.0)
  {
    var s := StartTunnelSpec(removed, tc, outcome, defaultPort);
    if s.result.Ok? && s.table.Has(tc.name) then
      (s.table.Set(tc.name, s.table.entries[tc.name].(url := s.result.value, startAttempts := attempts)), s.events)
    else (s.table, s.events)
  }

  /** The cases of `restartTunnel`: nothing happens while stopping or for an absent
      name; past the cap the entry is dropped with an error; below it a failed start
      leaves the entry dropped and a successful one re-appends it with the raised
      count. No other entry is touched. */
  lemma RestartCases(table: OrderedMap<ManagedTunnel>, isStopping: bool, tc: TunnelConfig,
                     outcome: Option<string>, defaultPort: Option<int>)
    requires WellFormed(table)
    ensures var r := RestartSpec(table, isStopping, tc, outcome, defaultPort);
      isStopping || !table.Has(tc.name) ==> r == (table, [])
    ensures var r := RestartSpec(table, isStopping, tc, outcome, defaultPort);
      !isStopping && table.Has(tc.name) ==>
      var attempts := table.entries[tc.name].startAttempts + 1;
      && (attempts > MaxStartAttempts ==>
            r == (table.Delete(tc.name), [Error(MaxRestartAttemptsReached(tc.name))]))
      && (attempts <= MaxStartAttempts && !Succeeds(tc, outcome, defaultPort) ==>
            r == (table.Delete(tc.name), []))
      && (attempts <= MaxStartAttempts && Succeeds(tc, outcome, defaultPort) ==>
            && r.0.Has(tc.name)
            && r.0.entries[tc.name].startAttempts == attempts
            && r.0.entries[tc.name].url == outcome.value
            && r.0.keys == table.Delete(tc.name).keys + [tc.name]
            && r.1 == [TunnelReady(tc.name, outcome.value)])
    ensures var r := RestartSpec(table, isStopping, tc, outcome, defaultPort);
      forall n :: n != tc.name ==>
      (r.0.Has(n) <==> table.Has(n)) && (table.Has(n) ==> r.0.entries[n] == table.entries[n])
  {
    if !isStopping && table.Has(tc.name) {
      StartTunnelCases(table.Delete(tc.name), tc, outcome, defaultPort);
    }
  }

  /** A restart of a present entry is the restart of the table without it. */
  lemma RestartPresent(table: OrderedMap<ManagedTunnel>, tc: TunnelConfig, outcome: Option<string>,
                       defaultPort: Option<int>, attempts: nat)
    requires WellFormed(table) && table.Has(tc.name)
    requires attempts == table.entries[tc.name].startAttempts + 1
    ensures RestartSpec(table, false, tc, outcome, defaultPort)
         == RestartRemoved(table.Delete(tc.name), tc, outcome, defaultPort, attempts)
  {
  }

  /** The `critical` handler: ignored while stopping; otherwise the tunnel is reported
      down and restarted. */
  function OnCriticalSpec(table: OrderedMap<ManagedTunnel>, isStopping: bool, tc: TunnelConfig, error: HealthError,
                          outcome: Option<string>, defaultPort: Option<int>): (r: (OrderedMap<ManagedTunnel>, seq<WebhookEvent>))
    requires WellFormed(table)
    ensures WellFormed(r.0)
    ensures isStopping ==> r == (table, [])
    ensures !isStopping ==> |r.1| >= 1 && r.1[0] == TunnelDown(tc.name, error)
  {
    if isStopping then (table, [])
    else
      var (t, events) := RestartSpec(table, false, tc, outcome, defaultPort);
      (t, [TunnelDown(tc.name, error)] + events)
  }

  /** A restart signal: the error the health checker reported and the outcome of the
      provider start the restart makes. */
  datatype Signal = Signal(error: HealthError, outcome: Option<string>)

  /** The table after a series of `critical` signals for one tunnel (not stopping). */
  function CriticalSeries(table: OrderedMap<ManagedTunnel>, tc: TunnelConfig, signals: seq<Signal>,
                          defaultPort: Option<int>): (r: (OrderedMap<ManagedTunnel>, seq<WebhookEvent>))
    requires WellFormed(table)
    ensures WellFormed(r.0)
    ensures |r.1| >= |signals|
    ensures signals != [] ==> r.1[0] == TunnelDown(tc.name, signals[0].error)
    decreases |signals|
  {
    if signals == [] then (table, [])
    else
      var first := OnCriticalSpec(table, false, tc, signals[0].error, signals[0].outcome, defaultPort);
      var rest := CriticalSeries(first.0, tc, signals[1..], defaultPort);
      (rest.0, first.1 + rest.1)
  }

  function CountReady(events: seq<WebhookEvent>): nat {
    if events == [] then 0
    else (if events[0].TunnelReady? then 1 else 0) + CountReady(events[1..])
  }

  lemma CountReadyAppend(a: seq<WebhookEvent>, b: seq<WebhookEvent>)
    ensures CountReady(a + b) == CountReady(a) + CountReady(b)
  {
    if a != [] {
      assert (a + b)[0] == a[0];
      assert (a + b)[1..] == a[1..] + b;
      CountReadyAppend(a[1..], b);
    } else {
      assert a + b == b;
    }
  }

  function Min(a: int, b: int): int {
    if a <= b then a else b
  }

  /** Once a name is absent, `critical` signals for it only report it down: nothing
      re-creates it. */
  lemma {:induction false} AbsentStaysAbsent(table: OrderedMap<ManagedTunnel>, tc: TunnelConfig,
                                             signals: seq<Signal>, defaultPort: Option<int>)
    requires WellFormed(table) && !table.Has(tc.name)
    ensures CriticalSeries(table, tc, signals, defaultPort).0 == table
    ensures CountReady(CriticalSeries(table, tc, signals, defaultPort).1) == 0
    decreases |signals|
  {
    if signals != [] {
      AbsentStaysAbsent(table, tc, signals[1..], defaultPort);
      var first := OnCriticalSpec(table, false, tc, signals[0].error, signals[0].outcome, defaultPort);
      assert first.1 == [TunnelDown(tc.name, signals[0].error)];
      CountReadyAppend(first.1, CriticalSeries(first.0, tc, signals[1..], defaultPort).1);
    }
  }

  /** One `critical` signal against a provider that starts: below the cap the entry
      comes back with one more attempt and one `tunnelReady`; past it the entry is gone
      and nothing is announced. */
  lemma CriticalStep(table: OrderedMap<ManagedTunnel>, tc: TunnelConfig, signal: Signal, defaultPort: Option<int>)
    requires WellFormed(table) && table.Has(tc.name)
    requires CreateProvider(tc, defaultPort).Ok? && signal.outcome.Some?
    ensures var a := table.entries[tc.name].startAttempts;
      var first := OnCriticalSpec(table, false, tc, signal.error, signal.outcome, defaultPort);
      && (a + 1 > MaxStartAttempts ==> !first.0.Has(tc.name) && CountReady(first.1) == 0)
      && (a + 1 <= MaxStartAttempts ==>
            first.0.Has(tc.name) && first.0.entries[tc.name].startAttempts == a + 1 && CountReady(first.1) == 1)
  {
    var a := table.entries[tc.name].startAttempts;
    var removed := table.Delete(tc.name);
    var r := RestartSpec(table, false, tc, signal.outcome, defaultPort);
    var first := OnCriticalSpec(table, false, tc, signal.error, signal.outcome, defaultPort);
    var down := TunnelDown(tc.name, signal.error);
    assert first == (r.0, [down] + r.1);
    if a + 1 > MaxStartAttempts {
      RestartPresent(table, tc, signal.outcome, defaultPort, a + 1);
      var error := Error(MaxRestartAttemptsReached(tc.name));
      assert [down] + r.1 == [down, error];
      assert [down, error][1..] == [error] && [error][1..] == [];
      assert CountReady([error]) == 0;
      assert CountReady(first.1) == 0;
    } else {
      RestartPresent(table, tc, signal.outcome, defaultPort, a + 1);
      StartTunnelCases(removed, tc, signal.outcome, defaultPort);
      var ready := TunnelReady(tc.name, signal.outcome.value);
      assert [down] + r.1 == [down, ready];
      assert [down, ready][1..] == [ready] && [ready][1..] == [];
      assert CountReady([ready]) == 1;
      assert CountReady(first.1) == 1;
    }
  }

  /** The restart bound: against a provider that always starts, a tunnel with `a`
      attempts survives a series of `critical` signals exactly while the count stays
      within the cap of 5, its count rising by one per signal, and at most `5 - a`
      restarts ever succeed. */
  lemma {:induction false} RestartsAreBounded(table: OrderedMap<ManagedTunnel>, tc: TunnelConfig,
                                              signals: seq<Signal>, defaultPort: Option<int>)
    requires WellFormed(table) && table.Has(tc.name)
    requires CreateProvider(tc, defaultPort).Ok?
    requires forall i :: 0 <= i < |signals| ==> signals[i].outcome.Some?
    ensures var a := table.entries[tc.name].startAttempts;
      var r := CriticalSeries(table, tc, signals, defaultPort);
      && (r.0.Has(tc.name) <==> a + |signals| <= MaxStartAttempts)
      && (r.0.Has(tc.name) ==> r.0.entries[tc.name].startAttempts == a + |signals|)
      && CountReady(r.1) == Min(|signals|, MaxStartAttempts - a)
    decreases |signals|
  {
    if signals != [] {
      var a := table.entries[tc.name].startAttempts;
      CriticalStep(table, tc, signals[0], defaultPort);
      var first := OnCriticalSpec(table, false, tc, signals[0].error, signals[0].outcome, defaultPort);
      var rest := CriticalSeries(first.0, tc, signals[1..], defaultPort);
      CountReadyAppend(first.1, rest.1);
      if a + 1 > MaxStartAttempts {
        AbsentStaysAbsent(first.0, tc, signals[1..], defaultPort);
      } else {
        RestartsAreBounded(first.0, tc, signals[1..], defaultPort);
      }
    }
  }

  /** One `critical` signal, whatever the provider does: the entry survives only with
      one more attempt within the cap, and one `tunnelReady` is announced exactly when
      it survives. */
  lemma CriticalStepAny(table: OrderedMap<ManagedTunnel>, tc: TunnelConfig, signal: Signal, defaultPort: Option<int>)
    requires WellFormed(table) && table.Has(tc.name)
    ensures var a := table.entries[tc.name].startAttempts;
      var first := OnCriticalSpec(table, false, tc, signal.error, signal.outcome, defaultPort);
      && (first.0.Has(tc.name) ==> a + 1 <= MaxStartAttempts && first.0.entries[tc.name].startAttempts == a + 1)
      && CountReady(first.1) == if first.0.Has(tc.name) then 1 else 0
  {
    var a := table.entries[tc.name].startAttempts;
    var removed := table.Delete(tc.name);
    var r := RestartSpec(table, false, tc, signal.outcome, defaultPort);
    var first := OnCriticalSpec(table, false, tc, signal.error, signal.outcome, defaultPort);
    var down := TunnelDown(tc.name, signal.error);
    assert first == (r.0, [down] + r.1);
    RestartPresent(table, tc, signal.outcome, defaultPort, a + 1);
    if a + 1 > MaxStartAttempts {
      var error := Error(MaxRestartAttemptsReached(tc.name));
      assert [down] + r.1 == [down, error];
      assert [down, error][1..] == [error] && [error][1..] == [];
      assert CountReady([error]) == 0;
    } else if Succeeds(tc, signal.outcome, defaultPort) {
      StartTunnelCases(removed, tc, signal.outcome, defaultPort);
      var ready := TunnelReady(tc.name, signal.outcome.value);
      assert [down] + r.1 == [down, ready];
      assert [down, ready][1..] == [ready] && [ready][1..] == [];
      assert CountReady([ready]) == 1;
    } else {
      StartTunnelCases(removed, tc, signal.outcome, defaultPort);
      assert r == (removed, []);
      assert [down] + r.1 == [down];
      assert [down][1..] == [];
    }
  }

  /** The restart bound for any provider behaviour: a tunnel with `a` attempts that
      survives a series of `critical` signals has gained one attempt per signal and
      stays within the cap of 5, and no more than `5 - a` restarts ever succeed. */
  lemma {:induction false} RestartsBoundedAnyOutcome(table: OrderedMap<ManagedTunnel>, tc: TunnelConfig,
                                                     signals: seq<Signal>, defaultPort: Option<int>)
    requires WellFormed(table) && table.Has(tc.name)
    ensures var a := table.entries[tc.name].startAttempts;
      var r := CriticalSeries(table, tc, signals, defaultPort);
      && (r.0.Has(tc.name) ==>
            a + |signals| <= MaxStartAttempts && r.0.entries[tc.name].startAttempts == a + |signals|)
      && CountReady(r.1) <= Min(|signals|, MaxStartAttempts - a)
    decreases |signals|
  {
    if signals != [] {
      CriticalStepAny(table, tc, signals[0], defaultPort);
      var first := OnCriticalSpec(table, false, tc, signals[0].error, signals[0].outcome, defaultPort);
      var rest := CriticalSeries(first.0, tc, signals[1..], defaultPort);
      CountReadyAppend(first.1, rest.1);
      if first.0.Has(tc.name) {
        RestartsBoundedAnyOutcome(first.0, tc, signals[1..], defaultPort);
      } else {
        AbsentStaysAbsent(first.0, tc, signals[1..], defaultPort);
      }
    }
  }

  /** A restart whose provider fails to start removes the tunnel for good: no later
      `critical` signal brings it back, whatever the attempt count. */
  lemma FailedRestartIsFinal(table: OrderedMap<ManagedTunnel>, tc: TunnelConfig,
                             signals: seq<Signal>, defaultPort: Option<int>)
    requires WellFormed(table) && table.Has(tc.name)
    requires |signals| >= 1 && signals[0].outcome.None?
    ensures CriticalSeries(table, tc, signals, defaultPort).0 == table.Delete(tc.name)
  {
    RestartCases(table, false, tc, signals[0].outcome, defaultPort);
    var first := OnCriticalSpec(table, false, tc, signals[0].error, signals[0].outcome, defaultPort);
    assert first.0 == table.Delete(tc.name);
    AbsentStaysAbsent(first.0, tc, signals[1..], defaultPort);
  }

  /** Two tunnels, `web` (ngrok, resolving `https://x.test`) and `api` (localhost.run,
      failing to start): `start` returns only `web`'s URL, reports `api`'s failure, and
      only `web` is in the table. */
  lemma PartialStartScenario()
    ensures var web := TunnelConfig("web", NgrokTag, Some(3000), None);
      var api := TunnelConfig("api", LocalhostRunTag, Some(3001), None);
      var r := StartLoop(Empty(), [web, api], [Some("https://x.test"), None], Some(DefaultPort), 2);
      && r.urls == ["https://x.test"]
      && r.events == [TunnelReady("web", "https://x.test"), Error(StartFailed("api"))]
      && r.table.Has("web") && r.table.entries["web"].url == "https://x.test"
      && !r.table.Has("api")
  {
    var web := TunnelConfig("web", NgrokTag, Some(3000), None);
    var api := TunnelConfig("api", LocalhostRunTag, Some(3001), None);
    var tcs: seq<TunnelConfig>, outs: seq<Option<string>> := [web, api], [Some("https://x.test"), None];
    var dp := Some(DefaultPort);
    var empty: OrderedMap<ManagedTunnel> := Empty();
    var r0 := StartLoop(empty, tcs, outs, dp, 0);
    assert r0 == StartAllOutcome(empty, [], []);
    StartTunnelCases(empty, web, outs[0], dp);
    var r1 := StartLoop(empty, tcs, outs, dp, 1);
    assert r1 == StartStep(r0, web, outs[0], dp);
    assert r1.urls == ["https://x.test"] && r1.events == [TunnelReady("web", "https://x.test")];
    assert r1.table.Has("web") && !r1.table.Has("api");
    StartTunnelCases(r1.table, api, outs[1], dp);
    var r2 := StartLoop(empty, tcs, outs, dp, 2);
    assert r2 == StartStep(r1, api, outs[1], dp);
    assert r2.table == r1.table;
  }

  // ---------------------------------------------------------------------
  // The orchestrator object
  // ---------------------------------------------------------------------

  datatype TunnelStatus = TunnelStatus(
    isRunning: bool,
    url: string,
    provider: string,
    startAttempts: nat,
    health: HealthStatus)

  class AutoWebhook {
    const config: AutoWebhookConfig
    var tunnels: OrderedMap<ManagedTunnel>
    /** Each entry's health checker, under the entry's name. */
    var healthCheckers: map<string, HealthChecker>
    var isStopping: bool

    /** The checkers sit under exactly the entries' names, each entry owning its own. */
    ghost predicate Valid()
      reads this
    {
      && WellFormed(tunnels)
      && healthCheckers.Keys == tunnels.entries.Keys
      && forall n, m :: n in healthCheckers && m in healthCheckers && n != m ==> healthCheckers[n] != healthCheckers[m]
    }

    function Checkers(): set<HealthChecker>
      reads this
    {
      healthCheckers.Values
    }

    constructor (options: AutoWebhookConfig)
      ensures Valid()
      ensures config == ResolveConfig(options)
      ensures tunnels.keys == [] && !isStopping
    {
      config := ResolveConfig(options);
      tunnels := Empty();
      healthCheckers := map[];
      isStopping := false;
    }

    /** A health checker as `startTunnel` leaves a new one: the orchestrator's policy,
        a zero count with `now` as its last success, and an interval on `url` when
        enabled. */
    ghost predicate StartedChecker(c: HealthChecker, now: int, url: string)
      reads c
    {
      && c.config == ResolveHealthConfig(config.healthCheck)
      && c.CounterOf() == Counter(0, now)
      && c.checkInterval == if c.config.enabled then Some(url) else None
    }

    /** Every checker under a name outside `known` is one `startTunnel` set up at `now`
        on its entry's URL. */
    ghost predicate NewCheckersStarted(known: set<string>, now: int)
      reads this, Checkers()
    {
      forall n :: n in healthCheckers && n !in known && n in tunnels.entries ==>
        StartedChecker(healthCheckers[n], now, tunnels.entries[n].url)
    }

    /** `startTunnel`, with `outcome` the result of the provider's `start()`. A new
        entry gets a fresh health checker, started on the URL. */
    method StartTunnel(tc: TunnelConfig, outcome: Option<string>, now: int)
      returns (result: Result<string, TunnelError>, events: seq<WebhookEvent>)
      requires Valid()
      modifies this
      ensures Valid()
      ensures StartOutcome(tunnels, result, events) == StartTunnelSpec(old(tunnels), tc, outcome, config.port)
      ensures isStopping == old(isStopping)
      ensures forall n :: n in old(healthCheckers) ==> n in healthCheckers && healthCheckers[n] == old(healthCheckers)[n]
      ensures forall n :: n in healthCheckers && n !in old(healthCheckers) ==>
        && n == tc.name && result.Ok?
        && fresh(healthCheckers[n])
        && StartedChecker(healthCheckers[n], now, result.value)
    {
      if tunnels.Has(tc.name) {
        result, events := Ok(tunnels.entries[tc.name].url), [];
        return;
      }
      var provider := CreateProvider(tc, config.port);
      if provider.Err? {
        result, events := Err(provider.error), [];
        return;
      }
      if outcome.None? {
        result, events := Err(ProviderStartFailed), [];
        return;
      }
      var url := outcome.value;
      var healthChecker := new HealthChecker(config.healthCheck, now);
      healthChecker.Start(url);
      Install(tc.name, ManagedTunnel(tc, provider.value.(currentUrl := url, running := true), url, 0), healthChecker);
      result, events := Ok(url), [TunnelReady(tc.name, url)];
    }

    /** `this.tunnels.set(name, managedTunnel)` for a new name, with its own checker. */
    method Install(name: string, entry: ManagedTunnel, checker: HealthChecker)
      requires Valid() && !tunnels.Has(name) && checker !in Checkers()
      requires entry.config.name == name && entry.startAttempts <= MaxStartAttempts
      modifies this
      ensures Valid()
      ensures tunnels == old(tunnels).Set(name, entry)
      ensures healthCheckers == old(healthCheckers)[name := checker]
      ensures isStopping == old(isStopping)
    {
      tunnels := tunnels.Set(name, entry);
      healthCheckers := healthCheckers[name := checker];
    }

    /** `start`: clears the stopping flag and starts every configured tunnel in order,
        collecting the URLs of those that start. */
    method Start(outcomes: seq<Option<string>>, now: int) returns (urls: seq<string>, events: seq<WebhookEvent>)
      requires Valid() && |outcomes| == |config.tunnels|
      modifies this
      ensures Valid()
      ensures !isStopping
      ensures StartAllOutcome(tunnels, urls, events)
           == StartLoop(old(tunnels), config.tunnels, outcomes, config.port, |config.tunnels|)
      ensures forall n :: n in old(healthCheckers) ==> n in healthCheckers && healthCheckers[n] == old(healthCheckers)[n]
      ensures forall n :: n in healthCheckers && n !in old(healthCheckers) ==> fresh(healthCheckers[n])
      ensures NewCheckersStarted(old(healthCheckers).Keys, now)
    {
      ghost var known := healthCheckers.Keys;
      isStopping := false;
      urls, events := [], [];
      var i := 0;
      while i < |config.tunnels|
        invariant 0 <= i <= |config.tunnels|
        invariant Valid() && !isStopping
        invariant StartAllOutcome(tunnels, urls, events)
               == StartLoop(old(tunnels), config.tunnels, outcomes, config.port, i)
        invariant forall n :: n in old(healthCheckers) ==> n in healthCheckers && healthCheckers[n] == old(healthCheckers)[n]
        invariant forall n :: n in healthCheckers && n !in old(healthCheckers) ==> fresh(healthCheckers[n])
        invariant NewCheckersStarted(known, now)
      {
        ghost var before := StartAllOutcome(tunnels, urls, events);
        urls, events := StartNext(config.tunnels[i], outcomes[i], now, urls, events, known);
        assert StartLoop(old(tunnels), config.tunnels, outcomes, config.port, i + 1)
            == StartStep(before, config.tunnels[i], outcomes[i], config.port);
        i := i + 1;
      }
    }

    /** One iteration of `start`'s loop: a started tunnel adds its URL and its events,
        a failed one an `error` event. */
    method StartNext(tc: TunnelConfig, outcome: Option<string>, now: int, urls: seq<string>, events: seq<WebhookEvent>,
                     ghost known: set<string>)
      returns (urls': seq<string>, events': seq<WebhookEvent>)
      requires Valid() && NewCheckersStarted(known, now)
      modifies this
      ensures Valid() && isStopping == old(isStopping)
      ensures StartAllOutcome(tunnels, urls', events')
           == StartStep(StartAllOutcome(old(tunnels), urls, events), tc, outcome, config.port)
      ensures forall n :: old(tunnels).Has(n) ==> tunnels.Has(n) && tunnels.entries[n] == old(tunnels).entries[n]
      ensures forall n :: n in old(healthCheckers) ==> n in healthCheckers && healthCheckers[n] == old(healthCheckers)[n]
      ensures forall n :: n in healthCheckers && n !in old(healthCheckers) ==>
        && n == tc.name && fresh(healthCheckers[n])
        && StartedChecker(healthCheckers[n], now, tunnels.entries[n].url)
      ensures NewCheckersStarted(known, now)
    {
      StartTunnelCases(tunnels, tc, outcome, config.port);
      var result, ev := StartTunnel(tc, outcome, now);
      if result.Ok? {
        urls', events' := urls + [result.value], events + ev;
      } else {
        urls', events' := urls, events + [Error(StartFailed(tc.name))];
      }
    }

    /** `restartTunnel`, with `outcome` the result of the restarted provider's `start()`.
        When the restart goes ahead, the old entry's health checker is stopped with its
        counter kept, its provider is returned as the one told to stop, and a restarted
        entry gets a fresh checker; no other name's checker changes. */
    method RestartTunnel(tc: TunnelConfig, outcome: Option<string>, now: int)
      returns (events: seq<WebhookEvent>, stopped: Option<ProviderHandle>)
      requires Valid()
      modifies this, Checkers()
      ensures Valid()
      ensures (tunnels, events) == RestartSpec(old(tunnels), old(isStopping), tc, outcome, config.port)
      ensures isStopping == old(isStopping)
      ensures stopped == if !old(isStopping) && old(tunnels).Has(tc.name)
                         then Some(old(tunnels).entries[tc.name].provider) else None
      ensures old(isStopping) || !old(tunnels).Has(tc.name) ==> healthCheckers == old(healthCheckers)
      ensures !old(isStopping) && tc.name in old(healthCheckers) ==>
        old(healthCheckers)[tc.name].checkInterval.None?
      ensures tc.name in old(healthCheckers) ==>
        old(healthCheckers)[tc.name].CounterOf() == old(healthCheckers[tc.name].CounterOf())
      ensures forall c :: c in old(Checkers()) ==>
        (tc.name in old(healthCheckers) && c == old(healthCheckers)[tc.name]) || unchanged(c)
      ensures forall n :: n in old(healthCheckers) && n != tc.name ==>
        n in healthCheckers && healthCheckers[n] == old(healthCheckers)[n] && unchanged(healthCheckers[n])
      ensures !old(isStopping) && tc.name in old(healthCheckers) && tc.name in healthCheckers ==>
        fresh(healthCheckers[tc.name]) && StartedChecker(healthCheckers[tc.name], now, tunnels.entries[tc.name].url)
    {
      if isStopping || !tunnels.Has(tc.name) {
        events, stopped := [], None;
        return;
      }
      var provider;
      events, provider := RestartEntry(tc, outcome, now);
      stopped := Some(provider);
    }

    /** The restart proper, once the entry is known to exist and the orchestrator is
        not stopping. */
    method RestartEntry(tc: TunnelConfig, outcome: Option<string>, now: int)
      returns (events: seq<WebhookEvent>, stopped: ProviderHandle)
      requires Valid() && !isStopping && tunnels.Has(tc.name)
      modifies this, healthCheckers[tc.name]
      ensures Valid()
      ensures (tunnels, events) == RestartSpec(old(tunnels), false, tc, outcome, config.port)
      ensures !isStopping
      ensures stopped == old(tunnels).entries[tc.name].provider
      ensures old(healthCheckers)[tc.name].checkInterval.None?
      ensures old(healthCheckers)[tc.name].CounterOf() == old(healthCheckers[tc.name].CounterOf())
      ensures forall n :: n in old(healthCheckers) && n != tc.name ==>
        n in healthCheckers && healthCheckers[n] == old(healthCheckers)[n] && unchanged(healthCheckers[n])
      ensures tc.name in healthCheckers ==>
        fresh(healthCheckers[tc.name]) && StartedChecker(healthCheckers[tc.name], now, tunnels.entries[tc.name].url)
    {
      ghost var before := tunnels;
      var managed := RemoveTunnel(tc.name);
      stopped := managed.provider;
      var attempts := managed.startAttempts + 1;
      if attempts > MaxStartAttempts {
        events := [Error(MaxRestartAttemptsReached(tc.name))];
        RestartPresent(before, tc, outcome, config.port, attempts);
        return;
      }
      events := StartAgain(tc, outcome, now, attempts);
      RestartPresent(before, tc, outcome, config.port, attempts);
    }

    /** Stops the health checker of entry `name` and deletes the entry; the returned
        entry holds the provider that is told to stop. */
    method RemoveTunnel(name: string) returns (managed: ManagedTunnel)
      requires Valid() && tunnels.Has(name)
      modifies this, healthCheckers[name]
      ensures Valid()
      ensures managed == old(tunnels).entries[name]
      ensures old(healthCheckers)[name].checkInterval.None?
      ensures old(healthCheckers)[name].CounterOf() == old(healthCheckers[name].CounterOf())
      ensures tunnels == old(tunnels).Delete(name)
      ensures healthCheckers == old(healthCheckers) - {name}
      ensures isStopping == old(isStopping)
    {
      managed := tunnels.entries[name];
      healthCheckers[name].Stop();
      tunnels := tunnels.Delete(name);
      healthCheckers := healthCheckers - {name};
    }

    /** The start a restart makes, carrying the raised attempt count into the new
        entry, whose checker is a fresh one. */
    method StartAgain(tc: TunnelConfig, outcome: Option<string>, now: int, attempts: nat)
      returns (events: seq<WebhookEvent>)
      requires Valid() && !isStopping && !tunnels.Has(tc.name) && attempts <= MaxStartAttempts
      modifies this
      ensures Valid() && !isStopping
      ensures (tunnels, events) == StartAgainSpec(old(tunnels), tc, outcome, config.port, attempts)
      ensures forall n :: n in old(healthCheckers) ==> n in healthCheckers && healthCheckers[n] == old(healthCheckers)[n]
      ensures forall n :: n in healthCheckers && n !in old(healthCheckers) ==>
        n == tc.name && fresh(healthCheckers[n]) && StartedChecker(healthCheckers[n], now, tunnels.entries[n].url)
    {
      var result;
      result, events := StartTunnel(tc, outcome, now);
      if result.Ok? && tunnels.Has(tc.name) {
        tunnels := tunnels.Set(tc.name, tunnels.entries[tc.name].(url := result.value, startAttempts := attempts));
      }
    }

    /** The handler registered for a tunnel's `critical` signal: while stopping it does
        nothing; otherwise it reports the tunnel down and restarts it. */
    method OnCritical(tc: TunnelConfig, error: HealthError, outcome: Option<string>, now: int)
      returns (events: seq<WebhookEvent>, stopped: Option<ProviderHandle>)
      requires Valid()
      modifies this, Checkers()
      ensures Valid()
      ensures (tunnels, events) == OnCriticalSpec(old(tunnels), old(isStopping), tc, error, outcome, config.port)
      ensures isStopping == old(isStopping)
      ensures stopped == if !old(isStopping) && old(tunnels).Has(tc.name)
                         then Some(old(tunnels).entries[tc.name].provider) else None
      ensures old(isStopping) || !old(tunnels).Has(tc.name) ==> healthCheckers == old(healthCheckers)
      ensures !old(isStopping) && tc.name in old(healthCheckers) ==>
        old(healthCheckers)[tc.name].checkInterval.None?
      ensures tc.name in old(healthCheckers) ==>
        old(healthCheckers)[tc.name].CounterOf() == old(healthCheckers[tc.name].CounterOf())
      ensures forall c :: c in old(Checkers()) ==>
        (tc.name in old(healthCheckers) && c == old(healthCheckers)[tc.name]) || unchanged(c)
      ensures forall n :: n in old(healthCheckers) && n != tc.name ==>
        n in healthCheckers && healthCheckers[n] == old(healthCheckers)[n] && unchanged(healthCheckers[n])
      ensures !old(isStopping) && tc.name in old(healthCheckers) && tc.name in healthCheckers ==>
        fresh(healthCheckers[tc.name]) && StartedChecker(healthCheckers[tc.name], now, tunnels.entries[tc.name].url)
    {
      if isStopping {
        events, stopped := [], None;
        return;
      }
      var restartEvents;
      restartEvents, stopped := RestartTunnel(tc, outcome, now);
      events := [TunnelDown(tc.name, error)] + restartEvents;
    }

    /** One cycle of the health checker of tunnel `name`, if it has an installed
        interval: the checker's counter moves as `Cycle` says, and a `critical` in its
        events triggers the handler with the configuration the tunnel was started
        with. No other name's checker changes. */
    method HealthCheckTick(name: string, probe: ProbeOutcome, outcome: Option<string>, now: int)
      returns (healthEvents: seq<HealthEvent>, events: seq<WebhookEvent>, stopped: Option<ProviderHandle>)
      requires Valid()
      modifies this, Checkers()
      ensures Valid()
      ensures isStopping == old(isStopping)
      ensures !(old(name in healthCheckers && healthCheckers[name].checkInterval.Some?)) ==>
        && healthEvents == [] && events == [] && stopped == None
        && tunnels == old(tunnels) && healthCheckers == old(healthCheckers)
        && forall c :: c in old(Checkers()) ==> unchanged(c)
      ensures old(name in healthCheckers && healthCheckers[name].checkInterval.Some?) ==>
        var hc := old(healthCheckers)[name];
        var step := Cycle(old(hc.CounterOf()), probe, now, hc.config.maxFailures);
        && healthEvents == step.events
        && hc.CounterOf() == step.counter
        && (Classify(probe).Some? && Critical(Classify(probe).value) in healthEvents ==>
              && (tunnels, events)
                 == OnCriticalSpec(old(tunnels), old(isStopping), old(tunnels).entries[name].config,
                                   Classify(probe).value, outcome, config.port)
              && stopped == (if old(isStopping) then None else Some(old(tunnels).entries[name].provider))
              && (!old(isStopping) ==> hc.checkInterval.None?)
              && (!old(isStopping) && name in healthCheckers ==>
                    fresh(healthCheckers[name]) && StartedChecker(healthCheckers[name], now, tunnels.entries[name].url))
              && (old(isStopping) ==> healthCheckers == old(healthCheckers)))
        && (!(Classify(probe).Some? && Critical(Classify(probe).value) in healthEvents) ==>
              events == [] && stopped == None && tunnels == old(tunnels) && healthCheckers == old(healthCheckers))
      ensures forall c :: c in old(Checkers()) ==>
        (name in old(healthCheckers) && c == old(healthCheckers)[name]) || unchanged(c)
      ensures forall n :: n in old(healthCheckers) && n != name ==>
        n in healthCheckers && healthCheckers[n] == old(healthCheckers)[n] && unchanged(healthCheckers[n])
    {
      healthEvents, events, stopped := [], [], None;
      if name !in healthCheckers || healthCheckers[name].checkInterval.None? {
        return;
      }
      healthEvents := healthCheckers[name].PerformHealthCheck(probe, now);
      var error := Classify(probe);
      if error.Some? && Critical(error.value) in healthEvents {
        events, stopped := OnCritical(tunnels.entries[name].config, error.value, outcome, now);
      }
    }

    /** `stop`: sets the stopping flag, stops every health checker and provider, and
        empties the table. Returns the provider handles that were told to stop. */
    method Stop() returns (stopped: seq<ProviderHandle>)
      requires Valid()
      modifies this, Checkers()
      ensures Valid()
      ensures isStopping
      ensures tunnels.keys == [] && forall n :: !tunnels.Has(n)
      ensures forall c :: c in old(Checkers()) ==> c.checkInterval.None?
      ensures |stopped| == |old(tunnels).keys|
      ensures forall i :: 0 <= i < |stopped| ==>
        stopped[i] == old(tunnels).entries[old(tunnels).keys[i]].provider
    {
      isStopping := true;
      stopped := StopAll();
      tunnels := Empty();
      healthCheckers := map[];
    }

    /** The loop of `stop` over the entries in insertion order. */
    method StopAll() returns (stopped: seq<ProviderHandle>)
      requires Valid()
      modifies Checkers()
      ensures forall c :: c in Checkers() ==> c.checkInterval.None?
      ensures |stopped| == |tunnels.keys|
      ensures forall i :: 0 <= i < |stopped| ==> stopped[i] == tunnels.entries[tunnels.keys[i]].provider
    {
      stopped := [];
      var names := tunnels.keys;
      assert forall j :: 0 <= j < |names| ==> names[j] in healthCheckers && tunnels.Has(names[j]);
      var i := 0;
      while i < |names|
        invariant 0 <= i <= |names|
        invariant |stopped| == i
        invariant forall j :: 0 <= j < i ==> stopped[j] == tunnels.entries[names[j]].provider
        invariant forall j :: 0 <= j < i ==> healthCheckers[names[j]].checkInterval.None?
      {
        var name := names[i];
        healthCheckers[name].Stop();
        stopped := stopped + [tunnels.entries[name].provider];
        i := i + 1;
      }
      forall c | c in Checkers()
        ensures c.checkInterval.None?
      {
        var n :| n in healthCheckers && healthCheckers[n] == c;
        assert n in names;
      }
    }

    /** `getUrls`: the URL of every entry, in insertion order. */
    function GetUrls(): (urls: seq<string>)
      reads this
      requires Valid()
      ensures |urls| == |tunnels.keys|
      ensures forall i :: 0 <= i < |urls| ==> urls[i] == tunnels.entries[tunnels.keys[i]].url
    {
      var managed := tunnels.Values();
      seq(|managed|, i requires 0 <= i < |managed| => managed[i].url)
    }

    /** `getStatus`: one snapshot per entry, under its name. */
    function GetStatus(now: int): (status: map<string, TunnelStatus>)
      reads this, Checkers()
      requires Valid()
      ensures status.Keys == tunnels.entries.Keys
      ensures forall n :: n in status ==>
        var t := tunnels.entries[n];
        && status[n].isRunning == t.provider.running
        && status[n].url == t.url
        && status[n].provider == TagName(t.config.provider)
        && status[n].startAttempts == t.startAttempts
        && status[n].health == healthCheckers[n].GetStatus(now)
    {
      map n | n in tunnels.entries ::
        TunnelStatus(tunnels.entries[n].provider.running, tunnels.entries[n].url,
                     TagName(tunnels.entries[n].config.provider), tunnels.entries[n].startAttempts,
                     healthCheckers[n].GetStatus(now))
    }
  }
}
