# AutoWebhook — a verified model of the tunnel supervisor

AutoWebhook exposes a local HTTP port to the internet through tunnels. Each
tunnel is backed by one of two providers: `ngrok` or `localhost.run`. A health
checker pings each tunnel's public URL at an interval and counts the failed
probes in a row. Every failed probe from the `maxFailures`-th in a row on
(3 by default) reports `critical`. Every `critical` makes the orchestrator
report the tunnel down, tear it down and start it again. A tunnel gets at most
five restarts.

This project models four parts of the system:

- **`Health`** (`src/health-checker.ts`). The `HealthChecker` class keeps its
  failure counter, its last-success time and its installed interval as fields.
  Pure functions give the specification of one cycle (`Cycle`) and of a series of
  cycles (`Run`).
- **`Orchestrator`** (`src/autowebhook.ts`). The `AutoWebhook` class keeps the
  tunnel table, the health checkers and the `isStopping` flag as fields. Pure
  functions give the specification of `startTunnel`, of `start`'s loop, of
  `restartTunnel` and of the `critical` handler, with the checker objects left
  out. The methods are proved against them, and the lemmas prove the supervision
  properties on them.
- **`Ngrok`** (`src/providers/ngrok.ts`). It covers the argument builder
  (`BuildNgrokArgs`), the choice of the https tunnel from the local API's
  listing, and the start attempt as a class driven by poll, timeout, stderr,
  exit and error events.
- **`LocalhostRun`** (`src/providers/localhostrun.ts`). It covers the ssh
  arguments, a scanner for the regular expression
  `https?://[a-zA-Z0-9-]+\.lhr\.(life|run)` proved equal to its reference
  description, and the `urlFound` latch as a class.

Four supporting modules:

- **`Wrappers`**: Option and Result.
- **`JsMap`**: a JavaScript `Map` with its insertion order, so that `getUrls`
  and `stop` visit entries in the source's order, and a restarted tunnel moves
  to the end.
- **`Strings`**: `split(' ')`, `join` and the decimal `toString` of a port.
- **`ProviderBase`**: truthiness, the `port || fallback` rule, and the promise
  of a start attempt, which the first `resolve` or `reject` settles.

Everything outside the process is a parameter:

- The outcome of a provider's `start()` is `Some(url)` when it resolved and
  `None` when it rejected.
- The health probe's result is a `ProbeOutcome`.
- The ngrok API's listing is a parameter of a poll.
- The current time is `now`.
- Events are returned as sequences instead of emitted.

A behaviour kept exactly as the code has it: when a restart's start fails,
the entry stays removed and its checker stopped. Nothing retries it, although
the comment at `src/autowebhook.ts:144` says it will be tried again
(`FailedRestartIsFinal`). Also, the attempt counter is carried into the
restarted entry and never reset (`RestartCases`, `RestartsAreBounded`).

Where the code and its description could differ, the model follows the code.
ngrok's poll takes the *first* https tunnel and resolves only when its
`public_url` is non-empty. A later https tunnel with a URL is never consulted
(`SelectHttpsUrl`).

## Model

| member | source | states |
|---|---|---|
| Health.ResolveHealthConfig | src/health-checker.ts:14-20 | each missing field defaults to enabled true, interval 15000, timeout 5000, maxFailures 3; each supplied field overrides its default |
| Health.Classify | src/health-checker.ts:55-80 | a cycle succeeds exactly when the response status is in [200, 500); any other status fails with that status, and a request error fails with its message |
| Health.Run | src/health-checker.ts:34-36 | a series of interval cycles yields one event list per probe |
| Health.Cycle | src/health-checker.ts:49-98 | a success resets the count to 0, records the time and emits `healthy`; a failure adds exactly one, keeps the last-success time, emits `unhealthy` with the new count, and emits `critical` exactly when that count is at or above maxFailures |
| Health.RunCountsConsecutiveFailures | src/health-checker.ts:87-93 | after any series of cycles the counter equals the failures since the last success, and the last-success time is that of the last successful probe |
| Health.RunPrefix | src/health-checker.ts:34-36 | the events of cycle k are those of one cycle on the counter left by the earlier cycles |
| Health.RunSnoc | src/health-checker.ts:34-36 | one more probe runs one more cycle on the counter reached so far |
| Health.SustainedFailure | src/health-checker.ts:92-98 | under sustained failure cycle k reports count c+k+1 and emits `critical` on every cycle whose count is at or above maxFailures, not only the first crossing |
| Health.AllFailTrailing | src/health-checker.ts:93 | when every probe fails, every probe counts toward the trailing failures |
| Health.HealthyAfterRun | src/health-checker.ts:101-103 | after a series containing a success, the status is healthy exactly when fewer than maxFailures failures followed the last success |
| Health.SecondFailureIsCritical | tests/health-checker.test.ts:56-67 | with maxFailures 2, the first failure emits `unhealthy` with count 1 and the second emits `unhealthy` with count 2 and `critical` |
| Health.FirstFailureIsCriticalAtOne | src/health-checker.ts:92-98 | with maxFailures 1, the first failure emits `unhealthy` then `critical` |
| Health.HealthChecker.constructor | src/health-checker.ts:7-22 | the policy is the defaults merged with the options, the count is 0, the last success is now, and no interval is installed |
| Health.HealthChecker.Start | src/health-checker.ts:24-37 | a disabled checker ignores the call; an enabled one ends with exactly one interval, probing the given URL; the counter is untouched |
| Health.HealthChecker.Stop | src/health-checker.ts:39-47 | afterwards no interval is installed, whatever the state before; the counter is untouched |
| Health.HealthChecker.PerformHealthCheck | src/health-checker.ts:49-81 | the new counter and the events are those of `Cycle` on the old counter; the interval is untouched |
| Health.HealthChecker.OnHealthCheckSuccess | src/health-checker.ts:83-90 | the count becomes 0, the last success becomes now, and `healthy` is emitted |
| Health.HealthChecker.OnHealthCheckFailure | src/health-checker.ts:92-99 | the count rises by exactly one, `unhealthy` carries the new count, and `critical` is emitted exactly when the count is at or above maxFailures |
| Health.HealthChecker.GetStatus | src/health-checker.ts:101-108 | healthy exactly when the count is below maxFailures; count and last success reported unchanged; elapsed time is now minus the last success |
| JsMap.Without | src/autowebhook.ts:115 | removing a key keeps every other key, in order, and shortens a key list without duplicates by one exactly when the key was there |
| JsMap.DistinctSnoc | src/autowebhook.ts:78 | appending a key that is not yet present keeps the keys distinct |
| JsMap.OrderedMap.Set | src/autowebhook.ts:78 | `set` stores the value; a new key goes to the end and an existing key keeps its place; no other entry changes |
| JsMap.OrderedMap.Delete | src/autowebhook.ts:115 | `delete` removes the key, keeps the other keys in order, and changes nothing for an absent key |
| JsMap.OrderedMap.Values | src/autowebhook.ts:161 | the values in insertion order, one per key |
| JsMap.Empty | src/autowebhook.ts:18 | a new map has no keys |
| ProviderBase.PortOr | src/autowebhook.ts:89 | the falsy fallback of `port`: the port when it is present and non-zero, else the fallback |
| ProviderBase.Settle | src/providers/ngrok.ts:34-64 | a pending promise takes the first settlement; a settled one ignores every later `resolve` or `reject` |
| Strings.Split | src/providers/ngrok.ts:74 | `split(' ')` always yields at least one piece |
| Strings.SplitPiecesHaveNoSpace | src/providers/ngrok.ts:74 | no piece of a split holds a space |
| Strings.JoinSplit | src/providers/ngrok.ts:74 | joining the pieces of a split gives back the command |
| Strings.SplitJoin | src/providers/ngrok.ts:74 | splitting the join of space-free pieces gives back the pieces |
| Strings.NatToString | src/providers/localhostrun.ts:12 | a port renders as a non-empty string of decimal digits |
| Strings.ParseNatToString | src/providers/localhostrun.ts:12 | the decimal rendering of a port reads back as that port |
| Strings.IntToString | src/providers/localhostrun.ts:11-12 | `toString()` of a port gives a minus sign exactly for a negative number, then decimal digits that read back as its magnitude |
| Strings.Contains | src/providers/ngrok.ts:49 | `includes` holds exactly when the text occurs as a contiguous slice at some position |
| Strings.PrefixesAreOccurrences | src/providers/ngrok.ts:49 | the text is a prefix of the suffix at a position exactly when it occurs as a slice there |
| Ngrok.BuildNgrokArgs | src/providers/ngrok.ts:69-92 | the command split on spaces, or `http <port>` with the port defaulting to 3000, followed by the `--region`, `--subdomain` and `--auth` pairs for exactly the truthy options, in that order |
| Ngrok.FlagArgsLength | src/providers/ngrok.ts:79-89 | the flags add two words for each truthy option and nothing else |
| Ngrok.ReadFlagsAppend | src/providers/ngrok.ts:79-89 | reading flag pairs back over a concatenation reads each part in turn |
| Ngrok.FlagArgsRoundTrip | src/providers/ngrok.ts:79-89 | reading the flag words back yields each option exactly when it was truthy, with its value |
| Ngrok.DefaultArgs | src/providers/ngrok.ts:73-77 | with no options the arguments are exactly `http 3000` |
| Ngrok.CommandReplacesBase | src/providers/ngrok.ts:73-74 | with a command, its space-free words replace `http <port>` and join back to the command |
| Ngrok.FindHttps | src/providers/ngrok.ts:26 | `find` returns the index of the first https tunnel, or nothing when none is https |
| Ngrok.SelectHttpsUrl | src/providers/ngrok.ts:26-31 | a poll resolves exactly when the first https tunnel has a non-empty `public_url`, and resolves with that URL |
| Ngrok.FirstHttpsUnique | src/providers/ngrok.ts:26 | only one index is the first https tunnel |
| Ngrok.SelectsListedHttpsUrl | tests/providers.test.ts:94 | the test's listing selects `https://ngrok.test` |
| Ngrok.NgrokProvider.constructor | src/providers/base.ts:6-10 | a new provider has the given configuration, an empty URL, no process and no pending attempt |
| Ngrok.NgrokProvider.Start | src/providers/ngrok.ts:11-44 | the process is spawned with the built arguments; the poller and the timeout of a pending attempt are installed |
| Ngrok.NgrokProvider.OnPoll | src/providers/ngrok.ts:23-39 | a listing that selects a URL sets `currentUrl`, resolves with it and clears both timers; a failed request or no selection changes nothing |
| Ngrok.NgrokProvider.OnTimeout | src/providers/ngrok.ts:41-44 | an installed timeout stops the poller and rejects with a timeout |
| Ngrok.NgrokProvider.OnStderr | src/providers/ngrok.ts:46-54 | output containing `failed to start tunnel` clears both timers and rejects, unless already settled; other output changes nothing |
| Ngrok.NgrokProvider.OnExit | src/providers/ngrok.ts:56-59 | exit stops the poller only; the attempt stays pending until the timeout |
| Ngrok.NgrokProvider.OnError | src/providers/ngrok.ts:61-65 | a spawn error clears both timers and rejects, unless already settled |
| Ngrok.NgrokProvider.Stop | src/providers/base.ts:19-38 | the process is stopped and forgotten; the URL and the attempt are untouched |
| Ngrok.NgrokProvider.IsRunning | src/providers/base.ts:15-17 | reports whether a process handle is held: true after `Start`, false after `Stop` |
| LocalhostRun.SshArgsForwardPort | src/providers/localhostrun.ts:11-12 | five fixed words; the remote forward is `80:localhost:` followed by the digits of the port, 3000 when falsy, which read back as that port |
| LocalhostRun.SshArgs | src/providers/localhostrun.ts:11-12 | five words, none holding a space, one of them `ssh.localhost.run` |
| LocalhostRun.SshArgsAtDefaultPort | tests/providers.test.ts:119 | with port 3000 the arguments are exactly `-R 80:localhost:3000 ssh.localhost.run -T -n` |
| LocalhostRun.LabelEnd | src/providers/localhostrun.ts:24 | `[a-zA-Z0-9-]+` is consumed greedily up to the first non-label character |
| LocalhostRun.LabelEndAt | src/providers/localhostrun.ts:24 | the label run ends exactly at the first non-label character |
| LocalhostRun.SchemeAtSound | src/providers/localhostrun.ts:24 | a scheme match covers exactly `http://` or `https://` |
| LocalhostRun.SchemeAtComplete | src/providers/localhostrun.ts:24 | `http://` or `https://` in the text is matched, to its end |
| LocalhostRun.SuffixAtSound | src/providers/localhostrun.ts:24 | a suffix match covers exactly `.lhr.life` or `.lhr.run` |
| LocalhostRun.SuffixAtComplete | src/providers/localhostrun.ts:24 | `.lhr.life` or `.lhr.run` in the text is matched, to its end |
| LocalhostRun.MatchAtSound | src/providers/localhostrun.ts:24 | every match the scanner reports is a URL of the regular expression's form |
| LocalhostRun.LhrUrlPieces | src/providers/localhostrun.ts:24 | a URL of that form splits into scheme, label, `.lhr.` and domain at fixed offsets |
| LocalhostRun.MatchAtComplete | src/providers/localhostrun.ts:24 | every URL of that form is what the scanner reports at its start position |
| LocalhostRun.SliceConcat | src/providers/localhostrun.ts:24 | a slice equal to a concatenation splits at the first part's length |
| LocalhostRun.FindFrom | src/providers/localhostrun.ts:24 | the leftmost match position at or after a start, or none when no position matches |
| LocalhostRun.NoEarlierMatch | src/providers/localhostrun.ts:24 | with no match before a matching position, the search finds that position |
| LocalhostRun.ExtractUrlLeftmost | src/providers/localhostrun.ts:24-26 | an extracted URL has the regular expression's form, occurs in the output, and starts leftmost; nothing is extracted only when the output holds no such URL |
| LocalhostRun.ExtractUrl | src/providers/localhostrun.ts:23-26 | a URL found in a chunk occurs in it and has the form `http(s)://<label>.lhr.(life or run)` |
| LocalhostRun.ExtractAfterPlainText | src/providers/localhostrun.ts:24-26 | a URL after text without an `h` is what is extracted, whatever follows it |
| LocalhostRun.ExtractsConnectBanner | tests/providers.test.ts:27 | `Connect to https://<host>.lhr.run` followed by a newline yields `https://<host>.lhr.run` |
| LocalhostRun.FirstUrl | src/providers/localhostrun.ts:26-33 | the URL of the first chunk holding one, or none when no chunk does |
| LocalhostRun.OnDataStep | src/providers/localhostrun.ts:22-34 | a set latch never changes; an unset one is set exactly when the chunk holds a URL, and then holds that URL; an unset result means nothing changed |
| LocalhostRun.Feed | src/providers/localhostrun.ts:22-37 | over chunks from stdout and stderr, the latch ends set exactly when it started set or some chunk held a URL; an unset result means nothing changed |
| LocalhostRun.LatchHolds | src/providers/localhostrun.ts:27-32 | once a URL is found, later chunks change neither the flag nor the URL |
| LocalhostRun.FeedPublishesFirstUrl | src/providers/localhostrun.ts:22-37 | from an unset latch, chunks from stdout and stderr publish the first chunk's URL, and set the latch exactly when some chunk held one |
| LocalhostRun.LocalhostRunProvider.constructor | src/providers/base.ts:6-10 | a new provider has the given configuration, an empty URL, no process and no pending attempt |
| LocalhostRun.LocalhostRunProvider.Start | src/providers/localhostrun.ts:9-20 | the process is spawned with the ssh arguments; the attempt is pending, has seen no URL and has its timeout installed |
| LocalhostRun.LocalhostRunProvider.OnData | src/providers/localhostrun.ts:22-37 | the latch takes one `onData` step; the first URL resolves the attempt unless already settled; the timeout is untouched |
| LocalhostRun.LocalhostRunProvider.OnTimeout | src/providers/localhostrun.ts:39-44 | the timeout rejects only when no URL was found |
| LocalhostRun.LocalhostRunProvider.OnExit | src/providers/localhostrun.ts:46-52 | exit clears the timeout and rejects only when no URL was found |
| LocalhostRun.LocalhostRunProvider.OnError | src/providers/localhostrun.ts:54-57 | a spawn error clears the timeout and rejects, unless already settled |
| LocalhostRun.LocalhostRunProvider.Stop | src/providers/base.ts:19-38 | the process is stopped and forgotten; the latch and the attempt are untouched |
| LocalhostRun.LocalhostRunProvider.IsRunning | src/providers/base.ts:15-17 | reports whether a process handle is held: true after `Start`, false after `Stop` |
| Orchestrator.TagOf | src/autowebhook.ts:93-99 | `ngrok` and `localhost.run` are the two known tags; every other text is an unknown tag carrying that text |
| Orchestrator.TagRoundTrip | src/autowebhook.ts:99 | the text of a read tag is the text read, so the error names the provider as written |
| Orchestrator.ResolveConfig | src/autowebhook.ts:24-29 | the port defaults to 3000; a supplied `healthCheck` replaces the default block wholesale, and either way it resolves to the same checker policy |
| Orchestrator.CreateProvider | src/autowebhook.ts:86-101 | the port is the tunnel's, else the orchestrator's, else 3000, each skipped when falsy; `ngrok` and `localhost.run` select their backend; any other tag fails as unknown |
| Orchestrator.StartTunnelSpec | src/autowebhook.ts:48-84 | `startTunnel` keeps every entry under its own name within the cap |
| Orchestrator.StartTunnelCases | src/autowebhook.ts:48-84 | a known name returns its URL and changes nothing; an unknown tag or a rejected start changes nothing; a resolved start appends the entry with the URL and zero attempts and emits `tunnelReady`; no other entry is touched |
| Orchestrator.StartTunnelFreshResult | src/autowebhook.ts:58-83 | for a new name the start succeeds exactly when the tag is known and the provider resolves, returning its URL and announcing it |
| Orchestrator.StartTunnelFreshTable | src/autowebhook.ts:71-78 | for a new name the entry is appended exactly when the start succeeds, with its URL and zero attempts; other entries are unchanged |
| Orchestrator.StartLoop | src/autowebhook.ts:35-44 | `start`'s loop keeps the table well formed |
| Orchestrator.StartStep | src/autowebhook.ts:36-43 | one iteration keeps the table well formed |
| Orchestrator.StepFreshTable | src/autowebhook.ts:36-43 | one iteration for a new name appends it exactly when it starts, with its URL and zero attempts, and changes no other entry |
| Orchestrator.StepFreshResult | src/autowebhook.ts:36-43 | one iteration for a new name adds its URL if it starts and exactly one event, `tunnelReady` or `error` |
| Orchestrator.StepKeeps | src/autowebhook.ts:36-43 | one iteration keeps every entry and adds at most its own |
| Orchestrator.OnlyAddedStep | src/autowebhook.ts:35-44 | an iteration preserves "entries kept, only configured names added" |
| Orchestrator.OnlyAddedLoop | src/autowebhook.ts:35-44 | every prefix of the loop only adds configured names |
| Orchestrator.StartLoopOnlyAdds | src/autowebhook.ts:35-44 | `start` keeps every existing entry unchanged and adds entries only under configured names |
| Orchestrator.SuccessNamesMembers | src/autowebhook.ts:35-44 | with distinct names, a tunnel is among the started names exactly when it starts, and every started name is configured |
| Orchestrator.ExpectedEventsAt | src/autowebhook.ts:39-43 | one event per tunnel, in configuration order |
| Orchestrator.NextIsAbsent | src/autowebhook.ts:49 | with distinct new names, the next tunnel's name is not yet in the table |
| Orchestrator.FreshTableStep | src/autowebhook.ts:36-43 | an iteration keeps "started names appended in order, each with its URL and zero attempts" |
| Orchestrator.FreshTableLoop | src/autowebhook.ts:35-44 | every prefix of the loop appends the started names in order, each with its URL and zero attempts |
| Orchestrator.FreshResultsLoop | src/autowebhook.ts:35-44 | every prefix of the loop returns the started URLs and one event per tunnel |
| Orchestrator.StartLoopFreshTable | src/autowebhook.ts:35-44 | with distinct new names, exactly the tunnels that start are appended, in configuration order, each with its URL and zero attempts |
| Orchestrator.StartLoopFreshResults | src/autowebhook.ts:33-45 | with distinct new names, `start` returns exactly the URLs of the tunnels that started, in configuration order, and one `tunnelReady` or `error` per tunnel without aborting |
| Orchestrator.StartLoopAllKnown | src/autowebhook.ts:33-49 | when every configured name is already in the table, `start` changes nothing, emits nothing, and returns each tunnel's existing URL in configuration order |
| Orchestrator.StepKnown | src/autowebhook.ts:36-49 | one iteration for a known name returns its existing URL and changes nothing else |
| Orchestrator.RestartSpec | src/autowebhook.ts:103-146 | `restartTunnel` keeps the table well formed |
| Orchestrator.RestartRemoved | src/autowebhook.ts:117-140 | the restart after removal keeps the table well formed |
| Orchestrator.StartAgainSpec | src/autowebhook.ts:134-140 | the restart's start keeps the table well formed |
| Orchestrator.RestartCases | src/autowebhook.ts:103-146 | nothing happens while stopping or for an absent name; otherwise the entry is removed; past the cap an `error` is emitted; a failed start leaves it removed; a successful one re-appends it with the old count plus one and its URL; no other entry is touched |
| Orchestrator.RestartPresent | src/autowebhook.ts:112-117 | a restart of a present entry is a restart of the table without it, with the count raised by one |
| Orchestrator.OnCriticalSpec | src/autowebhook.ts:64-69 | the handler ignores `critical` while stopping; otherwise `tunnelDown` comes first, then the restart's events |
| Orchestrator.CriticalSeries | src/autowebhook.ts:64-69 | a series of `critical` signals reports `tunnelDown` for the first and at least one event per signal |
| Orchestrator.CountReadyAppend | src/autowebhook.ts:81 | `tunnelReady` events add up over concatenation |
| Orchestrator.AbsentStaysAbsent | src/autowebhook.ts:104-110 | `critical` signals for an absent name never re-create it and announce no `tunnelReady` |
| Orchestrator.CriticalStep | src/autowebhook.ts:113-140 | one `critical` against a resolving provider: below the cap the entry returns with one more attempt and one `tunnelReady`; past it the entry is gone and nothing is announced |
| Orchestrator.CriticalStepAny | src/autowebhook.ts:113-145 | one `critical`, whatever the provider does: the entry survives only with one more attempt within the cap, and one `tunnelReady` is announced exactly when it survives |
| Orchestrator.RestartsAreBounded | src/autowebhook.ts:117-139 | against a provider that always starts, a tunnel with count a survives signals exactly while a plus their number is at most 5, the count rising by one per signal; exactly min(n, 5 - a) restarts succeed |
| Orchestrator.RestartsBoundedAnyOutcome | src/autowebhook.ts:113-145 | whatever each restart's start does, a tunnel with count a that survives n signals has count a + n within the cap of 5, and at most min(n, 5 - a) restarts succeed |
| Orchestrator.FailedRestartIsFinal | src/autowebhook.ts:141-145 | after a restart whose start fails, the entry stays removed, whatever signals follow |
| Orchestrator.PartialStartScenario | src/autowebhook.ts:33-45 | with one resolving and one failing tunnel, `start` returns only the first URL and reports the second's failure |
| Orchestrator.AutoWebhook.constructor | src/autowebhook.ts:22-30 | the configuration is the resolved one; the table is empty and not stopping |
| Orchestrator.AutoWebhook.StartTunnel | src/autowebhook.ts:48-84 | the table, result and events are `StartTunnelSpec`'s; existing checkers are kept; a new checker is fresh, resolved from the configuration, at count 0, and probing the URL when enabled |
| Orchestrator.AutoWebhook.Install | src/autowebhook.ts:61-78 | a new name's entry is appended to the table in insertion order, with a checker of its own that no other entry shares |
| Orchestrator.AutoWebhook.Start | src/autowebhook.ts:32-46 | clears the stopping flag; the table, URLs and events are those of `StartLoop` over every configured tunnel; existing checkers are kept, and every new one is fresh, at count 0, probing its entry's URL when enabled |
| Orchestrator.AutoWebhook.StartNext | src/autowebhook.ts:36-43 | one loop iteration, as `StartStep`; existing entries and checkers are kept, and a new checker belongs to this tunnel, is fresh, at count 0, and probes its URL when enabled |
| Orchestrator.AutoWebhook.RestartTunnel | src/autowebhook.ts:103-146 | the table and events are `RestartSpec`'s; nothing changes while stopping or for an absent name; otherwise the old checker is stopped with its count kept, the old provider is returned as the one stopped, a restarted entry has a fresh checker at count 0 probing its new URL when enabled, and no other name's checker changes |
| Orchestrator.AutoWebhook.RestartEntry | src/autowebhook.ts:112-146 | the restart of a present entry, as `RestartSpec`; the old checker is stopped with its count kept, the old provider is returned as the one stopped, a restarted entry has a fresh checker at count 0 probing its new URL when enabled, and no other name's checker changes |
| Orchestrator.AutoWebhook.RemoveTunnel | src/autowebhook.ts:112-115 | the removed entry, whose provider is the one stopped, is returned; its checker is stopped with its count kept, and the entry and checker are removed |
| Orchestrator.AutoWebhook.StartAgain | src/autowebhook.ts:134-140 | the restart's start, as `StartAgainSpec`; existing checkers are kept and a new one is fresh, at count 0, probing the new URL when enabled |
| Orchestrator.AutoWebhook.OnCritical | src/autowebhook.ts:64-69 | the handler, as `OnCriticalSpec`; while stopping nothing changes; otherwise the checker and provider effects are those of `RestartTunnel` |
| Orchestrator.AutoWebhook.HealthCheckTick | src/autowebhook.ts:64-69 | a checker with an installed interval runs one cycle and its counter becomes `Cycle`'s; a `critical` in it runs the handler with the tunnel's configuration; unless stopping, that stops the old checker's interval and the old provider and gives a restarted entry a fresh checker at count 0 probing its new URL; otherwise the table and the checkers are unchanged; no other name's checker changes in any field |
| Orchestrator.AutoWebhook.Stop | src/autowebhook.ts:148-158 | sets the stopping flag, stops every checker and every provider in insertion order, and leaves the table empty |
| Orchestrator.AutoWebhook.StopAll | src/autowebhook.ts:151-155 | every checker is stopped and every entry's provider is stopped, in insertion order |
| Orchestrator.AutoWebhook.GetUrls | src/autowebhook.ts:160-162 | one URL per entry, in insertion order |
| Orchestrator.AutoWebhook.GetStatus | src/autowebhook.ts:164-178 | one snapshot per entry, under its name: running flag, URL, provider text, attempts and the checker's status |

## Left out

- Process spawning, `kill('SIGTERM')` and the `SIGKILL` escalation after five seconds are OS process I/O. A provider is a handle with a running flag and a URL, and `Stop` forgets the process at once.
- Timers (`setInterval`, `setTimeout`, the one-second poller, the 30-second timeouts) are not modelled as timing. They appear as installed flags and as explicit timeout and poll steps.
- HTTP through axios is not modelled. This covers the health ping and the ngrok API request: their outcomes are parameters, with a failed API request as `None`.
- `Date.now()` is the parameter `now`. `Orchestrator.AutoWebhook.Start` uses one `now` for every checker it creates in a run.
- Asynchronous interleaving is not modelled. A health check in flight while its tunnel is restarted or stopped, and overlapping `critical` handlers, fall outside the model: each operation runs to completion.
- EventEmitter dispatch is not modelled, and events are returned as sequences. The providers' own `exit` event has no listener in the orchestrator and is not returned.
- Console logging and the `expanded` switch are not modelled: they only print.
- The full ngrok listing record is cut down: `TunnelInfo` keeps the name, `public_url` and proto only, without `uri`, `config` or `metrics`.
- Ports are integers. A `NaN` port, which JavaScript also treats as falsy, is not represented.
- A field that is explicitly set to `undefined` is not distinguished from a missing field. In JavaScript a spread would copy the `undefined` over the default.
- A `ManagedTunnel`'s health checker is not a field of the entry. It is kept in a map beside the table, under the same name, so that the table stays a value the specification functions can describe.
- A provider whose `start()` rejects keeps its process handle. The orchestrator never stops that process, and the model does not track it after the failed start.
- Orchestrator.StartLoopFreshTable: its exact description of the table assumes distinct tunnel names not yet in the table; with repeated names, `StartLoopOnlyAdds` and the class's `Start` still hold.
- Orchestrator.StartLoopFreshResults: describes the URLs and events only for distinct names not yet in the table; `StartLoopAllKnown` covers names all already present, and a mix of known, new and repeated names is not described beyond `StartLoopOnlyAdds`.
- The `error` event of a failed tunnel in `start` (src/autowebhook.ts:42) is assumed to have a listener. In Node, emitting `error` with none throws, `start()` rejects, and the remaining tunnels are not started; the model always continues the loop (`StartLoop`, `StartLoopFreshResults`, `PartialStartScenario`). The `error` of an exhausted restart (src/autowebhook.ts:123-126) makes the same assumption; without a listener it would reject the `critical` handler's promise, after the entry was already removed.
