/** The localhost.run backend (src/providers/localhostrun.ts): the ssh command
    line, the extraction of the tunnel URL from the process output with the
    regular expression `https?://[a-zA-Z0-9-]+\.lhr\.(life|run)`, and the start
    attempt as a state machine whose `urlFound` flag latches the first URL seen
    on stdout or stderr. Spawning and the timer are outside the model. */
module LocalhostRun {
  import opened Wrappers
  import opened ProviderBase
  import Strings

  /** `['-R', '80:localhost:<port>', 'ssh.localhost.run', '-T', '-n']`: five words,
      none holding a space, naming the localhost.run host. */
  function SshArgs(config: ProviderConfig): (args: seq<string>)
    ensures |args| == 5 && "ssh.localhost.run" in args
    ensures forall k :: 0 <= k < |args| ==> Strings.NoSpace(args[k])
  {
    var port := PortText(config);
    assert forall i :: 0 <= i < |port| ==> port[i] == '-' || Strings.IsDigit(port[i]);
    ["-R", "80:localhost:" + port, "ssh.localhost.run", "-T", "-n"]
  }

  /** The remote forward names the local port: for a positive port, the text after
      `80:localhost:` reads back as that port; the other words are fixed. */
  lemma SshArgsForwardPort(config: ProviderConfig)
    requires PortOr(config.port, 3000) > 0
    ensures var args := SshArgs(config);
      && |args| == 5
      && args[0] == "-R" && args[2] == "ssh.localhost.run" && args[3] == "-T" && args[4] == "-n"
      && args[1][..13] == "80:localhost:"
      && (forall i :: 13 <= i < |args[1]| ==> Strings.IsDigit(args[1][i]))
      && Strings.ParseNat(args[1][13..]) == PortOr(config.port, 3000)
  {
    var p := PortOr(config.port, 3000);
    var a1 := SshArgs(config)[1];
    assert a1[13..] == Strings.NatToString(p);
    Strings.ParseNatToString(p);
  }

  /** With port 3000 the arguments are exactly those the provider's test expects. */
  lemma SshArgsAtDefaultPort()
    ensures SshArgs(ProviderConfig(Some(3000), None))
         == ["-R", "80:localhost:3000", "ssh.localhost.run", "-T", "-n"]
  {
    assert Strings.NatToString(3) == "3";
    assert Strings.NatToString(30) == "30";
    assert Strings.NatToString(300) == "300";
    assert Strings.NatToString(3000) == "3000";
    assert PortOr(Some(3000), 3000) == 3000;
    assert Strings.IntToString(3000) == "3000";
    assert PortText(ProviderConfig(Some(3000), None)) == "3000";
    assert "80:localhost:" + "3000" == "80:localhost:3000";
  }

  // ---------------------------------------------------------------------
  // The URL pattern
  // ---------------------------------------------------------------------

  /** `[a-zA-Z0-9-]`. */
  predicate IsLabelChar(c: char) {
    ('a' <= c <= 'z') || ('A' <= c <= 'Z') || ('0' <= c <= '9') || c == '-'
  }

  predicate AllLabelChars(s: string) {
    forall i :: 0 <= i < |s| ==> IsLabelChar(s[i])
  }

  /** The reference description of a matched URL: a scheme, a non-empty host label,
      `.lhr.` and a top-level domain, with these exact pieces. */
  predicate IsLhrUrl(u: string, scheme: string, host: string, tld: string) {
    && (scheme == "http://" || scheme == "https://")
    && |host| > 0 && AllLabelChars(host)
    && (tld == "life" || tld == "run")
    && u == scheme + host + ".lhr." + tld
  }

  /** The end of the longest run of label characters starting at `k`. */
  function LabelEnd(s: string, k: nat): (e: nat)
    requires k <= |s|
    ensures k <= e <= |s|
    ensures forall i :: k <= i < e ==> IsLabelChar(s[i])
    ensures e == |s| || !IsLabelChar(s[e])
    decreases |s| - k
  {
    if k < |s| && IsLabelChar(s[k]) then LabelEnd(s, k + 1) else k
  }

  /** `https?://` at `i`: where it ends. `s?` prefers the `s`; giving it up cannot
      help, since `:` would then have to stand where the `s` is. */
  function SchemeAt(s: string, i: nat): Option<nat>
    requires i <= |s|
  {
    if !(i + 4 <= |s| && s[i..i + 4] == "http") then None
    else
      var j := if i + 4 < |s| && s[i + 4] == 's' then i + 5 else i + 4;
      if j + 3 <= |s| && s[j..j + 3] == "://" then Some(j + 3) else None
  }

  /** `\.lhr\.(life|run)` at `m`: where it ends. `life` is tried before `run`, and
      no text starts with both. */
  function SuffixAt(s: string, m: nat): Option<nat>
    requires m <= |s|
  {
    if !(m + 5 <= |s| && s[m..m + 5] == ".lhr.") then None
    else if m + 9 <= |s| && s[m + 5..m + 9] == "life" then Some(m + 9)
    else if m + 8 <= |s| && s[m + 5..m + 8] == "run" then Some(m + 8)
    else None
  }

  /** The whole regular expression tried at position `i`: the end of the match, if
      any. The label is greedy and needs no backtracking, since the `.` that must
      follow it is not a label character. */
  function MatchAt(s: string, i: nat): Option<nat>
    requires i <= |s|
  {
    match SchemeAt(s, i)
    case None => None
    case Some(k) =>
      var m := LabelEnd(s, k);
      if m > k then SuffixAt(s, m) else None
  }

  lemma SchemeAtSound(s: string, i: nat)
    requires i <= |s| && SchemeAt(s, i).Some?
    ensures i <= SchemeAt(s, i).value <= |s|
    ensures s[i..SchemeAt(s, i).value] == "http://" || s[i..SchemeAt(s, i).value] == "https://"
  {
    var j := if i + 4 < |s| && s[i + 4] == 's' then i + 5 else i + 4;
    assert s[i..j + 3] == s[i..i + 4] + s[i + 4..j] + s[j..j + 3];
  }

  lemma SchemeAtComplete(s: string, i: nat, scheme: string)
    requires scheme == "http://" || scheme == "https://"
    requires i + |scheme| <= |s| && s[i..i + |scheme|] == scheme
    ensures SchemeAt(s, i) == Some(i + |scheme|)
  {
    var j := i + |scheme| - 3;
    assert s[i..i + 4] == scheme[..4];
    assert s[i + 4] == scheme[4];
    assert s[j..j + 3] == scheme[|scheme| - 3..];
  }

  lemma SuffixAtSound(s: string, m: nat)
    requires m <= |s| && SuffixAt(s, m).Some?
    ensures m + 5 <= SuffixAt(s, m).value <= |s|
    ensures s[m..m + 5] == ".lhr."
    ensures s[m + 5..SuffixAt(s, m).value] == "life" || s[m + 5..SuffixAt(s, m).value] == "run"
  {
  }

  lemma SuffixAtComplete(s: string, m: nat, tld: string)
    requires tld == "life" || tld == "run"
    requires m + 5 + |tld| <= |s| && s[m..m + 5] == ".lhr." && s[m + 5..m + 5 + |tld|] == tld
    ensures SuffixAt(s, m) == Some(m + 5 + |tld|)
  {
    if tld == "run" {
      assert s[m + 5] == 'r';
    }
  }

  /** Every match the scanner reports is a URL of the reference form. */
  lemma MatchAtSound(s: string, i: nat)
    requires i <= |s| && MatchAt(s, i).Some?
    ensures var e := MatchAt(s, i).value;
      i <= e <= |s| && exists scheme, host, tld :: IsLhrUrl(s[i..e], scheme, host, tld)
  {
    SchemeAtSound(s, i);
    var k := SchemeAt(s, i).value;
    var m := LabelEnd(s, k);
    SuffixAtSound(s, m);
    var e := MatchAt(s, i).value;
    var scheme, host, tld := s[i..k], s[k..m], s[m + 5..e];
    assert AllLabelChars(host);
    assert s[i..e] == scheme + host + s[m..m + 5] + tld;
    assert IsLhrUrl(s[i..e], scheme, host, tld);
  }

  /** A slice that is a concatenation splits at the length of its first part. */
  lemma SliceConcat(s: string, i: nat, e: nat, x: string, y: string)
    requires i <= e <= |s| && s[i..e] == x + y
    ensures s[i..i + |x|] == x && s[i + |x|..e] == y
  {
    assert s[i..i + |x|] == s[i..e][..|x|];
    assert s[i + |x|..e] == s[i..e][|x|..];
  }

  /** A URL of the reference form inside `s` splits into its pieces at fixed offsets. */
  lemma LhrUrlPieces(s: string, i: nat, e: nat, scheme: string, host: string, tld: string)
    requires i <= e <= |s|
    requires IsLhrUrl(s[i..e], scheme, host, tld)
    ensures var k := i + |scheme|; var m := k + |host|;
      && m + 5 + |tld| == e
      && s[i..k] == scheme && s[k..m] == host
      && s[m..m + 5] == ".lhr." && s[m + 5..e] == tld
  {
    var k := i + |scheme|;
    var m := k + |host|;
    SliceConcat(s, i, e, scheme + host + ".lhr.", tld);
    SliceConcat(s, i, m + 5, scheme + host, ".lhr.");
    SliceConcat(s, i, m, scheme, host);
  }

  /** Every URL of the reference form starting at `i` is what the scanner reports
      there: the match at a position is unique. */
  lemma MatchAtComplete(s: string, i: nat, e: nat, scheme: string, host: string, tld: string)
    requires i <= e <= |s|
    requires IsLhrUrl(s[i..e], scheme, host, tld)
    ensures MatchAt(s, i) == Some(e)
  {
    LhrUrlPieces(s, i, e, scheme, host, tld);
    var k := i + |scheme|;
    var m := k + |host|;
    SchemeAtComplete(s, i, scheme);
    assert forall j :: k <= j < m ==> IsLabelChar(s[j]) by {
      forall j | k <= j < m ensures IsLabelChar(s[j]) {
        assert s[j] == s[k..m][j - k];
      }
    }
    assert s[m] == s[m..m + 5][0];
    LabelEndAt(s, k, m);
    SuffixAtComplete(s, m, tld);
  }

  /** The longest run of label characters ends where a non-label character follows. */
  lemma LabelEndAt(s: string, k: nat, m: nat)
    requires k <= m < |s|
    requires forall i :: k <= i < m ==> IsLabelChar(s[i])
    requires !IsLabelChar(s[m])
    ensures LabelEnd(s, k) == m
    decreases m - k
  {
    if k < m {
      LabelEndAt(s, k + 1, m);
    }
  }

  /** The leftmost match at or after `from`, as a start and an end. */
  function FindFrom(s: string, from: nat): (r: Option<(nat, nat)>)
    requires from <= |s|
    ensures r.Some? ==> from <= r.value.0 <= |s| && MatchAt(s, r.value.0) == Some(r.value.1)
    ensures r.Some? ==> forall j :: from <= j < r.value.0 ==> MatchAt(s, j).None?
    ensures r.None? ==> forall j :: from <= j <= |s| ==> MatchAt(s, j).None?
    decreases |s| - from
  {
    match MatchAt(s, from)
    case Some(e) => Some((from, e))
    case None => if from == |s| then None else FindFrom(s, from + 1)
  }

  /** `output.match(regex)`, group 1: the leftmost matching substring, which occurs
      in the output and has the reference form. */
  function ExtractUrl(output: string): (u: Option<string>)
    ensures u.Some? ==> Strings.Contains(output, u.value)
    ensures u.Some? ==> exists scheme, host, tld :: IsLhrUrl(u.value, scheme, host, tld)
  {
    match FindFrom(output, 0)
    case None => None
    case Some((i, e)) =>
      MatchAtSound(output, i);
      assert Strings.OccursAt(output, output[i..e], i);
      Some(output[i..e])
  }

  /** A found URL is a URL of the reference form, occurring in the output, and no URL
      of that form starts further left; nothing is found only when the output holds no
      such URL at all. */
  lemma ExtractUrlLeftmost(output: string)
    ensures ExtractUrl(output).Some? ==>
      exists i, e :: 0 <= i <= e <= |output| && output[i..e] == ExtractUrl(output).value
        && (exists scheme, host, tld :: IsLhrUrl(output[i..e], scheme, host, tld))
        && forall j, e', scheme, host, tld :: 0 <= j < i && j <= e' <= |output| ==>
             !IsLhrUrl(output[j..e'], scheme, host, tld)
    ensures ExtractUrl(output).None? ==>
      forall j, e', scheme, host, tld :: 0 <= j <= e' <= |output| ==>
        !IsLhrUrl(output[j..e'], scheme, host, tld)
  {
    match FindFrom(output, 0)
    case None =>
      forall j, e', scheme, host, tld | 0 <= j <= e' <= |output|
        ensures !IsLhrUrl(output[j..e'], scheme, host, tld)
      {
        if IsLhrUrl(output[j..e'], scheme, host, tld) {
          MatchAtComplete(output, j, e', scheme, host, tld);
        }
      }
    case Some((i, e)) =>
      MatchAtSound(output, i);
      forall j, e', scheme, host, tld | 0 <= j < i && j <= e' <= |output|
        ensures !IsLhrUrl(output[j..e'], scheme, host, tld)
      {
        if IsLhrUrl(output[j..e'], scheme, host, tld) {
          MatchAtComplete(output, j, e', scheme, host, tld);
        }
      }
  }

  /** Text without an `h` before a URL cannot hide it: the URL is what is extracted,
      whatever follows it. */
  lemma ExtractAfterPlainText(before: string, url: string, after: string,
                              scheme: string, host: string, tld: string)
    requires forall k :: 0 <= k < |before| ==> before[k] != 'h'
    requires IsLhrUrl(url, scheme, host, tld)
    ensures ExtractUrl(before + url + after) == Some(url)
  {
    var s := before + url + after;
    var i, e := |before|, |before| + |url|;
    assert s[i..e] == url;
    MatchAtComplete(s, i, e, scheme, host, tld);
    forall j | 0 <= j < i
      ensures MatchAt(s, j).None?
    {
      assert s[j] == before[j];
      if j + 4 <= |s| {
        assert s[j..j + 4][0] == s[j];
      }
    }
    NoEarlierMatch(s, 0, i);
  }

  /** The banner localhost.run prints, as the provider's test feeds it on stdout
      with the host `test`, yields its URL for any host label. */
  lemma ExtractsConnectBanner(host: string)
    requires |host| > 0 && AllLabelChars(host)
    ensures ExtractUrl("Connect to " + ("https://" + host + ".lhr.run") + "\n")
         == Some("https://" + host + ".lhr.run")
  {
    var url := "https://" + host + ".lhr.run";
    assert url == "https://" + host + ".lhr." + "run";
    assert IsLhrUrl(url, "https://", host, "run");
    ExtractAfterPlainText("Connect to ", url, "\n", "https://", host, "run");
  }

  lemma NoEarlierMatch(s: string, from: nat, i: nat)
    requires from <= i <= |s|
    requires forall j :: from <= j < i ==> MatchAt(s, j).None?
    requires MatchAt(s, i).Some?
    ensures FindFrom(s, from) == Some((i, MatchAt(s, i).value))
    decreases i - from
  {
    if from < i {
      NoEarlierMatch(s, from + 1, i);
    }
  }

  // ---------------------------------------------------------------------
  // The urlFound latch
  // ---------------------------------------------------------------------

  /** The state `onData` reads and writes. */
  datatype Latch = Latch(urlFound: bool, currentUrl: string)

  /** `onData`: the first chunk holding a URL sets the latch and the URL; nothing
      changes afterwards. */
  function OnDataStep(l: Latch, chunk: string): (r: Latch)
    ensures l.urlFound ==> r == l
    ensures !l.urlFound ==> (r.urlFound <==> ExtractUrl(chunk).Some?)
    ensures !l.urlFound && r.urlFound ==> ExtractUrl(chunk) == Some(r.currentUrl)
    ensures !r.urlFound ==> r == l
  {
    match ExtractUrl(chunk)
    case Some(u) => if !l.urlFound then Latch(true, u) else l
    case None => l
  }

  /** The latch after a series of chunks, from stdout and stderr alike: it ends set
      exactly when it started set or some chunk held a URL, and a latch that ends
      unset is unchanged. */
  function Feed(l: Latch, chunks: seq<string>): (r: Latch)
    ensures r.urlFound <==> l.urlFound || exists k :: 0 <= k < |chunks| && ExtractUrl(chunks[k]).Some?
    ensures !r.urlFound ==> r == l
    decreases |chunks|
  {
    if chunks == [] then l
    else
      assert forall k :: 0 <= k < |chunks| - 1 ==> chunks[1..][k] == chunks[k + 1];
      Feed(OnDataStep(l, chunks[0]), chunks[1..])
  }

  /** The URL of the first chunk that holds one. */
  function FirstUrl(chunks: seq<string>): (u: Option<string>)
    ensures u.Some? ==> exists k :: 0 <= k < |chunks| && ExtractUrl(chunks[k]) == u
    ensures u.None? ==> forall k :: 0 <= k < |chunks| ==> ExtractUrl(chunks[k]).None?
    decreases |chunks|
  {
    if chunks == [] then None
    else if ExtractUrl(chunks[0]).Some? then ExtractUrl(chunks[0])
    else FirstUrl(chunks[1..])
  }

  /** Once set, the latch never changes again. */
  lemma {:induction false} LatchHolds(u: string, chunks: seq<string>)
    ensures Feed(Latch(true, u), chunks) == Latch(true, u)
    decreases |chunks|
  {
    if chunks != [] {
      LatchHolds(u, chunks[1..]);
    }
  }

  /** From an unset latch, a series of chunks publishes the URL of the first chunk
      that holds one, and sets the latch exactly when some chunk held one. */
  lemma {:induction false} FeedPublishesFirstUrl(u0: string, chunks: seq<string>)
    ensures Feed(Latch(false, u0), chunks)
         == match FirstUrl(chunks)
            case Some(u) => Latch(true, u)
            case None => Latch(false, u0)
    decreases |chunks|
  {
    if chunks != [] {
      match ExtractUrl(chunks[0])
      case Some(u) => LatchHolds(u, chunks[1..]);
      case None => FeedPublishesFirstUrl(u0, chunks[1..]);
    }
  }

  class LocalhostRunProvider {
    const config: ProviderConfig
    var currentUrl: string
    /** A child process has been spawned and not stopped. */
    var running: bool
    /** The current attempt has seen a URL. */
    var urlFound: bool
    /** The 30-second start timeout is installed. */
    var timeoutPending: bool
    /** The state of the current start attempt's promise. */
    var settled: Settlement

    /** A URL settles the attempt unless it had already rejected, and a resolved
        attempt resolved with the latched URL. */
    ghost predicate Valid()
      reads this
    {
      && (urlFound ==> settled.Some?)
      && (settled.Some? && settled.value.Ok? ==> urlFound && currentUrl == settled.value.value)
    }

    function LatchOf(): Latch
      reads this
    {
      Latch(urlFound, currentUrl)
    }

    constructor (config: ProviderConfig)
      ensures Valid()
      ensures this.config == config && currentUrl == "" && !running
      ensures !urlFound && !timeoutPending && settled.None?
    {
      this.config := config;
      currentUrl := "";
      running := false;
      urlFound := false;
      timeoutPending := false;
      settled := None;
    }

    /** `start`: spawns ssh with the fixed arguments; a fresh attempt has seen no
        URL, is pending and has its timeout installed. */
    method Start() returns (args: seq<string>)
      modifies this
      ensures Valid()
      ensures args == SshArgs(config)
      ensures IsRunning() && !urlFound && timeoutPending && settled.None?
      ensures currentUrl == old(currentUrl)
    {
      args := SshArgs(config);
      running := true;
      urlFound := false;
      timeoutPending := true;
      settled := None;
    }

    /** `onData`, for a chunk from stdout or stderr. */
    method OnData(chunk: string)
      requires Valid()
      modifies this
      ensures Valid()
      ensures LatchOf() == OnDataStep(old(LatchOf()), chunk)
      ensures !old(urlFound) && urlFound ==> settled == Settle(old(settled), Ok(currentUrl))
      ensures old(urlFound) || !urlFound ==> settled == old(settled)
      ensures timeoutPending == old(timeoutPending) && running == old(running)
    {
      var url := ExtractUrl(chunk);
      if url.Some? {
        if !urlFound {
          urlFound := true;
          currentUrl := url.value;
          settled := Settle(settled, Ok(currentUrl));
        }
      }
    }

    /** The timeout fires, if still installed; it rejects only when no URL was found. */
    method OnTimeout()
      requires Valid()
      modifies this
      ensures Valid()
      ensures !timeoutPending
      ensures LatchOf() == old(LatchOf()) && running == old(running)
      ensures settled == if old(timeoutPending) && !urlFound then Settle(old(settled), Err(Timeout))
                         else old(settled)
    {
      if timeoutPending {
        timeoutPending := false;
        if !urlFound {
          settled := Settle(settled, Err(Timeout));
        }
      }
    }

    /** The process exits: the timeout is cleared, and the attempt rejects only when
        no URL was found. */
    method OnExit(code: Option<int>)
      requires Valid()
      modifies this
      ensures Valid()
      ensures !timeoutPending
      ensures LatchOf() == old(LatchOf()) && running == old(running)
      ensures settled == if !urlFound then Settle(old(settled), Err(ExitedEarly(code)))
                         else old(settled)
    {
      timeoutPending := false;
      if !urlFound {
        settled := Settle(settled, Err(ExitedEarly(code)));
      }
    }

    /** The process could not be spawned: the timeout is cleared and the attempt rejects. */
    method OnError(message: string)
      requires Valid()
      modifies this
      ensures Valid()
      ensures !timeoutPending
      ensures LatchOf() == old(LatchOf()) && running == old(running)
      ensures settled == Settle(old(settled), Err(SpawnFailed(message)))
    {
      timeoutPending := false;
      settled := Settle(settled, Err(SpawnFailed(message)));
    }

    /** `stop` (src/providers/base.ts): the process is terminated and forgotten. */
    method Stop()
      modifies this
      ensures !IsRunning()
      ensures LatchOf() == old(LatchOf()) && settled == old(settled)
      ensures timeoutPending == old(timeoutPending)
    {
      if running {
        running := false;
      }
    }

    /** `isRunning` (src/providers/base.ts): whether a process handle is held. */
    function IsRunning(): (r: bool)
      reads this
      ensures r <==> running
    {
      running
    }
  }
}
