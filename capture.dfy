/** Site selection, file naming and the capture of one site (src/main.js).

    The browser, the page and the file system are an environment the model
    reads: whether each awaited step throws is given up front, indexed by
    the position of that step in the run's trace, and so is the byte size
    the encoder gives, at each quality, the screenshot compressed at a
    position. Sleeps never throw. Sites are processed one after another. */
module Capture {
  import opened Wrappers
  import opened Strings
  import Compressor
  import Challenge

  const Scheme: string := "https://"
  const OutputDir: string := "screenshots"
  const Extension: string := ".webp"
  const TempPrefix: string := "temp_"

  /** The step a progress-bar increment names. */
  datatype Stage =
    | Initializing // "Initializing browser"
    | Navigating   // "Navigating"
    | Waiting      // "Waiting for Cloudflare"
    | Popups       // "Hiding popups"
    | Cookies      // "Hiding cookies"
    | FinalDelay   // "Final delay"
    | Capturing    // "Capturing screenshot"
    | Compressing  // "Compressing image"

  /** The total of the progress bar, one unit per stage. */
  const BarTotal: int := 8
  const Stages: seq<Stage> := [Initializing, Navigating, Waiting, Popups, Cookies, FinalDelay, Capturing, Compressing]

  /** The first wait for the network to go idle, and the sleep that replaces
      it when it throws. */
  const FirstIdleLimit: int := 500
  const FirstIdlePause: int := 500
  /** The settle loop: 15 rounds of a bounded idle wait and a short sleep. */
  const SettleRounds: nat := 15
  const SettleLimit: int := 1000
  const SettlePause: int := 50

  /** One entry of `config.websites`: its key, whether its `enabled` is
      truthy, and the `minFinalDelay` of the connect configuration merged
      for it (the merge itself is not part of this model). */
  datatype Site = Site(domain: string, enabled: bool, minFinalDelay: Option<int>)

  /** `Object.entries(config.websites).filter(([_, c]) => c.enabled)`. */
  function EnabledSites(sites: seq<Site>): (r: seq<Site>)
    ensures |r| <= |sites|
  {
    if sites == [] then []
    else (if sites[0].enabled then [sites[0]] else []) + EnabledSites(sites[1..])
  }

  /** A site is kept exactly when it is in the configuration and enabled. */
  lemma {:induction false} EnabledSitesIff(sites: seq<Site>, s: Site)
    ensures s in EnabledSites(sites) <==> s in sites && s.enabled
  {
    if sites != [] {
      EnabledSitesIff(sites[1..], s);
      assert sites == [sites[0]] + sites[1..];
    }
  }

  /** The filter keeps the configuration's order: filtering two runs of
      entries one after the other gives the two filtered runs in turn. */
  lemma {:induction false} EnabledSitesAppend(a: seq<Site>, b: seq<Site>)
    ensures EnabledSites(a + b) == EnabledSites(a) + EnabledSites(b)
  {
    if a == [] {
      assert a + b == b;
    } else {
      assert (a + b)[1..] == a[1..] + b;
      EnabledSitesAppend(a[1..], b);
      AppendAssociates(if a[0].enabled then [a[0]] else [], EnabledSites(a[1..]), EnabledSites(b));
    }
  }

  /** The `https://` url of a domain. */
  function Url(domain: string): string
  {
    Scheme + domain
  }

  /** The url starts with the scheme, and the domain is what follows it. */
  lemma UrlParts(domain: string)
    ensures StartsWith(Url(domain), Scheme)
    ensures Url(domain)[|Scheme|..] == domain
  {
    assert Url(domain)[..|Scheme|] == Scheme;
  }

  /** A character the file-name pattern `[^a-zA-Z0-9]` leaves alone. */
  predicate IsAlnum(c: char)
  {
    'a' <= c <= 'z' || 'A' <= c <= 'Z' || '0' <= c <= '9'
  }

  function Sanitize(c: char): char
  {
    if IsAlnum(c) then c else '_'
  }

  /** `s.replace(/[^a-zA-Z0-9]/g, '_')`, one `_` per character of `s`
      (a character outside the Basic Multilingual Plane is two UTF-16
      units, and two `_`, in JavaScript). */
  function ReplaceNonAlnum(s: string): (r: string)
    ensures |r| == |s|
  {
    if s == [] then [] else [Sanitize(s[0])] + ReplaceNonAlnum(s[1..])
  }

  lemma {:induction false} ReplaceNonAlnumChars(s: string)
    ensures forall i :: 0 <= i < |s| ==> ReplaceNonAlnum(s)[i] == Sanitize(s[i])
  {
    if s != [] {
      ReplaceNonAlnumChars(s[1..]);
      assert ReplaceNonAlnum(s) == [Sanitize(s[0])] + ReplaceNonAlnum(s[1..]);
    }
  }

  /** The file name of a domain: every character outside `[a-zA-Z0-9]`
      becomes `_`, then the whole is lower-cased. Only ASCII letters are
      left to lower-case, so ASCII lower-casing is exact here. */
  function FileName(domain: string): string
  {
    Lower(ReplaceNonAlnum(domain))
  }

  /** A character a file name may hold: `[a-z0-9_]`. */
  predicate IsFileNameChar(c: char)
  {
    'a' <= c <= 'z' || '0' <= c <= '9' || c == '_'
  }

  /** The file name has the domain's length; each of its characters is
      the domain's character sanitised and lower-cased, and lies in
      `[a-z0-9_]`. */
  lemma FileNameChars(domain: string)
    ensures |FileName(domain)| == |domain|
    ensures forall i :: 0 <= i < |domain| ==>
      FileName(domain)[i] == LowerChar(Sanitize(domain[i])) && IsFileNameChar(FileName(domain)[i])
  {
    ReplaceNonAlnumChars(domain);
    LowerChars(ReplaceNonAlnum(domain));
  }

  /** A string is its own file name exactly when it holds only `[a-z0-9_]`. */
  lemma FileNameFixedIff(s: string)
    ensures FileName(s) == s <==> forall i :: 0 <= i < |s| ==> IsFileNameChar(s[i])
  {
    FileNameChars(s);
    if forall i :: 0 <= i < |s| ==> IsFileNameChar(s[i]) {
      assert forall i :: 0 <= i < |s| ==> FileName(s)[i] == s[i];
    }
  }

  /** Sanitising a file name again changes nothing. */
  lemma FileNameIdempotent(domain: string)
    ensures FileName(FileName(domain)) == FileName(domain)
  {
    FileNameChars(domain);
    FileNameFixedIff(FileName(domain));
  }

  /** Distinct domains can share a file name, so one capture can overwrite
      another's output. */
  lemma FileNamesCollide()
    ensures FileName("a-b.com") == FileName("A_b.com") == "a_b_com"
  {
    FileNameChars("a-b.com");
    FileNameChars("A_b.com");
  }

  /** `path.join('screenshots', fileName + '.webp')`: a file name in
      `[a-z0-9_]` holds no separator or dot segment, so the join is plain
      concatenation. */
  function OutputPath(fileName: string): string
  {
    OutputDir + "/" + fileName + Extension
  }

  /** The output path is the output directory, the file name and the
      extension, and the file name can be read back from it. */
  lemma OutputPathParts(fileName: string)
    ensures var o := OutputPath(fileName);
      && |o| == |OutputDir| + 1 + |fileName| + |Extension|
      && StartsWith(o, OutputDir + "/")
      && o[|OutputDir| + 1..|o| - |Extension|] == fileName
      && o[|o| - |Extension|..] == Extension
  {
    var o := OutputPath(fileName);
    assert o[..|OutputDir| + 1] == OutputDir + "/";
  }

  /** `temp_${domain}.webp`. */
  function TempPath(domain: string): string
  {
    TempPrefix + domain + Extension
  }

  /** What the program does, in order: the calls it awaits and the calls it
      makes on a site's progress bar. */
  datatype Effect =
    | MakeDirectory(path: string)       // fs.mkdir(outputDir, { recursive: true })
    | StartBar(total: int)              // bar.start(total, 0, { domain, step })
    | Progress(stage: Stage)            // bar.increment(1, { step })
    | StopBar                           // bar.stop()
    | Launch                            // initializeBrowser(connectConfig)
    | Navigate(url: string)             // navigatePage(page, url)
    | AwaitChallenge(url: string)       // waitForCloudflare(page, url)
    | AwaitIdle(limit: int)             // page.waitForNavigation({ waitUntil: 'networkidle0', timeout })
    | Sleep(ms: int)                    // sleep(ms)
    | HidePopups                        // hidePopups(page)
    | HideCookies                       // hideCookies(page)
    | Screenshot(path: string)          // page.screenshot({ path, fullPage: false })
    | Compress(source: string, target: string) // compressImageUntilSize(source, target)
    | Unlink(path: string)              // fs.unlink(path)
    | Close                             // closeBrowser(browser)

  /** Whether the effect at each position throws, and the byte size of the
      encoding at each quality for the screenshot compressed at a position. */
  datatype Env = Env(throwsAt: nat -> bool, sizeAt: nat -> int -> nat)

  /** The effect `e` at position `k` throws. Progress-bar calls and sleeps
      never throw; how compression ends is the compressor's business. */
  predicate Throws(env: Env, e: Effect, k: nat)
  {
    !e.StartBar? && !e.Progress? && !e.StopBar? && !e.Sleep? && !e.Compress? && env.throwsAt(k)
  }

  /** No quality of the schedule brings the screenshot compressed at
      position `k` within the default ceiling. */
  predicate NoQualityFits(env: Env, k: nat)
  {
    forall q :: q in Compressor.Schedule ==> env.sizeAt(k)(q) > Compressor.DefaultTargetKB * Compressor.BytesPerKB
  }

  /** Why a capture failed: a step threw, or no quality fitted. */
  datatype Fault = StepFailed(step: Effect) | CompressFailed(message: string)

  /** What the loop reports for a site: where its screenshot was saved, or
      the url that failed and why. */
  datatype Report = Saved(path: string) | Failed(url: string, fault: Fault)

  /** The stages the progress-bar increments among `s` name, in order. */
  function BarSteps(s: seq<Effect>): (r: seq<Stage>)
    ensures |r| <= |s|
  {
    if s == [] then []
    else (if s[0].Progress? then [s[0].stage] else []) + BarSteps(s[1..])
  }

  lemma {:induction false} BarStepsAppend(a: seq<Effect>, b: seq<Effect>)
    ensures BarSteps(a + b) == BarSteps(a) + BarSteps(b)
  {
    if a == [] {
      assert a + b == b;
    } else {
      var head := if a[0].Progress? then [a[0].stage] else [];
      BarStepsAppend(a[1..], b);
      assert (a + b)[0] == a[0];
      assert (a + b)[1..] == a[1..] + b;
      calc {
        BarSteps(a + b);
        head + BarSteps(a[1..] + b);
        head + (BarSteps(a[1..]) + BarSteps(b));
        (head + BarSteps(a[1..])) + BarSteps(b);
      }
    }
  }

  /** `n` rounds of the settle loop: a bounded idle wait, whose throw is
      swallowed, then a short sleep. */
  function SettleSteps(n: nat): (steps: seq<Effect>)
    ensures |steps| == 2 * n
  {
    if n == 0 then [] else SettleSteps(n - 1) + [AwaitIdle(SettleLimit), Sleep(SettlePause)]
  }

  /** The settle loop alternates one-second idle waits and 50 ms sleeps,
      starting with a wait. */
  lemma {:induction false} SettleStepsShape(n: nat)
    ensures forall i :: 0 <= i < 2 * n ==>
      SettleSteps(n)[i] == if i % 2 == 0 then AwaitIdle(SettleLimit) else Sleep(SettlePause)
  {
    if n > 0 {
      SettleStepsShape(n - 1);
    }
  }

  /** The settle loop names no stage of the bar. */
  lemma {:induction false} SettleStepsNoBar(n: nat)
    ensures BarSteps(SettleSteps(n)) == []
  {
    if n > 0 {
      SettleStepsNoBar(n - 1);
      BarStepsAppend(SettleSteps(n - 1), [AwaitIdle(SettleLimit), Sleep(SettlePause)]);
    }
  }

  /** The opening of a capture: navigation, the challenge wait and the first
      idle wait, followed by its catch's sleep when it threw. */
  function Opening(url: string, idleThrew: bool): seq<Effect>
  {
    [Progress(Navigating), Navigate(url), Progress(Waiting), AwaitChallenge(url), AwaitIdle(FirstIdleLimit)]
    + (if idleThrew then [Sleep(FirstIdlePause)] else [])
  }

  /** Hiding popups and cookie banners, and the label of the final delay. */
  const Hiding: seq<Effect> := [Progress(Popups), HidePopups, Progress(Cookies), HideCookies, Progress(FinalDelay)]

  /** The end of a capture: the screenshot to a temporary file, its
      compression to the output path and its removal. */
  function Shot(domain: string, outputPath: string): seq<Effect>
  {
    [Progress(Capturing), Screenshot(TempPath(domain)),
     Progress(Compressing), Compress(TempPath(domain), outputPath), Unlink(TempPath(domain))]
  }

  /** The effects inside the `try` of a capture that goes through;
      `idleThrew` says whether the first idle wait threw. The settle loop is
      followed by the final delay, `minFinalDelay || 0`. */
  function Script(url: string, domain: string, outputPath: string, minFinalDelay: Option<int>, idleThrew: bool): seq<Effect>
  {
    Opening(url, idleThrew) + Hiding + (SettleSteps(SettleRounds) + [Sleep(Challenge.OrDefault(minFinalDelay, 0))])
    + Shot(domain, outputPath)
  }

  /** A whole capture that goes through: the first label, the launch, the
      script and the close of the `finally`. */
  function Capture(url: string, domain: string, outputPath: string, minFinalDelay: Option<int>, idleThrew: bool): seq<Effect>
  {
    [Progress(Initializing), Launch] + (Script(url, domain, outputPath, minFinalDelay, idleThrew) + [Close])
  }

  /** An effect that may happen inside the `try` of a capture: anything but
      closing the browser or starting or stopping a bar. */
  predicate Inside(e: Effect)
  {
    e != Close && !e.StartBar? && !e.StopBar?
  }

  predicate AllInside(s: seq<Effect>)
  {
    forall i :: 0 <= i < |s| ==> Inside(s[i])
  }

  lemma AllInsideAppend(a: seq<Effect>, b: seq<Effect>)
    requires AllInside(a) && AllInside(b)
    ensures AllInside(a + b)
  {
    forall i | 0 <= i < |a + b|
      ensures Inside((a + b)[i])
    {
      if i >= |a| {
        assert (a + b)[i] == b[i - |a|];
      }
    }
  }

  lemma {:induction false} SettleStepsInside(n: nat)
    ensures AllInside(SettleSteps(n))
  {
    if n > 0 {
      SettleStepsInside(n - 1);
      AllInsideAppend(SettleSteps(n - 1), [AwaitIdle(SettleLimit), Sleep(SettlePause)]);
    }
  }

  /** Nothing inside the `try` closes the browser or starts or stops a bar,
      and a capture that goes through ends by taking the screenshot to the
      temporary file, compressing that file to the output path and removing
      it. */
  lemma ScriptShape(url: string, domain: string, outputPath: string, minFinalDelay: Option<int>, idleThrew: bool)
    ensures var s := Script(url, domain, outputPath, minFinalDelay, idleThrew);
      && AllInside(s)
      && |s| >= 4
      && s[|s| - 4..] == [Screenshot(TempPath(domain)), Progress(Compressing), Compress(TempPath(domain), outputPath), Unlink(TempPath(domain))]
  {
    var opening := Opening(url, idleThrew);
    var settle := SettleSteps(SettleRounds) + [Sleep(Challenge.OrDefault(minFinalDelay, 0))];
    var shot := Shot(domain, outputPath);
    assert AllInside(opening);
    assert AllInside(Hiding);
    SettleStepsInside(SettleRounds);
    AllInsideAppend(SettleSteps(SettleRounds), [Sleep(Challenge.OrDefault(minFinalDelay, 0))]);
    assert AllInside(shot);
    AllInsideAppend(opening, Hiding);
    AllInsideAppend(opening + Hiding, settle);
    AllInsideAppend(opening + Hiding + settle, shot);
    SuffixAppend(opening + Hiding + settle, shot, 4);
  }

  /** The stages named by a short run of effects, one at a time. */
  lemma BarStepsCons(e: Effect, s: seq<Effect>)
    ensures BarSteps([e] + s) == (if e.Progress? then [e.stage] else []) + BarSteps(s)
  {
    assert ([e] + s)[0] == e;
    assert ([e] + s)[1..] == s;
  }

  lemma OpeningBarSteps(url: string, idleThrew: bool)
    ensures BarSteps(Opening(url, idleThrew)) == [Navigating, Waiting]
  {
    var recovery := if idleThrew then [Sleep(FirstIdlePause)] else [];
    BarStepsCons(AwaitIdle(FirstIdleLimit), recovery);
    if idleThrew {
      BarStepsCons(Sleep(FirstIdlePause), []);
    }
    BarStepsCons(AwaitChallenge(url), [AwaitIdle(FirstIdleLimit)] + recovery);
    BarStepsCons(Progress(Waiting), [AwaitChallenge(url)] + ([AwaitIdle(FirstIdleLimit)] + recovery));
    BarStepsCons(Navigate(url), [Progress(Waiting)] + ([AwaitChallenge(url)] + ([AwaitIdle(FirstIdleLimit)] + recovery)));
    BarStepsCons(Progress(Navigating), [Navigate(url)] + ([Progress(Waiting)] + ([AwaitChallenge(url)] + ([AwaitIdle(FirstIdleLimit)] + recovery))));
    assert Opening(url, idleThrew) == [Progress(Navigating)] + ([Navigate(url)] + ([Progress(Waiting)] + ([AwaitChallenge(url)] + ([AwaitIdle(FirstIdleLimit)] + recovery))));
  }

  lemma HidingBarSteps()
    ensures BarSteps(Hiding) == [Popups, Cookies, FinalDelay]
  {
    BarStepsCons(Progress(FinalDelay), []);
    BarStepsCons(HideCookies, [Progress(FinalDelay)]);
    BarStepsCons(Progress(Cookies), [HideCookies, Progress(FinalDelay)]);
    BarStepsCons(HidePopups, [Progress(Cookies), HideCookies, Progress(FinalDelay)]);
    BarStepsCons(Progress(Popups), [HidePopups, Progress(Cookies), HideCookies, Progress(FinalDelay)]);
    assert [Progress(Popups)] + [HidePopups, Progress(Cookies), HideCookies, Progress(FinalDelay)] == Hiding;
  }

  lemma ShotBarSteps(domain: string, outputPath: string)
    ensures BarSteps(Shot(domain, outputPath)) == [Capturing, Compressing]
  {
    var t := TempPath(domain);
    BarStepsCons(Unlink(t), []);
    BarStepsCons(Compress(t, outputPath), [Unlink(t)]);
    BarStepsCons(Progress(Compressing), [Compress(t, outputPath), Unlink(t)]);
    BarStepsCons(Screenshot(t), [Progress(Compressing), Compress(t, outputPath), Unlink(t)]);
    BarStepsCons(Progress(Capturing), [Screenshot(t), Progress(Compressing), Compress(t, outputPath), Unlink(t)]);
    assert [Progress(Capturing)] + [Screenshot(t), Progress(Compressing), Compress(t, outputPath), Unlink(t)] == Shot(domain, outputPath);
  }

  lemma ScriptBarSteps(url: string, domain: string, outputPath: string, minFinalDelay: Option<int>, idleThrew: bool)
    ensures BarSteps(Script(url, domain, outputPath, minFinalDelay, idleThrew)) == [Navigating, Waiting, Popups, Cookies, FinalDelay, Capturing, Compressing]
  {
    var opening := Opening(url, idleThrew);
    var settle := SettleSteps(SettleRounds) + [Sleep(Challenge.OrDefault(minFinalDelay, 0))];
    var shot := Shot(domain, outputPath);
    OpeningBarSteps(url, idleThrew);
    HidingBarSteps();
    ShotBarSteps(domain, outputPath);
    SettleStepsNoBar(SettleRounds);
    BarStepsCons(Sleep(Challenge.OrDefault(minFinalDelay, 0)), []);
    BarStepsAppend(SettleSteps(SettleRounds), [Sleep(Challenge.OrDefault(minFinalDelay, 0))]);
    BarStepsAppend(opening, Hiding);
    BarStepsAppend(opening + Hiding, settle);
    BarStepsAppend(opening + Hiding + settle, shot);
  }

  /** A capture that goes through increments the bar once per stage, in
      order: eight times, the total its bar is started with. */
  lemma CaptureBarSteps(url: string, domain: string, outputPath: string, minFinalDelay: Option<int>, idleThrew: bool)
    ensures BarSteps(Capture(url, domain, outputPath, minFinalDelay, idleThrew)) == Stages
    ensures |BarSteps(Capture(url, domain, outputPath, minFinalDelay, idleThrew))| == BarTotal
  {
    var script := Script(url, domain, outputPath, minFinalDelay, idleThrew);
    ScriptBarSteps(url, domain, outputPath, minFinalDelay, idleThrew);
    BarStepsCons(Close, []);
    BarStepsCons(Launch, []);
    BarStepsCons(Progress(Initializing), [Launch]);
    BarStepsAppend(script, [Close]);
    BarStepsAppend([Progress(Initializing), Launch], script + [Close]);
  }

  /** The last of a run of effects starting at position `p` threw. */
  predicate ThrewLast(env: Env, p: nat, steps: seq<Effect>)
  {
    0 < |steps| && Throws(env, steps[|steps| - 1], p + |steps| - 1)
  }

  /** A failure of a run of effects from position `p` is its last effect:
      a step that threw, or the compression, when no quality fits. */
  predicate FailedLast(env: Env, p: nat, domain: string, outputPath: string, r: Outcome<Fault>, steps: seq<Effect>)
  {
    && (r.Fail? && r.error.StepFailed? ==> ThrewLast(env, p, steps) && r.error.step == steps[|steps| - 1])
    && (r.Fail? && r.error.CompressFailed? ==>
         && 0 < |steps| && steps[|steps| - 1] == Compress(TempPath(domain), outputPath)
         && NoQualityFits(env, p + |steps| - 1))
  }

  /** The same failure after other effects. */
  lemma FailedLastShift(env: Env, p: nat, domain: string, outputPath: string, r: Outcome<Fault>, before: seq<Effect>, steps: seq<Effect>)
    requires 0 < |steps| && FailedLast(env, p + |before|, domain, outputPath, r, steps)
    ensures FailedLast(env, p, domain, outputPath, r, before + steps)
  {
    assert (before + steps)[|before + steps| - 1] == steps[|steps| - 1];
  }

  /** No effect of a run starting at position `p` threw, but for idle
      waits, whose throws are caught. */
  predicate Clean(env: Env, p: nat, steps: seq<Effect>)
  {
    forall i :: 0 <= i < |steps| && !steps[i].AwaitIdle? ==> !Throws(env, steps[i], p + i)
  }

  lemma CleanSnoc(env: Env, p: nat, steps: seq<Effect>, e: Effect)
    requires Clean(env, p, steps) && (e.AwaitIdle? || !Throws(env, e, p + |steps|))
    ensures Clean(env, p, steps + [e])
  {
    assert forall i :: 0 <= i < |steps| ==> (steps + [e])[i] == steps[i];
  }

  lemma CleanAppend(env: Env, p: nat, a: seq<Effect>, b: seq<Effect>)
    requires Clean(env, p, a) && Clean(env, p + |a|, b)
    ensures Clean(env, p, a + b)
  {
    forall i | 0 <= i < |a + b| && !(a + b)[i].AwaitIdle?
      ensures !Throws(env, (a + b)[i], p + i)
    {
      if i < |a| {
        assert (a + b)[i] == a[i];
      } else {
        assert (a + b)[i] == b[i - |a|];
      }
    }
  }

  /** Awaiting `e` after the effects `taken`, the first of which sits at
      position `p` of the run; false when it throws. */
  method Await(env: Env, p: nat, taken: seq<Effect>, e: Effect) returns (ok: bool, steps: seq<Effect>)
    ensures ok == !Throws(env, e, p + |taken|)
    ensures steps == taken + [e]
    ensures Clean(env, p, taken) && (ok || e.AwaitIdle?) ==> Clean(env, p, steps)
  {
    ok := !Throws(env, e, p + |taken|);
    steps := taken + [e];
    if Clean(env, p, taken) && (ok || e.AwaitIdle?) {
      CleanSnoc(env, p, taken, e);
    }
  }

  /** A progress-bar label after the effects `taken`. */
  method Label(env: Env, p: nat, taken: seq<Effect>, stage: Stage) returns (steps: seq<Effect>)
    ensures steps == taken + [Progress(stage)]
    ensures Clean(env, p, taken) ==> Clean(env, p, steps)
  {
    steps := taken + [Progress(stage)];
    if Clean(env, p, taken) {
      CleanSnoc(env, p, taken, Progress(stage));
    }
  }

  /** Navigation, the challenge wait and the first idle wait, from position
      `p`. When it goes through the steps are the opening and none of them
      threw but the idle wait; otherwise the last step threw. */
  method Open(env: Env, p: nat, url: string) returns (ok: bool, steps: seq<Effect>)
    ensures AllInside(steps)
    ensures ok ==> steps == Opening(url, env.throwsAt(p + 4)) && Clean(env, p, steps)
    ensures !ok ==> ThrewLast(env, p, steps) && steps[|steps| - 1] in {Navigate(url), AwaitChallenge(url)}
  {
    steps := Label(env, p, [], Navigating);
    ok, steps := Await(env, p, steps, Navigate(url));
    if !ok {
      return;
    }
    steps := Label(env, p, steps, Waiting);
    ok, steps := Await(env, p, steps, AwaitChallenge(url));
    if !ok {
      return;
    }
    var idle;
    idle, steps := Await(env, p, steps, AwaitIdle(FirstIdleLimit));
    if !idle {
      var slept;
      slept, steps := Await(env, p, steps, Sleep(FirstIdlePause));
    }
  }

  /** Hiding popups and cookie banners, from position `p`. */
  method Hide(env: Env, p: nat) returns (ok: bool, steps: seq<Effect>)
    ensures AllInside(steps)
    ensures ok ==> steps == Hiding && Clean(env, p, steps)
    ensures !ok ==> ThrewLast(env, p, steps) && steps[|steps| - 1] in {HidePopups, HideCookies}
  {
    steps := Label(env, p, [], Popups);
    ok, steps := Await(env, p, steps, HidePopups);
    if !ok {
      return;
    }
    steps := Label(env, p, steps, Cookies);
    ok, steps := Await(env, p, steps, HideCookies);
    if !ok {
      return;
    }
    steps := Label(env, p, steps, FinalDelay);
  }

  /** The settle loop of `captureScreenshot` and the final delay, from
      position `p`; nothing here can fail. */
  method Settle(env: Env, p: nat, minFinalDelay: Option<int>) returns (steps: seq<Effect>)
    ensures steps == SettleSteps(SettleRounds) + [Sleep(Challenge.OrDefault(minFinalDelay, 0))]
    ensures AllInside(steps) && Clean(env, p, steps)
  {
    steps := [];
    for i := 0 to SettleRounds
      invariant steps == SettleSteps(i) && Clean(env, p, steps)
    {
      var _, s1 := Await(env, p, steps, AwaitIdle(SettleLimit)); // the catch is empty
      var _, s2 := Await(env, p, s1, Sleep(SettlePause));
      steps := s2;
    }
    SettleStepsInside(SettleRounds);
    AllInsideAppend(steps, [Sleep(Challenge.OrDefault(minFinalDelay, 0))]);
    var slept;
    slept, steps := Await(env, p, steps, Sleep(Challenge.OrDefault(minFinalDelay, 0)));
  }

  /** The screenshot, its compression and the removal of the temporary
      file, from position `p`. */
  method TakeShot(env: Env, p: nat, domain: string, outputPath: string) returns (r: Outcome<Fault>, steps: seq<Effect>)
    ensures AllInside(steps)
    ensures r.Pass? ==> steps == Shot(domain, outputPath) && Clean(env, p, steps)
    ensures FailedLast(env, p, domain, outputPath, r, steps)
  {
    var tempPath := TempPath(domain);
    var ok;
    steps := Label(env, p, [], Capturing);
    ok, steps := Await(env, p, steps, Screenshot(tempPath));
    if !ok {
      r := Fail(StepFailed(Screenshot(tempPath)));
      return;
    }
    steps := Label(env, p, steps, Compressing);
    var compressed, _ := Compressor.CompressImageUntilSize(env.sizeAt(p + |steps|), Compressor.DefaultTargetKB);
    ok, steps := Await(env, p, steps, Compress(tempPath, outputPath));
    if compressed.Fail? {
      r := Fail(CompressFailed(compressed.error));
      return;
    }
    ok, steps := Await(env, p, steps, Unlink(tempPath));
    if !ok {
      r := Fail(StepFailed(Unlink(tempPath)));
      return;
    }
    r := Pass;
  }

  /** What the `try` block of `captureScreenshot` does from position `p`:
      it never closes the browser; a pass took the whole script; a step
      failure ends with the step that threw; a compression failure ends
      with the compression, which found no quality that fits. */
  predicate TriedRun(env: Env, p: nat, url: string, domain: string, outputPath: string, minFinalDelay: Option<int>,
                     r: Outcome<Fault>, steps: seq<Effect>)
  {
    && 0 < |steps| && AllInside(steps)
    && (r.Pass? ==> steps == Script(url, domain, outputPath, minFinalDelay, env.throwsAt(p + 4)) && Clean(env, p, steps))
    && FailedLast(env, p, domain, outputPath, r, steps)
  }

  /** The `try` block of `captureScreenshot` up to the settle loop, from
      position `p`. */
  method Prepare(env: Env, p: nat, url: string) returns (ok: bool, steps: seq<Effect>)
    ensures 0 < |steps| && AllInside(steps)
    ensures ok ==> steps == Opening(url, env.throwsAt(p + 4)) + Hiding && Clean(env, p, steps)
    ensures !ok ==> ThrewLast(env, p, steps)
  {
    var opening;
    ok, opening := Open(env, p, url);
    if !ok {
      steps := opening;
      return;
    }
    var hiding;
    ok, hiding := Hide(env, p + |opening|);
    AllInsideAppend(opening, hiding);
    steps := opening + hiding;
    if !ok {
      assert steps[|steps| - 1] == hiding[|hiding| - 1];
    } else {
      CleanAppend(env, p, opening, hiding);
    }
  }

  /** The rest of the `try` block: the settle loop, the final delay and the
      shot, from position `p`. */
  method Conclude(env: Env, p: nat, domain: string, outputPath: string, minFinalDelay: Option<int>)
    returns (r: Outcome<Fault>, steps: seq<Effect>)
    ensures 0 < |steps| && AllInside(steps)
    ensures r.Pass? ==> steps == (SettleSteps(SettleRounds) + [Sleep(Challenge.OrDefault(minFinalDelay, 0))]) + Shot(domain, outputPath)
    ensures r.Pass? ==> Clean(env, p, steps)
    ensures FailedLast(env, p, domain, outputPath, r, steps)
  {
    var settle := Settle(env, p, minFinalDelay);
    var shot;
    r, shot := TakeShot(env, p + |settle|, domain, outputPath);
    AllInsideAppend(settle, shot);
    if r.Fail? {
      FailedLastShift(env, p, domain, outputPath, r, settle, shot);
    } else {
      CleanAppend(env, p, settle, shot);
    }
    steps := settle + shot;
  }

  /** The `try` block of `captureScreenshot`, started at position `p`. */
  method CaptureSteps(env: Env, p: nat, url: string, domain: string, outputPath: string, minFinalDelay: Option<int>)
    returns (r: Outcome<Fault>, steps: seq<Effect>)
    ensures TriedRun(env, p, url, domain, outputPath, minFinalDelay, r, steps)
  {
    var ok, prepared := Prepare(env, p, url);
    if !ok {
      r, steps := Fail(StepFailed(prepared[|prepared| - 1])), prepared;
      return;
    }
    var rest;
    r, rest := Conclude(env, p + |prepared|, domain, outputPath, minFinalDelay);
    AllInsideAppend(prepared, rest);
    if r.Fail? {
      FailedLastShift(env, p, domain, outputPath, r, prepared, rest);
    } else {
      AppendAssociates(prepared, SettleSteps(SettleRounds) + [Sleep(Challenge.OrDefault(minFinalDelay, 0))], Shot(domain, outputPath));
      CleanAppend(env, p, prepared, rest);
    }
    steps := prepared + rest;
  }

  /** One of the effects of a run starting at position `p` is `e`, and it
      threw. */
  predicate ThrewAt(env: Env, p: nat, steps: seq<Effect>, e: Effect)
  {
    exists i :: 0 <= i < |steps| && steps[i] == e && Throws(env, steps[i], p + i)
  }

  lemma ThrewAtShift(env: Env, p: nat, before: seq<Effect>, steps: seq<Effect>, e: Effect)
    requires ThrewAt(env, p + |before|, steps, e)
    ensures ThrewAt(env, p, before + steps, e)
  {
    var i :| 0 <= i < |steps| && steps[i] == e && Throws(env, steps[i], p + |before| + i);
    assert (before + steps)[|before| + i] == e;
  }

  lemma ThrewAtExtend(env: Env, p: nat, steps: seq<Effect>, more: seq<Effect>, e: Effect)
    requires ThrewAt(env, p, steps, e)
    ensures ThrewAt(env, p, steps + more, e)
  {
    var i :| 0 <= i < |steps| && steps[i] == e && Throws(env, steps[i], p + i);
    assert (steps + more)[i] == e;
  }

  /** What the `try` block of `captureScreenshot` and the close of its
      `finally` do from position `p`: the browser is closed once, last; a
      throw of the close replaces the outcome of the `try`; a pass took the
      whole script; a step failure names a step that threw; a compression
      failure found no quality that fits. */
  predicate ClosedRun(env: Env, p: nat, url: string, domain: string, outputPath: string, minFinalDelay: Option<int>,
                      r: Outcome<Fault>, steps: seq<Effect>)
  {
    && 0 < |steps| && steps[|steps| - 1] == Close && AllInside(steps[..|steps| - 1])
    && (env.throwsAt(p + |steps| - 1) ==> r == Fail(StepFailed(Close)))
    && (r.Pass? ==> steps == Script(url, domain, outputPath, minFinalDelay, env.throwsAt(p + 4)) + [Close] && Clean(env, p, steps))
    && (r.Fail? && r.error.StepFailed? ==> ThrewAt(env, p, steps, r.error.step))
    && (r.Fail? && r.error.CompressFailed? ==>
         && 2 <= |steps| && steps[|steps| - 2] == Compress(TempPath(domain), outputPath)
         && NoQualityFits(env, p + |steps| - 2))
  }

  /** The `try` block of `captureScreenshot` and the close of its
      `finally`, from position `p`. */
  method TryThenClose(env: Env, p: nat, url: string, domain: string, outputPath: string, minFinalDelay: Option<int>)
    returns (r: Outcome<Fault>, steps: seq<Effect>)
    ensures ClosedRun(env, p, url, domain, outputPath, minFinalDelay, r, steps)
  {
    var tried;
    r, tried := CaptureSteps(env, p, url, domain, outputPath, minFinalDelay);
    var closed;
    closed, steps := Await(env, p, tried, Close);
    assert steps[..|steps| - 1] == tried;
    if !closed {
      r := Fail(StepFailed(Close));
      assert Throws(env, steps[|steps| - 1], p + |steps| - 1);
    } else if r.Fail? && r.error.StepFailed? {
      assert steps[|steps| - 2] == tried[|tried| - 1];
      assert Throws(env, steps[|steps| - 2], p + |steps| - 2);
    }
  }

  /** `captureScreenshot`, started at position `p`: the first label and the
      launch, whose throw ends the capture with no browser to close, then
      the `try` block and the close of its `finally`. */
  method CaptureScreenshot(env: Env, p: nat, url: string, domain: string, outputPath: string, minFinalDelay: Option<int>)
    returns (r: Outcome<Fault>, steps: seq<Effect>)
    ensures 2 <= |steps| && steps[..2] == [Progress(Initializing), Launch]
    ensures env.throwsAt(p + 1) ==> steps == [Progress(Initializing), Launch] && r == Fail(StepFailed(Launch))
    ensures !env.throwsAt(p + 1) ==> ClosedRun(env, p + 2, url, domain, outputPath, minFinalDelay, r, steps[2..])
  {
    var launched := !Throws(env, Launch, p + 1);
    if !launched {
      r, steps := Fail(StepFailed(Launch)), [Progress(Initializing), Launch];
      return;
    }
    var rest;
    r, rest := TryThenClose(env, p + 2, url, domain, outputPath, minFinalDelay);
    steps := [Progress(Initializing), Launch] + rest;
    assert steps[2..] == rest;
  }

  /** A launched capture closes the browser once, as its last step; the
      close's throw wins; a capture that goes through is the whole capture. */
  lemma LaunchedRun(env: Env, p: nat, url: string, domain: string, outputPath: string, minFinalDelay: Option<int>,
                    r: Outcome<Fault>, steps: seq<Effect>)
    requires 2 <= |steps| && steps[..2] == [Progress(Initializing), Launch]
    requires ClosedRun(env, p + 2, url, domain, outputPath, minFinalDelay, r, steps[2..])
    ensures steps[|steps| - 1] == Close && AllInside(steps[..|steps| - 1])
    ensures env.throwsAt(p + |steps| - 1) ==> r == Fail(StepFailed(Close))
    ensures r.Pass? ==> steps == Capture(url, domain, outputPath, minFinalDelay, env.throwsAt(p + 6))
  {
    var started := steps[..2];
    var rest := steps[2..];
    assert steps == started + rest;
    assert AllInside(started);
    DropLastAppend(started, rest);
    AllInsideAppend(started, rest[..|rest| - 1]);
  }

  /** How a capture from position `p` came out, in terms of what happened:
      a pass means no step threw, but for caught idle waits; a step failure
      names a step of the capture that threw; a compression failure comes
      from the compression of the capture, second to last, for which no
      quality fits. */
  predicate CaptureExplained(env: Env, p: nat, r: Outcome<Fault>, steps: seq<Effect>)
  {
    && (r.Pass? ==> Clean(env, p, steps))
    && (r.Fail? && r.error.StepFailed? ==> ThrewAt(env, p, steps, r.error.step))
    && (r.Fail? && r.error.CompressFailed? ==>
         2 <= |steps| && steps[|steps| - 2].Compress? && NoQualityFits(env, p + |steps| - 2))
  }

  /** The same for a capture whose launch went through. */
  lemma LaunchedExplained(env: Env, p: nat, url: string, domain: string, outputPath: string, minFinalDelay: Option<int>,
                          r: Outcome<Fault>, steps: seq<Effect>)
    requires 2 <= |steps| && steps[..2] == [Progress(Initializing), Launch] && !env.throwsAt(p + 1)
    requires ClosedRun(env, p + 2, url, domain, outputPath, minFinalDelay, r, steps[2..])
    ensures CaptureExplained(env, p, r, steps)
  {
    var started := steps[..2];
    var rest := steps[2..];
    assert steps == started + rest;
    if r.Pass? {
      assert Clean(env, p, started);
      CleanAppend(env, p, started, rest);
    }
    if r.Fail? && r.error.StepFailed? {
      ThrewAtShift(env, p, started, rest, r.error.step);
    }
    if r.Fail? && r.error.CompressFailed? {
      assert steps[|steps| - 2] == rest[|rest| - 2];
    }
  }

  /** A capture whose launch threw failed at the launch. */
  lemma LaunchFailedExplained(env: Env, p: nat)
    requires env.throwsAt(p + 1)
    ensures CaptureExplained(env, p, Fail(StepFailed(Launch)), [Progress(Initializing), Launch])
  {
    assert [Progress(Initializing), Launch][1] == Launch;
  }

  /** The run of one iteration of the loop over sites, and what it reports:
      the bar is started with the total of eight and stopped last; the
      capture between starts with the first label and the launch and
      closes the browser at most once, at its end; a saved site went
      through the whole capture, and a failed one is reported with its url. */
  predicate SiteRun(site: Site, run: seq<Effect>, report: Report)
  {
    var url := Url(site.domain);
    var outputPath := OutputPath(FileName(site.domain));
    && 4 <= |run| && run[0] == StartBar(BarTotal) && run[|run| - 1] == StopBar
    && run[1..3] == [Progress(Initializing), Launch]
    && (AllInside(run[1..|run| - 1]) || (run[|run| - 2] == Close && AllInside(run[1..|run| - 2])))
    && (report.Saved? ==> report.path == outputPath && Completed(site, run[1..|run| - 1]))
    && (report.Failed? ==> report.url == url)
  }

  /** The whole capture of a site, whichever way its first idle wait went. */
  predicate Completed(site: Site, steps: seq<Effect>)
  {
    var url := Url(site.domain);
    var outputPath := OutputPath(FileName(site.domain));
    || steps == Capture(url, site.domain, outputPath, site.minFinalDelay, false)
    || steps == Capture(url, site.domain, outputPath, site.minFinalDelay, true)
  }

  /** One iteration's run, from what the capture promises. */
  lemma RunOfCapture(site: Site, steps: seq<Effect>, passed: bool, report: Report)
    requires var s := steps;
      || s == [Progress(Initializing), Launch]
      || (2 <= |s| && s[..2] == [Progress(Initializing), Launch] && s[|s| - 1] == Close && AllInside(s[..|s| - 1]))
    requires passed ==> Completed(site, steps)
    requires report.Saved? ==> passed && report.path == OutputPath(FileName(site.domain))
    requires report.Failed? ==> report.url == Url(site.domain)
    ensures SiteRun(site, [StartBar(BarTotal)] + steps + [StopBar], report)
  {
    var run := [StartBar(BarTotal)] + steps + [StopBar];
    assert run[1..|run| - 1] == steps;
    if steps == [Progress(Initializing), Launch] {
      assert AllInside(steps);
    } else {
      assert run[1..|run| - 2] == steps[..|steps| - 1];
    }
  }

  /** What a site's report says about its run from position `p`: a saved
      site's run had no step throw, but for caught idle waits; a failed
      step is a step of the run that threw; a failed compression is the
      compression of the run, third from last, for which no quality fits. */
  predicate SiteExplained(env: Env, p: nat, run: seq<Effect>, report: Report)
  {
    && (report.Saved? ==> Clean(env, p, run))
    && (report.Failed? && report.fault.StepFailed? ==> ThrewAt(env, p, run, report.fault.step))
    && (report.Failed? && report.fault.CompressFailed? ==>
         3 <= |run| && run[|run| - 3].Compress? && NoQualityFits(env, p + |run| - 3))
  }

  /** The same, from how the capture inside the bar came out. */
  lemma SiteExplainedOfCapture(env: Env, p: nat, r: Outcome<Fault>, steps: seq<Effect>, report: Report)
    requires CaptureExplained(env, p + 1, r, steps)
    requires report.Saved? <==> r.Pass?
    requires report.Failed? ==> report.fault == r.error
    ensures SiteExplained(env, p, [StartBar(BarTotal)] + steps + [StopBar], report)
  {
    var before := [StartBar(BarTotal)];
    if report.Saved? {
      assert Clean(env, p, before);
      CleanAppend(env, p, before, steps);
      assert Clean(env, p + |before + steps|, [StopBar]);
      CleanAppend(env, p, before + steps, [StopBar]);
    }
    if report.Failed? && report.fault.StepFailed? {
      ThrewAtShift(env, p, before, steps, r.error.step);
      ThrewAtExtend(env, p, before + steps, [StopBar], r.error.step);
    }
    if report.Failed? && report.fault.CompressFailed? {
      assert (before + steps + [StopBar])[|steps| - 1] == steps[|steps| - 2];
    }
  }

  /** The runs of the iterations, one after another. */
  function Flatten(runs: seq<seq<Effect>>): (r: seq<Effect>)
  {
    if runs == [] then [] else Flatten(runs[..|runs| - 1]) + runs[|runs| - 1]
  }

  /** One iteration of the loop over sites, started at position `p`: start
      the site's bar, capture it, report it saved or failed, and stop the
      bar whatever happened. */
  method CaptureSite(env: Env, p: nat, site: Site) returns (report: Report, run: seq<Effect>)
    ensures SiteRun(site, run, report)
    ensures SiteExplained(env, p, run, report)
  {
    var url := Url(site.domain);
    var outputPath := OutputPath(FileName(site.domain));
    var r, steps := CaptureScreenshot(env, p + 1, url, site.domain, outputPath, site.minFinalDelay);
    if !env.throwsAt(p + 2) {
      LaunchedRun(env, p + 1, url, site.domain, outputPath, site.minFinalDelay, r, steps);
      LaunchedExplained(env, p + 1, url, site.domain, outputPath, site.minFinalDelay, r, steps);
    } else {
      LaunchFailedExplained(env, p + 1);
    }
    report := if r.Pass? then Saved(outputPath) else Failed(url, r.error);
    run := [StartBar(BarTotal)] + steps + [StopBar];
    RunOfCapture(site, steps, r.Pass?, report);
    SiteExplainedOfCapture(env, p, r, steps, report);
  }

  /** One iteration's report and run: what the loop makes of `site` when its
      run starts at position `at`. */
  predicate Reported(env: Env, site: Site, at: nat, run: seq<Effect>, report: Report)
  {
    SiteRun(site, run, report) && SiteExplained(env, at, run, report)
  }

  /** Where the run of iteration `j` starts: after the directory's creation
      and the runs before it. */
  function RunStart(runs: seq<seq<Effect>>, j: nat): nat
    requires j <= |runs|
  {
    1 + |Flatten(runs[..j])|
  }

  lemma RunStartKept(runs: seq<seq<Effect>>, run: seq<Effect>, j: nat)
    requires j <= |runs|
    ensures RunStart(runs + [run], j) == RunStart(runs, j)
  {
    assert (runs + [run])[..j] == runs[..j];
  }

  /** Each report, with its iteration's run, is what the loop makes of the
      enabled site in the same place. */
  predicate AllReported(env: Env, enabled: seq<Site>, runs: seq<seq<Effect>>, reports: seq<Report>)
  {
    && |runs| == |reports| <= |enabled|
    && forall j :: 0 <= j < |reports| ==> Reported(env, enabled[j], RunStart(runs, j), runs[j], reports[j])
  }

  lemma ReportedNext(env: Env, enabled: seq<Site>, runs: seq<seq<Effect>>, reports: seq<Report>, run: seq<Effect>, report: Report)
    requires AllReported(env, enabled, runs, reports) && |reports| < |enabled|
    requires Reported(env, enabled[|reports|], 1 + |Flatten(runs)|, run, report)
    ensures AllReported(env, enabled, runs + [run], reports + [report])
    ensures Flatten(runs + [run]) == Flatten(runs) + run
  {
    var runs', reports' := runs + [run], reports + [report];
    forall j | 0 <= j < |reports'|
      ensures Reported(env, enabled[j], RunStart(runs', j), runs'[j], reports'[j])
    {
      RunStartKept(runs, run, j);
      if j < |runs| {
        assert runs'[j] == runs[j] && reports'[j] == reports[j];
        assert Reported(env, enabled[j], RunStart(runs, j), runs[j], reports[j]);
      } else {
        WholePrefix(runs);
        assert runs'[j] == run && reports'[j] == report && enabled[j] == enabled[|reports|];
        assert RunStart(runs', j) == 1 + |Flatten(runs)|;
      }
    }
    WholePrefix(runs);
  }

  /** The top-level loop: create the output directory, then capture each
      enabled site in turn under its own bar, reporting it saved or failed;
      a failure is caught, the bar stopped, and the loop goes on. When the
      directory cannot be created nothing is captured. */
  method RunSites(env: Env, sites: seq<Site>) returns (reports: seq<Report>, trace: seq<Effect>, ghost runs: seq<seq<Effect>>)
    ensures 0 < |trace| && trace[0] == MakeDirectory(OutputDir)
    ensures env.throwsAt(0) ==> trace == [MakeDirectory(OutputDir)] && reports == []
    ensures !env.throwsAt(0) ==> |reports| == |EnabledSites(sites)|
    ensures trace == [MakeDirectory(OutputDir)] + Flatten(runs)
    ensures AllReported(env, EnabledSites(sites), runs, reports)
  {
    var made;
    made, trace := Await(env, 0, [], MakeDirectory(OutputDir));
    reports, runs := [], [];
    if !made {
      return;
    }
    var enabled := EnabledSites(sites);
    for i := 0 to |enabled|
      invariant |reports| == i
      invariant trace == [MakeDirectory(OutputDir)] + Flatten(runs)
      invariant AllReported(env, enabled, runs, reports)
    {
      var report, run := CaptureSite(env, |trace|, enabled[i]);
      assert Reported(env, enabled[i], |trace|, run, report);
      ReportedNext(env, enabled, runs, reports, run, report);
      AppendAssociates([MakeDirectory(OutputDir)], Flatten(runs), run);
      trace := trace + run;
      runs := runs + [run];
      reports := reports + [report];
    }
  }

  /* The challenge wait as `captureScreenshot` calls it. The function is
     declared `waitForCloudflare(connectConfig, page, url, timeout = 30000)`
     and its first await is `page.evaluate(...)`, outside any `try`; the
     call passes `(page, url)`, so `page` is bound to the url string, which
     has no `evaluate`, and the call throws a TypeError on entry. */

  /** A value passed to `waitForCloudflare`, as far as its first await cares. */
  datatype Argument = Undefined | PageHandle | ConfigObject | Text(s: string)

  /** The `page` parameter, bound from the positional arguments: the second
      one, `undefined` when there is none. */
  function PageParameter(args: seq<Argument>): Argument
  {
    if 2 <= |args| then args[1] else Undefined
  }

  /** `page.evaluate` is a method only of a page handle. */
  predicate WaitThrowsOnEntry(args: seq<Argument>)
  {
    PageParameter(args) != PageHandle
  }

  /** The call as written: `waitForCloudflare(page, url)`. */
  function WaitCallAsWritten(url: string): seq<Argument>
  {
    [PageHandle, Text(url)]
  }

  /** The call as evidently intended: `waitForCloudflare(connectConfig, page, url)`. */
  function WaitCall(url: string): seq<Argument>
  {
    [ConfigObject, PageHandle, Text(url)]
  }

  /** Every challenge wait of a run from position `p` throws exactly when
      the call made by `call` throws on entry, or, once entered, the wait
      itself fails: `outcome` gives, by position, how `waitForCloudflare`
      ends when it is entered with a page handle (the outcome of
      `Challenge.WaitRun`). */
  predicate WaitWired(env: Env, p: nat, run: seq<Effect>, call: string -> seq<Argument>, outcome: nat -> Outcome<Challenge.Failure>)
  {
    forall i :: 0 <= i < |run| && run[i].AwaitChallenge? ==>
      (env.throwsAt(p + i) <==> WaitThrowsOnEntry(call(run[i].url)) || outcome(p + i).Fail?)
  }

  /** Every challenge wait of a run from position `p`, once entered, passes. */
  predicate WaitsPass(p: nat, run: seq<Effect>, outcome: nat -> Outcome<Challenge.Failure>)
  {
    forall i :: 0 <= i < |run| && run[i].AwaitChallenge? ==> outcome(p + i) == Pass
  }

  /** Nothing of a run from position `p` throws but, perhaps, its challenge
      waits, and its screenshot can be brought within the ceiling. */
  predicate OnlyWaitMayFail(env: Env, p: nat, run: seq<Effect>)
  {
    && (forall i :: 0 <= i < |run| && !run[i].AwaitChallenge? ==> !Throws(env, run[i], p + i))
    && (3 <= |run| ==> !NoQualityFits(env, p + |run| - 3))
  }

  /** The sixth step of every capture that goes through is the challenge wait. */
  lemma CaptureWaitsAt(url: string, domain: string, outputPath: string, minFinalDelay: Option<int>, idleThrew: bool)
    ensures var c := Capture(url, domain, outputPath, minFinalDelay, idleThrew);
      5 < |c| && c[5] == AwaitChallenge(url)
  {
    var script := Script(url, domain, outputPath, minFinalDelay, idleThrew);
    assert script[3] == Opening(url, idleThrew)[3] == AwaitChallenge(url);
  }

  /** As written, the call on line 38 throws on entry whatever the url;
      wired as intended, it does not. */
  lemma WaitCallBinding(url: string)
    ensures WaitThrowsOnEntry(WaitCallAsWritten(url))
    ensures PageParameter(WaitCallAsWritten(url)) == Text(url)
    ensures !WaitThrowsOnEntry(WaitCall(url))
  {
  }

  /** As written, no site is ever saved: a saved site went through its
      challenge wait without a throw, which the miswired call cannot do. */
  lemma MiswiredNeverSaved(env: Env, p: nat, site: Site, run: seq<Effect>, report: Report, outcome: nat -> Outcome<Challenge.Failure>)
    requires Reported(env, site, p, run, report)
    requires WaitWired(env, p, run, WaitCallAsWritten, outcome)
    ensures !report.Saved?
  {
    if report.Saved? {
      var url := Url(site.domain);
      var outputPath := OutputPath(FileName(site.domain));
      var inner := run[1..|run| - 1];
      var b :| inner == Capture(url, site.domain, outputPath, site.minFinalDelay, b);
      CaptureWaitsAt(url, site.domain, outputPath, site.minFinalDelay, b);
      assert run[6] == inner[5] == AwaitChallenge(url);
      WaitCallBinding(url);
      assert false;
    }
  }

  /** As written, the whole loop saves nothing. */
  lemma MiswiredSavesNothing(env: Env, enabled: seq<Site>, runs: seq<seq<Effect>>, reports: seq<Report>, outcome: nat -> Outcome<Challenge.Failure>)
    requires AllReported(env, enabled, runs, reports)
    requires forall j :: 0 <= j < |runs| ==> WaitWired(env, RunStart(runs, j), runs[j], WaitCallAsWritten, outcome)
    ensures forall j :: 0 <= j < |reports| ==> !reports[j].Saved?
  {
    forall j | 0 <= j < |reports|
      ensures !reports[j].Saved?
    {
      MiswiredNeverSaved(env, RunStart(runs, j), enabled[j], runs[j], reports[j], outcome);
    }
  }

  /** Wired as intended, a site whose challenge wait passes once entered,
      whose other steps do not throw and whose screenshot fits is saved. */
  lemma WiredSaved(env: Env, p: nat, site: Site, run: seq<Effect>, report: Report, outcome: nat -> Outcome<Challenge.Failure>)
    requires Reported(env, site, p, run, report)
    requires WaitWired(env, p, run, WaitCall, outcome) && WaitsPass(p, run, outcome)
    requires OnlyWaitMayFail(env, p, run)
    ensures report.Saved?
  {
    forall i | 0 <= i < |run|
      ensures !Throws(env, run[i], p + i)
    {
      if run[i].AwaitChallenge? {
        WaitCallBinding(run[i].url);
      }
    }
  }

  /** The same miswired environment, with the call as written, saves nothing:
      for a site whose other steps do not throw and whose screenshot fits,
      the failure is the challenge wait's. */
  lemma MiswiredFailsAtWait(env: Env, p: nat, site: Site, run: seq<Effect>, report: Report, outcome: nat -> Outcome<Challenge.Failure>)
    requires Reported(env, site, p, run, report)
    requires WaitWired(env, p, run, WaitCallAsWritten, outcome)
    requires OnlyWaitMayFail(env, p, run)
    ensures report.Failed? && report.fault.StepFailed? && report.fault.step.AwaitChallenge?
  {
    MiswiredNeverSaved(env, p, site, run, report, outcome);
  }
}
