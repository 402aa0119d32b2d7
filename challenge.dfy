/** Waiting out a Cloudflare challenge (src/browser/cloudflare.js, lines
    96-192).

    The page is an environment the model reads: what each awaited step
    observes, whether it settles or throws, and what `Date.now()` says when
    it starts, are given up front, indexed by the position of that step in
    the session's trace. The clock moves on by at least a millisecond over
    every awaited step, which is what lets the time-bounded loop end. The
    three raced waits are one step that either settles or throws; a mouse
    simulation run alongside a sleep is one step too, which throws when the
    simulation does (its moves are the business of the motion model), and
    so is the scroll back to the top. */
module Challenge {
  import opened Wrappers
  import opened Strings

  /** Lower-cased title fragments that betray the challenge page. */
  const TitlePatterns: seq<string> := ["just a moment", "verifying you are not a bot", "checking your browser", "cloudflare"]

  const DefaultTimeout: int := 30000
  const DefaultMaxAttempts: int := 500
  const DefaultDelay: int := 10
  const DefaultFinalDelay: int := 1000
  const DefaultUrlCheckTimeout: int := 10000
  /** The sleep that runs alongside the first mouse simulation. */
  const InitialPause: int := 200
  /** The least time limit a raced wait is given. */
  const MinWait: int := 1000

  /** The title test: some pattern, a plain phrase matched case-insensitively,
      occurs in the lower-cased title. */
  predicate IsChallengeTitle(title: string)
  {
    exists i :: 0 <= i < |TitlePatterns| && Contains(Lower(title), TitlePatterns[i])
  }

  /** `setting || fallback` for a numeric setting: a missing setting or 0
      gives the fallback. */
  function OrDefault(setting: Option<int>, fallback: int): (r: int)
    ensures setting.Some? && setting.value != 0 ==> r == setting.value
    ensures setting.None? || setting.value == 0 ==> r == fallback
    ensures fallback != 0 ==> r != 0
  {
    if setting.Some? && setting.value != 0 then setting.value else fallback
  }

  /** The `cloudFlare` delays and the mouse switch of the configuration. */
  datatype Config = Config(
    mouseEnabled: Option<bool>,
    maxAttempts: Option<int>,
    delay: Option<int>,
    finalDelay: Option<int>,
    urlCheckTimeout: Option<int>)

  /** `mouseMovements?.enabled !== false`: on unless switched off outright. */
  predicate MouseOn(cfg: Config)
  {
    cfg.mouseEnabled != Some(false)
  }

  /** The awaited steps of a session, in order. */
  datatype Step =
    | Detect               // the title and selector test of the page
    | Pause(ms: int)       // sleep(ms)
    | MouseWhile(ms: int)  // a mouse simulation alongside sleep(ms)
    | Race(limit: int)     // the three waits, each given `limit` ms
    | TitleCheck           // one title test of `checkCloudflare`
    | ScrollTop            // scrolling back to the top
    | UrlCheck(limit: int) // waiting for the location to contain the url

  /** The sleep of `ms`, with the mouse moving alongside when it is on. */
  function Wait(mouse: bool, ms: int): (s: Step)
    ensures s.Pause? || s.MouseWhile?
    ensures s.MouseWhile? <==> mouse
  {
    if mouse then MouseWhile(ms) else Pause(ms)
  }

  /** What the page shows each step and how long each step takes. */
  datatype Page = Page(
    titleAt: nat -> Option<string>, // the title read by a step; None when the evaluation throws
    selectorPresent: bool,          // a challenge element is in the document
    settles: nat -> bool,           // whether the race, mouse simulation or scroll awaited at a step settles rather than throws
    clock: nat -> int,              // `Date.now()` when a step starts
    href: string)                   // the location once the challenge is over

  /** The step `s`, awaited at position `k`, settles: a plain sleep always
      does; a race, a mouse simulation or a scroll as the page says. */
  predicate Settles(page: Page, k: nat, s: Step)
  {
    s.Pause? || page.settles(k)
  }

  /** The clock moves on between the start of step `k` and the next. */
  predicate RisesAt(clock: nat -> int, k: nat)
  {
    clock(k) < clock(k + 1)
  }

  /** Every awaited step takes time: each starts after the one before. */
  ghost predicate Increasing(clock: nat -> int)
  {
    forall k: nat :: RisesAt(clock, k)
  }

  lemma {:induction false} ClockAdvances(clock: nat -> int, p: nat, k: nat)
    requires Increasing(clock)
    ensures clock(p + k) >= clock(p) + k
  {
    if k > 0 {
      ClockAdvances(clock, p, k - 1);
      assert RisesAt(clock, p + k - 1);
    }
  }

  /** The title read at a step lets `checkCloudflare` carry on. */
  predicate Clear(title: Option<string>)
  {
    title.Some? && !IsChallengeTitle(title.value)
  }

  /** How `checkCloudflare` ends: every attempt clear (`true`), a check that
      shows the challenge (`false`), or a rejection, from a title read or
      from an attempt's mouse simulation. */
  datatype Check = Cleared | Challenged | Threw

  /** `n` attempts that find no challenge: a title check and a wait each. */
  function Waits(n: nat, wait: Step): (steps: seq<Step>)
    ensures |steps| == 2 * n
    ensures forall i :: 0 <= i < |steps| ==> steps[i] == TitleCheck || steps[i] == wait
  {
    if n == 0 then [] else [TitleCheck, wait] + Waits(n - 1, wait)
  }

  /** One more clear attempt comes after the ones before it. */
  lemma {:induction false} WaitsSnoc(n: nat, wait: Step)
    ensures Waits(n + 1, wait) == Waits(n, wait) + [TitleCheck, wait]
  {
    if n > 0 {
      WaitsSnoc(n - 1, wait);
      AppendAssociates([TitleCheck, wait], Waits(n - 1, wait), [TitleCheck, wait]);
    }
  }

  /** The attempt whose title read is at `p` goes through: the title is
      clear, and the wait after it, at `p + 1`, settles. */
  predicate Attempted(page: Page, p: nat, wait: Step)
  {
    Clear(page.titleAt(p)) && Settles(page, p + 1, wait)
  }

  /** `checkCloudflare` with `n` attempts left, the title read of the next
      one at step `p`: its steps and how it ends. A clear check is followed
      by its wait, and, when that settles, by the next attempt two steps on. */
  function CheckRun(page: Page, p: nat, n: nat, wait: Step): (r: (seq<Step>, Check))
    ensures forall i :: 0 <= i < |r.0| ==> r.0[i] == TitleCheck || r.0[i] == wait
    decreases n
  {
    if n == 0 then ([], Cleared)
    else if !Clear(page.titleAt(p)) then ([TitleCheck], if page.titleAt(p).None? then Threw else Challenged)
    else if !Settles(page, p + 1, wait) then ([TitleCheck, wait], Threw)
    else
      var rest := CheckRun(page, p + 2, n - 1, wait);
      ([TitleCheck, wait] + rest.0, rest.1)
  }

  /** The `n` attempts from step `p`, every other step, all go through. */
  predicate AllClear(page: Page, p: nat, n: nat, wait: Step)
  {
    forall i :: 0 <= i < n ==> Attempted(page, p + 2 * i, wait)
  }

  lemma AllClearSnoc(page: Page, p: nat, n: nat, wait: Step)
    requires AllClear(page, p, n, wait) && Attempted(page, p + 2 * n, wait)
    ensures AllClear(page, p, n + 1, wait)
  {
  }

  lemma AllClearShift(page: Page, p: nat, n: nat, wait: Step)
    requires n > 0
    ensures AllClear(page, p, n, wait) <==> Attempted(page, p, wait) && AllClear(page, p + 2, n - 1, wait)
  {
    if AllClear(page, p, n, wait) {
      assert Attempted(page, p + 2 * 0, wait);
      forall i | 0 <= i < n - 1
        ensures Attempted(page, p + 2 + 2 * i, wait)
      {
        assert p + 2 + 2 * i == p + 2 * (i + 1);
      }
    }
    if Attempted(page, p, wait) && AllClear(page, p + 2, n - 1, wait) {
      forall i | 0 <= i < n
        ensures Attempted(page, p + 2 * i, wait)
      {
        if i > 0 {
          assert p + 2 * i == p + 2 + 2 * (i - 1);
        }
      }
    }
  }

  /** `checkCloudflare` returns true exactly when all `n` attempts go
      through: every title clear and every wait settled. */
  lemma {:induction false} CheckClearedIff(page: Page, p: nat, n: nat, wait: Step)
    ensures CheckRun(page, p, n, wait).1 == Cleared <==> AllClear(page, p, n, wait)
    decreases n
  {
    if n > 0 {
      CheckClearedIff(page, p + 2, n - 1, wait);
      AllClearShift(page, p, n, wait);
    }
  }

  /** How `checkCloudflare` ends when, after `i` attempts that went
      through, the attempt whose title read is at `q` does not: right after
      its title check, with false on a challenge title or by throwing when
      the read throws; or right after its wait, by throwing, when the
      wait's mouse simulation throws. */
  function Stopped(page: Page, q: nat, i: nat, wait: Step): (seq<Step>, Check)
  {
    if !Clear(page.titleAt(q)) then (Waits(i, wait) + [TitleCheck], if page.titleAt(q).None? then Threw else Challenged)
    else (Waits(i + 1, wait), Threw)
  }

  lemma StoppedFirst(page: Page, p: nat, n: nat, wait: Step)
    requires 0 < n && !Attempted(page, p, wait)
    ensures CheckRun(page, p, n, wait) == Stopped(page, p, 0, wait)
  {
    assert Waits(0, wait) == [];
    if Clear(page.titleAt(p)) {
      assert CheckRun(page, p, n, wait) == ([TitleCheck, wait], Threw);
      assert Waits(1, wait) == [TitleCheck, wait] + Waits(0, wait) == [TitleCheck, wait];
    } else {
      assert Waits(0, wait) + [TitleCheck] == [TitleCheck];
    }
  }

  lemma StoppedCons(page: Page, q: nat, i: nat, wait: Step)
    requires i > 0
    ensures Stopped(page, q, i, wait).0 == [TitleCheck, wait] + Stopped(page, q, i - 1, wait).0
    ensures Stopped(page, q, i, wait).1 == Stopped(page, q, i - 1, wait).1
  {
    AppendAssociates([TitleCheck, wait], Waits(i - 1, wait), [TitleCheck]);
  }

  /** The first attempt that does not go through ends `checkCloudflare`, as
      `Stopped` says. */
  lemma {:induction false} CheckStopsAt(page: Page, p: nat, n: nat, wait: Step, i: nat)
    requires i < n && AllClear(page, p, i, wait)
    requires !Attempted(page, p + 2 * i, wait)
    ensures CheckRun(page, p, n, wait) == Stopped(page, p + 2 * i, i, wait)
    decreases n
  {
    if i > 0 {
      AllClearShift(page, p, i, wait);
      assert Attempted(page, p, wait);
      var rest := CheckRun(page, p + 2, n - 1, wait);
      assert CheckRun(page, p, n, wait) == ([TitleCheck, wait] + rest.0, rest.1);
      assert p + 2 + 2 * (i - 1) == p + 2 * i;
      CheckStopsAt(page, p + 2, n - 1, wait, i - 1);
      StoppedCons(page, p + 2 * i, i, wait);
    } else {
      StoppedFirst(page, p, n, wait);
    }
  }

  /** When all `n` attempts go through, `checkCloudflare` returns true after
      `n` title checks, each followed by its wait. */
  lemma {:induction false} CheckRunsOut(page: Page, p: nat, n: nat, wait: Step)
    requires AllClear(page, p, n, wait)
    ensures CheckRun(page, p, n, wait) == (Waits(n, wait), Cleared)
    decreases n
  {
    if n > 0 {
      AllClearShift(page, p, n, wait);
      CheckRunsOut(page, p + 2, n - 1, wait);
    }
  }

  /** The number of title checks among `steps`. */
  function TitleReads(steps: seq<Step>): nat
  {
    if steps == [] then 0
    else (if steps[0] == TitleCheck then 1 else 0) + TitleReads(steps[1..])
  }

  lemma {:induction false} TitleReadsAppend(a: seq<Step>, b: seq<Step>)
    ensures TitleReads(a + b) == TitleReads(a) + TitleReads(b)
    decreases |a|
  {
    if a == [] {
      assert a + b == b;
    } else {
      assert (a + b)[1..] == a[1..] + b;
      TitleReadsAppend(a[1..], b);
    }
  }

  /** `checkCloudflare` reads the title at most `n` times, and exactly `n`
      times when it returns true. */
  lemma {:induction false} CheckReadsAtMost(page: Page, p: nat, n: nat, mouse: bool, delay: int)
    ensures TitleReads(CheckRun(page, p, n, Wait(mouse, delay)).0) <= n
    ensures CheckRun(page, p, n, Wait(mouse, delay)).1 == Cleared ==> TitleReads(CheckRun(page, p, n, Wait(mouse, delay)).0) == n
    decreases n
  {
    var w := Wait(mouse, delay);
    if n > 0 {
      if !Clear(page.titleAt(p)) {
        assert [TitleCheck][1..] == [];
      } else if !Settles(page, p + 1, w) {
        assert w != TitleCheck;
        assert [TitleCheck, w][1..] == [w];
        assert [w][1..] == [];
        assert TitleReads([w]) == 0;
        assert TitleReads([TitleCheck, w]) == 1;
      } else {
        var rest := CheckRun(page, p + 2, n - 1, w).0;
        CheckReadsAtMost(page, p + 2, n - 1, mouse, delay);
        TitleReadsAppend([TitleCheck, w], rest);
        assert [TitleCheck, w][1..] == [w];
        assert [w][1..] == [];
      }
    }
  }

  /** The attempts `checkCloudflare` makes within the loop. */
  function Attempts(cfg: Config): nat
  {
    Max(OrDefault(cfg.maxAttempts, DefaultMaxAttempts), 0)
  }

  /** The wait after each clear title check. */
  function AttemptWait(cfg: Config): Step
  {
    Wait(MouseOn(cfg), OrDefault(cfg.delay, DefaultDelay))
  }

  /** The final delay of a pass that does not break, in the `try` block and
      in the `catch` block alike. */
  function FinalWait(cfg: Config): Step
  {
    Wait(MouseOn(cfg), OrDefault(cfg.finalDelay, DefaultFinalDelay))
  }

  /** How a pass ends the loop: by the `break` after the scroll, or by a
      rejection that escapes the `catch` block. A pass that does neither
      lets the loop go on. */
  datatype Exit = Break | Reject

  /** The `catch` block, its final delay at step `q`: the loop goes on when
      the delay settles, and the rejection escapes when it throws. */
  function Catch(page: Page, cfg: Config, q: nat): (seq<Step>, Option<Exit>)
  {
    ([FinalWait(cfg)], if Settles(page, q, FinalWait(cfg)) then None else Some(Reject))
  }

  /** What follows `checkCloudflare` in a pass that ended `c`, from step `q`:
      on true the scroll to the top and the `break`; on false the final
      delay; a throw from the check, the scroll or that final delay is
      caught, and the `catch` block's final delay follows. */
  function AfterCheck(page: Page, cfg: Config, c: Check, q: nat): (r: (seq<Step>, Option<Exit>))
    ensures r.0 != [] && forall i :: 0 <= i < |r.0| ==> r.0[i] == ScrollTop || r.0[i] == FinalWait(cfg)
  {
    match c
    case Cleared =>
      if page.settles(q) then ([ScrollTop], Some(Break))
      else ([ScrollTop] + Catch(page, cfg, q + 1).0, Catch(page, cfg, q + 1).1)
    case Challenged =>
      if Settles(page, q, FinalWait(cfg)) then ([FinalWait(cfg)], None)
      else ([FinalWait(cfg)] + Catch(page, cfg, q + 1).0, Catch(page, cfg, q + 1).1)
    case Threw => Catch(page, cfg, q)
  }

  /** One pass of the `while` loop, its first step at `p` with `e` ms
      elapsed: the race; then, when it settles, `checkCloudflare` and what
      follows it; when it throws, the `catch` block. */
  function Round(page: Page, cfg: Config, timeout: int, p: nat, e: int): (r: (seq<Step>, Option<Exit>))
    ensures |r.0| >= 2 && r.0[0] == Race(Max(MinWait, timeout - e))
    ensures forall i :: 1 <= i < |r.0| ==> !r.0[i].Race?
  {
    var race := Race(Max(MinWait, timeout - e));
    if !page.settles(p) then ([race] + Catch(page, cfg, p + 1).0, Catch(page, cfg, p + 1).1)
    else
      var check := CheckRun(page, p + 1, Attempts(cfg), AttemptWait(cfg));
      var rest := AfterCheck(page, cfg, check.1, p + 1 + |check.0|);
      assert forall i :: 0 <= i < |check.0| ==> !check.0[i].Race?;
      ([race] + check.0 + rest.0, rest.1)
  }

  /** A pass breaks exactly when the race settles, every attempt of
      `checkCloudflare` goes through and the scroll to the top settles; it
      then ends with those attempts and the scroll. */
  lemma RoundExits(page: Page, cfg: Config, timeout: int, p: nat, e: int)
    ensures var r := Round(page, cfg, timeout, p, e);
      var n := Attempts(cfg);
      && (r.1 == Some(Break) <==> page.settles(p) && AllClear(page, p + 1, n, AttemptWait(cfg)) && page.settles(p + 1 + 2 * n))
      && (r.1 == Some(Break) ==> r.0 == [Race(Max(MinWait, timeout - e))] + Waits(n, AttemptWait(cfg)) + [ScrollTop])
  {
    var n := Attempts(cfg);
    CheckClearedIff(page, p + 1, n, AttemptWait(cfg));
    if page.settles(p) && AllClear(page, p + 1, n, AttemptWait(cfg)) {
      CheckRunsOut(page, p + 1, n, AttemptWait(cfg));
    }
  }

  /** A pass scrolls to the top exactly when the race settled and every
      attempt went through, and then right after those attempts. A scroll
      that settles is the pass's last step and breaks the loop; one that
      throws is caught, and the final delay is the one step after it. */
  lemma RoundScrolls(page: Page, cfg: Config, timeout: int, p: nat, e: int)
    ensures var r := Round(page, cfg, timeout, p, e);
      var n := Attempts(cfg);
      var w := AttemptWait(cfg);
      && (ScrollTop in r.0 <==> page.settles(p) && AllClear(page, p + 1, n, w))
      && (ScrollTop in r.0 ==>
            r.0 == [r.0[0]] + Waits(n, w) + (if page.settles(p + 1 + 2 * n) then [ScrollTop] else [ScrollTop, FinalWait(cfg)]))
      && (ScrollTop in r.0 ==> (r.1 == Some(Break) <==> page.settles(p + 1 + 2 * n)))
  {
    if page.settles(p) && AllClear(page, p + 1, Attempts(cfg), AttemptWait(cfg)) {
      ClearRoundScrolls(page, cfg, timeout, p, e);
    } else {
      UnclearRoundStays(page, cfg, timeout, p, e);
    }
  }

  lemma ClearRoundScrolls(page: Page, cfg: Config, timeout: int, p: nat, e: int)
    requires page.settles(p) && AllClear(page, p + 1, Attempts(cfg), AttemptWait(cfg))
    ensures var r := Round(page, cfg, timeout, p, e);
      var n := Attempts(cfg);
      && r.0 == [r.0[0]] + Waits(n, AttemptWait(cfg)) + (if page.settles(p + 1 + 2 * n) then [ScrollTop] else [ScrollTop, FinalWait(cfg)])
      && (r.1 == Some(Break) <==> page.settles(p + 1 + 2 * n))
  {
    var n := Attempts(cfg);
    var w := AttemptWait(cfg);
    var check := CheckRun(page, p + 1, n, w);
    CheckRunsOut(page, p + 1, n, w);
    assert check == (Waits(n, w), Cleared);
    assert |check.0| == 2 * n;
  }

  lemma UnclearRoundStays(page: Page, cfg: Config, timeout: int, p: nat, e: int)
    requires !(page.settles(p) && AllClear(page, p + 1, Attempts(cfg), AttemptWait(cfg)))
    ensures ScrollTop !in Round(page, cfg, timeout, p, e).0
  {
    var r := Round(page, cfg, timeout, p, e);
    var n := Attempts(cfg);
    var w := AttemptWait(cfg);
    assert FinalWait(cfg) != ScrollTop;
    if page.settles(p) {
      var check := CheckRun(page, p + 1, n, w);
      var rest := AfterCheck(page, cfg, check.1, p + 1 + |check.0|);
      assert r.0 == [r.0[0]] + check.0 + rest.0;
      assert ScrollTop !in check.0;
      CheckClearedIff(page, p + 1, n, w);
      assert ScrollTop !in rest.0;
    } else {
      assert r.0 == [r.0[0], FinalWait(cfg)];
    }
  }

  /** `steps` end with a pass that breaks: a race, `n` clear title checks
      each followed by its wait, and the scroll to the top. */
  predicate EndsCleared(steps: seq<Step>, n: nat, wait: Step)
  {
    && |steps| >= 2 * n + 2
    && steps[|steps| - 2 * n - 2].Race?
    && steps[|steps| - 2 * n - 1..] == Waits(n, wait) + [ScrollTop]
  }

  lemma EndsClearedAppend(a: seq<Step>, b: seq<Step>, n: nat, wait: Step)
    requires EndsCleared(b, n, wait)
    ensures EndsCleared(a + b, n, wait)
  {
    var k := |b| - 2 * n - 1;
    assert (a + b)[|a| + k..] == b[k..];
    assert (a + b)[|a| + k - 1] == b[k - 1];
  }

  /** `steps`, the step after whose last is at `end`, end as a pass that
      ends `x` does: with the final delay, settled when the loop goes on
      and thrown when it rejects; or, for the `break`, with the clear
      attempts and a scroll to the top that settled. */
  predicate EndsAs(page: Page, cfg: Config, end: nat, steps: seq<Step>, x: Option<Exit>)
  {
    && steps != [] && end > 0
    && match x
       case None => steps[|steps| - 1] == FinalWait(cfg) && Settles(page, end - 1, FinalWait(cfg))
       case Some(Break) =>
         && steps[|steps| - 1] == ScrollTop && page.settles(end - 1)
         && EndsCleared(steps, Attempts(cfg), AttemptWait(cfg))
       case Some(Reject) => steps[|steps| - 1] == FinalWait(cfg) && !Settles(page, end - 1, FinalWait(cfg))
  }

  lemma EndsAsAppend(page: Page, cfg: Config, end: nat, a: seq<Step>, b: seq<Step>, x: Option<Exit>)
    requires EndsAs(page, cfg, end, b, x)
    ensures EndsAs(page, cfg, end, a + b, x)
  {
    assert (a + b)[|a + b| - 1] == b[|b| - 1];
    if x == Some(Break) {
      EndsClearedAppend(a, b, Attempts(cfg), AttemptWait(cfg));
    }
  }

  /** `EndsCleared` of a pass that breaks. */
  lemma ExitEndsCleared(race: Step, n: nat, wait: Step)
    requires race.Race?
    ensures EndsCleared([race] + Waits(n, wait) + [ScrollTop], n, wait)
  {
    var steps := [race] + Waits(n, wait) + [ScrollTop];
    assert steps[|steps| - 2 * n - 1..] == Waits(n, wait) + [ScrollTop];
  }

  /** The `catch` block ends as its ending says. */
  lemma CatchEnds(page: Page, cfg: Config, q: nat)
    ensures EndsAs(page, cfg, q + 1, Catch(page, cfg, q).0, Catch(page, cfg, q).1)
  {
  }

  /** What follows `checkCloudflare`, when it does not break, ends as its
      ending says. */
  lemma AfterCheckEnds(page: Page, cfg: Config, c: Check, q: nat)
    ensures var r := AfterCheck(page, cfg, c, q);
      r.1 != Some(Break) ==> EndsAs(page, cfg, q + |r.0|, r.0, r.1)
  {
    var r := AfterCheck(page, cfg, c, q);
    if r.1 != Some(Break) {
      if c == Threw {
        CatchEnds(page, cfg, q);
      } else if !(c == Challenged && Settles(page, q, FinalWait(cfg))) {
        CatchEnds(page, cfg, q + 1);
        EndsAsAppend(page, cfg, q + 2, [r.0[0]], Catch(page, cfg, q + 1).0, r.1);
      }
    }
  }

  /** Every pass ends as its ending says: the loop goes on after a settled
      final delay, breaks after a settled scroll that follows the clear
      attempts, and rejects after a final delay whose mouse simulation
      threw. */
  lemma RoundEnds(page: Page, cfg: Config, timeout: int, p: nat, e: int)
    ensures var r := Round(page, cfg, timeout, p, e);
      EndsAs(page, cfg, p + |r.0|, r.0, r.1)
  {
    var r := Round(page, cfg, timeout, p, e);
    var race := Race(Max(MinWait, timeout - e));
    RoundExits(page, cfg, timeout, p, e);
    if r.1 == Some(Break) {
      ExitEndsCleared(race, Attempts(cfg), AttemptWait(cfg));
    } else if !page.settles(p) {
      CatchEnds(page, cfg, p + 1);
      EndsAsAppend(page, cfg, p + 2, [race], Catch(page, cfg, p + 1).0, r.1);
    } else {
      var check := CheckRun(page, p + 1, Attempts(cfg), AttemptWait(cfg));
      var q := p + 1 + |check.0|;
      var rest := AfterCheck(page, cfg, check.1, q);
      AfterCheckEnds(page, cfg, check.1, q);
      EndsAsAppend(page, cfg, q + |rest.0|, [race] + check.0, rest.0, r.1);
    }
  }

  /** Every pass of a loop takes at least one step. */
  ghost predicate Progresses(pass: nat -> (seq<Step>, Option<Exit>))
  {
    forall q: nat :: pass(q).0 != []
  }

  /** A loop whose pass from position `p` is `pass(p)`: its steps, and how
      the pass that stopped it ended (None when the time ran out). A pass
      starts only while the clock reads less than `deadline`. */
  function Passes(pass: nat -> (seq<Step>, Option<Exit>), clock: nat -> int, deadline: int, p: nat): (seq<Step>, Option<Exit>)
    requires Increasing(clock) && Progresses(pass)
    decreases deadline - clock(p)
  {
    if clock(p) >= deadline then ([], None)
    else
      var r := pass(p);
      if r.1.Some? then r
      else
        ClockAdvances(clock, p, |r.0|);
        var rest := Passes(pass, clock, deadline, p + |r.0|);
        (r.0 + rest.0, rest.1)
  }

  /** A pass, then the rest of the loop unless the pass stops it. */
  lemma PassesUnfold(pass: nat -> (seq<Step>, Option<Exit>), clock: nat -> int, deadline: int, p: nat, steps: seq<Step>, x: Option<Exit>)
    requires Increasing(clock) && Progresses(pass) && clock(p) < deadline
    requires pass(p) == (steps, x)
    ensures clock(p + |steps|) > clock(p)
    ensures x.Some? ==> Passes(pass, clock, deadline, p) == (steps, x)
    ensures x.None? ==>
      Passes(pass, clock, deadline, p) == (steps + Passes(pass, clock, deadline, p + |steps|).0, Passes(pass, clock, deadline, p + |steps|).1)
  {
    ClockAdvances(clock, p, |steps|);
  }

  /** No pass runs exactly when the time is up on entry, and then nothing
      stopped the loop. */
  lemma PassesEmptyIff(pass: nat -> (seq<Step>, Option<Exit>), clock: nat -> int, deadline: int, p: nat)
    requires Increasing(clock) && Progresses(pass)
    ensures Passes(pass, clock, deadline, p).0 == [] <==> clock(p) >= deadline
    ensures Passes(pass, clock, deadline, p).0 == [] ==> Passes(pass, clock, deadline, p).1 == None
  {
    if clock(p) < deadline {
      assert pass(p).0 != [];
    }
  }

  /** A property of every step of every pass holds of every step of the
      loop. */
  lemma {:induction false} PassesEvery(pass: nat -> (seq<Step>, Option<Exit>), clock: nat -> int, deadline: int, p: nat, ok: Step -> bool)
    requires Increasing(clock) && Progresses(pass)
    requires forall q: nat, i :: 0 <= i < |pass(q).0| ==> ok(pass(q).0[i])
    ensures forall i :: 0 <= i < |Passes(pass, clock, deadline, p).0| ==> ok(Passes(pass, clock, deadline, p).0[i])
    decreases deadline - clock(p)
  {
    if clock(p) < deadline {
      var (steps, x) := pass(p);
      PassesUnfold(pass, clock, deadline, p, steps, x);
      if x.None? {
        var rest := Passes(pass, clock, deadline, p + |steps|).0;
        PassesEvery(pass, clock, deadline, p + |steps|, ok);
        forall i | 0 <= i < |steps + rest|
          ensures ok((steps + rest)[i])
        {
          if i >= |steps| {
            assert (steps + rest)[i] == rest[i - |steps|];
          }
        }
      }
    }
  }

  /** A loop that took any step ends with a whole pass: the pass from some
      position `q` is its last steps, ends where the loop ends, and ended as
      the loop did. */
  lemma {:induction false} PassesLast(pass: nat -> (seq<Step>, Option<Exit>), clock: nat -> int, deadline: int, p: nat)
    requires Increasing(clock) && Progresses(pass)
    ensures var r := Passes(pass, clock, deadline, p);
      r.0 != [] ==> exists q: nat :: LastPassAt(pass, q, p, r)
    decreases deadline - clock(p)
  {
    if clock(p) < deadline {
      var (steps, x) := pass(p);
      PassesUnfold(pass, clock, deadline, p, steps, x);
      if x.Some? {
        assert LastPassAt(pass, p, p, (steps, x));
      } else {
        var rest := Passes(pass, clock, deadline, p + |steps|);
        var r := (steps + rest.0, rest.1);
        assert Passes(pass, clock, deadline, p) == r;
        PassesEmptyIff(pass, clock, deadline, p + |steps|);
        if rest.0 != [] {
          PassesLast(pass, clock, deadline, p + |steps|);
          var q: nat :| LastPassAt(pass, q, p + |steps|, rest);
          SuffixAppend(steps, rest.0, |pass(q).0|);
          assert LastPassAt(pass, q, p, r);
        } else {
          AppendEmpty(steps);
          assert LastPassAt(pass, p, p, r);
        }
      }
    }
  }

  /** The pass from `q` ends where `r`, a loop from `p`, ends, and as `r`
      does, its steps the last of `r`'s. */
  predicate LastPassAt(pass: nat -> (seq<Step>, Option<Exit>), q: nat, p: nat, r: (seq<Step>, Option<Exit>))
  {
    && q + |pass(q).0| == p + |r.0|
    && pass(q).1 == r.1
    && |pass(q).0| <= |r.0|
    && r.0[|r.0| - |pass(q).0|..] == pass(q).0
  }

  /** A loop that no pass stopped ran until the clock reached the
      deadline. */
  lemma {:induction false} PassesTimeUp(pass: nat -> (seq<Step>, Option<Exit>), clock: nat -> int, deadline: int, p: nat)
    requires Increasing(clock) && Progresses(pass)
    ensures var r := Passes(pass, clock, deadline, p);
      r.1 == None ==> clock(p + |r.0|) >= deadline
    decreases deadline - clock(p)
  {
    if clock(p) < deadline {
      var (steps, x) := pass(p);
      PassesUnfold(pass, clock, deadline, p, steps, x);
      if x.None? {
        var rest := Passes(pass, clock, deadline, p + |steps|);
        assert Passes(pass, clock, deadline, p) == (steps + rest.0, rest.1);
        PassesTimeUp(pass, clock, deadline, p + |steps|);
        assert p + |steps + rest.0| == p + |steps| + |rest.0|;
      }
    }
  }

  /** The time elapsed since `start` when the step at `p` begins. */
  function Elapsed(page: Page, start: int, p: nat): int
  {
    page.clock(p) - start
  }

  /** The passes of the `while` loop of `waitForCloudflare`, by position. */
  function RoundAt(page: Page, cfg: Config, timeout: int, start: int): nat -> (seq<Step>, Option<Exit>)
  {
    (q: nat) => Round(page, cfg, timeout, q, Elapsed(page, start, q))
  }

  lemma RoundsProgress(page: Page, cfg: Config, timeout: int, start: int)
    ensures Progresses(RoundAt(page, cfg, timeout, start))
  {
  }

  /** The loop from position `p`, the wait having started at `start`: a
      pass starts while less than `timeout` ms have elapsed, and the loop
      stops after a pass that breaks or rejects. */
  function Loop(page: Page, cfg: Config, timeout: int, start: int, p: nat): (seq<Step>, Option<Exit>)
    requires Increasing(page.clock)
  {
    RoundsProgress(page, cfg, timeout, start);
    Passes(RoundAt(page, cfg, timeout, start), page.clock, start + timeout, p)
  }

  lemma RoundAtIs(page: Page, cfg: Config, timeout: int, start: int, p: nat)
    ensures RoundAt(page, cfg, timeout, start)(p) == Round(page, cfg, timeout, p, Elapsed(page, start, p))
  {
  }

  lemma LoopIsPasses(page: Page, cfg: Config, timeout: int, start: int, p: nat)
    requires Increasing(page.clock)
    ensures Progresses(RoundAt(page, cfg, timeout, start))
    ensures Loop(page, cfg, timeout, start, p) == Passes(RoundAt(page, cfg, timeout, start), page.clock, start + timeout, p)
  {
    RoundsProgress(page, cfg, timeout, start);
  }

  /** A pass of the loop starts while the time is not up; the loop stops
      after it when it breaks or rejects, and goes on from the step after
      it otherwise. */
  lemma LoopUnfold(page: Page, cfg: Config, timeout: int, start: int, p: nat, steps: seq<Step>, x: Option<Exit>)
    requires Increasing(page.clock) && Elapsed(page, start, p) < timeout
    requires RoundAt(page, cfg, timeout, start)(p) == (steps, x)
    ensures page.clock(p + |steps|) > page.clock(p)
    ensures x.Some? ==> Loop(page, cfg, timeout, start, p) == (steps, x)
    ensures x.None? ==>
      Loop(page, cfg, timeout, start, p) == (steps + Loop(page, cfg, timeout, start, p + |steps|).0, Loop(page, cfg, timeout, start, p + |steps|).1)
  {
    var pass := RoundAt(page, cfg, timeout, start);
    LoopIsPasses(page, cfg, timeout, start, p);
    LoopIsPasses(page, cfg, timeout, start, p + |steps|);
    PassesUnfold(pass, page.clock, start + timeout, p, steps, x);
  }

  /** The same, after the steps `done` of the passes before. */
  lemma LoopUnfolds(page: Page, cfg: Config, timeout: int, start: int, p: nat, done: seq<Step>, steps: seq<Step>, x: Option<Exit>)
    requires Increasing(page.clock) && Elapsed(page, start, p) < timeout
    requires RoundAt(page, cfg, timeout, start)(p) == (steps, x)
    ensures page.clock(p + |steps|) > page.clock(p)
    ensures x.Some? ==> (done + Loop(page, cfg, timeout, start, p).0, Loop(page, cfg, timeout, start, p).1) == (done + steps, x)
    ensures x.None? ==>
      && done + Loop(page, cfg, timeout, start, p).0 == (done + steps) + Loop(page, cfg, timeout, start, p + |steps|).0
      && Loop(page, cfg, timeout, start, p).1 == Loop(page, cfg, timeout, start, p + |steps|).1
  {
    LoopUnfold(page, cfg, timeout, start, p, steps, x);
    AppendAssociates(done, steps, Loop(page, cfg, timeout, start, p + |steps|).0);
  }

  /** Every raced wait is given at least `MinWait` ms. */
  lemma LoopRacesAtLeast(page: Page, cfg: Config, timeout: int, start: int, p: nat)
    requires Increasing(page.clock)
    ensures var steps := Loop(page, cfg, timeout, start, p).0;
      forall i :: 0 <= i < |steps| && steps[i].Race? ==> steps[i].limit >= MinWait
  {
    var pass := RoundAt(page, cfg, timeout, start);
    var ok := (s: Step) => s.Race? ==> s.limit >= MinWait;
    forall q: nat, i | 0 <= i < |pass(q).0|
      ensures ok(pass(q).0[i])
    {
      var r := Round(page, cfg, timeout, q, Elapsed(page, start, q));
      assert pass(q) == r;
    }
    RoundsProgress(page, cfg, timeout, start);
    PassesEvery(pass, page.clock, start + timeout, p, ok);
  }

  /** The loop runs no pass at all exactly when the time is up on entry. */
  lemma LoopEmptyIff(page: Page, cfg: Config, timeout: int, start: int, p: nat)
    requires Increasing(page.clock)
    ensures Loop(page, cfg, timeout, start, p).0 == [] <==> Elapsed(page, start, p) >= timeout
    ensures Loop(page, cfg, timeout, start, p).0 == [] ==> Loop(page, cfg, timeout, start, p).1 == None
  {
    RoundsProgress(page, cfg, timeout, start);
    PassesEmptyIff(RoundAt(page, cfg, timeout, start), page.clock, start + timeout, p);
  }

  /** How the loop ends. It breaks only after a race that settled, every
      attempt clear and a scroll to the top that settled, the scroll being
      its very last step. It rejects only when the mouse simulation of a
      final delay throws, that simulation being its last step. When it goes
      on after its last pass, that pass ended with a settled final delay. */
  lemma LoopEnds(page: Page, cfg: Config, timeout: int, start: int, p: nat)
    requires Increasing(page.clock)
    ensures var r := Loop(page, cfg, timeout, start, p);
      r.0 != [] ==> EndsAs(page, cfg, p + |r.0|, r.0, r.1)
  {
    var pass := RoundAt(page, cfg, timeout, start);
    var r := Loop(page, cfg, timeout, start, p);
    LoopIsPasses(page, cfg, timeout, start, p);
    PassesLast(pass, page.clock, start + timeout, p);
    if r.0 != [] {
      var q: nat :| LastPassAt(pass, q, p, r);
      LastRoundEnds(page, cfg, timeout, start, p, q, r);
    }
  }

  /** Steps whose last pass of the loop ends as its ending says end so
      themselves. */
  lemma LastRoundEnds(page: Page, cfg: Config, timeout: int, start: int, p: nat, q: nat, r: (seq<Step>, Option<Exit>))
    requires LastPassAt(RoundAt(page, cfg, timeout, start), q, p, r)
    ensures EndsAs(page, cfg, p + |r.0|, r.0, r.1)
  {
    RoundAtIs(page, cfg, timeout, start, q);
    var last := Round(page, cfg, timeout, q, Elapsed(page, start, q));
    RoundEnds(page, cfg, timeout, q, Elapsed(page, start, q));
    assert r.0 == r.0[..|r.0| - |last.0|] + last.0;
    EndsAsAppend(page, cfg, p + |r.0|, r.0[..|r.0| - |last.0|], last.0, r.1);
  }

  /** A loop that no pass stopped has spent the timeout. */
  lemma LoopTimeUp(page: Page, cfg: Config, timeout: int, start: int, p: nat)
    requires Increasing(page.clock)
    ensures var r := Loop(page, cfg, timeout, start, p);
      r.1 == None ==> Elapsed(page, start, p + |r.0|) >= timeout
  {
    LoopIsPasses(page, cfg, timeout, start, p);
    PassesTimeUp(RoundAt(page, cfg, timeout, start), page.clock, start + timeout, p);
  }

  /** A loop rejects only with the mouse on: its last step is a final
      delay whose mouse simulation threw. */
  lemma LoopRejects(page: Page, cfg: Config, timeout: int, start: int, p: nat)
    requires Increasing(page.clock)
    ensures var r := Loop(page, cfg, timeout, start, p);
      r.1 == Some(Reject) ==>
        && MouseOn(cfg) && r.0 != []
        && r.0[|r.0| - 1] == MouseWhile(OrDefault(cfg.finalDelay, DefaultFinalDelay))
        && !page.settles(p + |r.0| - 1)
  {
    LoopEmptyIff(page, cfg, timeout, start, p);
    LoopEnds(page, cfg, timeout, start, p);
  }

  /** How the wait can fail: the detection script throws, a mouse
      simulation outside any `try` (the first one, or the one in the
      `catch` block) throws, or the location never comes to contain the
      url. */
  datatype Failure = DetectionFailed | MouseFailed | UrlCheckTimedOut

  /** The first mouse simulation and its sleep, when the mouse is on. */
  function Opening(cfg: Config): seq<Step>
  {
    [Detect] + if MouseOn(cfg) then [MouseWhile(InitialPause)] else []
  }

  /** The whole of `waitForCloudflare`, its first step at `p`: its steps,
      and whether it settles or throws. */
  function WaitRun(page: Page, cfg: Config, url: string, timeout: int, p: nat): (seq<Step>, Outcome<Failure>)
    requires Increasing(page.clock)
  {
    var title := page.titleAt(p);
    if title.None? then ([Detect], Fail(DetectionFailed))
    else if !(IsChallengeTitle(title.value) || page.selectorPresent) then ([Detect], Pass)
    else if MouseOn(cfg) && !page.settles(p + 1) then ([Detect, MouseWhile(InitialPause)], Fail(MouseFailed))
    else
      var rest := Waiting(page, cfg, url, timeout, page.clock(p), p + |Opening(cfg)|);
      (Opening(cfg) + rest.0, rest.1)
  }

  /** The wait once the challenge is found and the first mouse simulation
      has settled, from step `q`, the wait having started at `start`: the
      loop, then, unless a rejection escaped it, the url check. */
  function Waiting(page: Page, cfg: Config, url: string, timeout: int, start: int, q: nat): (seq<Step>, Outcome<Failure>)
    requires Increasing(page.clock)
  {
    var loop := Loop(page, cfg, timeout, start, q);
    if loop.1 == Some(Reject) then (loop.0, Fail(MouseFailed))
    else
      (loop.0 + [UrlCheck(OrDefault(cfg.urlCheckTimeout, DefaultUrlCheckTimeout))],
       if Contains(page.href, url) then Pass else Fail(UrlCheckTimedOut))
  }

  /** A page with no challenge title and no challenge element costs one
      detection step: no mouse motion and no waiting. */
  lemma NoChallengeNoWait(page: Page, cfg: Config, url: string, timeout: int, p: nat)
    requires Increasing(page.clock)
    requires page.titleAt(p).Some? && !IsChallengeTitle(page.titleAt(p).value) && !page.selectorPresent
    ensures WaitRun(page, cfg, url, timeout, p) == ([Detect], Pass)
  {
  }

  /** `steps`, taken from step `p`, end with a mouse simulation that threw. */
  predicate EndsMouseFailed(page: Page, p: nat, steps: seq<Step>)
  {
    steps != [] && steps[|steps| - 1].MouseWhile? && !page.settles(p + |steps| - 1)
  }

  lemma EndsMouseFailedAppend(page: Page, p: nat, a: seq<Step>, b: seq<Step>)
    requires EndsMouseFailed(page, p + |a|, b)
    ensures EndsMouseFailed(page, p, a + b)
  {
    assert (a + b)[|a + b| - 1] == b[|b| - 1];
  }

  /** After the opening, the wait fails on the mouse only with the mouse
      on, the final delay's failing simulation being the last step taken; a
      url check that times out is the last step, and so is one that passes. */
  lemma WaitingEnds(page: Page, cfg: Config, url: string, timeout: int, start: int, q: nat)
    requires Increasing(page.clock)
    ensures var rest := Waiting(page, cfg, url, timeout, start, q);
      && (rest.1 == Fail(MouseFailed) ==> MouseOn(cfg) && EndsMouseFailed(page, q, rest.0))
      && (rest.1 != Fail(MouseFailed) ==>
           rest.0 != [] && rest.0[|rest.0| - 1].UrlCheck? && (rest.1 == Pass <==> Contains(page.href, url)))
      && rest.1 != Fail(DetectionFailed)
  {
    LoopRejects(page, cfg, timeout, start, q);
  }

  /** Once the challenge is found and the first mouse simulation settled,
      the wait is the opening followed by the loop and the url check. */
  lemma WaitRunFound(page: Page, cfg: Config, url: string, timeout: int, p: nat)
    requires Increasing(page.clock)
    requires page.titleAt(p).Some? && (IsChallengeTitle(page.titleAt(p).value) || page.selectorPresent)
    requires !(MouseOn(cfg) && !page.settles(p + 1))
    ensures var rest := Waiting(page, cfg, url, timeout, page.clock(p), p + |Opening(cfg)|);
      WaitRun(page, cfg, url, timeout, p) == (Opening(cfg) + rest.0, rest.1)
  {
  }

  /** A wait fails on the mouse only with the mouse on, and the failing
      simulation, the first one or a final delay's, is the last step taken. */
  lemma WaitMouseFails(page: Page, cfg: Config, url: string, timeout: int, p: nat)
    requires Increasing(page.clock)
    ensures var run := WaitRun(page, cfg, url, timeout, p);
      run.1 == Fail(MouseFailed) ==> MouseOn(cfg) && EndsMouseFailed(page, p, run.0)
  {
    var title := page.titleAt(p);
    if title.Some? && (IsChallengeTitle(title.value) || page.selectorPresent) && !(MouseOn(cfg) && !page.settles(p + 1)) {
      FoundWaitMouseFails(page, cfg, url, timeout, p);
    } else {
      EarlyWaitMouseFails(page, cfg, url, timeout, p);
    }
  }

  lemma FoundWaitMouseFails(page: Page, cfg: Config, url: string, timeout: int, p: nat)
    requires Increasing(page.clock)
    requires page.titleAt(p).Some? && (IsChallengeTitle(page.titleAt(p).value) || page.selectorPresent)
    requires !(MouseOn(cfg) && !page.settles(p + 1))
    ensures var run := WaitRun(page, cfg, url, timeout, p);
      run.1 == Fail(MouseFailed) ==> MouseOn(cfg) && EndsMouseFailed(page, p, run.0)
  {
    var q := p + |Opening(cfg)|;
    var rest := Waiting(page, cfg, url, timeout, page.clock(p), q);
    WaitRunFound(page, cfg, url, timeout, p);
    WaitingEnds(page, cfg, url, timeout, page.clock(p), q);
    if rest.1 == Fail(MouseFailed) {
      EndsMouseFailedAppend(page, p, Opening(cfg), rest.0);
    }
  }

  lemma EarlyWaitMouseFails(page: Page, cfg: Config, url: string, timeout: int, p: nat)
    requires Increasing(page.clock)
    requires !(page.titleAt(p).Some? && (IsChallengeTitle(page.titleAt(p).value) || page.selectorPresent) && !(MouseOn(cfg) && !page.settles(p + 1)))
    ensures var run := WaitRun(page, cfg, url, timeout, p);
      run.1 == Fail(MouseFailed) ==> MouseOn(cfg) && EndsMouseFailed(page, p, run.0)
  {
    var title := page.titleAt(p);
    if title.Some? && (IsChallengeTitle(title.value) || page.selectorPresent) {
      assert WaitRun(page, cfg, url, timeout, p) == ([Detect, MouseWhile(InitialPause)], Fail(MouseFailed));
    } else {
      assert WaitRun(page, cfg, url, timeout, p).1 != Fail(MouseFailed);
    }
  }

  /** How the wait ends otherwise. It starts with detection, which fails
      exactly when its script throws. A url check that times out is the last
      step, and the location does not contain the url. A wait that passes
      found no challenge, or ended with a url check that the location
      meets. */
  lemma WaitOutcomes(page: Page, cfg: Config, url: string, timeout: int, p: nat)
    requires Increasing(page.clock)
    ensures var run := WaitRun(page, cfg, url, timeout, p);
      && run.0 != [] && run.0[0] == Detect
      && (run.1 == Fail(DetectionFailed) <==> page.titleAt(p).None?)
      && (run.1 == Fail(UrlCheckTimedOut) ==> run.0[|run.0| - 1].UrlCheck? && !Contains(page.href, url))
      && (run.1 == Pass ==> run.0 == [Detect] || (run.0[|run.0| - 1].UrlCheck? && Contains(page.href, url)))
  {
    var title := page.titleAt(p);
    if title.Some? && (IsChallengeTitle(title.value) || page.selectorPresent) && !(MouseOn(cfg) && !page.settles(p + 1)) {
      FoundWaitOutcomes(page, cfg, url, timeout, p);
    } else if title.Some? && (IsChallengeTitle(title.value) || page.selectorPresent) {
      assert WaitRun(page, cfg, url, timeout, p) == ([Detect, MouseWhile(InitialPause)], Fail(MouseFailed));
    } else if title.Some? {
      assert WaitRun(page, cfg, url, timeout, p) == ([Detect], Pass);
    } else {
      assert WaitRun(page, cfg, url, timeout, p) == ([Detect], Fail(DetectionFailed));
    }
  }

  lemma FoundWaitOutcomes(page: Page, cfg: Config, url: string, timeout: int, p: nat)
    requires Increasing(page.clock)
    requires page.titleAt(p).Some? && (IsChallengeTitle(page.titleAt(p).value) || page.selectorPresent)
    requires !(MouseOn(cfg) && !page.settles(p + 1))
    ensures var run := WaitRun(page, cfg, url, timeout, p);
      && run.0 != [] && run.0[0] == Detect && run.1 != Fail(DetectionFailed)
      && (run.1 == Fail(UrlCheckTimedOut) ==> run.0[|run.0| - 1].UrlCheck? && !Contains(page.href, url))
      && (run.1 == Pass ==> run.0[|run.0| - 1].UrlCheck? && Contains(page.href, url))
  {
    var q := p + |Opening(cfg)|;
    var rest := Waiting(page, cfg, url, timeout, page.clock(p), q);
    WaitRunFound(page, cfg, url, timeout, p);
    WaitingEnds(page, cfg, url, timeout, page.clock(p), q);
    assert Opening(cfg)[0] == Detect;
    EndsOfAppend(Opening(cfg), rest.0);
  }


  /** One browser tab waiting out the challenge: the trace of the steps it
      has awaited and the clock (`Date.now()`). */
  class Session {
    const page: Page
    var trace: seq<Step>

    constructor(page: Page)
      ensures this.page == page && trace == []
    {
      this.page := page;
      trace := [];
    }

    /** `Date.now()`. */
    function Now(): int
      reads this
    {
      page.clock(|trace|)
    }

    /** Awaiting one step. */
    method Await(s: Step)
      modifies this`trace
      ensures trace == old(trace) + [s]
    {
      trace := trace + [s];
    }

    /** Awaiting a step that settles or throws; true when it settles. */
    method Attempt(s: Step) returns (settled: bool)
      modifies this`trace
      ensures settled == Settles(page, |old(trace)|, s)
      ensures trace == old(trace) + [s]
    {
      settled := Settles(page, |trace|, s);
      Await(s);
    }

    /** One title test of `checkCloudflare`; None when it throws. */
    method ReadTitle() returns (title: Option<string>)
      modifies this`trace
      ensures title == page.titleAt(|old(trace)|)
      ensures trace == old(trace) + [TitleCheck]
    {
      title := page.titleAt(|trace|);
      Await(TitleCheck);
    }

    /** `checkCloudflare(maxAttempts, delay)`. */
    method CheckCloudflare(maxAttempts: int, delay: int, mouse: bool) returns (c: Check)
      modifies this`trace
      ensures var run := CheckRun(page, |old(trace)|, Max(maxAttempts, 0), Wait(mouse, delay));
        trace == old(trace) + run.0 && c == run.1
    {
      ghost var p := |trace|;
      ghost var n := Max(maxAttempts, 0);
      ghost var w := Wait(mouse, delay);
      var attempt := 0;
      while attempt < maxAttempts
        invariant 0 <= attempt <= n
        invariant AllClear(page, p, attempt, w)
        invariant trace == old(trace) + Waits(attempt, w)
      {
        assert |trace| == p + 2 * attempt;
        var title := ReadTitle();
        if title.None? || IsChallengeTitle(title.value) {
          CheckStopsAt(page, p, n, w, attempt);
          c := if title.None? then Threw else Challenged;
          return;
        }
        var waited := Attempt(Wait(mouse, delay));
        WaitsSnoc(attempt, w);
        AppendAssociates(old(trace), Waits(attempt, w), [TitleCheck, w]);
        if !waited {
          CheckStopsAt(page, p, n, w, attempt);
          return Threw;
        }
        AllClearSnoc(page, p, attempt, w);
        attempt := attempt + 1;
      }
      CheckRunsOut(page, p, n, w);
      c := Cleared;
    }

    /** The `catch` block: the final delay, and the rejection that escapes
        when its mouse simulation throws. */
    method Recover(cfg: Config) returns (ended: Option<Exit>)
      modifies this`trace
      ensures trace == old(trace) + Catch(page, cfg, |old(trace)|).0
      ensures ended == Catch(page, cfg, |old(trace)|).1
    {
      var waited := Attempt(Wait(MouseOn(cfg), OrDefault(cfg.finalDelay, DefaultFinalDelay)));
      ended := if waited then None else Some(Reject);
    }

    /** The rest of the `try` block once `checkCloudflare` has ended `c`,
        and the `catch` block when something in it threw. */
    method FinishCheck(cfg: Config, c: Check) returns (ended: Option<Exit>)
      modifies this`trace
      ensures trace == old(trace) + AfterCheck(page, cfg, c, |old(trace)|).0
      ensures ended == AfterCheck(page, cfg, c, |old(trace)|).1
    {
      if c == Cleared {
        var scrolled := Attempt(ScrollTop);
        if scrolled {
          return Some(Break);
        }
      } else if c == Challenged {
        var waited := Attempt(Wait(MouseOn(cfg), OrDefault(cfg.finalDelay, DefaultFinalDelay)));
        if waited {
          return None;
        }
      }
      // the check, the scroll or the final delay threw
      ghost var tried := trace;
      ended := Recover(cfg);
      AppendAssociates(old(trace), tried[|old(trace)|..], Catch(page, cfg, |tried|).0);
    }

    /** One pass of the `while` loop of `waitForCloudflare`, the wait having
        started at `startTime`: None when the loop goes on after it. */
    method RunRound(cfg: Config, timeout: int, startTime: int) returns (ended: Option<Exit>)
      modifies this`trace
      ensures var round := Round(page, cfg, timeout, |old(trace)|, Elapsed(page, startTime, |old(trace)|));
        trace == old(trace) + round.0 && ended == round.1
    {
      ghost var s := |trace|;
      ghost var round := Round(page, cfg, timeout, s, Elapsed(page, startTime, s));
      var race := Race(Max(MinWait, timeout - (Now() - startTime)));
      var settled := Attempt(race);
      if settled {
        var check := CheckCloudflare(OrDefault(cfg.maxAttempts, DefaultMaxAttempts), OrDefault(cfg.delay, DefaultDelay), MouseOn(cfg));
        ghost var run := CheckRun(page, s + 1, Attempts(cfg), AttemptWait(cfg));
        assert trace == old(trace) + [race] + run.0 && check == run.1;
        ghost var tried := trace;
        ended := FinishCheck(cfg, check);
        ghost var rest := AfterCheck(page, cfg, check, s + 1 + |run.0|);
        assert round == ([race] + run.0 + rest.0, rest.1);
        AppendAssociates(old(trace), [race], run.0);
        AppendAssociates(old(trace), [race] + run.0, rest.0);
      } else {
        ended := Recover(cfg);
        AppendAssociates(old(trace), [race], Catch(page, cfg, s + 1).0);
      }
    }

    /** The `while` loop of `waitForCloudflare`, the wait having started at
        `startTime`; true when a rejection escaped it. */
    method RunLoop(cfg: Config, timeout: int, startTime: int) returns (rejected: bool)
      requires Increasing(page.clock)
      modifies this`trace
      ensures var loop := Loop(page, cfg, timeout, startTime, |old(trace)|);
        trace == old(trace) + loop.0 && rejected == (loop.1 == Some(Reject))
    {
      ghost var total := Loop(page, cfg, timeout, startTime, |trace|);
      ghost var done: seq<Step> := [];
      AppendEmpty(old(trace));
      while Now() - startTime < timeout
        invariant trace == old(trace) + done
        invariant total.0 == done + Loop(page, cfg, timeout, startTime, |trace|).0
        invariant total.1 == Loop(page, cfg, timeout, startTime, |trace|).1
        decreases timeout - (Now() - startTime)
      {
        ghost var s := |trace|;
        ghost var round := Round(page, cfg, timeout, s, Elapsed(page, startTime, s));
        var ended := RunRound(cfg, timeout, startTime);
        ghost var steps := round.0;
        assert |trace| == s + |steps|;
        RoundAtIs(page, cfg, timeout, startTime, s);
        LoopUnfolds(page, cfg, timeout, startTime, s, done, steps, ended);
        AppendAssociates(old(trace), done, steps);
        done := done + steps;
        if ended.Some? {
          return ended == Some(Reject);
        }
      }
      LoopEmptyIff(page, cfg, timeout, startTime, |trace|);
      AppendEmpty(done);
      rejected := false;
    }

    /** `waitForCloudflare(connectConfig, page, url, timeout)`. */
    method WaitForCloudflare(cfg: Config, url: string, timeout: int) returns (r: Outcome<Failure>)
      requires Increasing(page.clock)
      modifies this`trace
      ensures var run := WaitRun(page, cfg, url, timeout, |old(trace)|);
        trace == old(trace) + run.0 && r == run.1
    {
      ghost var p := |trace|;
      var startTime := Now();
      var title := page.titleAt(|trace|);
      Await(Detect);
      if title.None? {
        return Fail(DetectionFailed);
      }
      var hasCloudflare := IsChallengeTitle(title.value) || page.selectorPresent;
      if !hasCloudflare {
        return Pass;
      }
      if MouseOn(cfg) {
        var moved := Attempt(MouseWhile(InitialPause));
        if !moved {
          return Fail(MouseFailed);
        }
      }
      ghost var before := Opening(cfg);
      assert trace == old(trace) + before;
      ghost var rest := Waiting(page, cfg, url, timeout, startTime, |trace|);
      r := WaitOut(cfg, url, timeout, startTime);
      AppendAssociates(old(trace), before, rest.0);
    }

    /** The wait once the challenge is found and the first mouse simulation
        has settled: the loop, then, unless a rejection escaped it, the url
        check. */
    method WaitOut(cfg: Config, url: string, timeout: int, startTime: int) returns (r: Outcome<Failure>)
      requires Increasing(page.clock)
      modifies this`trace
      ensures var rest := Waiting(page, cfg, url, timeout, startTime, |old(trace)|);
        trace == old(trace) + rest.0 && r == rest.1
    {
      ghost var loop := Loop(page, cfg, timeout, startTime, |trace|);
      var rejected := RunLoop(cfg, timeout, startTime);
      if rejected {
        return Fail(MouseFailed);
      }
      var check := UrlCheck(OrDefault(cfg.urlCheckTimeout, DefaultUrlCheckTimeout));
      Await(check);
      AppendAssociates(old(trace), loop.0, [check]);
      r := if Contains(page.href, url) then Pass else Fail(UrlCheckTimedOut);
    }
  }
}
