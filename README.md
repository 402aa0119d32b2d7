# Bulk clean screenshots, modelled in Dafny

The pipeline visits every enabled site of its configuration, one after
another, and captures a screenshot of each one. For each site it:

1. opens a browser and navigates to the site;
2. waits out a Cloudflare challenge page, moving the mouse like a person
   would;
3. hides overlays and clicks away cookie banners;
4. lets the page settle and takes a screenshot;
5. re-encodes the screenshot as WebP at falling qualities until it fits
   under 100 KB.

A progress bar follows every site through eight stages. A failing site is
reported and skipped.

The model covers four source files:

| file | module | form |
|---|---|---|
| `src/image/compressor.js` | `Compressor` (`compressor.dfy`) | a method with the source's `while` loop |
| `src/utils/popupHandler.js` | `Popups` (`popups.dfy`) | the overlay pass works in place on an `array` of elements; the cookie pass returns its clicks |
| `src/browser/cloudflare.js`, lines 1-94 | `Motion` (`motion.dfy`) | the class `MousePage`, which records the mouse events a page receives and counts the `Math.random()` draws it takes |
| `src/browser/cloudflare.js`, lines 96-192 | `Challenge` (`challenge.dfy`) | the class `Session`, which records the awaited steps of a session |
| `src/main.js` | `Capture` (`capture.dfy`) | methods that return the effects they perform, in order |

Three support modules sit beside them:

- `Strings` (`strings.dfy`) holds the string built-ins the page scripts
  use: ASCII lower-casing, substring search, `trim`, `parseInt`, the
  `classList` token split and decimal rendering.
- `Wrappers` (`wrappers.dfy`) holds `Option`, `Outcome` (settles or
  throws) and small sequence facts.

Every method is proved against a function of its inputs. The properties
the source promises are lemmas about those functions:

- **Compression:** the qualities tried are 85, 70, 55, 40, 25, 10, in
  order. The file left on disk is the highest quality that fits. The error
  is thrown exactly when none fits.
- **Overlays:** the pass hides exactly the elements the rule picks. It
  never un-hides anything and is idempotent. The ratio test on JavaScript
  numbers equals an integer cross-multiplication.
- **Cookies:** the pass clicks, in document order, exactly the links and
  buttons the selector and the accept pattern pick on the page as it was
  when the pass began, then sleeps 500 ms.
- **Motion:** every path starts and ends on its rounded end points and
  stays within 75 px of their box. Every pause is 20-50 ms. A movement's
  final target lies inside the central band. One simulation gives one or
  two movements of 62 to 124 events each.
- **Challenge wait:**
  - A page with no challenge costs one detection step.
  - Every raced wait is given at least 1000 ms.
  - A pass breaks exactly when its race settles, every attempt of the
    check goes through (a clear title, then a wait that settles) and the
    scroll to the top settles.
  - The loop otherwise runs out the timeout, unless a mouse simulation in
    the `catch` block throws. That rejection, like one from the first
    simulation, fails the wait with its simulation as the last step.
- **Capture:**
  - Every site's run starts and stops its bar.
  - A capture that goes through names all eight stages in order and
    closes the browser last.
  - A saved site had no step throw (a caught idle wait aside). A failure
    names a step that threw, or the compression for which no quality fit.

## Model

| member | source | states |
|---|---|---|
| `Compressor.CompressImageUntilSize` | src/image/compressor.js:5-22 | The encodings written are a prefix of the schedule 85, 70, … 10, and every one before the last is over the byte ceiling. It passes exactly when the last one fits, and that last one is then the highest fitting quality. It throws exactly when no quality fits, having tried all six, with the message for the ceiling. |
| `Compressor.DefaultErrorMessage` | src/image/compressor.js:5-21 | The default ceiling is 102400 bytes, and its error message reads "Unable to compress image under 100KB". |
| `Popups.HideRuleCharacterized` | src/utils/popupHandler.js:22-32 | An element is hidden iff it is fixed or absolute, its z-index parses to a positive integer, it is not nav-like, and its width/height ratio passes the test in integer form. |
| `Popups.RatioCrossMultiplied` | src/utils/popupHandler.js:31-32 | `!ratio \|\| (ratio < 5 && ratio > 1/5)` on JavaScript numbers (NaN, ±Infinity, finite) holds iff an unparsable size or a zero width is involved, or the parsed sizes cross-multiply to a ratio strictly between 1/5 and 5. |
| `Popups.QuotientBelow` | src/utils/popupHandler.js:32 | A quotient compared with a constant equals the cross-multiplied comparison, with the direction flipped for a negative divisor. |
| `Popups.QuotientAbove` | src/utils/popupHandler.js:32 | The same for `ratio > 1/5`. |
| `Popups.RatioCorners` | src/utils/popupHandler.js:31-33 | With "px" sizes: 0×0 (NaN) hides, w×0 (Infinity) does not, a 1:5 element does not, a square does. |
| `Popups.AutoZIndexStays` | src/utils/popupHandler.js:23-30 | An element whose z-index is "auto" is never hidden by the pass. |
| `Popups.ParseAuto` | src/utils/popupHandler.js:23 | `parseInt("auto", 10)` is NaN. |
| `Popups.LayoutDecides` | src/utils/popupHandler.js:20-35 | With computed styles held fixed as inputs, the rule reads nothing the pass writes: two pages that differ only in inline `display` get the same decision for every element. |
| `Popups.Decisions` | src/utils/popupHandler.js:21-34 | One decision per element, each the rule applied on the page as it was when the pass began. |
| `Popups.PassUpTo` | src/utils/popupHandler.js:21-35 | Part-way through the pass, the layout is unchanged and the elements not yet visited are untouched. |
| `Popups.PassUpToAt` | src/utils/popupHandler.js:21-35 | Every visited element is marked by its own decision. |
| `Popups.PassUpToMarks` | src/utils/popupHandler.js:21-35 | The same, for all visited elements at once. |
| `Popups.NextDecision` | src/utils/popupHandler.js:21-35 | Deciding the next element on the page as it stands mid-pass gives the decision it would have had on the original page. |
| `Popups.HidePass` | src/utils/popupHandler.js:18-38 | The whole pass keeps the length and layout. An element ends up `display: none` iff it already was or the rule picks it. Only picked elements change. |
| `Popups.HidePopups` | src/utils/popupHandler.js:18-38 | The in-place loop over the array leaves exactly `HidePass` of the original page. |
| `Popups.HidePassIdempotent` | src/utils/popupHandler.js:18-38 | Running the pass twice equals running it once. |
| `Popups.IndicesExact` | src/utils/popupHandler.js:8-12 | The positions `forEach` visits with a true test are all the positions satisfying it, each once, in increasing order. |
| `Popups.IndicesSound` | src/utils/popupHandler.js:8-12 | Every listed position is in range and satisfies the test. |
| `Popups.IndicesIncreasing` | src/utils/popupHandler.js:8-12 | The listed positions increase strictly. |
| `Popups.IndicesComplete` | src/utils/popupHandler.js:8-12 | Every position satisfying the test is listed. |
| `Popups.IndicesNext` | src/utils/popupHandler.js:8-12 | Visiting one more element adds its position exactly when it passes the test. |
| `Popups.ClickEvents` | src/utils/popupHandler.js:10 | One click per listed position, in the same order. |
| `Popups.ClickEventsAppend` | src/utils/popupHandler.js:8-12 | The clicks of two runs of positions are the clicks of each, one after the other. |
| `Popups.HideCookies` | src/utils/popupHandler.js:4-15 | The loop clicks, in document order, exactly the elements the cookie selector and the anchored case-insensitive accept pattern (on the trimmed text) pick on the page as it was when the pass began, then sleeps 500 ms. |
| `Strings.LowerChars` | src/utils/popupHandler.js:25 | ASCII lower-casing, position by position: each ASCII capital becomes its small letter and every other character is kept. It agrees with `toLowerCase` on ASCII text. |
| `Strings.ContainsAt` | src/utils/popupHandler.js:6 | A part occurring at some position is contained (the `*=` match). |
| `Strings.TrimStart` | src/utils/popupHandler.js:9 | It removes exactly a leading run of JavaScript white space, leaving a suffix that does not start with white space. |
| `Strings.TrimEnd` | src/utils/popupHandler.js:9 | It removes exactly a trailing run of white space, leaving a prefix that does not end with white space. |
| `Strings.Trim` | src/utils/popupHandler.js:9 | A non-empty trimmed string starts and ends with a non-space. |
| `Strings.DigitRun` | src/utils/popupHandler.js:23-31 | The longest prefix of digits `parseInt` reads: all digits, and the next character is not one. |
| `Strings.NatToDecimal` | src/image/compressor.js:21 | Decimal rendering is non-empty and all digits. |
| `Strings.NatToDecimalValue` | src/image/compressor.js:21 | Reading the rendering back gives the number. |
| `Strings.ParseRenderedNat` | src/utils/popupHandler.js:31 | `parseInt` of a rendered natural followed by a non-digit suffix such as "px" gives the natural back. |
| `Strings.ParseRendered` | src/utils/popupHandler.js:23-31 | `parseInt` of a rendered integer followed by such a suffix gives the integer back. |
| `Strings.ParseRenderedNegative` | src/utils/popupHandler.js:23 | The same for a negative integer. |
| `Strings.ParseRenderedNonNegative` | src/utils/popupHandler.js:23 | The same for a non-negative integer. |
| `Strings.WordLength` | src/utils/popupHandler.js:27-29 | The first class token: the longest run of non-spaces, stopped by a space. |
| `Strings.Tokens` | src/utils/popupHandler.js:27-29 | Every class token is non-empty and holds no space. |
| `Strings.TokensExact` | src/utils/popupHandler.js:27-29 | A word is a class token iff it stands in the attribute as a non-empty run of non-spaces with white space or an end of the attribute on either side. |
| `Strings.TokensSound` | src/utils/popupHandler.js:27-29 | Every class token stands in the attribute, bounded by white space or its ends. |
| `Strings.TokensComplete` | src/utils/popupHandler.js:27-29 | Every run that stands so in the attribute is a class token. |
| `Strings.WordAtStart` | src/utils/popupHandler.js:27-29 | A token at the start of the attribute is its first word. |
| `Strings.TokenShifts` | src/utils/popupHandler.js:27-29 | A token of the rest of the attribute after white space is a token of the whole. |
| `Motion.GetRandomInt` | src/browser/cloudflare.js:4-6 | For a draw in [0, 1) and `min <= max`, the result lies in [min, max + 1) at a whole distance from min. With whole bounds it is a whole number in [min, max]. |
| `Motion.Round` | src/browser/cloudflare.js:27 | `Math.round` lands within half a unit: x - 0.5 < r <= x + 0.5. |
| `Motion.RoundMonotone` | src/browser/cloudflare.js:27 | Rounding keeps order. |
| `Motion.Clamp` | src/browser/cloudflare.js:65-79 | `Math.max(lo, Math.min(v, hi))` lies in [lo, hi] and is v itself when v already does. |
| `Motion.BezierEnds` | src/browser/cloudflare.js:19-26 | The curve is at the start point for t = 0 and at the end point for t = 1. |
| `Motion.BernsteinWeights` | src/browser/cloudflare.js:19-26 | The four cubic weights are non-negative and sum to 1. |
| `Motion.WeightedWithin` | src/browser/cloudflare.js:19-26 | A convex combination of values within [lo, hi] stays within it. |
| `Motion.BezierWithinHull` | src/browser/cloudflare.js:19-26 | For t in [0, 1] the curve stays within any interval holding its four control values. |
| `Motion.ControlWithin` | src/browser/cloudflare.js:14-17 | A control value lies within 75 px of the box of start and end. |
| `Motion.CoordinateNear` | src/browser/cloudflare.js:14-27 | A rounded path coordinate lies between the rounded box edges widened by 75 px. |
| `Motion.StepFraction` | src/browser/cloudflare.js:12 | `i / steps` lies in [0, 1]. |
| `Motion.PathPoints` | src/browser/cloudflare.js:10-28 | The path holds `steps + 1` points. |
| `Motion.PathPointsEnds` | src/browser/cloudflare.js:11-27 | The first point is the rounded start and the last the rounded end, whatever the draws. |
| `Motion.FirstPathPoint` | src/browser/cloudflare.js:11-27 | At i = 0 the point is the rounded start. |
| `Motion.LastPathPoint` | src/browser/cloudflare.js:11-27 | At i = steps the point is the rounded end. |
| `Motion.PathStaysNear` | src/browser/cloudflare.js:11-27 | Every point of the path lies within the start/end box widened by 75 px, rounded. |
| `Motion.DrawnPauses` | src/browser/cloudflare.js:32 | One pause per point. |
| `Motion.PathPauses` | src/browser/cloudflare.js:30-33 | One pause per point of the path. |
| `Motion.PausesHuman` | src/browser/cloudflare.js:32 | Every pause is 20 to 50 ms. |
| `Motion.Interleave` | src/browser/cloudflare.js:30-33 | Each point gives a move and a pause: twice as many events as points. |
| `Motion.InterleaveAt` | src/browser/cloudflare.js:30-33 | Event 2i is the move to point i and event 2i+1 its pause. |
| `Motion.PathEvents` | src/browser/cloudflare.js:9-34 | A smooth move of `steps` gives 2·(steps+1) events. |
| `Motion.PathEventsDrawn` | src/browser/cloudflare.js:9-34 | The pauses are drawn after all the points. |
| `Motion.PathEnds` | src/browser/cloudflare.js:9-34 | The first move goes to the rounded start and the last move to the rounded end. |
| `Motion.PathHumanlike` | src/browser/cloudflare.js:9-34 | A smooth move alternates moves and pauses of 20-50 ms, starting with a move. |
| `Motion.InterleaveHumanlike` | src/browser/cloudflare.js:30-33 | Interleaving points with pauses of 20-50 ms is human-like. |
| `Motion.HumanlikeAppend` | src/browser/cloudflare.js:58-81 | Two human-like event lists, one after the other, are human-like. |
| `Motion.CentralBand` | src/browser/cloudflare.js:44-47 | The central band, from 20 % to 80 % of the viewport, is not empty. |
| `Motion.RoundedClampInBand` | src/browser/cloudflare.js:65-79 | A clamped, rounded target lies inside the band's rounded edges. |
| `Motion.MovementFrom` | src/browser/cloudflare.js:51-81 | A movement draws its start and end first (four draws), then makes the detour and the final move. |
| `Motion.MovementIs` | src/browser/cloudflare.js:51-81 | A movement is the optional overshoot detour, then a 30-step move from where that left off to the clamped end. It takes the draws of both. |
| `Motion.MovementShape` | src/browser/cloudflare.js:58-81 | With probability 0.3 (a draw below 0.3) there are two 30-step moves, otherwise one: 124 or 62 events. The draw count follows. |
| `Motion.MovementHumanlike` | src/browser/cloudflare.js:51-81 | Every movement is human-like. |
| `Motion.MovementStart` | src/browser/cloudflare.js:52-81 | The first move goes to the drawn start point, within the band's rounded edges plus 1 px. It is inside the band when the band has whole edges. |
| `Motion.MovementEnds` | src/browser/cloudflare.js:58-81 | The last move lands inside the band. When it overshoots, the detour's last move lands inside the band too. |
| `Motion.MovementCount` | src/browser/cloudflare.js:50 | `getRandomInt(1, 2)` is 1 or 2. |
| `Motion.RepeatHumanlike` | src/browser/cloudflare.js:51 | Repeating human-like movements is human-like. |
| `Motion.RepeatLength` | src/browser/cloudflare.js:51 | n repetitions of movements of a bounded length have n times those bounds. |
| `Motion.MovementsHumanlike` | src/browser/cloudflare.js:51-93 | Any number of movements is human-like. |
| `Motion.MovementsLength` | src/browser/cloudflare.js:51-93 | n movements give 62n to 124n events. |
| `Motion.HumanMouseHumanlike` | src/browser/cloudflare.js:37-94 | A whole simulation is human-like and gives 62 to 248 events. |
| `Motion.WholeBand` | src/browser/cloudflare.js:44-47 | For a viewport whose sides are multiples of 5, the band's edges are whole numbers. |
| `Motion.FifthsWhole` | src/browser/cloudflare.js:44-47 | 20 % and 80 % of a multiple of 5 are whole. |
| `Motion.StartCanLeaveBand` | src/browser/cloudflare.js:44-53 | On a 1368×768 viewport the band ends at 1094.4. A draw of 0.9995 starts the mouse at x = 1095, outside the band. |
| `Motion.AimEndNear` | src/browser/cloudflare.js:54-55 | With draws in [0, 1), a movement's end lies a whole number of pixels, at most 150, from its start on each axis. |
| `Motion.OvershootNear` | src/browser/cloudflare.js:59-60 | With draws in [0, 1), the overshoot corner lies a whole number of pixels, at most 50, from the end on each axis. |
| `Motion.MousePage.Random` | src/browser/cloudflare.js:5 | A draw is the next value of the random stream. |
| `Motion.MousePage.MoveTo` | src/browser/cloudflare.js:31 | The page receives a move to the point. |
| `Motion.MousePage.Sleep` | src/browser/cloudflare.js:32 | The page receives a pause. |
| `Motion.MousePage.CurvePoint` | src/browser/cloudflare.js:12-27 | One loop body: four draws and the rounded curve point they give. |
| `Motion.MousePage.ComputePoints` | src/browser/cloudflare.js:10-28 | The first loop computes `PathPoints` from the next 4·(steps+1) draws. |
| `Motion.MousePage.VisitPoints` | src/browser/cloudflare.js:30-33 | The second loop moves to every point in turn, each followed by a drawn pause. |
| `Motion.MousePage.SmoothMouseMove` | src/browser/cloudflare.js:9-34 | The page receives `PathEvents` and 5·(steps+1) draws are taken. Every property of `PathEvents` therefore holds of what the page receives. |
| `Motion.MousePage.DrawTarget` | src/browser/cloudflare.js:52-55 | Four draws give the start and end of a movement, `AimStart` and `AimEnd`, and the draw count moves on by four. `AimEndNear` bounds the end. |
| `Motion.MousePage.DrawOvershoot` | src/browser/cloudflare.js:59-60 | Two draws give the overshoot corner `Overshoot`, and the draw count moves on by two. `OvershootNear` bounds the corner. |
| `Motion.MousePage.MaybeOvershoot` | src/browser/cloudflare.js:58-71 | The page receives the detour, if any, and the next move starts from the unclamped overshoot corner. |
| `Motion.MousePage.MoveTowards` | src/browser/cloudflare.js:58-81 | The detour and the final move, as `MoveFrom` describes. |
| `Motion.MousePage.MoveOnce` | src/browser/cloudflare.js:52-81 | One iteration gives exactly one `Movement`, whose shape, band and pause properties are proved above. |
| `Motion.MousePage.SimulateHumanMouse` | src/browser/cloudflare.js:37-94 | The page receives exactly `HumanMouse`: one or two movements, human-like, 62 to 248 events. |
| `Challenge.OrDefault` | src/browser/cloudflare.js:163-173 | `setting \|\| fallback`: the setting when it is set and not 0, the fallback otherwise. It is never 0 when the fallback is not. |
| `Challenge.Wait` | src/browser/cloudflare.js:151-158 | A wait is a sleep with the mouse moving exactly when mouse movements are on, and a plain sleep otherwise. |
| `Challenge.ClockAdvances` | src/browser/cloudflare.js:123 | Over k awaited steps the clock moves on by at least k ms. |
| `Challenge.Waits` | src/browser/cloudflare.js:141-159 | n attempts that went through are 2n steps, title checks and waits. |
| `Challenge.WaitsSnoc` | src/browser/cloudflare.js:141-159 | One more attempt comes after the others. |
| `Challenge.CheckRun` | src/browser/cloudflare.js:140-161 | `checkCloudflare` performs only title checks and waits. |
| `Challenge.AllClearShift` | src/browser/cloudflare.js:141-159 | n attempts go through iff the first does and the n-1 after it do. |
| `Challenge.CheckClearedIff` | src/browser/cloudflare.js:140-161 | `checkCloudflare` returns true iff every attempt goes through: its title read is clear and its wait, mouse simulation included, settles. |
| `Challenge.StoppedFirst` | src/browser/cloudflare.js:141-158 | An attempt that does not go through ends the check: right after its title check, or right after its wait when that throws. |
| `Challenge.StoppedCons` | src/browser/cloudflare.js:141-159 | Each attempt that went through before the stop adds its title check and its wait. |
| `Challenge.CheckStopsAt` | src/browser/cloudflare.js:141-158 | The check stops at the first attempt that does not go through, after i that did. It returns false on a challenge title. It throws when the title read throws or when the wait throws. |
| `Challenge.CheckRunsOut` | src/browser/cloudflare.js:141-160 | When every attempt goes through, it makes all n and returns true. |
| `Challenge.TitleReadsAppend` | src/browser/cloudflare.js:142-147 | Title reads add up over concatenation. |
| `Challenge.CheckReadsAtMost` | src/browser/cloudflare.js:140-161 | At most `maxAttempts` titles are read, and exactly that many when it returns true. |
| `Challenge.AfterCheck` | src/browser/cloudflare.js:163-187 | What follows the check is never empty and holds only the scroll to the top and final delays. |
| `Challenge.Round` | src/browser/cloudflare.js:124-188 | A loop pass starts with the race, given `max(1000, timeout - elapsed)`. It takes at least two steps, and no other race. |
| `Challenge.RoundExits` | src/browser/cloudflare.js:124-188 | A pass breaks iff the race settles, every attempt goes through and the scroll to the top settles. It then ends with all the attempts and the scroll. |
| `Challenge.RoundScrolls` | src/browser/cloudflare.js:163-187 | A pass scrolls iff the race settled and every attempt went through, right after those attempts. A scroll that settles is the last step and breaks. One that throws is caught, the final delay follows, and the pass does not break. |
| `Challenge.ClearRoundScrolls` | src/browser/cloudflare.js:163-187 | The scrolling case of `RoundScrolls`. |
| `Challenge.UnclearRoundStays` | src/browser/cloudflare.js:124-188 | A pass whose race threw, or one of whose attempts did not go through, never scrolls. |
| `Challenge.EndsClearedAppend` | src/browser/cloudflare.js:123-189 | Ending with the attempts of a breaking pass survives a prefix. |
| `Challenge.EndsAsAppend` | src/browser/cloudflare.js:123-189 | How a pass ends survives a prefix. |
| `Challenge.ExitEndsCleared` | src/browser/cloudflare.js:163-166 | A breaking pass ends with the attempts and the scroll. |
| `Challenge.CatchEnds` | src/browser/cloudflare.js:178-187 | The `catch` block is its final delay. The loop goes on when it settles, and the rejection escapes when it throws. |
| `Challenge.AfterCheckEnds` | src/browser/cloudflare.js:163-187 | A pass that does not break ends with a final delay: settled when the loop goes on, thrown when the rejection escapes. |
| `Challenge.RoundEnds` | src/browser/cloudflare.js:124-188 | Every pass ends as its ending says: a break after the attempts and a settled scroll; otherwise a final delay, settled when the loop goes on and thrown when a rejection escapes. |
| `Challenge.PassesUnfold` | src/browser/cloudflare.js:123 | While time remains, the loop is one pass followed, unless that pass stops it, by the loop from where it ended. The clock has moved on. |
| `Challenge.PassesEmptyIff` | src/browser/cloudflare.js:123 | The loop does nothing iff the timeout has already passed, and then nothing stops it. |
| `Challenge.PassesEvery` | src/browser/cloudflare.js:123-189 | A property every pass's steps have holds of the whole loop. |
| `Challenge.PassesLast` | src/browser/cloudflare.js:123-189 | A loop that did anything ends with a whole pass, which stops it as the loop stops. |
| `Challenge.PassesTimeUp` | src/browser/cloudflare.js:123 | A loop that no pass stopped ran until the clock reached the deadline. |
| `Challenge.RoundsProgress` | src/browser/cloudflare.js:123-189 | Every pass takes at least one step. |
| `Challenge.RoundAtIs` | src/browser/cloudflare.js:124-138 | The pass at a position is given the time elapsed then. |
| `Challenge.LoopIsPasses` | src/browser/cloudflare.js:123-189 | The loop is its passes until the deadline `start + timeout`. |
| `Challenge.LoopUnfold` | src/browser/cloudflare.js:123-189 | The loop unrolled by one pass. |
| `Challenge.LoopUnfolds` | src/browser/cloudflare.js:123-189 | The same, after steps already taken. |
| `Challenge.NoChallengeNoWait` | src/browser/cloudflare.js:107-113 | A page with neither a challenge title nor a challenge element costs one detection step and passes. |
| `Challenge.LoopRacesAtLeast` | src/browser/cloudflare.js:126-136 | Every race of the loop is given at least 1000 ms. |
| `Challenge.LoopEmptyIff` | src/browser/cloudflare.js:123 | The loop is empty iff the timeout is already spent. |
| `Challenge.LoopEnds` | src/browser/cloudflare.js:123-189 | The loop ends as its last pass does. After a break, it ends with all the attempts and a settled scroll. Otherwise it ends with a final delay, settled when time ran out and thrown when a rejection escaped. |
| `Challenge.LastRoundEnds` | src/browser/cloudflare.js:123-189 | Steps ending with a whole pass end as that pass does. |
| `Challenge.LoopTimeUp` | src/browser/cloudflare.js:123 | A loop that neither broke nor rejected spent the timeout. |
| `Challenge.LoopRejects` | src/browser/cloudflare.js:178-187 | A rejection escapes the loop only with the mouse on. The last step is then a final delay whose mouse simulation threw, with any time left. |
| `Challenge.EndsMouseFailedAppend` | src/browser/cloudflare.js:97-192 | A failing mouse simulation as the last step survives a prefix. |
| `Challenge.WaitingEnds` | src/browser/cloudflare.js:123-191 | After the opening, a mouse failure happens only with the mouse on, the failing simulation last. Otherwise the url check is last, and the wait passes iff the location contains the url. |
| `Challenge.WaitRunFound` | src/browser/cloudflare.js:107-191 | Once the challenge is found and the first simulation settled, the wait is the opening, the loop and the url check. |
| `Challenge.WaitMouseFails` | src/browser/cloudflare.js:116-191 | The wait rejects on the mouse only with mouse movements on. Its last step is then the simulation that threw: the first one, or a final delay in the `catch` block. |
| `Challenge.FoundWaitMouseFails` | src/browser/cloudflare.js:123-191 | The same, once the first simulation settled. |
| `Challenge.EarlyWaitMouseFails` | src/browser/cloudflare.js:107-121 | The same, before the loop: only the first simulation can fail. |
| `Challenge.WaitOutcomes` | src/browser/cloudflare.js:107-191 | The wait starts with detection, and fails there iff the detection script throws. A url check that times out is the last step, and the location does not contain the url. A wait that passes found no challenge, or its last step is a url check that the location meets. |
| `Challenge.FoundWaitOutcomes` | src/browser/cloudflare.js:123-191 | The same, once the first simulation settled. |
| `Challenge.Session.constructor` | src/browser/cloudflare.js:97 | A session starts with an empty trace. |
| `Challenge.Session.Await` | src/browser/cloudflare.js:97-192 | An awaited step is appended to the trace. |
| `Challenge.Session.Attempt` | src/browser/cloudflare.js:117-187 | An awaited step that may throw is appended, and it reports whether the step settled. |
| `Challenge.Session.ReadTitle` | src/browser/cloudflare.js:142-147 | A title read returns what the page shows at that step. |
| `Challenge.Session.CheckCloudflare` | src/browser/cloudflare.js:140-161 | The `for` loop performs exactly `CheckRun` and returns its verdict, `Threw` standing for the rejection. |
| `Challenge.Session.Recover` | src/browser/cloudflare.js:178-187 | The `catch` block performs exactly `Catch`. |
| `Challenge.Session.FinishCheck` | src/browser/cloudflare.js:163-177 | The rest of the `try` block performs exactly `AfterCheck`. |
| `Challenge.Session.RunRound` | src/browser/cloudflare.js:124-188 | One pass performs exactly `Round` and reports whether it breaks or rejects. |
| `Challenge.Session.RunLoop` | src/browser/cloudflare.js:123-189 | The `while` loop performs exactly `Loop` and reports whether a rejection escaped it, so `LoopEnds`, `LoopRejects` and `LoopRacesAtLeast` hold of it. |
| `Challenge.Session.WaitOut` | src/browser/cloudflare.js:123-191 | The loop, then, unless a rejection escaped it, the url check: exactly `Waiting`. |
| `Challenge.Session.WaitForCloudflare` | src/browser/cloudflare.js:97-192 | The whole wait, exactly `WaitRun`: detection, the optional first mouse simulation, the loop and the url check. It fails when detection throws, when the first simulation or a final delay in the `catch` block throws, or when the url never appears. |
| `Capture.EnabledSitesIff` | src/main.js:78 | A site is captured iff it is in the configuration and enabled. |
| `Capture.EnabledSitesAppend` | src/main.js:78 | The filter keeps the configuration's order. |
| `Capture.UrlParts` | src/main.js:81 | The url is `https://` followed by the domain. |
| `Capture.ReplaceNonAlnumChars` | src/main.js:82 | Every character outside `[a-zA-Z0-9]` becomes `_`, the rest are kept. |
| `Capture.FileNameChars` | src/main.js:82 | The file name has the domain's length, and every character is the lower-cased sanitised one, in `[a-z0-9_]`. |
| `Capture.FileNameFixedIff` | src/main.js:82 | A name is its own file name iff all its characters are in `[a-z0-9_]`. |
| `Capture.FileNameIdempotent` | src/main.js:82 | Naming a file name again changes nothing. |
| `Capture.FileNamesCollide` | src/main.js:82 | "a-b.com" and "A_b.com" get the same file "a_b_com", so the later capture overwrites the earlier. |
| `Capture.OutputPathParts` | src/main.js:83 | The output path is `screenshots/`, the file name, then `.webp`. |
| `Capture.BarSteps` | src/main.js:31-65 | The stages a run names are at most its effects. |
| `Capture.BarStepsAppend` | src/main.js:31-65 | The stages of two runs add up. |
| `Capture.SettleSteps` | src/main.js:53-58 | The settle loop takes 2n steps. |
| `Capture.SettleStepsShape` | src/main.js:53-58 | It alternates one-second idle waits and 50 ms sleeps. |
| `Capture.SettleStepsNoBar` | src/main.js:53-58 | It names no stage. |
| `Capture.SettleStepsInside` | src/main.js:53-58 | It neither closes the browser nor touches the bar. |
| `Capture.ScriptShape` | src/main.js:33-67 | Nothing in the `try` closes the browser or touches the bar. A capture that goes through ends with screenshot, label, compression and unlink. |
| `Capture.OpeningBarSteps` | src/main.js:34-44 | Opening names Navigating and Waiting. |
| `Capture.HidingBarSteps` | src/main.js:46-52 | Hiding names Popups, Cookies and FinalDelay. |
| `Capture.ShotBarSteps` | src/main.js:61-67 | The shot names Capturing and Compressing. |
| `Capture.ScriptBarSteps` | src/main.js:33-67 | The `try` names its seven stages in order. |
| `Capture.CaptureBarSteps` | src/main.js:30-92 | A capture that goes through names all eight stages, in order, which is the bar's total of 8. |
| `Capture.FailedLastShift` | src/main.js:30-71 | A failure explained by its last step stays explained after earlier steps. |
| `Capture.CleanSnoc` | src/main.js:30-71 | A run with no uncaught throw stays so after a step that did not throw. |
| `Capture.CleanAppend` | src/main.js:30-71 | Two such runs, one after the other, form one. |
| `Capture.Await` | src/main.js:30-71 | An awaited step is appended. It fails exactly when it throws, and only an idle wait's throw keeps the run clean. |
| `Capture.Label` | src/main.js:31-65 | A bar increment is appended and never throws. |
| `Capture.Open` | src/main.js:34-44 | Navigation, challenge wait and first idle wait, with the 500 ms sleep when the idle wait throws. A failure is the navigation or the wait throwing. |
| `Capture.Hide` | src/main.js:46-52 | Popups, then cookies. A failure is one of them throwing. |
| `Capture.Settle` | src/main.js:52-59 | Fifteen rounds whose throws are swallowed, then `sleep(minFinalDelay \|\| 0)`. It never fails. |
| `Capture.TakeShot` | src/main.js:61-67 | Screenshot, compression and unlink. It fails on a throw or when no quality fits. |
| `Capture.Prepare` | src/main.js:34-52 | Opening then hiding, clean when it goes through. |
| `Capture.Conclude` | src/main.js:52-67 | Settling then the shot, clean when it goes through. |
| `Capture.CaptureSteps` | src/main.js:33-67 | The whole `try`, ending at the first failure. |
| `Capture.ThrewAtShift` | src/main.js:30-71 | A step that threw stays so after earlier steps. |
| `Capture.ThrewAtExtend` | src/main.js:30-71 | A step that threw stays so after later steps. |
| `Capture.TryThenClose` | src/main.js:33-70 | The `try` and then the `finally` close. The close's throw replaces the outcome. |
| `Capture.CaptureScreenshot` | src/main.js:30-71 | The first label and the launch come first. A failing launch ends the capture with nothing to close. |
| `Capture.LaunchedRun` | src/main.js:32-70 | Once launched, the browser is closed exactly once, last. A close that throws wins. A capture that goes through is the whole capture. |
| `Capture.LaunchedExplained` | src/main.js:32-70 | A capture that goes through had no uncaught throw. A step failure names a step that threw. A compression failure names the compression for which no quality fits. |
| `Capture.LaunchFailedExplained` | src/main.js:32 | A failing launch is explained by the launch. |
| `Capture.RunOfCapture` | src/main.js:92-109 | A site's run starts and stops its bar around the capture. A saved report names the output path and a failed one the url. |
| `Capture.SiteExplainedOfCapture` | src/main.js:102-109 | The capture's explanation carries over to the site's report. |
| `Capture.CaptureSite` | src/main.js:80-109 | One iteration gives a well-formed run and a report explained by what threw. |
| `Capture.RunStartKept` | src/main.js:80 | Later iterations do not move where earlier ones started. |
| `Capture.ReportedNext` | src/main.js:80-110 | One more iteration keeps every report explained and extends the trace. |
| `Capture.RunSites` | src/main.js:74-111 | The directory is made first. If that throws, nothing is captured. Otherwise every enabled site gets one report, in order, explained by its own run. |
| `Capture.CaptureWaitsAt` | src/main.js:31-38 | The sixth step of a capture is the challenge wait. |
| `Capture.WaitCallBinding` | src/main.js:38 | The call as written binds `page` to the url string and throws on entry. The intended call does not throw. |
| `Capture.MiswiredNeverSaved` | src/main.js:38 | As written, no site is ever saved, however the wait itself would have ended. |
| `Capture.MiswiredSavesNothing` | src/main.js:38-110 | As written, the whole run saves nothing. |
| `Capture.MiswiredFailsAtWait` | src/main.js:38 | As written, a site whose other steps succeed fails at the challenge wait, however the wait itself would have ended. |
| `Capture.WiredSaved` | src/main.js:38 | Wired as intended, the challenge wait throws only when `waitForCloudflare` itself fails. A site whose wait passes, whose other steps succeed and whose screenshot fits is saved. |

## Left out

- The browser, the page, the file system and the encoder are inputs. In
  the challenge wait, the model is told whether detection, each title
  read, the race, each mouse simulation and the scroll settle or throw;
  a sleep without the mouse never throws. In a capture, it is told whether
  each awaited step throws. It is also told what each title read shows
  and the byte size of each encoding. `src/browser/browser.js`,
  `src/utils/sleep.js` and the `sharp` codec are not part of this model.
- Compressor.CompressImageUntilSize: a rejection from `sharp` or from
  `fs.stat` is not modelled. The loop ends only by fitting or by running
  out of qualities. In `Capture`, the compression step as a whole may still
  throw.
- Challenge.Session.WaitForCloudflare: a rejection of the final url check
  is modelled as its timeout, `UrlCheckTimedOut`. A rejection of the first
  mouse simulation and one escaping the `catch` block are both
  `MouseFailed`.
- Time is an input. `Date.now()` at each awaited step is a given
  increasing clock, and sleeps are recorded, not slept.
- `Promise.race` of the three waits is one step that settles or throws.
  `Promise.all` of a mouse simulation and a sleep is one step.
- Within the challenge wait, the mouse moves of a simulation belong to
  `Motion`. `Challenge` records only that one ran.
- The final `waitForFunction` url check is reduced to whether the page's
  location contains the url.
- The progress bar's rendering, its format string and the console logging
  are left out. Bar calls are recorded as effects.
- `deepmerge` of the connect configurations and loading `config.js` are
  left out. A site carries the merged `minFinalDelay`.
- main.js:59 reads `connectConfig.minFinalDelay`, but main.js:99 merges the
  site's setting under the key `finalDelay`. The site's own setting
  therefore never reaches the sleep. The model takes the merged
  `minFinalDelay` as given.
- `main.js` captures sites one after another, with no bounded-concurrency
  scheduler and no use of a `parallelBrowserCount` setting, and so does
  the model.
- The overlay rule follows popupHandler.js:20-35 as written. It has no
  40 px minimum, no viewport fractions and no excluded tags. A 0×0 element
  (ratio NaN, falsy) is hidden. A zero-height element of positive width
  (ratio Infinity) is not.
- Popups.LayoutDecides, Popups.Decisions, Popups.NextDecision and
  Popups.HidePopups: computed styles are inputs, held fixed while the pass
  runs. In a browser, once the pass hides an element, `getComputedStyle`
  on its descendants may return computed values such as `50%` or `auto`
  instead of pixel sizes. A descendant can then be decided differently
  from the model's decision, which uses the page as it was when the pass
  began.
- Popups.HideCookies: each element's text is read as it was before the
  pass. In a browser, `textContent` is read at each iteration, after the
  earlier clicks' handlers have run, and a handler can rewrite a later
  element's text. For example, clicking "Accept" may turn a later "Allow
  all" button into "Saved". The source then skips that button, while the
  model clicks it.
- Strings.Lower and Strings.LowerChars: lower-casing covers ASCII capitals
  only. JavaScript's `toLowerCase` also lowers non-ASCII letters ('É' to
  'é', the Kelvin sign U+212A to 'k').
- Challenge.IsChallengeTitle: for the same reason, a title whose challenge
  phrase is spelt with such a letter ("CHEC\u212AING YOUR BROWSER") is a
  challenge for the source and not for the model.
- Capture.ReplaceNonAlnum and Capture.ReplaceNonAlnumChars: strings are
  sequences of Unicode scalar values. JavaScript strings are UTF-16, and
  `/[^a-zA-Z0-9]/g` without the `u` flag replaces each half of a surrogate
  pair, so a character outside the Basic Multilingual Plane gives `__`
  there and `_` here.
- Capture.FileName and Capture.FileNameChars: for the same reason, a domain
  with such a character gets a file name one `_` longer per character in
  the source, and the stated length (the domain's) counts Unicode scalar
  values.
- JavaScript numbers are exact reals. Floating-point rounding in the
  Bezier arithmetic and in `width * 0.2` is not modelled.
- `path.join` is modelled for POSIX separators.
- A `mkdir` that throws ends the run with an unhandled rejection. The
  model ends it with no reports.
- Motion.MovementStart: the start point is proved inside the band only
  when the band's edges are whole numbers. For other viewports it may lie
  up to 1 px past the upper edge. `Motion.StartCanLeaveBand` shows such a
  case.
- Challenge.Session.WaitForCloudflare: the model gives the function its
  declared parameters. The miswired call from main.js:38 is modelled in
  `Capture`, below.

## Findings

| source | as written | input that shows it | evidently intended | confidence | as-written member | corrected member |
|---|---|---|---|---|---|---|
| src/main.js:38 | `waitForCloudflare(page, url)` is called against the signature `(connectConfig, page, url, timeout)` (src/browser/cloudflare.js:97). So `page` is bound to the url string, and `page.evaluate(...)` (cloudflare.js:107) throws a TypeError outside any `try`. | any enabled site, e.g. `example.com` on a page that would otherwise capture cleanly | `waitForCloudflare(connectConfig, page, url)` | high; not executed | `Capture.MiswiredNeverSaved` | `Capture.WiredSaved` |
