/**
 * The detail page's redirect countdown (scripts/detalhesScript.js): a
 * `seconds` counter that starts at 5 and drops by one per interval tick,
 * two elements that show it, a progress bar whose width is the elapsed
 * fraction, and a single redirect to the home page when the counter reaches 0.
 *
 * The 1000 ms interval is an abstract event: `IntervalFires` runs the
 * callback while the interval is set and does nothing once it is cleared.
 */
module Countdown {
  import opened Wrappers

  const StartSeconds: int := 5
  const HomePath: string := "/projeto_pap/index.html"

  /** `updateProgress`'s percentage, `100 - (seconds / 5) * 100`, in exact arithmetic. */
  function Progress(seconds: int): (p: real)
    ensures p == (100 - 20 * seconds) as real
    ensures 0 <= seconds <= StartSeconds ==> 0.0 <= p <= 100.0
  {
    100.0 - (seconds as real / 5.0) * 100.0
  }

  /** Fewer seconds left never means a shorter bar. */
  lemma ProgressMonotone(s1: int, s2: int)
    requires s1 <= s2
    ensures Progress(s2) <= Progress(s1)
  {
  }

  /**
   * The observable state of the page: the counter, the text of the two
   * counter elements (`None` until the first tick writes them), the bar
   * width, whether the interval is still set, and the redirects performed.
   */
  datatype Page = Page(seconds: int, secondsText: Option<int>, countdownText: Option<int>,
                       width: real, running: bool, redirects: seq<string>)

  /** The page once the script has run its top level: interval set, bar drawn for 5 seconds left. */
  const Start: Page := Page(StartSeconds, None, None, Progress(StartSeconds), true, [])

  /** The interval callback: decrement, show the new value twice, redraw the bar, and at 0 or below clear the interval and redirect. */
  function Callback(p: Page): (r: Page)
    ensures r.seconds == p.seconds - 1
    ensures r.secondsText == r.countdownText == Some(r.seconds)
    ensures r.width == Progress(r.seconds)
    ensures r.running <==> p.running && r.seconds > 0
    ensures r.redirects == if r.seconds <= 0 then p.redirects + [HomePath] else p.redirects
  {
    var s := p.seconds - 1;
    var stop := s <= 0;
    Page(s, Some(s), Some(s), Progress(s), if stop then false else p.running,
         if stop then p.redirects + [HomePath] else p.redirects)
  }

  /** One interval period: the callback runs only while the interval is set. */
  function Step(p: Page): (r: Page)
    ensures !p.running ==> r == p
    ensures p.running ==> r.seconds == p.seconds - 1 && r.width == Progress(r.seconds)
    ensures |p.redirects| <= |r.redirects| && r.redirects[..|p.redirects|] == p.redirects
    ensures r.running ==> p.running
  {
    if p.running then Callback(p) else p
  }

  function Steps(p: Page, k: nat): Page
    decreases k
  {
    if k == 0 then p else Steps(Step(p), k - 1)
  }

  /** The page after `k` periods: the counter has dropped by one per period until the fifth, which cleared the interval and redirected once; later periods change nothing. */
  lemma {:induction false} CountdownRun(k: nat)
    ensures k < 5 ==> (Steps(Start, k) ==
      Page(5 - k, if k == 0 then None else Some(5 - k), if k == 0 then None else Some(5 - k),
           Progress(5 - k), true, []))
    ensures k >= 5 ==> Steps(Start, k) == Page(0, Some(0), Some(0), 100.0, false, [HomePath])
  {
    if k > 0 {
      StepsLast(Start, k - 1);
      CountdownRun(k - 1);
    }
  }

  /** Taking one more period at the end. */
  lemma {:induction false} StepsLast(p: Page, k: nat)
    ensures Steps(p, k + 1) == Step(Steps(p, k))
    decreases k
  {
    if k > 0 {
      StepsLast(Step(p), k - 1);
    }
  }

  /** The bar only grows, from 0% to 100%, and the redirect target is always the home page. */
  lemma CountdownProgress(k1: nat, k2: nat)
    requires k1 <= k2
    ensures Steps(Start, 0).width == 0.0
    ensures Steps(Start, k1).width <= Steps(Start, k2).width <= 100.0
    ensures forall k :: 0 <= k < |Steps(Start, k2).redirects| ==> Steps(Start, k2).redirects[k] == HomePath
    ensures |Steps(Start, k2).redirects| <= 1
  {
    CountdownRun(k1);
    CountdownRun(k2);
    CountdownRun(0);
  }

  /** The detail page's script state. */
  class CountdownPage {
    var seconds: int
    /** `#seconds`'s text. */
    var secondsText: Option<int>
    /** `#countdown`'s text. */
    var countdownText: Option<int>
    /** `#progress-bar`'s width, in percent. */
    var width: real
    /** Whether `countdownInterval` is still set. */
    var running: bool
    /** The values assigned to `window.location.href`, oldest first. */
    var redirects: seq<string>

    function State(): Page
      reads this
    {
      Page(seconds, secondsText, countdownText, width, running, redirects)
    }

    /** Loading the script: `seconds = 5`, the interval set, then `updateProgress()`. */
    constructor ()
      ensures State() == Start
    {
      seconds := StartSeconds;
      secondsText, countdownText := None, None;
      running := true;
      redirects := [];
      new;
      UpdateProgress();
    }

    method UpdateProgress()
      modifies this`width
      ensures width == Progress(seconds)
    {
      width := 100.0 - (seconds as real / 5.0) * 100.0;
    }

    method RedirectToHome()
      modifies this`redirects
      ensures redirects == old(redirects) + [HomePath]
    {
      redirects := redirects + [HomePath];
    }

    /** The body of the `setInterval` callback. */
    method RunCallback()
      modifies this
      ensures State() == Callback(old(State()))
    {
      seconds := seconds - 1;
      secondsText := Some(seconds);
      countdownText := Some(seconds);
      UpdateProgress();
      if seconds <= 0 {
        running := false;
        RedirectToHome();
      }
    }

    /** One interval period elapses. */
    method IntervalFires()
      modifies this
      ensures State() == Step(old(State()))
    {
      if running {
        RunCallback();
      }
    }
  }
}
