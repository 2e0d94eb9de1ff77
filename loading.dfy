/** The loading view (components/LoadingView.tsx): the cycling dots and the stage-dependent texts. */
module Loading {
  import opened Wrappers
  import Types

  /** The two stages the view is shown for. */
  datatype LoadingStage = Transcribing | Generating

  /** Which loading view, if any, the application shows for a workflow stage. */
  function LoadingStageOf(stage: Types.AppStage): (r: Option<LoadingStage>)
    ensures r == Some(Transcribing) <==> stage == Types.Transcribing
    ensures r == Some(Generating) <==> stage == Types.Generating
  {
    match stage
    case Transcribing => Some(Transcribing)
    case Generating => Some(Generating)
    case _ => None
  }

  /** One tick of the dots: `prev.length >= 3 ? '' : prev + '.'`. */
  function NextDots(prev: string): (r: string)
    ensures |prev| >= 3 ==> r == ""
    ensures |prev| < 3 ==> |r| == |prev| + 1 && prev < r && r[|prev|] == '.'
  {
    if |prev| >= 3 then "" else prev + "."
  }

  /** `n` dots. */
  function Dots(n: nat): (r: string)
    ensures |r| == n && forall i :: 0 <= i < n ==> r[i] == '.'
  {
    seq(n, _ => '.')
  }

  /** The dots after `n` ticks, starting from `s`. */
  function Ticks(s: string, n: nat): (r: string)
    ensures |s| <= 3 ==> |r| <= 3
  {
    if n == 0 then s else NextDots(Ticks(s, n - 1))
  }

  /** From zero to two dots a tick adds one; from three it wraps to none. */
  lemma NextDotsCycle(k: nat)
    requires k <= 3
    ensures NextDots(Dots(k)) == Dots((k + 1) % 4)
  {
    if k < 3 {
      assert Dots(k) + "." == Dots(k + 1);
    }
  }

  /** Starting from no dots, after `n` ticks there are `n mod 4` dots. */
  lemma {:induction false} TicksFromEmpty(n: nat)
    ensures Ticks("", n) == Dots(n % 4)
  {
    if n == 0 {
      assert Dots(0) == "";
    } else {
      TicksFromEmpty(n - 1);
      NextDotsCycle((n - 1) % 4);
    }
  }

  /** Starting from no dots the count stays between zero and three, and four ticks come back: the cycle has period 4. */
  lemma DotsCycle(n: nat)
    ensures 0 <= |Ticks("", n)| <= 3
    ensures Ticks("", n + 4) == Ticks("", n)
    ensures Ticks("", 4) == ""
  {
    TicksFromEmpty(n);
    TicksFromEmpty(n + 4);
    TicksFromEmpty(4);
  }

  /** The heading: it depends on the stage alone. */
  function Heading(stage: LoadingStage): (r: string)
    ensures r != ""
  {
    match stage
    case Transcribing => "Listening to your audio"
    case Generating => "Crafting your persona"
  }

  /** The line under the heading: a stage-dependent sentence followed by the current dots. */
  function Caption(stage: LoadingStage, dots: string): (r: string)
    ensures |r| == 28 + |dots| && r[28..] == dots
  {
    match stage
    case Transcribing => "Transcribing audio into text" + dots
    case Generating => "AI is rewriting your content" + dots
  }

  /** The progress bar is drawn only while generating. */
  predicate ShowsProgressBar(stage: LoadingStage) {
    stage == Generating
  }

  /** Of the workflow stages, exactly Generating shows the loading view with its progress bar. */
  lemma ProgressBarStages(stage: Types.AppStage)
    ensures (LoadingStageOf(stage).Some? && ShowsProgressBar(LoadingStageOf(stage).value)) <==> stage == Types.Generating
  {
  }

  /** The two stages differ in every text they show, and the caption ends in the dots. */
  lemma TextsByStage(dots: string)
    ensures Heading(Transcribing) != Heading(Generating)
    ensures Caption(Transcribing, dots) != Caption(Generating, dots)
    ensures dots <= Caption(Transcribing, dots)[28..] && dots <= Caption(Generating, dots)[28..]
  {
    assert Caption(Transcribing, dots)[0] != Caption(Generating, dots)[0];
  }

  /** The view's `dots` state, advanced by the interval timer (the timer itself is not modelled). */
  class DotsTicker {
    var dots: string
    ghost var ticks: nat

    ghost predicate Valid()
      reads this
    {
      dots == Dots(ticks % 4)
    }

    constructor ()
      ensures Valid() && dots == "" && ticks == 0
    {
      dots := "";
      ticks := 0;
    }

    /** One interval callback. */
    method Tick()
      requires Valid()
      modifies this
      ensures Valid() && ticks == old(ticks) + 1
      ensures dots == NextDots(old(dots))
      ensures |dots| <= 3
    {
      NextDotsCycle(ticks % 4);
      dots := NextDots(dots);
      ticks := ticks + 1;
    }
  }
}
