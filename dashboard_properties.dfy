/** Properties of the status classifier and of the payload it feeds. */
module DashboardProperties {
  import opened Wrappers
  import opened Dashboard

  /** Some score is classified as `l` under `cfg`. */
  ghost predicate Produces(cfg: Config, l: Level)
  {
    exists s: real :: Classify(s, cfg) == Success(l)
  }

  /** Severity never decreases as the score grows, and a score that classifies
      without a missing key makes every lower score classify as well. */
  lemma ClassifyMonotone(s1: real, s2: real, cfg: Config)
    requires s1 <= s2
    requires Classify(s2, cfg).Success?
    ensures Classify(s1, cfg).Success?
    ensures Severity(Classify(s1, cfg).value) <= Severity(Classify(s2, cfg).value)
  {
  }

  /** Each level holds an interval of scores: a score between two scores of
      the same level has that level too. */
  lemma LevelBandIsInterval(s1: real, s2: real, s3: real, cfg: Config, l: Level)
    requires s1 <= s2 <= s3
    requires Classify(s1, cfg) == Success(l) && Classify(s3, cfg) == Success(l)
    ensures Classify(s2, cfg) == Success(l)
  {
    ClassifyMonotone(s1, s2, cfg);
    ClassifyMonotone(s2, s3, cfg);
  }

  /** `green_max` is the greatest green score. */
  lemma GreenMaxIsGreatestGreen(cfg: Config)
    requires GreenMax(cfg).Some?
    ensures Classify(GreenMax(cfg).value, cfg) == Success(Green)
    ensures forall s: real :: Classify(s, cfg) == Success(Green) ==> s <= GreenMax(cfg).value
  {
  }

  /** With `yellow_max` not above `green_max`, yellow is never returned and
      every score above `green_max` is red. */
  lemma InvertedThresholdsSkipYellow(score: real, cfg: Config)
    requires GreenMax(cfg).Some? && YellowMax(cfg).Some?
    requires YellowMax(cfg).value <= GreenMax(cfg).value
    ensures Classify(score, cfg) != Success(Yellow)
    ensures score > GreenMax(cfg).value ==> Classify(score, cfg) == Success(Red)
  {
  }

  /** `yellow_max` is consulted only above `green_max`: at or below it, any
      `yellow_max`, present or not, gives the same answer, green. */
  lemma YellowMaxOnlyAboveGreen(score: real, cfg: Config, yellow: Option<real>)
    requires cfg.scoring.Some? && cfg.scoring.value.greenMax.Some?
    requires score <= cfg.scoring.value.greenMax.value
    ensures Classify(score, cfg.(scoring := Some(cfg.scoring.value.(yellowMax := yellow)))) == Success(Green)
  {
  }

  /** With both thresholds configured, green and red are always reachable and
      yellow is reachable exactly when `green_max < yellow_max`. */
  lemma ReachableLevels(cfg: Config)
    requires GreenMax(cfg).Some? && YellowMax(cfg).Some?
    ensures Produces(cfg, Green)
    ensures Produces(cfg, Red)
    ensures Produces(cfg, Yellow) <==> GreenMax(cfg).value < YellowMax(cfg).value
  {
    var g, y := GreenMax(cfg).value, YellowMax(cfg).value;
    assert Classify(g, cfg) == Success(Green);
    var top := if g < y then y + 1.0 else g + 1.0;
    assert Classify(top, cfg) == Success(Red);
    if g < y {
      assert Classify(y, cfg) == Success(Yellow);
    }
  }

  /** Level names are distinct, so the string the source returns identifies
      the level. */
  lemma LevelNameInjective(a: Level, b: Level)
    ensures LevelName(a) == LevelName(b) <==> a == b
  {
  }

  /** Parsing the name of a mode gives that mode back. */
  lemma ModeRoundTrip(m: Mode)
    ensures ParseMode(ModeName(m)) == Some(m)
  {
  }

  /** The level recorded in a payload lies in the band the thresholds assign
      to its score. */
  lemma PayloadLevelInBand(mode: Mode, timestamp: string, score: real, cfg: Config)
    requires BuildPayload(mode, timestamp, score, cfg).Success?
    ensures var p := BuildPayload(mode, timestamp, score, cfg).value;
      && (p.status.level == Green <==> score <= GreenMax(cfg).value)
      && (p.status.level == Yellow <==> GreenMax(cfg).value < score <= YellowMax(cfg).value)
      && (p.status.level == Red <==> score > GreenMax(cfg).value && score > YellowMax(cfg).value)
  {
  }

  /** Two runs on the same configuration, mode and score produce the same
      payload apart from the timestamp. */
  lemma PayloadDependsOnTimestampOnlyThere(mode: Mode, t1: string, t2: string, score: real, cfg: Config)
    ensures BuildPayload(mode, t1, score, cfg).Success? <==> BuildPayload(mode, t2, score, cfg).Success?
    ensures BuildPayload(mode, t1, score, cfg).Success? ==>
      BuildPayload(mode, t2, score, cfg) == Success(BuildPayload(mode, t1, score, cfg).value.(timestamp := t2))
  {
  }

  /** With the placeholder score, a non-negative `green_max`, a green label and
      a project name suffice: `yellow_max` and the other levels' entries are
      never read. */
  lemma PlaceholderRunIsGreen(mode: Mode, timestamp: string, cfg: Config)
    requires GreenMax(cfg).Some? && 0.0 <= GreenMax(cfg).value
    requires LookupLabel(cfg, Green).Success? && ProjectName(cfg).Success?
    ensures RunDashboard(mode, timestamp, cfg) ==
      Success(Payload(ProjectName(cfg).value, mode, timestamp, 0.0,
                      Status(Green, LookupLabel(cfg, Green).value), Notes))
  {
  }
}
