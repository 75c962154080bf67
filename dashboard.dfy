/** The status classifier and the payload assembly of the dashboard updater
    (app/dashboard.py). The configuration is the already-parsed YAML document;
    a key that is absent from it makes Python raise KeyError, which is modelled
    as `Failure(KeyError(path))`, `path` being the chain of keys looked up. */
module Dashboard {
  import opened Wrappers

  /** The three status levels, from least to most severe. */
  datatype Level = Green | Yellow | Red

  /** The string the source uses for a level. */
  function LevelName(l: Level): (r: string)
    ensures r == "green" || r == "yellow" || r == "red"
    ensures r == "green" <==> l == Green
    ensures r == "red" <==> l == Red
  {
    match l
    case Green => "green"
    case Yellow => "yellow"
    case Red => "red"
  }

  /** Position of a level on the severity scale green < yellow < red. */
  function Severity(l: Level): nat
  {
    match l
    case Green => 0
    case Yellow => 1
    case Red => 2
  }

  /** The run modes accepted on the command line. */
  datatype Mode = Daily | Weekly | Monthly

  function ModeName(m: Mode): string
  {
    match m
    case Daily => "daily"
    case Weekly => "weekly"
    case Monthly => "monthly"
  }

  /** The `--mode` choices of the argument parser. */
  const ModeChoices: seq<string> := ["daily", "weekly", "monthly"]

  /** Accepts exactly the listed choices; anything else is rejected. */
  function ParseMode(s: string): (r: Option<Mode>)
    ensures r.Some? <==> s in ModeChoices
    ensures r.Some? ==> ModeName(r.value) == s
  {
    if s == "daily" then Some(Daily)
    else if s == "weekly" then Some(Weekly)
    else if s == "monthly" then Some(Monthly)
    else None
  }

  /** The `scoring` section; a threshold is `None` when its key is absent. */
  datatype Scoring = Scoring(greenMax: Option<real>, yellowMax: Option<real>)

  /** One entry of the `status_levels` section. */
  datatype StatusLevel = StatusLevel(displayLabel: Option<string>)

  /** The `project` section. */
  datatype ProjectSection = ProjectSection(name: Option<string>)

  /** The parts of the configuration document that the modelled code reads.
      `statusLevels` is keyed by level name, as in the YAML file. */
  datatype Config = Config(
    project: Option<ProjectSection>,
    scoring: Option<Scoring>,
    statusLevels: Option<map<string, StatusLevel>>)

  /** A missing dictionary key, with the chain of keys that was looked up. */
  datatype ConfigError = KeyError(path: seq<string>)

  /** `cfg["scoring"]["green_max"]`, when both keys are present. */
  function GreenMax(cfg: Config): Option<real>
  {
    if cfg.scoring.Some? then cfg.scoring.value.greenMax else None
  }

  /** `cfg["scoring"]["yellow_max"]`, when both keys are present. */
  function YellowMax(cfg: Config): Option<real>
  {
    if cfg.scoring.Some? then cfg.scoring.value.yellowMax else None
  }

  /** determine_status: the first threshold the score does not exceed decides
      the level; `yellow_max` is only looked up once `green_max` is exceeded. */
  function Classify(score: real, cfg: Config): (r: Result<Level, ConfigError>)
    ensures r == Success(Green) <==> GreenMax(cfg).Some? && score <= GreenMax(cfg).value
    ensures r == Success(Yellow) <==>
      GreenMax(cfg).Some? && YellowMax(cfg).Some? &&
      GreenMax(cfg).value < score <= YellowMax(cfg).value
    ensures r == Success(Red) <==>
      GreenMax(cfg).Some? && YellowMax(cfg).Some? &&
      score > GreenMax(cfg).value && score > YellowMax(cfg).value
    ensures r.Failure? <==>
      GreenMax(cfg).None? || (score > GreenMax(cfg).value && YellowMax(cfg).None?)
    ensures cfg.scoring.None? ==> r == Failure(KeyError(["scoring"]))
    ensures cfg.scoring.Some? && GreenMax(cfg).None? ==>
      r == Failure(KeyError(["scoring", "green_max"]))
    ensures GreenMax(cfg).Some? && score > GreenMax(cfg).value && YellowMax(cfg).None? ==>
      r == Failure(KeyError(["scoring", "yellow_max"]))
  {
    match cfg.scoring
    case None => Failure(KeyError(["scoring"]))
    case Some(sc) =>
      match sc.greenMax
      case None => Failure(KeyError(["scoring", "green_max"]))
      case Some(g) =>
        if score <= g then Success(Green)
        else
          match sc.yellowMax
          case None => Failure(KeyError(["scoring", "yellow_max"]))
          case Some(y) => if score <= y then Success(Yellow) else Success(Red)
  }

  /** `cfg["status_levels"][level]["label"]`. */
  function LookupLabel(cfg: Config, l: Level): (r: Result<string, ConfigError>)
    ensures r.Success? <==>
      cfg.statusLevels.Some? && LevelName(l) in cfg.statusLevels.value &&
      cfg.statusLevels.value[LevelName(l)].displayLabel.Some?
    ensures r.Success? ==> r.value == cfg.statusLevels.value[LevelName(l)].displayLabel.value
    ensures cfg.statusLevels.None? ==> r == Failure(KeyError(["status_levels"]))
    ensures cfg.statusLevels.Some? && LevelName(l) !in cfg.statusLevels.value ==>
      r == Failure(KeyError(["status_levels", LevelName(l)]))
    ensures (cfg.statusLevels.Some? && LevelName(l) in cfg.statusLevels.value &&
             cfg.statusLevels.value[LevelName(l)].displayLabel.None?) ==>
      r == Failure(KeyError(["status_levels", LevelName(l), "label"]))
  {
    match cfg.statusLevels
    case None => Failure(KeyError(["status_levels"]))
    case Some(levels) =>
      if LevelName(l) !in levels then Failure(KeyError(["status_levels", LevelName(l)]))
      else
        match levels[LevelName(l)].displayLabel
        case None => Failure(KeyError(["status_levels", LevelName(l), "label"]))
        case Some(text) => Success(text)
  }

  /** `cfg["project"]["name"]`. */
  function ProjectName(cfg: Config): (r: Result<string, ConfigError>)
    ensures r.Success? <==> cfg.project.Some? && cfg.project.value.name.Some?
    ensures r.Success? ==> r.value == cfg.project.value.name.value
    ensures cfg.project.None? ==> r == Failure(KeyError(["project"]))
    ensures cfg.project.Some? && cfg.project.value.name.None? ==> r == Failure(KeyError(["project", "name"]))
  {
    match cfg.project
    case None => Failure(KeyError(["project"]))
    case Some(p) =>
      match p.name
      case None => Failure(KeyError(["project", "name"]))
      case Some(name) => Success(name)
  }

  /** The `status` object of the payload. */
  datatype Status = Status(level: Level, displayLabel: string)

  /** The document written to the latest-file. */
  datatype Payload = Payload(
    project: string,
    mode: Mode,
    timestamp: string,
    score: real,
    status: Status,
    notes: string)

  /** The fixed notes string of the scaffold. */
  const Notes: string := "Initial scaffold \U{2013} no live indicators yet"

  /** The score used until live indicators exist. */
  const PlaceholderScore: real := 0.0

  /** The payload for a given score: the score is classified, the level's label
      looked up, then the record assembled. The lookups happen in this order,
      so the first missing key is the one reported. The timestamp is supplied
      by the caller. */
  function BuildPayload(mode: Mode, timestamp: string, score: real, cfg: Config)
    : (r: Result<Payload, ConfigError>)
    ensures r.Success? <==>
      && Classify(score, cfg).Success?
      && LookupLabel(cfg, Classify(score, cfg).value).Success?
      && ProjectName(cfg).Success?
    ensures Classify(score, cfg).Failure? ==> r == Failure(Classify(score, cfg).error)
    ensures Classify(score, cfg).Success? && LookupLabel(cfg, Classify(score, cfg).value).Failure? ==>
      r == Failure(LookupLabel(cfg, Classify(score, cfg).value).error)
    ensures (Classify(score, cfg).Success? && LookupLabel(cfg, Classify(score, cfg).value).Success? &&
             ProjectName(cfg).Failure?) ==>
      r == Failure(ProjectName(cfg).error)
    ensures r.Success? ==>
      && r.value.status.level == Classify(score, cfg).value
      && r.value.status.displayLabel == LookupLabel(cfg, r.value.status.level).value
      && r.value.project == ProjectName(cfg).value
      && r.value.mode == mode
      && r.value.timestamp == timestamp
      && r.value.score == score
      && r.value.notes == Notes
  {
    match Classify(score, cfg)
    case Failure(e) => Failure(e)
    case Success(level) =>
      match LookupLabel(cfg, level)
      case Failure(e) => Failure(e)
      case Success(text) =>
        match ProjectName(cfg)
        case Failure(e) => Failure(e)
        case Success(name) =>
          Success(Payload(name, mode, timestamp, score, Status(level, text), Notes))
  }

  /** The pure part of run_dashboard: the payload for the placeholder score. */
  function RunDashboard(mode: Mode, timestamp: string, cfg: Config)
    : (r: Result<Payload, ConfigError>)
    ensures r.Success? ==> r.value.score == 0.0
    ensures r.Success? ==> GreenMax(cfg).Some?
    ensures r.Success? ==>
      (r.value.status.level == Green <==> 0.0 <= GreenMax(cfg).value)
    ensures GreenMax(cfg).None? ==> r == Failure(KeyError(if cfg.scoring.None? then ["scoring"] else ["scoring", "green_max"]))
  {
    BuildPayload(mode, timestamp, PlaceholderScore, cfg)
  }
}
