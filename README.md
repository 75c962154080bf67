# SolonInsight dashboard updater: status classifier and payload

This project models the decision logic of the SolonInsight dashboard updater
(`app/dashboard.py`). The updater takes a numeric score and classifies it into
one of three status levels, `green`, `yellow` or `red`. It compares the score
with two configured thresholds, `scoring.green_max` and `scoring.yellow_max`.
It then looks up the level's display label in `status_levels`. Finally it
assembles the payload record: project name, run mode, timestamp, score,
`{level, label}` and a fixed notes string. The score is still the placeholder
`0`.

Modules:

- `Wrappers` (`wrappers.dfy`): `Option` and `Result`.
- `Dashboard` (`dashboard.dfy`): the model. It defines the `Level`, `Mode`,
  `Config`, `Payload` and `ConfigError` datatypes and the functions
  `Classify`, `LookupLabel`, `ProjectName`, `BuildPayload` and `RunDashboard`.
- `DashboardProperties` (`dashboard_properties.dfy`): lemmas relating these
  functions across inputs.

The configuration is the parsed YAML document. Each key the code reads is an
`Option` in the model. The Python code indexes dictionaries directly, so an
absent key raises `KeyError`. The model returns this as
`Failure(KeyError(path))`, where `path` is the chain of keys looked up.
Failures are reported in the order Python would raise them:

1. the scoring lookups (line 49);
2. the label lookup (line 50);
3. the project name (line 53).

Scores and thresholds are exact `real`s.

A missing `green_max` or `yellow_max` key raises `KeyError`. `yellow_max` is
read only when the score exceeds `green_max`, so a configuration without it
still classifies scores up to `green_max`.

## Model

| member | source | states |
|---|---|---|
| `Dashboard.Classify` | app/dashboard.py:24-29 | green exactly when `score <= green_max`. Yellow exactly when `green_max < score <= yellow_max`. Red exactly when the score exceeds both thresholds. A missing-key failure exactly when `green_max` is absent, or when the score exceeds it and `yellow_max` is absent. The failure names the missing key: `scoring`, `scoring.green_max` or `scoring.yellow_max`. |
| `Dashboard.LevelName` | app/dashboard.py:24-29 | the returned string is always one of `"green"`, `"yellow"`, `"red"`. It is `"green"` only for green and `"red"` only for red. |
| `Dashboard.ParseMode` | app/dashboard.py:73-78 | a mode is accepted exactly when the string is one of the choices `daily`, `weekly` and `monthly`. The accepted mode's name is the input string. |
| `Dashboard.LookupLabel` | app/dashboard.py:50 | the label lookup succeeds exactly when `status_levels` has an entry for the level's name and that entry has a label. It then yields that label. Otherwise the failure names the first missing key: `status_levels`, the level's name, or `label`. |
| `Dashboard.ProjectName` | app/dashboard.py:53 | succeeds exactly when `project.name` is configured, and yields it. Otherwise the failure names `project` or `project.name`, whichever is missing first. |
| `Dashboard.BuildPayload` | app/dashboard.py:49-62 | succeeds exactly when classification, label lookup and project-name lookup all succeed. Errors are reported in the order Python raises them: a classification error first, then a label-lookup error, then a project-name error. On success, `status.level` is the classified level and `status.label` is that level's configured label. The project name, mode, timestamp and score are echoed, and the notes are the fixed scaffold text. |
| `Dashboard.RunDashboard` | app/dashboard.py:47-62 | the payload's score is the placeholder 0. A successful run has read `green_max`, and its level is green exactly when `0 <= green_max`. A missing `scoring` or `green_max` is the reported error. |
| `DashboardProperties.ClassifyMonotone` | app/dashboard.py:24-29 | for `s1 <= s2`, the level of `s1` is at or below the level of `s2` on green < yellow < red. A score that classifies makes every lower score classify too. |
| `DashboardProperties.LevelBandIsInterval` | app/dashboard.py:24-29 | the scores of each level form an interval. |
| `DashboardProperties.GreenMaxIsGreatestGreen` | app/dashboard.py:25-26 | `green_max` itself is green, and no green score exceeds it. |
| `DashboardProperties.InvertedThresholdsSkipYellow` | app/dashboard.py:25-29 | when `yellow_max <= green_max`, yellow is never returned and every score above `green_max` is red. |
| `DashboardProperties.YellowMaxOnlyAboveGreen` | app/dashboard.py:25-27 | at or below `green_max`, the result is green whatever `yellow_max` is, present or absent. |
| `DashboardProperties.ReachableLevels` | app/dashboard.py:24-29 | with both thresholds set, some score is green and some score is red. Some score is yellow exactly when `green_max < yellow_max`. |
| `DashboardProperties.LevelNameInjective` | app/dashboard.py:24-29 | distinct levels have distinct names. |
| `DashboardProperties.ModeRoundTrip` | app/dashboard.py:73-78 | parsing a mode's name gives the mode back. |
| `DashboardProperties.PayloadLevelInBand` | app/dashboard.py:49-58 | the payload's level lies in the threshold band of its score. |
| `DashboardProperties.PayloadDependsOnTimestampOnlyThere` | app/dashboard.py:52-62 | two builds that differ only in the timestamp both succeed or both fail. Their payloads differ only in the timestamp field. |
| `DashboardProperties.PlaceholderRunIsGreen` | app/dashboard.py:47-62 | the run succeeds with a green payload when these are configured: `green_max >= 0`, a green label and a project name. `yellow_max` and the other levels' entries are not needed. |

## Left out

- `load_config` (app/dashboard.py:12-15): reading YAML from disk is I/O. The model takes the parsed document as a `Config` value.
- The configuration is assumed well-typed. Thresholds are numbers and names and labels are strings. The `TypeError` that Python raises when comparing a number with a non-number is not modelled.
- Floating point: thresholds are exact reals, so NaN and ±infinity (YAML `.nan`, `.inf`) are not modelled. A comparison with NaN is false, so a NaN `green_max` sends every score on to the `yellow_max` test at line 27. `green_max: .inf` makes every finite score green.
- `cfg["output"]` (app/dashboard.py:34) and `ensure_dir` (app/dashboard.py:17-19, 35-36): these feed only the file write. A missing `output` section would raise before classification; the model does not capture this.
- `now_utc` (app/dashboard.py:21-22): the clock. The timestamp is a parameter of `BuildPayload` and `RunDashboard`, taken as an opaque string.
- The JSON serialisation and file write (app/dashboard.py:64-66): I/O. The write is a plain overwrite.
- The console lines (app/dashboard.py:68-69) and `main` with its argument parser (app/dashboard.py:71-84): only the set of mode choices is modelled, as `Mode` and `ParseMode`.
- The payload's `mode` field is the `Mode` value. The JSON writes its name (`ModeName`).
- The payload's score is the real `0.0`. The source's integer `0` is serialised as `0`, and serialisation is out of scope.
