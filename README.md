# Ball Score broadcast adapter, modelled in Dafny

The adapter is a module instance for a stream-deck style control host. It
polls the Ball Score service for a broadcast snapshot. The snapshot holds the
graphic controls, both lineups, both pitchers and the lower-third player.
From each snapshot the adapter derives:

- four boolean button feedbacks (`src/feedbacks.ts`);
- the values of sixty host variables (`src/variables.ts`);
- a set of button presets (`src/presets.ts`).

The instance itself (`src/main.ts`) connects, keeps one polling interval
running, reports its connection status, reconnects when the configuration
changes and stops polling on teardown.

The model has six modules:

- `Snapshot` (snapshot.dfy) holds the snapshot records. An absent pitcher or
  lower third is `None`.
- `Text` (text.dfy) models the string operations the code relies on:
  `toUpperCase` on ASCII, the decimal rendering of a slot number with its
  parse back, and prefix tests.
- `Feedbacks` (feedbacks.dfy) has the feedback callbacks as total functions
  of an optional snapshot. A lookup that would throw in the code is caught
  there, so it gives false.
- `Variables` (variables.dfy) has the variable declarations and the
  projection of a snapshot onto variable values. Both are methods with
  loops, proved against the ghost predicates `IsDefinitionList` and
  `IsProjectionOf`.
- `Presets` (presets.dfy) builds the preset map in a method, proved against
  `IsPresetsOf`.
- `Lifecycle` (lifecycle.dfy) has the class `BallScoreBroadcastModuleInstance`.
  Its fields are the ones the code updates in place. It adds the host's
  table of running intervals and the ordered log of calls into the host.

Variable ids and preset keys are datatypes (`VarId`, `PresetKey`). The host
knows them by a string rendering (`VarName`, `KeyName`), and both renderings
are proved injective. So a map keyed by the datatype is the host's map keyed
by strings.

Some behaviours of the code are easy to miss, and the model keeps each of them:

- Without a pitcher, the pitcher number and name are `undefined` (`None`),
  not the empty string that empty lineup slots get.
- A lineup longer than nine writes slot variables beyond nine, which are
  never declared.
- The home label variables are declared with the display name
  "Away Lineup Button Label i". `HomeLabelSharesAwayDisplayName` states the
  collision.
- Nothing stops a second fetch while one is still running: `setInterval`
  fires again whether or not the previous fetch has finished.
- A successful tick reports no status. After a failed tick has reported
  `Disconnected`, the host keeps showing `Disconnected` until the next
  connect, however many later ticks succeed (`OnBroadcastTick` keeps
  `status` on success).

## Model

| member | source | states |
|---|---|---|
| Text.Upper | src/variables.ts:47 | upper-casing keeps the length and maps each character through `UpperChar`: ASCII lower-case letters become capitals, everything else is kept |
| Text.UpperIdempotent | src/presets.ts:25 | upper-casing the already upper-cased label again changes nothing |
| Text.NatToString | src/variables.ts:35 | the rendering of a slot number is non-empty, all digits, and has a leading zero only for 0 |
| Text.NatToStringRoundTrip | src/variables.ts:34-41 | parsing the rendering of a slot number gives the number back |
| Text.NatToStringInjective | src/variables.ts:34-41 | distinct slot numbers render differently |
| Feedbacks.SelectedTeamOfName | src/feedbacks.ts:82-86 | the option value "away" selects the away team and "home" the home team |
| Feedbacks.LineupIndex | src/feedbacks.ts:81 | a missing or zero spot reads index 0; any other spot n reads index n-1 |
| Feedbacks.FindControl | src/feedbacks.ts:46 | the result is the first control naming the component, or none when no control names it |
| Feedbacks.ComponentState | src/feedbacks.ts:43-51 | true iff there is a snapshot and the first control naming the component has action "on" |
| Feedbacks.UnknownComponentIsOff | src/feedbacks.ts:43-51 | a component that no control names is off |
| Feedbacks.BatterState | src/feedbacks.ts:79-91 | true iff there is a snapshot and the batter at the 1-based spot (the first batter for a missing or zero spot) of the selected team is up; false for a spot outside the lineup |
| Feedbacks.IsPlayerSelected | src/feedbacks.ts:119-182 | the `playerSelectionState` callback; spot 10: the team's pitcher is present, has a non-empty guid, and that guid is the lower third's; other spots: the lineup entry exists and its guid is the lower third's; false without a snapshot or lower third |
| Feedbacks.PlayerOnAirState | src/feedbacks.ts:149-159 | true iff the player is selected and the first "lowerThird" control is "on" |
| Feedbacks.Evaluate | src/feedbacks.ts:13-161 | only the four registered ids, the ones the poll re-checks, can be true, and only once a snapshot is stored |
| Feedbacks.RecheckedAreRegistered | src/main.ts:32 | the poll re-checks exactly the four registered feedbacks, each once |
| Feedbacks.PitcherSpotIgnoresLineups | src/feedbacks.ts:165-171 | with spot 10 the selection depends only on the pitchers and the lower third, never on the lineups |
| Variables.SlotCount | src/variables.ts:34-61 | nine slots get values, or as many as the lineup has when it is longer |
| Variables.VarNameRoundTrip | src/variables.ts:6-25 | parsing a variable id string gives the variable back |
| Variables.VarNameInjective | src/variables.ts:6-25 | distinct variables have distinct id strings |
| Variables.HomeLabelSharesAwayDisplayName | src/variables.ts:17 | each home label variable has the same display name as the away label of the same slot, while their ids differ |
| Variables.UpdateVariableDefinitions | src/variables.ts:4-28 | the declarations are 27 away slot variables (number, name, label for slots 1-9), then 27 home ones, then the six pitcher ones, each with its id and display name |
| Variables.PushLineupDefinitions | src/variables.ts:6-18 | one slot loop appends number, name and label of slots 1-9 of one team, continuing the declaration order |
| Variables.DefinitionsDistinct | src/variables.ts:4-28 | the sixty declared variables, and their id strings, are pairwise distinct |
| Variables.DefinitionIndex | src/variables.ts:4-28 | every pitcher variable and every variable of slots 1-9 is declared, at the position given |
| Variables.UpdateLineupAndPitchersVariables | src/variables.ts:31-85 | the value map sets exactly slots 1-9 (or more, for a longer lineup) of both teams and the six pitcher variables, each to its projected value |
| Variables.ClearSlots | src/variables.ts:34-41 | the cleared map holds exactly the number, name and label of slots 1-9 of both teams: empty number and name, label with the slot number and "unknown" |
| Variables.SetLineupVariables | src/variables.ts:42-61 | batter k overwrites the number, name and label of slot k+1 of its team; every other entry is kept |
| Variables.SetPitcherVariables | src/variables.ts:63-82 | the team's pitcher number and name are set raw (undefined without a pitcher), and the label to the number form, else the name form, else the placeholder; every other entry is kept |
| Variables.ProjectionDeterministic | src/variables.ts:31-85 | the value map is determined by the snapshot alone, since it is rebuilt from nothing on every call |
| Variables.UnfilledSlotIsCleared | src/variables.ts:34-41 | a slot up to 9 that the lineup does not reach shows empty number and name and the "<slot>.\nunknown" label, so a shorter lineup leaves nothing stale |
| Variables.FilledSlotShowsBatter | src/variables.ts:42-51 | batter k's slot k+1 shows its raw number and name and the "<slot>.    #<number>\n<NAME>" label, or "<slot>.\n<NAME>" without a number |
| Variables.PitcherVariablesShown | src/variables.ts:63-72 | the pitcher values: undefined number and name and "P:\nunknown" without a pitcher; otherwise the raw values and the label with the number, else the name, else the placeholder |
| Variables.DefinedVariablesAreProjected | src/variables.ts:4-41 | every declared variable gets a value from every snapshot |
| Variables.ProjectedVariablesAreDefined | src/variables.ts:4-85 | with lineups of at most nine, every variable given a value is a declared one |
| Presets.KeyNameInjective | src/presets.ts:20 | distinct presets have distinct key strings, so no preset overwrites another |
| Presets.WithoutSpacesOfSpaced | src/presets.ts:19 | spacing out a name keeps every character of the name in order: removing the inserted spaces gives the name back |
| Presets.SpacesStandBeforeCapitals | src/presets.ts:19 | in the spaced-out component name a space stands exactly before each capital letter and nowhere else, and the first character is the name's own unless that is a capital |
| Presets.ComponentLabelWithoutSpaces | src/presets.ts:19 | the component label only inserts spaces: without them it is the component name upper-cased |
| Presets.ToggleTextIsName | src/presets.ts:19-25 | a toggle's button text equals its name, the component label |
| Presets.UpdatePresetDefinitions | src/presets.ts:5-185 | the preset map holds exactly one toggle per component other than poweredBy that the snapshot's controls name (none without a snapshot), batters 1-9 of both teams and both pitchers, each with its preset |
| Presets.AddComponentPresets | src/presets.ts:16-57 | one toggle per distinct component of the controls, poweredBy skipped |
| Presets.FillPresetsWithLineup | src/presets.ts:63-126 | adds batter presets 1-9 of one team and keeps every other entry |
| Presets.FillPresetsWithPitchers | src/presets.ts:132-182 | adds the pitcher preset of one team and keeps every other entry |
| Presets.ToggleTracksComponent | src/presets.ts:31-41 | a toggle's feedback is true iff its component's first control is "on" |
| Presets.LineupPresetShowsBatter | src/presets.ts:66-124 | batter buttons are white on black for away and black on white for home; their text references a declared variable; all feedbacks use the button's spot; the batter feedback is true iff that batter is up |
| Presets.PitcherPresetShowsPitcher | src/presets.ts:134-181 | pitcher buttons use spot 10, reference a declared variable, and their selection feedback is true iff the team's pitcher, with a non-empty guid, is the lower third |
| Lifecycle.ConnectFailureStatus | src/main.ts:53-67 | a failed connect reports an authentication failure for 401 or 403, a connection failure for 404, and an unknown error otherwise |
| Lifecycle.ConnectFailureCompletion | src/main.ts:53-67 | a failed connect rethrows exactly when it reports an unknown error |
| Lifecycle.NeedsReconnect | src/main.ts:91-92 | a reconnect is needed iff the configuration changed at all |
| Lifecycle.BallScoreBroadcastModuleInstance.constructor | src/main.ts:16-18 | a new instance has no configuration, snapshot, timer or status |
| Lifecycle.BallScoreBroadcastModuleInstance.SubscribeToBroadcast | src/main.ts:20-43 | the previous interval is cleared and exactly one fresh interval runs |
| Lifecycle.BallScoreBroadcastModuleInstance.OnBroadcastTick | src/main.ts:27-39 | a fetched snapshot replaces the stored one, then the four feedbacks are re-checked and the projected variable values published; a failure reports Disconnected; the interval keeps running either way |
| Lifecycle.BallScoreBroadcastModuleInstance.ConnectToBallScore | src/main.ts:45-68 | reports Connecting, then on success stores the snapshot, reports Ok and arms a fresh interval; on failure reports the classified status, keeps the snapshot and timer, and throws only for an unknown error |
| Lifecycle.BallScoreBroadcastModuleInstance.Init | src/main.ts:70-79 | stores the configuration and connects, keeping the earlier log and reporting Connecting and then the outcome's status; unless the connect threw it then registers the four feedbacks, the variable list and the presets of the stored snapshot |
| Lifecycle.BallScoreBroadcastModuleInstance.Destroy | src/main.ts:81-88 | no interval runs afterwards, nothing else changes, and a second call changes nothing |
| Lifecycle.BallScoreBroadcastModuleInstance.ConfigUpdated | src/main.ts:90-106 | an unchanged configuration is just stored; a changed one clears the interval and reconnects, then publishes the presets and stores the new configuration, except when the connect threw, which keeps the old configuration |

## Left out

- The HTTP client (`src/api-service.ts`) is not part of this model. Each fetch is a `FetchOutcome` parameter: a snapshot, or a failure with the response status when there was one.
- `src/actions.ts` is not part of this model, so `updateActions` in `init` is not modelled.
- `runEntrypoint`, `UpgradeScripts` and `getConfigFields` are host wiring with no behaviour of their own.
- The config field declarations of `src/config.ts` are left out. Only the two settings are modelled.
- Logging calls and error message texts are left out. `updateStatus` is recorded with its status only.
- Timing is left out: the five-second period, ticks whose fetches overlap or settle after `destroy`, and a connect whose fetch settles after `destroy` and so arms an interval that nothing clears (src/main.ts:52 running after src/main.ts:84-87). Every async step is modelled as one whole step, so `Destroy` promises that no interval runs only within this step-by-step model.
- Feedback names, `type: 'boolean'`, default styles, dropdown choices and option bounds are left out; only the feedback ids are registered. So are preset `type`, `alignment`, `show_topbar`, the empty `up` steps and the cast of colour strings to numbers. Colours are an enumeration.
- Text.Upper: models `toUpperCase` on ASCII letters only; other Unicode case mappings are not modelled.
- Feedbacks.LineupIndex: models an integer `lineupSpot` only. A fractional or non-numeric value, which makes the lookup throw and the feedback false, is not modelled.
- An exception raised inside `updateLineupAndPitchersVariables` during a tick (a snapshot without lineups) is not modelled. Snapshots here always carry both lineups.
- The preset map and the variable-value map are Dafny maps, so the insertion order of the JavaScript object keys is not modelled. The source inserts toggles in control order, then the away batters, the home batters, the away pitcher and the home pitcher. The variable keys keep the order in which they are first set: slot by slot from the clearing loop, then any lineup slots beyond nine, then the pitchers. The host may show presets in that order.
