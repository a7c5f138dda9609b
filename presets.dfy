/** The button presets the adapter offers (src/presets.ts): a toggle per
    broadcast component of the current snapshot, nine batter buttons and a
    pitcher button per team. */
module Presets {
  import opened Snapshot
  import opened Text
  import opened Feedbacks
  import Variables

  datatype Colour = White | Black | Red | Green | Blue | Orange

  /** The style a feedback applies while it is true. */
  datatype Style = Style(color: Option<Colour>, bgcolor: Option<Colour>)

  datatype FeedbackRef = FeedbackRef(feedbackId: string, options: FeedbackOptions, style: Style)

  datatype ActionOptions =
    | ComponentArgs(component: string)
    | LineupArgs(team: string, num: nat)
    | PitcherArgs(team: string)

  datatype ActionRef = ActionRef(actionId: string, options: ActionOptions)

  /** A button preset: category, name, text and colours of the button, its
      feedbacks, and the actions of its press. */
  datatype Preset = Preset(
    category: string,
    name: string,
    text: string,
    size: string,
    color: Colour,
    bgcolor: Colour,
    feedbacks: seq<FeedbackRef>,
    down: seq<ActionRef>)

  /** A preset, known to the host by the string `KeyName` gives it. */
  datatype PresetKey = Toggle(component: string) | SelectPlayer(team: Team, slot: nat) | SelectPitcher(team: Team)

  function KeyName(k: PresetKey): string
  {
    match k
    case Toggle(c) => "toggle_" + c
    case SelectPlayer(t, i) => "select_" + TeamName(t) + "_player_" + NatToString(i)
    case SelectPitcher(t) => "select_" + TeamName(t) + "_pitcher"
  }

  /** Where the parts of a key string stand. */
  lemma KeyNameLayout(k: PresetKey)
    ensures k.Toggle? ==> KeyName(k)[..7] == "toggle_" && KeyName(k)[7..] == k.component
    ensures !k.Toggle? ==> |KeyName(k)| > 13 && KeyName(k)[..7] == "select_"
    ensures !k.Toggle? ==> KeyName(k)[7] == TeamName(k.team)[0]
    ensures k.SelectPlayer? ==> KeyName(k)[13] == 'l' && KeyName(k)[19..] == NatToString(k.slot)
    ensures k.SelectPitcher? ==> KeyName(k)[13] == 'i' && |KeyName(k)| == 19
  {
  }

  /** No two presets share a key string. */
  lemma KeyNameInjective(k: PresetKey, l: PresetKey)
    ensures KeyName(k) == KeyName(l) ==> k == l
  {
    KeyNameLayout(k);
    KeyNameLayout(l);
    if k.SelectPlayer? && l.SelectPlayer? {
      NatToStringInjective(k.slot, l.slot);
    }
  }

  // ---------------------------------------------------------------------
  // Component labels
  // ---------------------------------------------------------------------

  /** `replace(/([A-Z])/g, ' $1')`: a space before every capital letter. */
  function SpaceBeforeCapitals(s: string): string
  {
    if s == [] then []
    else (if IsUpperAscii(s[0]) then [' ', s[0]] else [s[0]]) + SpaceBeforeCapitals(s[1..])
  }

  /** The label of a component's toggle, e.g. `lowerThird` becomes `LOWER THIRD`. */
  function ComponentLabel(component: string): string
  {
    Upper(SpaceBeforeCapitals(component))
  }

  function WithoutSpaces(s: string): string
  {
    if s == [] then [] else (if s[0] == ' ' then [] else [s[0]]) + WithoutSpaces(s[1..])
  }

  lemma {:induction false} WithoutSpacesAppend(a: string, b: string)
    ensures WithoutSpaces(a + b) == WithoutSpaces(a) + WithoutSpaces(b)
  {
    if a != [] {
      assert a + b != [] && (a + b)[0] == a[0];
      assert (a + b)[1..] == a[1..] + b;
      WithoutSpacesAppend(a[1..], b);
    } else {
      assert a + b == b;
    }
  }

  /** In the label of a component name without spaces, a space stands
      exactly before each capital letter of the name, and nowhere else. */
  lemma {:induction false} SpacesStandBeforeCapitals(s: string)
    requires forall i :: 0 <= i < |s| ==> s[i] != ' '
    ensures var r := SpaceBeforeCapitals(s);
      && (forall i | 0 <= i < |r| && r[i] == ' ' :: i + 1 < |r| && IsUpperAscii(r[i + 1]))
      && (forall i | 0 <= i < |r| && IsUpperAscii(r[i]) :: 0 < i && r[i - 1] == ' ')
      && (|s| > 0 ==> |r| > 0 && r[0] == (if IsUpperAscii(s[0]) then ' ' else s[0]))
  {
    if s != [] {
      var c := s[0];
      var head := if IsUpperAscii(c) then [' ', c] else [c];
      var rest := SpaceBeforeCapitals(s[1..]);
      SpacesStandBeforeCapitals(s[1..]);
      var r := head + rest;
      assert SpaceBeforeCapitals(s) == r;
      forall i | 0 <= i < |r| && r[i] == ' ' ensures i + 1 < |r| && IsUpperAscii(r[i + 1]) {
        if i >= |head| {
          assert rest[i - |head|] == ' ';
          assert r[i + 1] == rest[i - |head| + 1];
        }
      }
      forall i | 0 <= i < |r| && IsUpperAscii(r[i]) ensures 0 < i && r[i - 1] == ' ' {
        // a capital cannot open `rest`: that starts with a space or with
        // a character that is not a capital
        if i > |head| {
          assert IsUpperAscii(rest[i - |head|]);
          assert r[i - 1] == rest[i - |head| - 1];
        }
      }
    }
  }

  /** Spacing out a name keeps its characters: with the inserted spaces
      removed, the name comes back unchanged. */
  lemma {:induction false} WithoutSpacesOfSpaced(s: string)
    requires forall i :: 0 <= i < |s| ==> s[i] != ' '
    ensures WithoutSpaces(SpaceBeforeCapitals(s)) == s
  {
    if s != [] {
      var c := s[0];
      var head := if IsUpperAscii(c) then [' ', c] else [c];
      WithoutSpacesAppend(head, SpaceBeforeCapitals(s[1..]));
      WithoutSpacesOfSpaced(s[1..]);
      assert WithoutSpaces(head) == [c];
      assert s == [c] + s[1..];
    }
  }

  /** The label only adds spaces: with them removed it is the component
      name in capitals. */
  lemma {:induction false} ComponentLabelWithoutSpaces(component: string)
    requires forall i :: 0 <= i < |component| ==> component[i] != ' '
    ensures WithoutSpaces(ComponentLabel(component)) == Upper(component)
  {
    if component != [] {
      var c := component[0];
      var head := if IsUpperAscii(c) then [' ', c] else [c];
      var rest := SpaceBeforeCapitals(component[1..]);
      UpperAppend(head, rest);
      WithoutSpacesAppend(Upper(head), Upper(rest));
      ComponentLabelWithoutSpaces(component[1..]);
      assert WithoutSpaces(Upper(head)) == [UpperChar(c)];
      assert Upper(component) == [UpperChar(c)] + Upper(component[1..]);
    }
  }

  // ---------------------------------------------------------------------
  // The presets
  // ---------------------------------------------------------------------

  /** `$(ballscore-broadcast:<id>)`: button text showing a variable's value. */
  function VariableReference(v: Variables.VarId): string
  {
    "$(ballscore-broadcast:" + Variables.VarName(v) + ")"
  }

  function TeamOf(away: bool): Team
  {
    if away then Away else Home
  }

  /** The toggle of one component (src/presets.ts:19-56). */
  function TogglePreset(component: string): Preset
  {
    var caption := ComponentLabel(component);
    Preset(
      "Components", caption, Upper(caption), "14", White, Blue,
      [FeedbackRef("componentState", FeedbackOptions(Some(component), None, None), Style(Some(White), Some(Red)))],
      [ActionRef("toggle_component", ComponentArgs(component))])
  }

  /** The button of batter `i` of a team (src/presets.ts:66-124). */
  function LineupPreset(t: Team, i: nat): Preset
  {
    var team := TeamName(t);
    var options := FeedbackOptions(None, Some(team), Some(i));
    Preset(
      "Lineup Selection", "Batter " + NatToString(i),
      VariableReference(Variables.LineupVar(t, Variables.Label, i)), "18",
      if t == Away then White else Black, if t == Away then Black else White,
      [ FeedbackRef("playerSelectionState", options, Style(None, Some(Orange))),
        FeedbackRef("batterState", options, Style(Some(Green), None)),
        FeedbackRef("playerOnAirState", options, Style(None, Some(Red)))],
      [ActionRef("select_from_lineup", LineupArgs(team, i))])
  }

  /** The button of a team's pitcher (src/presets.ts:134-181). */
  function PitcherPreset(t: Team): Preset
  {
    var team := TeamName(t);
    var options := FeedbackOptions(None, Some(team), Some(10));
    Preset(
      "Pitcher Selection", "Select " + team + " pitcher",
      VariableReference(Variables.PitcherVar(t, Variables.Label)), "18",
      if t == Away then White else Black, if t == Away then Black else White,
      [ FeedbackRef("playerSelectionState", options, Style(None, Some(Orange))),
        FeedbackRef("playerOnAirState", options, Style(None, Some(Red)))],
      [ActionRef("select_pitcher", PitcherArgs(team))])
  }

  /** The preset stored under a key. */
  function PresetAt(k: PresetKey): Preset
  {
    match k
    case Toggle(c) => TogglePreset(c)
    case SelectPlayer(t, i) => LineupPreset(t, i)
    case SelectPitcher(t) => PitcherPreset(t)
  }

  /** The keys the presets of a snapshot have: a toggle for each component
      other than `poweredBy` that some control names (none without a
      snapshot), spots 1-9 of both lineups, and both pitchers. */
  ghost predicate HasPreset(data: Option<BroadcastData>, k: PresetKey)
  {
    match k
    case Toggle(c) =>
      && data.Some? && c != "poweredBy"
      && exists j :: 0 <= j < |data.value.controls| && data.value.controls[j].component == c
    case SelectPlayer(_, i) => 1 <= i <= 9
    case SelectPitcher(_) => true
  }

  /** `presets` is the preset map built for the snapshot `data`. */
  ghost predicate IsPresetsOf(presets: map<PresetKey, Preset>, data: Option<BroadcastData>)
  {
    && (forall k :: k in presets <==> HasPreset(data, k))
    && (forall k | k in presets :: presets[k] == PresetAt(k))
  }

  /** `presets` holds the toggles of `data`, the batter presets 1-9 of the
      teams in `players` and the pitcher presets of the teams in `pitchers`,
      each with its preset. */
  ghost predicate HoldsPresets(presets: map<PresetKey, Preset>, data: Option<BroadcastData>,
                               players: set<Team>, pitchers: set<Team>)
  {
    && (forall k :: k in presets <==>
          match k
          case Toggle(_) => HasPreset(data, k)
          case SelectPlayer(t, i) => t in players && 1 <= i <= 9
          case SelectPitcher(t) => t in pitchers)
    && (forall k | k in presets :: presets[k] == PresetAt(k))
  }

  /** `result` is `presets` with the batter presets 1-9 of team `t` added. */
  ghost predicate AddsLineup(presets: map<PresetKey, Preset>, result: map<PresetKey, Preset>, t: Team)
  {
    && (forall k :: k in result <==> k in presets || (k.SelectPlayer? && k.team == t && 1 <= k.slot <= 9))
    && (forall k | k in result ::
          result[k] == if k.SelectPlayer? && k.team == t && 1 <= k.slot <= 9
                       then LineupPreset(k.team, k.slot) else presets[k])
  }

  /** `result` is `presets` with the pitcher preset of team `t` added. */
  ghost predicate AddsPitcher(presets: map<PresetKey, Preset>, result: map<PresetKey, Preset>, t: Team)
  {
    && (forall k :: k in result <==> k in presets || k == SelectPitcher(t))
    && (forall k | k in result :: result[k] == if k == SelectPitcher(t) then PitcherPreset(t) else presets[k])
  }

  /** `UpdatePresetDefinitions` (src/presets.ts:5-185): the map handed to the
      host's `setPresetDefinitions`. */
  method UpdatePresetDefinitions(data: Option<BroadcastData>) returns (presets: map<PresetKey, Preset>)
    ensures IsPresetsOf(presets, data)
  {
    presets := map[];
    if data.Some? {
      presets := AddComponentPresets(data.value.controls);
    }
    assert HoldsPresets(presets, data, {}, {});
    ghost var before := presets;
    presets := FillPresetsWithLineup(presets, true);
    LineupAdded(before, presets, data, {}, {}, Away);
    before := presets;
    presets := FillPresetsWithLineup(presets, false);
    LineupAdded(before, presets, data, {Away}, {}, Home);
    before := presets;
    presets := FillPresetsWithPitchers(presets, true);
    PitcherAdded(before, presets, data, {Away, Home}, {}, Away);
    before := presets;
    presets := FillPresetsWithPitchers(presets, false);
    PitcherAdded(before, presets, data, {Away, Home}, {Away}, Home);
    AllPresetsHeld(presets, data);
  }

  lemma LineupAdded(presets: map<PresetKey, Preset>, result: map<PresetKey, Preset>, data: Option<BroadcastData>,
                    players: set<Team>, pitchers: set<Team>, t: Team)
    requires HoldsPresets(presets, data, players, pitchers) && AddsLineup(presets, result, t)
    ensures HoldsPresets(result, data, players + {t}, pitchers)
  {
    forall k ensures k in result <==> match k
        case Toggle(_) => HasPreset(data, k)
        case SelectPlayer(u, i) => u in players + {t} && 1 <= i <= 9
        case SelectPitcher(u) => u in pitchers
    {
    }
  }

  lemma PitcherAdded(presets: map<PresetKey, Preset>, result: map<PresetKey, Preset>, data: Option<BroadcastData>,
                     players: set<Team>, pitchers: set<Team>, t: Team)
    requires HoldsPresets(presets, data, players, pitchers) && AddsPitcher(presets, result, t)
    ensures HoldsPresets(result, data, players, pitchers + {t})
  {
    forall k ensures k in result <==> match k
        case Toggle(_) => HasPreset(data, k)
        case SelectPlayer(u, i) => u in players && 1 <= i <= 9
        case SelectPitcher(u) => u in pitchers + {t}
    {
    }
  }

  /** With both teams' batters and pitchers added, the map is the preset
      map of `data`. */
  lemma AllPresetsHeld(presets: map<PresetKey, Preset>, data: Option<BroadcastData>)
    requires HoldsPresets(presets, data, {Away, Home}, {Away, Home})
    ensures IsPresetsOf(presets, data)
  {
    forall k ensures k in presets <==> HasPreset(data, k) {
      match k
      case Toggle(_) =>
      case SelectPlayer(t, _) => match t { case Away => case Home => }
      case SelectPitcher(t) => match t { case Away => case Home => }
    }
  }

  /** The `forEach` over the controls (src/presets.ts:16-56): a toggle for
      every component but `poweredBy`; a component named twice is stored once. */
  method AddComponentPresets(controls: seq<Control>) returns (presets: map<PresetKey, Preset>)
    ensures forall k :: k in presets <==>
      k.Toggle? && k.component != "poweredBy" && exists j :: 0 <= j < |controls| && controls[j].component == k.component
    ensures forall k | k in presets :: presets[k] == PresetAt(k)
  {
    presets := map[];
    for i := 0 to |controls|
      invariant forall k :: k in presets <==>
        k.Toggle? && k.component != "poweredBy" && exists j :: 0 <= j < i && controls[j].component == k.component
      invariant forall k | k in presets :: presets[k] == PresetAt(k)
    {
      if controls[i].component != "poweredBy" {
        var component := controls[i].component;
        presets := presets[Toggle(component) := TogglePreset(component)];
      }
    }
  }

  /** `fillPresetsWithLineup` (src/presets.ts:63-126): spots 1-9 of one team. */
  method FillPresetsWithLineup(presets: map<PresetKey, Preset>, away: bool) returns (result: map<PresetKey, Preset>)
    ensures AddsLineup(presets, result, TeamOf(away))
  {
    result := presets;
    for i := 1 to 10
      invariant forall k :: k in result <==>
        k in presets || (k.SelectPlayer? && k.team == TeamOf(away) && 1 <= k.slot < i)
      invariant forall k | k in result ::
        result[k] == if k.SelectPlayer? && k.team == TeamOf(away) && 1 <= k.slot < i
                     then LineupPreset(k.team, k.slot) else presets[k]
    {
      result := result[SelectPlayer(TeamOf(away), i) := LineupPreset(TeamOf(away), i)];
    }
  }

  /** `fillPresetsWithPitchers` (src/presets.ts:132-182): one team's pitcher. */
  method FillPresetsWithPitchers(presets: map<PresetKey, Preset>, away: bool) returns (result: map<PresetKey, Preset>)
    ensures AddsPitcher(presets, result, TeamOf(away))
  {
    result := presets[SelectPitcher(TeamOf(away)) := PitcherPreset(TeamOf(away))];
  }

  // ---------------------------------------------------------------------
  // What the presets show
  // ---------------------------------------------------------------------

  /** A toggle's text is its name: upper-casing the label again changes nothing. */
  lemma ToggleTextIsName(component: string)
    ensures TogglePreset(component).text == TogglePreset(component).name == ComponentLabel(component)
  {
    UpperIdempotent(SpaceBeforeCapitals(component));
  }

  /** A toggle lights exactly when its component is on. */
  lemma ToggleTracksComponent(data: Option<BroadcastData>, component: string)
    ensures var f := TogglePreset(component).feedbacks[0];
      Evaluate(f.feedbackId, data, f.options) <==>
        data.Some? && exists i :: FirstMatch(data.value.controls, Some(component), i)
                               && data.value.controls[i].action == "on"
  {
  }

  /** The batter buttons: away white on black, home black on white; the text
      shows the slot's label variable, which is a declared variable; the
      second feedback lights when that batter is up. */
  lemma LineupPresetShowsBatter(data: Option<BroadcastData>, t: Team, i: nat)
    requires 1 <= i <= 9
    ensures var p := LineupPreset(t, i);
      && (t == Away ==> p.color == White && p.bgcolor == Black)
      && (t == Home ==> p.color == Black && p.bgcolor == White)
      && (exists k :: 0 <= k < Variables.DEFINITION_COUNT &&
                      p.text == VariableReference(Variables.DefinitionAt(k)))
      && (forall f | f in p.feedbacks :: f.options.lineupSpot == Some(i))
      && (Evaluate(p.feedbacks[1].feedbackId, data, p.feedbacks[1].options) <==>
            data.Some? && i <= |data.value.Lineup(t)| && data.value.Lineup(t)[i - 1].isUp)
  {
    var k := Variables.DefinitionIndex(Variables.LineupVar(t, Variables.Label, i));
    SelectedTeamOfName(t);
  }

  /** The pitcher buttons ask for spot 10, and so light on the team's pitcher
      being in the lower third, whatever the lineups hold. */
  lemma PitcherPresetShowsPitcher(data: Option<BroadcastData>, t: Team)
    ensures var p := PitcherPreset(t);
      && (t == Away ==> p.color == White && p.bgcolor == Black)
      && (t == Home ==> p.color == Black && p.bgcolor == White)
      && (exists k :: 0 <= k < Variables.DEFINITION_COUNT &&
                      p.text == VariableReference(Variables.DefinitionAt(k)))
      && (forall f | f in p.feedbacks :: f.options.lineupSpot == Some(10))
      && (Evaluate(p.feedbacks[0].feedbackId, data, p.feedbacks[0].options) <==>
            && data.Some? && data.value.Pitcher(t).Some? && data.value.Pitcher(t).value.guid != ""
            && data.value.lowerThird.Some?
            && data.value.lowerThird.value.guid == data.value.Pitcher(t).value.guid)
  {
    var k := Variables.DefinitionIndex(Variables.PitcherVar(t, Variables.Label));
    SelectedTeamOfName(t);
  }
}
