/** The four boolean feedbacks a button can show (src/feedbacks.ts). Each is
    evaluated against the instance's current snapshot, which is `None` before
    the first successful fetch; any lookup that would throw in the source (no
    snapshot, an index outside the lineup) is caught there and yields false,
    so every feedback here is total. */
module Feedbacks {
  import opened Snapshot

  /** The option values a feedback instance carries; every one may be absent. */
  datatype FeedbackOptions = FeedbackOptions(
    component: Option<string>,
    team: Option<string>,
    lineupSpot: Option<int>)

  /** The ids under which the callbacks are registered, in the order the poll
      loop asks the host to re-check them. */
  const RECHECKED_FEEDBACKS: seq<string> :=
    ["batterState", "playerSelectionState", "playerOnAirState", "componentState"]

  /** The feedbacks `UpdateFeedbacks` registers (src/feedbacks.ts:13-161),
      in declaration order. */
  const FEEDBACK_DEFINITIONS: seq<string> :=
    ["componentState", "batterState", "playerSelectionState", "playerOnAirState"]

  /** The poll re-checks every registered feedback, each once. */
  lemma RecheckedAreRegistered()
    ensures multiset(RECHECKED_FEEDBACKS) == multiset(FEEDBACK_DEFINITIONS)
  {
    assert RECHECKED_FEEDBACKS == [FEEDBACK_DEFINITIONS[1], FEEDBACK_DEFINITIONS[2], FEEDBACK_DEFINITIONS[3], FEEDBACK_DEFINITIONS[0]];
  }

  /** `team === 'away'` picks the away lineup; every other value, absent
      included, the home lineup. */
  function SelectedTeam(team: Option<string>): Team
  {
    if team == Some("away") then Away else Home
  }

  lemma SelectedTeamOfName(t: Team)
    ensures SelectedTeam(Some(TeamName(t))) == t
  {
  }

  /** The 0-based index of a 1-based lineup spot; a missing or zero spot
      (falsy in the source) means the first batter. */
  function LineupIndex(spot: Option<int>): (index: int)
    ensures spot.Some? && spot.value != 0 ==> index + 1 == spot.value
    ensures spot.None? || spot.value == 0 ==> index == 0
  {
    match spot
    case None => 0
    case Some(n) => if n == 0 then 0 else n - 1
  }

  /** Array indexing: `None` where the source reads `undefined`. */
  function At<T>(s: seq<T>, index: int): (r: Option<T>)
    ensures r.Some? <==> 0 <= index < |s|
    ensures r.Some? ==> r.value == s[index]
  {
    if 0 <= index < |s| then Some(s[index]) else None
  }

  /** `Array.prototype.find` on the controls, by component name, as an index:
      the first control whose component equals `component`. */
  function FindControl(controls: seq<Control>, component: Option<string>): (r: Option<nat>)
    ensures r.Some? ==> r.value < |controls| && Some(controls[r.value].component) == component
    ensures r.Some? ==> forall j :: 0 <= j < r.value ==> Some(controls[j].component) != component
    ensures r.None? ==> forall j :: 0 <= j < |controls| ==> Some(controls[j].component) != component
  {
    if controls == [] then None
    else if Some(controls[0].component) == component then Some(0)
    else match FindControl(controls[1..], component)
      case None => None
      case Some(k) => Some(k + 1)
  }

  /** The control found for `component` is switched on. */
  predicate ControlIsOn(controls: seq<Control>, component: Option<string>)
  {
    var found := FindControl(controls, component);
    found.Some? && controls[found.value].action == "on"
  }

  /** Index `i` is where `find` stops for `component`. */
  ghost predicate FirstMatch(controls: seq<Control>, component: Option<string>, i: int)
  {
    && 0 <= i < |controls|
    && Some(controls[i].component) == component
    && forall j :: 0 <= j < i ==> Some(controls[j].component) != component
  }

  /** `componentState` (src/feedbacks.ts:43-51). */
  function ComponentState(data: Option<BroadcastData>, options: FeedbackOptions): (on: bool)
    ensures on <==> data.Some? && exists i :: FirstMatch(data.value.controls, options.component, i)
                                           && data.value.controls[i].action == "on"
  {
    data.Some? && ControlIsOn(data.value.controls, options.component)
  }

  /** A component that no control carries is off, whatever the snapshot. */
  lemma UnknownComponentIsOff(data: Option<BroadcastData>, options: FeedbackOptions)
    requires data.Some? ==> forall c | c in data.value.controls :: Some(c.component) != options.component
    ensures !ComponentState(data, options)
  {
    if data.Some? {
      var controls := data.value.controls;
      forall i | 0 <= i < |controls| ensures Some(controls[i].component) != options.component {
        assert controls[i] in controls;
      }
    }
  }

  /** `batterState` (src/feedbacks.ts:79-91): the `isUp` flag of the batter at
      the 1-based spot of the selected team; false when there is none. */
  function BatterState(data: Option<BroadcastData>, options: FeedbackOptions): (up: bool)
    ensures up ==> data.Some?
    ensures data.Some? && (options.lineupSpot.None? || options.lineupSpot == Some(0)) ==>
      var lineup := data.value.Lineup(SelectedTeam(options.team));
      up == (|lineup| > 0 && lineup[0].isUp)
    ensures data.Some? && options.lineupSpot.Some? && options.lineupSpot.value != 0 ==>
      var lineup := data.value.Lineup(SelectedTeam(options.team));
      var spot := options.lineupSpot.value;
      up == (1 <= spot <= |lineup| && lineup[spot - 1].isUp)
  {
    match data
    case None => false
    case Some(d) =>
      match At(d.Lineup(SelectedTeam(options.team)), LineupIndex(options.lineupSpot))
      case None => false
      case Some(batter) => batter.isUp
  }

  /** `isPlayerSelected` (src/feedbacks.ts:163-182): spot 10 asks whether the
      team's pitcher is in the lower third, any other spot whether that lineup
      entry is. */
  function IsPlayerSelected(data: Option<BroadcastData>, options: FeedbackOptions): (selected: bool)
    ensures selected ==> data.Some? && data.value.lowerThird.Some?
    ensures data.Some? && options.lineupSpot == Some(10) ==>
      var pitcher := data.value.Pitcher(SelectedTeam(options.team));
      selected == (&& pitcher.Some? && pitcher.value.guid != ""
                   && data.value.lowerThird.Some?
                   && data.value.lowerThird.value.guid == pitcher.value.guid)
    ensures data.Some? && options.lineupSpot != Some(10) ==>
      var lineup := data.value.Lineup(SelectedTeam(options.team));
      var index := LineupIndex(options.lineupSpot);
      selected == (&& 0 <= index < |lineup|
                   && data.value.lowerThird.Some?
                   && lineup[index].guid == data.value.lowerThird.value.guid)
  {
    match data
    case None => false
    case Some(d) =>
      if options.lineupSpot == Some(10) then
        match d.Pitcher(SelectedTeam(options.team))
        case None => false
        case Some(pitcher) => pitcher.guid != "" && d.lowerThird.Some? && pitcher.guid == d.lowerThird.value.guid
      else
        match At(d.Lineup(SelectedTeam(options.team)), LineupIndex(options.lineupSpot))
        case None => false
        case Some(entry) => d.lowerThird.Some? && entry.guid == d.lowerThird.value.guid
  }

  /** `playerOnAirState` (src/feedbacks.ts:149-159): the player is selected and
      the lower-third graphic is on. */
  function PlayerOnAirState(data: Option<BroadcastData>, options: FeedbackOptions): (onAir: bool)
    ensures onAir <==> IsPlayerSelected(data, options) &&
                       exists i :: FirstMatch(data.value.controls, Some("lowerThird"), i)
                                && data.value.controls[i].action == "on"
  {
    IsPlayerSelected(data, options) && ControlIsOn(data.value.controls, Some("lowerThird"))
  }

  /** The host's dispatch of a registered feedback id to its callback; an id
      that is not registered shows as false. */
  function Evaluate(feedbackId: string, data: Option<BroadcastData>, options: FeedbackOptions): (r: bool)
    ensures r ==> feedbackId in FEEDBACK_DEFINITIONS && data.Some?
  {
    match feedbackId
    case "componentState" => ComponentState(data, options)
    case "batterState" => BatterState(data, options)
    // the callback of `playerSelectionState` (src/feedbacks.ts:119-121)
    case "playerSelectionState" => IsPlayerSelected(data, options)
    case "playerOnAirState" => PlayerOnAirState(data, options)
    case _ => false
  }

  /** With spot 10 neither lineup is consulted: snapshots that differ only in
      their lineups and controls select the same pitcher. */
  lemma PitcherSpotIgnoresLineups(d: BroadcastData, e: BroadcastData, team: Option<string>)
    requires d.awayPitcher == e.awayPitcher && d.homePitcher == e.homePitcher
    requires d.lowerThird == e.lowerThird
    ensures IsPlayerSelected(Some(d), FeedbackOptions(None, team, Some(10)))
         == IsPlayerSelected(Some(e), FeedbackOptions(None, team, Some(10)))
  {
  }
}
