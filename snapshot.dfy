/** The broadcast snapshot fetched from the scoring service on every poll: the
    state that the feedbacks, the variables and the presets are computed from. */
module Snapshot {

  /** An optional value: `None` stands for JavaScript's `undefined`. */
  datatype Option<+T> = None | Some(value: T)

  /** The two sides of the game. */
  datatype Team = Away | Home

  /** The spelling of a team in option values, variable ids and preset keys. */
  function TeamName(t: Team): string
  {
    match t
    case Away => "away"
    case Home => "home"
  }

  /** A broadcast graphic and its last commanded action (`"on"` when shown). */
  datatype Control = Control(component: string, action: string)

  /** An entry of a batting order; `number` is the jersey number, `""` when unknown. */
  datatype LineupPlayer = LineupPlayer(guid: string, number: string, name: string, isUp: bool)

  /** A pitcher, or the player shown in the lower third. */
  datatype Player = Player(guid: string, number: string, name: string)

  /** One complete reading of the broadcast state. */
  datatype BroadcastData = BroadcastData(
    controls: seq<Control>,
    awayLineup: seq<LineupPlayer>,
    homeLineup: seq<LineupPlayer>,
    awayPitcher: Option<Player>,
    homePitcher: Option<Player>,
    lowerThird: Option<Player>)
  {
    function Lineup(t: Team): seq<LineupPlayer>
    {
      match t
      case Away => awayLineup
      case Home => homeLineup
    }

    function Pitcher(t: Team): Option<Player>
    {
      match t
      case Away => awayPitcher
      case Home => homePitcher
    }
  }
}
