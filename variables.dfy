/** The host variables of the adapter (src/variables.ts): their definitions,
    and the projection of a snapshot onto their values. */
module Variables {
  import opened Snapshot
  import opened Text

  /** Which of the three values of a slot a variable holds. */
  datatype Field = Number | Name | Label

  /** A variable: one field of a 1-based lineup slot, or of a team's pitcher.
      The host knows it by the string `VarName` gives it. */
  datatype VarId = LineupVar(team: Team, field: Field, slot: nat) | PitcherVar(team: Team, field: Field)

  /** The number of lineup slots with variables for a lineup of `n` players:
      the nine reset ones, and more when the snapshot lists more. */
  function SlotCount(n: nat): (count: nat)
    ensures count >= 9 && count >= n
    ensures n <= 9 ==> count == 9
    ensures n > 9 ==> count == n
  {
    if n <= 9 then 9 else n
  }

  function FieldName(f: Field): string
  {
    match f
    case Number => "Number"
    case Name => "Name"
    case Label => "Label"
  }

  /** The variable id string, e.g. `awayLineupLabel3` or `homePitcherName`. */
  function VarName(v: VarId): string
  {
    match v
    case LineupVar(t, f, i) => TeamName(t) + "Lineup" + FieldName(f) + NatToString(i)
    case PitcherVar(t, f) => TeamName(t) + "Pitcher" + FieldName(f)
  }

  function ParseTeam(s: string): Option<(Team, string)>
  {
    match StripPrefix("away", s)
    case Some(rest) => Some((Away, rest))
    case None =>
      match StripPrefix("home", s)
      case Some(rest) => Some((Home, rest))
      case None => None
  }

  function ParseField(s: string): Option<(Field, string)>
  {
    match StripPrefix("Number", s)
    case Some(rest) => Some((Number, rest))
    case None =>
      match StripPrefix("Name", s)
      case Some(rest) => Some((Name, rest))
      case None =>
        match StripPrefix("Label", s)
        case Some(rest) => Some((Label, rest))
        case None => None
  }

  /** Reads a variable id string back; `None` for a string that names no variable. */
  function ParseVarName(s: string): Option<VarId>
  {
    match ParseTeam(s)
    case None => None
    case Some((t, afterTeam)) =>
      match StripPrefix("Lineup", afterTeam)
      case Some(afterKind) =>
        (match ParseField(afterKind)
         case None => None
         case Some((f, digits)) =>
           match ParseNat(digits)
           case None => None
           case Some(i) => Some(LineupVar(t, f, i)))
      case None =>
        match StripPrefix("Pitcher", afterTeam)
        case None => None
        case Some(afterKind) =>
          match ParseField(afterKind)
          case None => None
          case Some((f, rest)) => if rest == [] then Some(PitcherVar(t, f)) else None
  }

  lemma ParseTeamOfName(t: Team, rest: string)
    ensures ParseTeam(TeamName(t) + rest) == Some((t, rest))
  {
    StripPrefixOfAppend(TeamName(t), rest);
    if t == Home {
      StripPrefixMismatch("away", TeamName(t) + rest, 0);
    }
  }

  lemma ParseFieldOfName(f: Field, rest: string)
    ensures ParseField(FieldName(f) + rest) == Some((f, rest))
  {
    var s := FieldName(f) + rest;
    StripPrefixOfAppend(FieldName(f), rest);
    match f
    case Number =>
    case Name =>
      StripPrefixMismatch("Number", s, 1);
    case Label =>
      StripPrefixMismatch("Number", s, 0);
      StripPrefixMismatch("Name", s, 0);
  }

  /** Every variable id string reads back as the variable it names. */
  lemma {:induction false} VarNameRoundTrip(v: VarId)
    ensures ParseVarName(VarName(v)) == Some(v)
  {
    match v
    case LineupVar(t, f, i) =>
      var digits := NatToString(i);
      var afterKind := FieldName(f) + digits;
      var afterTeam := "Lineup" + afterKind;
      assert VarName(v) == TeamName(t) + afterTeam;
      ParseTeamOfName(t, afterTeam);
      StripPrefixOfAppend("Lineup", afterKind);
      ParseFieldOfName(f, digits);
      NatToStringRoundTrip(i);
    case PitcherVar(t, f) =>
      var afterKind := FieldName(f) + "";
      var afterTeam := "Pitcher" + afterKind;
      assert VarName(v) == TeamName(t) + afterTeam;
      ParseTeamOfName(t, afterTeam);
      StripPrefixMismatch("Lineup", afterTeam, 0);
      StripPrefixOfAppend("Pitcher", afterKind);
      ParseFieldOfName(f, "");
  }

  /** No two variables share an id string. */
  lemma VarNameInjective(v: VarId, w: VarId)
    ensures VarName(v) == VarName(w) ==> v == w
  {
    VarNameRoundTrip(v);
    VarNameRoundTrip(w);
  }

  // ---------------------------------------------------------------------
  // Definitions (UpdateVariableDefinitions)
  // ---------------------------------------------------------------------

  datatype VariableDefinition = VariableDefinition(variableId: string, name: string)

  /** The display name each variable is declared with. The home lineup label
      is declared with the away wording, as the source has it. */
  function DisplayName(v: VarId): string
  {
    match v
    case LineupVar(Away, Number, i) => "Away Lineup Number " + NatToString(i)
    case LineupVar(Away, Name, i) => "Away Lineup Name " + NatToString(i)
    case LineupVar(Away, Label, i) => "Away Lineup Button Label " + NatToString(i)
    case LineupVar(Home, Number, i) => "Home Lineup Number " + NatToString(i)
    case LineupVar(Home, Name, i) => "Home Lineup Name " + NatToString(i)
    case LineupVar(Home, Label, i) => "Away Lineup Button Label " + NatToString(i)
    case PitcherVar(Away, Number) => "Away pitcher number"
    case PitcherVar(Away, Name) => "Away pitcher name"
    case PitcherVar(Away, Label) => "Away pitcher Button Label"
    case PitcherVar(Home, Number) => "Home pitcher number"
    case PitcherVar(Home, Name) => "Home pitcher name"
    case PitcherVar(Home, Label) => "Home pitcher Button Label"
  }

  /** The home label variables are declared under the away wording, so two
      distinct variables share each of those nine display names. */
  lemma HomeLabelSharesAwayDisplayName(i: nat)
    ensures DisplayName(LineupVar(Home, Label, i)) == DisplayName(LineupVar(Away, Label, i))
    ensures VarName(LineupVar(Home, Label, i)) != VarName(LineupVar(Away, Label, i))
  {
    assert VarName(LineupVar(Home, Label, i))[0] != VarName(LineupVar(Away, Label, i))[0];
  }

  function Definition(v: VarId): VariableDefinition
  {
    VariableDefinition(VarName(v), DisplayName(v))
  }

  /** Number, name, label: the order of the three values of a slot. */
  function FieldAt(k: nat): Field
    requires k < 3
  {
    if k == 0 then Number else if k == 1 then Name else Label
  }

  const DEFINITION_COUNT := 60

  /** The variable declared at position `k`: 27 away lineup variables (three
      per slot, slot by slot), 27 home ones, then the six pitcher ones. */
  function DefinitionAt(k: nat): VarId
    requires k < DEFINITION_COUNT
  {
    if k < 27 then LineupVar(Away, FieldAt(k % 3), k / 3 + 1)
    else if k < 54 then LineupVar(Home, FieldAt((k - 27) % 3), (k - 27) / 3 + 1)
    else PitcherVar(if k < 57 then Away else Home, FieldAt((k - 54) % 3))
  }

  /** `definitions` declares the variables in the order `DefinitionAt` gives. */
  ghost predicate IsDefinitionList(definitions: seq<VariableDefinition>)
  {
    && |definitions| == DEFINITION_COUNT
    && forall k :: 0 <= k < DEFINITION_COUNT ==> definitions[k] == Definition(DefinitionAt(k))
  }

  /** The three declarations of lineup slot `i` of team `t`. */
  function SlotDefinitions(t: Team, i: nat): seq<VariableDefinition>
  {
    [Definition(LineupVar(t, Number, i)), Definition(LineupVar(t, Name, i)), Definition(LineupVar(t, Label, i))]
  }

  /** Appending slot `i` of team `t` keeps a list declared in `DefinitionAt`
      order: the slot's three variables sit at the next three positions. */
  lemma SlotDeclaredNext(prefix: seq<VariableDefinition>, t: Team, i: nat)
    requires 1 <= i <= 9 && |prefix| == (if t == Away then 0 else 27) + 3 * (i - 1)
    requires forall k :: 0 <= k < |prefix| ==> prefix[k] == Definition(DefinitionAt(k))
    ensures forall k :: 0 <= k < |prefix| + 3 ==> (prefix + SlotDefinitions(t, i))[k] == Definition(DefinitionAt(k))
  {
    SlotPositions(t, i, |prefix|);
    var all := prefix + SlotDefinitions(t, i);
    forall k | 0 <= k < |prefix| + 3 ensures all[k] == Definition(DefinitionAt(k)) {
      var base := |prefix|;
      if k == base {
        assert all[k] == Definition(LineupVar(t, Number, i));
      } else if k == base + 1 {
        assert all[k] == Definition(LineupVar(t, Name, i));
      } else if k == base + 2 {
        assert all[k] == Definition(LineupVar(t, Label, i));
      } else {
        assert all[k] == prefix[k];
      }
    }
  }

  /** Where the three variables of lineup slot `i` of team `t` are declared. */
  lemma SlotPositions(t: Team, i: nat, base: nat)
    requires 1 <= i <= 9 && base == (if t == Away then 0 else 27) + 3 * (i - 1)
    ensures DefinitionAt(base) == LineupVar(t, Number, i)
    ensures DefinitionAt(base + 1) == LineupVar(t, Name, i)
    ensures DefinitionAt(base + 2) == LineupVar(t, Label, i)
  {
    var j := i - 1;
    var offset := if t == Away then 0 else 27;
    assert (base - offset) % 3 == 0 && (base - offset) / 3 == j;
    assert (base + 1 - offset) % 3 == 1 && (base + 1 - offset) / 3 == j;
    assert (base + 2 - offset) % 3 == 2 && (base + 2 - offset) / 3 == j;
  }

  /** The six pitcher declarations, away first. */
  function PitcherDefinitions(): seq<VariableDefinition>
  {
    [ Definition(PitcherVar(Away, Number)), Definition(PitcherVar(Away, Name)),
      Definition(PitcherVar(Away, Label)), Definition(PitcherVar(Home, Number)),
      Definition(PitcherVar(Home, Name)), Definition(PitcherVar(Home, Label))]
  }

  /** The pitcher declarations complete the list after the 54 slot ones. */
  lemma PitchersDeclaredLast(prefix: seq<VariableDefinition>)
    requires |prefix| == 54
    requires forall k :: 0 <= k < |prefix| ==> prefix[k] == Definition(DefinitionAt(k))
    ensures IsDefinitionList(prefix + PitcherDefinitions())
  {
    var all := prefix + PitcherDefinitions();
    var pitchers := PitcherDefinitions();
    forall k | 0 <= k < DEFINITION_COUNT ensures all[k] == Definition(DefinitionAt(k)) {
      if k < 54 {
        assert all[k] == prefix[k];
      } else {
        assert all[k] == pitchers[k - 54];
        PitcherPosition(k);
      }
    }
  }

  /** Positions 54 to 59 declare the pitcher variables, away first. */
  lemma PitcherPosition(k: nat)
    requires 54 <= k < DEFINITION_COUNT
    ensures Definition(DefinitionAt(k)) == PitcherDefinitions()[k - 54]
  {
    if k == 54 {
    } else if k == 55 {
    } else if k == 56 {
    } else if k == 57 {
    } else if k == 58 {
    } else {
      assert k == 59;
    }
  }

  /** `UpdateVariableDefinitions` (src/variables.ts:4-28): the list handed to
      the host's `setVariableDefinitions`. */
  method UpdateVariableDefinitions() returns (definitions: seq<VariableDefinition>)
    ensures IsDefinitionList(definitions)
  {
    definitions := PushLineupDefinitions([], Away);
    definitions := PushLineupDefinitions(definitions, Home);
    PitchersDeclaredLast(definitions);
    definitions := definitions + PitcherDefinitions();
  }

  /** One of the two slot loops of `UpdateVariableDefinitions`
      (src/variables.ts:6-18): pushes number, name and label of slots 1 to 9
      of team `t`, which the away team declares first. */
  method PushLineupDefinitions(definitions: seq<VariableDefinition>, t: Team) returns (result: seq<VariableDefinition>)
    requires |definitions| == (if t == Away then 0 else 27)
    requires forall k :: 0 <= k < |definitions| ==> definitions[k] == Definition(DefinitionAt(k))
    ensures |result| == |definitions| + 27
    ensures forall k :: 0 <= k < |result| ==> result[k] == Definition(DefinitionAt(k))
  {
    result := definitions;
    for i := 1 to 10
      invariant |result| == |definitions| + 3 * (i - 1)
      invariant forall k :: 0 <= k < |result| ==> result[k] == Definition(DefinitionAt(k))
    {
      SlotDeclaredNext(result, t, i);
      result := result + SlotDefinitions(t, i);
    }
  }

  /** The sixty declared variables are pairwise distinct, and so are their ids. */
  lemma DefinitionsDistinct(j: nat, k: nat)
    requires j < DEFINITION_COUNT && k < DEFINITION_COUNT && j != k
    ensures DefinitionAt(j) != DefinitionAt(k)
    ensures VarName(DefinitionAt(j)) != VarName(DefinitionAt(k))
  {
    VarNameInjective(DefinitionAt(j), DefinitionAt(k));
  }

  /** Where each lineup slot variable and each pitcher variable is declared. */
  function DefinitionIndex(v: VarId): (k: nat)
    requires v.LineupVar? ==> 1 <= v.slot <= 9
    ensures k < DEFINITION_COUNT && DefinitionAt(k) == v
  {
    var f := match v.field case Number => 0 case Name => 1 case Label => 2;
    match v
    case LineupVar(t, _, i) => (if t == Away then 0 else 27) + 3 * (i - 1) + f
    case PitcherVar(t, _) => 54 + (if t == Away then 0 else 3) + f
  }

  // ---------------------------------------------------------------------
  // Projection (updateLineupAndPitchersVariables)
  // ---------------------------------------------------------------------

  /** The button label of the batter at a slot: slot and jersey number on the
      first line when there is a number, the upper-cased name on the second. */
  function LineupLabel(slot: nat, p: LineupPlayer): string
  {
    if p.number != "" then NatToString(slot) + ".    #" + p.number + "\n" + Upper(p.name)
    else NatToString(slot) + ".\n" + Upper(p.name)
  }

  /** What a slot shows while no batter fills it. */
  function Placeholder(f: Field, slot: nat): string
  {
    match f
    case Number => ""
    case Name => ""
    case Label => NatToString(slot) + ".\nunknown"
  }

  function PlayerValue(p: LineupPlayer, f: Field, slot: nat): string
  {
    match f
    case Number => p.number
    case Name => p.name
    case Label => LineupLabel(slot, p)
  }

  /** A slot's value once the first `filled` batters of the lineup are written. */
  function SlotValue(lineup: seq<LineupPlayer>, filled: nat, f: Field, slot: nat): string
    requires filled <= |lineup|
  {
    if 1 <= slot <= filled then PlayerValue(lineup[slot - 1], f, slot) else Placeholder(f, slot)
  }

  /** The pitcher label: number and name, name alone, or the placeholder. */
  function PitcherLabel(p: Option<Player>): string
  {
    if p.Some? && p.value.number != "" then "P:    #" + p.value.number + "\n" + Upper(p.value.name)
    else if p.Some? && p.value.name != "" then "P:\n" + Upper(p.value.name)
    else "P:\nunknown"
  }

  /** The pitcher values; number and name are `undefined` without a pitcher. */
  function PitcherValue(p: Option<Player>, f: Field): Option<string>
  {
    match f
    case Number => if p.Some? then Some(p.value.number) else None
    case Name => if p.Some? then Some(p.value.name) else None
    case Label => Some(PitcherLabel(p))
  }

  /** The variables a projection of `d` sets. */
  ghost predicate Projected(d: BroadcastData, v: VarId)
  {
    match v
    case LineupVar(t, _, i) => 1 <= i <= SlotCount(|d.Lineup(t)|)
    case PitcherVar(_, _) => true
  }

  /** The value a projection of `d` gives `v`. */
  function ExpectedValue(d: BroadcastData, v: VarId): Option<string>
  {
    match v
    case LineupVar(t, f, i) => Some(SlotValue(d.Lineup(t), |d.Lineup(t)|, f, i))
    case PitcherVar(t, f) => PitcherValue(d.Pitcher(t), f)
  }

  /** `m` is the value map projected from `d`. */
  ghost predicate IsProjectionOf(m: map<VarId, Option<string>>, d: BroadcastData)
  {
    && (forall v :: v in m <==> Projected(d, v))
    && (forall v | v in m :: m[v] == ExpectedValue(d, v))
  }

  /** The variables of one slot, and the six pitcher variables, one by one. */
  lemma VarCases(v: VarId)
    ensures v.LineupVar? ==>
      || v == LineupVar(Away, Number, v.slot) || v == LineupVar(Away, Name, v.slot)
      || v == LineupVar(Away, Label, v.slot) || v == LineupVar(Home, Number, v.slot)
      || v == LineupVar(Home, Name, v.slot) || v == LineupVar(Home, Label, v.slot)
    ensures v.PitcherVar? ==>
      || v == PitcherVar(Away, Number) || v == PitcherVar(Away, Name) || v == PitcherVar(Away, Label)
      || v == PitcherVar(Home, Number) || v == PitcherVar(Home, Name) || v == PitcherVar(Home, Label)
  {
    match v
    case LineupVar(t, f, _) =>
      match t {
        case Away => match f { case Number => case Name => case Label => }
        case Home => match f { case Number => case Name => case Label => }
      }
    case PitcherVar(t, f) =>
      match t {
        case Away => match f { case Number => case Name => case Label => }
        case Home => match f { case Number => case Name => case Label => }
      }
  }

  /** `updateLineupAndPitchersVariables` (src/variables.ts:30-85): the map
      handed to the host's `setVariableValues`. It is built from nothing on
      every call: first every slot 1-9 of both teams is cleared, then each
      lineup overwrites the slots it fills, then the pitcher values are set. */
  method UpdateLineupAndPitchersVariables(d: BroadcastData) returns (updates: map<VarId, Option<string>>)
    ensures IsProjectionOf(updates, d)
  {
    updates := ClearSlots();
    updates := SetLineupVariables(updates, Away, d.awayLineup);
    updates := SetLineupVariables(updates, Home, d.homeLineup);
    updates := SetPitcherVariables(updates, Away, d.awayPitcher);
    updates := SetPitcherVariables(updates, Home, d.homePitcher);
    forall v: VarId ensures v in updates <==> Projected(d, v) {
      VarCases(v);
    }
  }

  /** The loop that clears slots 1-9 of both teams (src/variables.ts:34-41):
      number and name become empty, the label shows the slot and "unknown". */
  method ClearSlots() returns (updates: map<VarId, Option<string>>)
    ensures forall v :: v in updates <==> v.LineupVar? && 1 <= v.slot <= 9
    ensures forall v | v in updates :: updates[v] == Some(Placeholder(v.field, v.slot))
  {
    updates := map[];
    for i := 1 to 10
      invariant forall v :: v in updates <==> v.LineupVar? && 1 <= v.slot < i
      invariant forall v | v in updates :: updates[v] == Some(Placeholder(v.field, v.slot))
    {
      updates := updates[LineupVar(Away, Number, i) := Some("")];
      updates := updates[LineupVar(Away, Name, i) := Some("")];
      updates := updates[LineupVar(Away, Label, i) := Some(NatToString(i) + ".\nunknown")];
      updates := updates[LineupVar(Home, Number, i) := Some("")];
      updates := updates[LineupVar(Home, Name, i) := Some("")];
      updates := updates[LineupVar(Home, Label, i) := Some(NatToString(i) + ".\nunknown")];
      forall v: VarId | v.LineupVar? && v.slot == i ensures v in updates {
        VarCases(v);
      }
    }
  }

  /** The `forEach` over one team's lineup: batter `index` overwrites the
      three values of slot `index + 1`; every other entry stays. */
  method SetLineupVariables(updates: map<VarId, Option<string>>, t: Team, lineup: seq<LineupPlayer>)
    returns (result: map<VarId, Option<string>>)
    ensures forall v :: v in result <==>
      v in updates || (v.LineupVar? && v.team == t && 1 <= v.slot <= |lineup|)
    ensures forall v | v in result ::
      result[v] == if v.LineupVar? && v.team == t && 1 <= v.slot <= |lineup|
                   then Some(PlayerValue(lineup[v.slot - 1], v.field, v.slot))
                   else updates[v]
  {
    result := updates;
    for index := 0 to |lineup|
      invariant forall v :: v in result <==>
        v in updates || (v.LineupVar? && v.team == t && 1 <= v.slot <= index)
      invariant forall v | v in result ::
        result[v] == if v.LineupVar? && v.team == t && 1 <= v.slot <= index
                     then Some(PlayerValue(lineup[v.slot - 1], v.field, v.slot))
                     else updates[v]
    {
      var player := lineup[index];
      result := result[LineupVar(t, Number, index + 1) := Some(player.number)];
      result := result[LineupVar(t, Name, index + 1) := Some(player.name)];
      if player.number != "" {
        result := result[LineupVar(t, Label, index + 1) :=
          Some(NatToString(index + 1) + ".    #" + player.number + "\n" + Upper(player.name))];
      } else {
        result := result[LineupVar(t, Label, index + 1) :=
          Some(NatToString(index + 1) + ".\n" + Upper(player.name))];
      }
      forall v: VarId | v.LineupVar? && v.team == t && v.slot == index + 1
        ensures v in result && result[v] == Some(PlayerValue(player, v.field, index + 1))
      {
        VarCases(v);
      }
    }
  }

  /** One team's pitcher values: the raw number and name, then the label,
      overwritten once for a name and once more for a number. */
  method SetPitcherVariables(updates: map<VarId, Option<string>>, t: Team, pitcher: Option<Player>)
    returns (result: map<VarId, Option<string>>)
    ensures forall v :: v in result <==> v in updates || (v.PitcherVar? && v.team == t)
    ensures forall v | v in result ::
      result[v] == if v.PitcherVar? && v.team == t then PitcherValue(pitcher, v.field) else updates[v]
  {
    result := updates[PitcherVar(t, Number) := if pitcher.Some? then Some(pitcher.value.number) else None];
    result := result[PitcherVar(t, Name) := if pitcher.Some? then Some(pitcher.value.name) else None];
    result := result[PitcherVar(t, Label) := Some("P:\nunknown")];
    if pitcher.Some? && pitcher.value.name != "" {
      result := result[PitcherVar(t, Label) := Some("P:\n" + Upper(pitcher.value.name))];
    }
    if pitcher.Some? && pitcher.value.number != "" {
      result := result[PitcherVar(t, Label) :=
        Some("P:    #" + pitcher.value.number + "\n" + Upper(pitcher.value.name))];
    }
    forall v: VarId | v.PitcherVar? && v.team == t ensures v in result {
      VarCases(v);
    }
  }

  // ---------------------------------------------------------------------
  // What a projection shows
  // ---------------------------------------------------------------------

  /** The projection depends on the snapshot alone: projecting the same
      snapshot twice gives the same map. */
  lemma ProjectionDeterministic(m1: map<VarId, Option<string>>, m2: map<VarId, Option<string>>, d: BroadcastData)
    requires IsProjectionOf(m1, d) && IsProjectionOf(m2, d)
    ensures m1 == m2
  {
    assert m1.Keys == m2.Keys;
  }

  /** A slot 1-9 that the lineup does not reach shows the placeholder, so a
      lineup shorter than the previous one leaves none of its text behind. */
  lemma UnfilledSlotIsCleared(m: map<VarId, Option<string>>, d: BroadcastData, t: Team, slot: nat)
    requires IsProjectionOf(m, d)
    requires |d.Lineup(t)| < slot <= 9
    ensures LineupVar(t, Number, slot) in m && m[LineupVar(t, Number, slot)] == Some("")
    ensures LineupVar(t, Name, slot) in m && m[LineupVar(t, Name, slot)] == Some("")
    ensures LineupVar(t, Label, slot) in m && m[LineupVar(t, Label, slot)] == Some(NatToString(slot) + ".\nunknown")
  {
    assert Projected(d, LineupVar(t, Number, slot));
    assert Projected(d, LineupVar(t, Name, slot));
    assert Projected(d, LineupVar(t, Label, slot));
  }

  /** Batter `k` of a lineup fills slot `k + 1`: its raw number and name, and
      a label with the slot, the number when there is one, and the name in
      capitals. */
  lemma FilledSlotShowsBatter(m: map<VarId, Option<string>>, d: BroadcastData, t: Team, k: nat)
    requires IsProjectionOf(m, d)
    requires k < |d.Lineup(t)|
    ensures var p := d.Lineup(t)[k];
      && LineupVar(t, Number, k + 1) in m && m[LineupVar(t, Number, k + 1)] == Some(p.number)
      && LineupVar(t, Name, k + 1) in m && m[LineupVar(t, Name, k + 1)] == Some(p.name)
      && LineupVar(t, Label, k + 1) in m
      && m[LineupVar(t, Label, k + 1)] ==
           if p.number != "" then Some(NatToString(k + 1) + ".    #" + p.number + "\n" + Upper(p.name))
           else Some(NatToString(k + 1) + ".\n" + Upper(p.name))
  {
    assert Projected(d, LineupVar(t, Number, k + 1));
    assert Projected(d, LineupVar(t, Name, k + 1));
    assert Projected(d, LineupVar(t, Label, k + 1));
  }

  /** The pitcher values: number and name are undefined without a pitcher;
      the label shows the number when there is one, else the name when there
      is one, else the placeholder. */
  lemma PitcherVariablesShown(m: map<VarId, Option<string>>, d: BroadcastData, t: Team)
    requires IsProjectionOf(m, d)
    ensures PitcherVar(t, Number) in m && PitcherVar(t, Name) in m && PitcherVar(t, Label) in m
    ensures d.Pitcher(t).None? ==>
      && m[PitcherVar(t, Number)] == None && m[PitcherVar(t, Name)] == None
      && m[PitcherVar(t, Label)] == Some("P:\nunknown")
    ensures d.Pitcher(t).Some? ==>
      var p := d.Pitcher(t).value;
      && m[PitcherVar(t, Number)] == Some(p.number) && m[PitcherVar(t, Name)] == Some(p.name)
      && m[PitcherVar(t, Label)] ==
           if p.number != "" then Some("P:    #" + p.number + "\n" + Upper(p.name))
           else if p.name != "" then Some("P:\n" + Upper(p.name))
           else Some("P:\nunknown")
  {
    assert Projected(d, PitcherVar(t, Number));
    assert Projected(d, PitcherVar(t, Name));
    assert Projected(d, PitcherVar(t, Label));
  }

  /** Every declared variable receives a value on every projection. */
  lemma DefinedVariablesAreProjected(d: BroadcastData, k: nat)
    requires k < DEFINITION_COUNT
    ensures Projected(d, DefinitionAt(k))
  {
  }

  /** With lineups of at most nine batters, the projection sets only
      declared variables. */
  lemma ProjectedVariablesAreDefined(d: BroadcastData, v: VarId)
    requires |d.awayLineup| <= 9 && |d.homeLineup| <= 9
    requires Projected(d, v)
    ensures exists k :: 0 <= k < DEFINITION_COUNT && DefinitionAt(k) == v
  {
    var k := DefinitionIndex(v);
  }
}
