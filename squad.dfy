/** Players, squads, and the grouping of a squad's players by position
    (`src/backend/squad.py`). */
module Squads {

  /** The `PlayersGroup` string enum; the sections of a rendered squad. */
  datatype PlayersGroup = Goalkeepers | Manager | Defenders | Midfielders | Forwards | Others

  /** The enum member's string value, which is also what `str()` gives. */
  function GroupName(g: PlayersGroup): string
  {
    match g
    case Goalkeepers => "Goalkeepers"
    case Manager => "Manager"
    case Defenders => "Defenders"
    case Midfielders => "Midfielders"
    case Forwards => "Forwards"
    case Others => "Others"
  }

  /** `list(PlayersGroup)`: every group once, in declaration order. */
  const AllPlayerGroups: seq<PlayersGroup> :=
    [Goalkeepers, Manager, Defenders, Midfielders, Forwards, Others]

  /** The fixed table from a provider's position text to a group. */
  const PositionToPlayerGroup: map<string, PlayersGroup> := map[
    "Goalkeeper" := Goalkeepers,
    "Manager" := Manager,
    "Defender" := Defenders,
    "Centre-Back" := Defenders,
    "Left-Back" := Defenders,
    "Right-Back" := Defenders,
    "Attacking Midfield" := Midfielders,
    "Central Midfield" := Midfielders,
    "Defensive Midfield" := Midfielders,
    "Centre-Forward" := Forwards,
    "Right Winger" := Forwards,
    "Left Wing" := Forwards
  ]

  /** A calendar date. Only its ISO text is ever looked at: `str(date)` is `iso`. */
  datatype Date = Date(iso: string)

  datatype Player = Player(name: string, dateOfBirth: Date, position: string)

  datatype Squad = Squad(name: string, players: seq<Player>)

  /** `POSITION_TO_PLAYER_GROUP.get(position, PlayersGroup.Others)`. */
  function GroupOf(position: string): PlayersGroup
  {
    if position in PositionToPlayerGroup then PositionToPlayerGroup[position] else Others
  }

  /** The players of `ps` whose position falls in group `g`, in their order in `ps`. */
  function Members(ps: seq<Player>, g: PlayersGroup): seq<Player>
  {
    if ps == [] then []
    else
      var last := ps[|ps| - 1];
      Members(ps[..|ps| - 1], g) + (if GroupOf(last.position) == g then [last] else [])
  }

  /** `Squad.get_player_group`: a group is a key exactly when some player falls
      in it, and its list holds those players in squad order. The squad itself
      is a value, so grouping cannot change it. */
  method GetPlayerGroup(squad: Squad) returns (grouped: map<PlayersGroup, seq<Player>>)
    ensures forall g :: g in grouped <==> Members(squad.players, g) != []
    ensures forall g :: g in grouped ==> grouped[g] == Members(squad.players, g)
  {
    var ps := squad.players;
    grouped := map[];
    for i := 0 to |ps|
      invariant forall g :: g in grouped <==> Members(ps[..i], g) != []
      invariant forall g :: g in grouped ==> grouped[g] == Members(ps[..i], g)
    {
      var group := GroupOf(ps[i].position);
      var current := if group in grouped then grouped[group] else [];
      grouped := grouped[group := current + [ps[i]]];
      assert ps[..i + 1][..i] == ps[..i];
    }
    assert ps[..|ps|] == ps;
  }

  /** The position table, read backwards: which position texts land in each
      group. Every text outside the table lands in `Others`. */
  lemma PositionTable(position: string)
    ensures GroupOf(position) == Goalkeepers <==> position == "Goalkeeper"
    ensures GroupOf(position) == Manager <==> position == "Manager"
    ensures GroupOf(position) == Defenders <==>
      position in {"Defender", "Centre-Back", "Left-Back", "Right-Back"}
    ensures GroupOf(position) == Midfielders <==>
      position in {"Attacking Midfield", "Central Midfield", "Defensive Midfield"}
    ensures GroupOf(position) == Forwards <==>
      position in {"Centre-Forward", "Right Winger", "Left Wing"}
    ensures GroupOf(position) == Others <==> position !in PositionToPlayerGroup
  {
  }

  /** A player is listed in group `g` exactly when it is in the squad and its
      position maps to `g`. */
  lemma {:induction false} MembersExactly(ps: seq<Player>, g: PlayersGroup, p: Player)
    ensures p in Members(ps, g) <==> p in ps && GroupOf(p.position) == g
    decreases |ps|
  {
    if ps != [] {
      var init := ps[..|ps| - 1];
      MembersExactly(init, g, p);
      assert ps == init + [ps[|ps| - 1]];
    }
  }

  /** The members found in a prefix of the squad are a prefix of the members
      found in a longer prefix. */
  lemma {:induction false} MembersOfPrefix(ps: seq<Player>, g: PlayersGroup, n: nat, m: nat)
    requires n <= m <= |ps|
    ensures Members(ps[..n], g) <= Members(ps[..m], g)
    decreases m - n
  {
    if n < m {
      MembersOfPrefix(ps, g, n, m - 1);
      assert ps[..m][..m - 1] == ps[..m - 1];
    }
  }

  /** The player at index `i` sits in its group's list right after the group
      members that precede it in the squad. */
  lemma MemberPosition(ps: seq<Player>, i: nat)
    requires i < |ps|
    ensures var g := GroupOf(ps[i].position);
            var k := |Members(ps[..i], g)|;
            k < |Members(ps, g)| && Members(ps, g)[k] == ps[i]
  {
    var g := GroupOf(ps[i].position);
    assert ps[..i + 1][..i] == ps[..i];
    assert Members(ps[..i + 1], g) == Members(ps[..i], g) + [ps[i]];
    MembersOfPrefix(ps, g, i + 1, |ps|);
    assert ps[..|ps|] == ps;
  }

  /** Grouping keeps the relative order of the squad: two players of one group
      appear in that group's list in the order they have in the squad. */
  lemma MembersKeepOrder(ps: seq<Player>, i: nat, j: nat)
    requires i < j < |ps| && GroupOf(ps[i].position) == GroupOf(ps[j].position)
    ensures var g := GroupOf(ps[i].position);
            var a := |Members(ps[..i], g)|;
            var b := |Members(ps[..j], g)|;
            a < b < |Members(ps, g)| && Members(ps, g)[a] == ps[i] && Members(ps, g)[b] == ps[j]
  {
    var g := GroupOf(ps[i].position);
    MemberPosition(ps, i);
    MemberPosition(ps, j);
    MembersOfPrefix(ps, g, i + 1, j);
    assert ps[..i + 1][..i] == ps[..i];
  }

  /** The total size of the lists of the groups in `gs`. */
  function GroupedCount(ps: seq<Player>, gs: seq<PlayersGroup>): nat
  {
    if gs == [] then 0 else |Members(ps, gs[0])| + GroupedCount(ps, gs[1..])
  }

  /** Adding one player adds one to the group count of the groups in `gs`
      when its group is among them, and nothing otherwise. */
  lemma {:induction false} GroupedCountStep(ps: seq<Player>, p: Player, gs: seq<PlayersGroup>)
    requires forall a, b :: 0 <= a < b < |gs| ==> gs[a] != gs[b]
    ensures GroupedCount(ps + [p], gs)
            == GroupedCount(ps, gs) + (if GroupOf(p.position) in gs then 1 else 0)
    decreases |gs|
  {
    if gs != [] {
      assert (ps + [p])[..|ps + [p]| - 1] == ps;
      GroupedCountStep(ps, p, gs[1..]);
      assert GroupOf(p.position) == gs[0] ==> GroupOf(p.position) !in gs[1..];
    }
  }

  lemma {:induction false} NoPlayersNoCount(gs: seq<PlayersGroup>)
    ensures GroupedCount([], gs) == 0
    decreases |gs|
  {
    if gs != [] {
      NoPlayersNoCount(gs[1..]);
    }
  }

  /** Every player lands in exactly one group: the group sizes add up to the
      number of players. */
  lemma {:induction false} GroupSizesSum(ps: seq<Player>)
    ensures GroupedCount(ps, AllPlayerGroups) == |ps|
    decreases |ps|
  {
    if ps == [] {
      NoPlayersNoCount(AllPlayerGroups);
    } else {
      var init := ps[..|ps| - 1];
      GroupSizesSum(init);
      assert ps == init + [ps[|ps| - 1]];
      GroupedCountStep(init, ps[|ps| - 1], AllPlayerGroups);
    }
  }
}
