/** The squad rendered as markdown for the answer prompt
    (`src/backend/prompts/formulate_answer.py`). */
module FormulateAnswer {
  import opened Text
  import opened Squads
  import Llm

  const Title: string := "# Squad\n"

  function Header(g: PlayersGroup): string
  {
    "## " + GroupName(g)
  }

  /** One bullet per player: a manager shows name and birth date, everyone
      else also shows the position. */
  function PlayerLine(g: PlayersGroup, p: Player): string
  {
    if g == Manager then "- " + p.name + " (" + p.dateOfBirth.iso + ")"
    else "- " + p.name + " (" + p.dateOfBirth.iso + ") - " + p.position
  }

  /** The lines of the players `ms`: one each, in the same order. */
  function PlayerLines(g: PlayersGroup, ms: seq<Player>): seq<string>
  {
    seq(|ms|, i requires 0 <= i < |ms| => PlayerLine(g, ms[i]))
  }

  /** The parts a group contributes: nothing when it has no players, else its
      header followed by one line per member. */
  function Section(ps: seq<Player>, g: PlayersGroup): seq<string>
  {
    var ms := Members(ps, g);
    if ms == [] then [] else [Header(g)] + PlayerLines(g, ms)
  }

  function Sections(ps: seq<Player>, gs: seq<PlayersGroup>): seq<string>
  {
    if gs == [] then [] else Section(ps, gs[0]) + Sections(ps, gs[1..])
  }

  /** The `markdown_parts` list once both loops are done. */
  function MarkdownParts(squad: Squad): seq<string>
  {
    [Title] + Sections(squad.players, AllPlayerGroups)
  }

  function SquadMarkdown(squad: Squad): string
  {
    Join(MarkdownParts(squad), "\n")
  }

  lemma SectionsUnfold(ps: seq<Player>, gs: seq<PlayersGroup>, k: nat)
    requires k < |gs|
    ensures Sections(ps, gs[k..]) == Section(ps, gs[k]) + Sections(ps, gs[k + 1..])
  {
    assert gs[k..][1..] == gs[k + 1..];
  }

  /** The inner loop of `build_formulate_answer_prompt`: one line per member
      of the group, in order, appended to the parts gathered so far. */
  method AppendPlayerLines(section: PlayersGroup, members: seq<Player>, parts: seq<string>)
    returns (extended: seq<string>)
    ensures extended == parts + PlayerLines(section, members)
  {
    extended := parts;
    for j := 0 to |members|
      invariant extended == parts + PlayerLines(section, members[..j])
    {
      extended := extended + [PlayerLine(section, members[j])];
      assert PlayerLines(section, members[..j + 1])
        == PlayerLines(section, members[..j]) + [PlayerLine(section, members[j])];
    }
    assert members[..|members|] == members;
  }

  /** One pass of the outer loop of `build_formulate_answer_prompt`: when the
      group has players, its header and then one line per player are appended
      to the parts gathered so far. */
  method AppendSection(squad: Squad, section: PlayersGroup, parts: seq<string>)
    returns (extended: seq<string>)
    ensures extended == parts + Section(squad.players, section)
  {
    extended := parts;
    var grouped := GetPlayerGroup(squad);
    if section in grouped {
      extended := extended + [Header(section)];
      var regrouped := GetPlayerGroup(squad);
      ghost var members := Members(squad.players, section);
      assert regrouped[section] == members && members != [];
      extended := AppendPlayerLines(section, regrouped[section], extended);
      assert Section(squad.players, section) == [Header(section)] + PlayerLines(section, members);
      assert extended == parts + ([Header(section)] + PlayerLines(section, members));
    } else {
      assert Members(squad.players, section) == [];
    }
  }

  /** The markdown-building part of `build_formulate_answer_prompt`: the
      parts are gathered by walking the groups in order, and then joined with
      newlines. */
  method BuildSquadMarkdown(squad: Squad) returns (markdown: string)
    ensures markdown == SquadMarkdown(squad)
  {
    var parts := [Title];
    for k := 0 to |AllPlayerGroups|
      invariant parts + Sections(squad.players, AllPlayerGroups[k..]) == MarkdownParts(squad)
    {
      parts := AppendSection(squad, AllPlayerGroups[k], parts);
      SectionsUnfold(squad.players, AllPlayerGroups, k);
    }
    assert Sections(squad.players, AllPlayerGroups[|AllPlayerGroups|..]) == [];
    assert parts == MarkdownParts(squad);
    markdown := Join(parts, "\n");
  }

  /** `build_formulate_answer_prompt(squad, user_question)`, with today's date
      (`date.today().isoformat()`) passed in. */
  method BuildFormulateAnswerPrompt(squad: Squad, userQuestion: string, today: string)
    returns (prompt: Llm.Prompt)
    ensures prompt == Llm.FormulateAnswer(SquadMarkdown(squad), userQuestion, today)
  {
    var squadMarkdown := BuildSquadMarkdown(squad);
    prompt := Llm.FormulateAnswer(squadMarkdown, userQuestion, today);
  }

  /** The markdown opens with the title part. */
  lemma MarkdownStartsWithTitle(squad: Squad)
    ensures |Title| <= |SquadMarkdown(squad)| && SquadMarkdown(squad)[..|Title|] == Title
  {
    JoinStartsWithFirst(MarkdownParts(squad), "\n");
  }

  predicate IsHeader(part: string)
  {
    |part| >= 3 && part[0] == '#' && part[1] == '#' && part[2] == ' '
  }

  predicate IsBullet(part: string)
  {
    |part| >= 2 && part[0] == '-' && part[1] == ' '
  }

  /** The header parts, in order. */
  function Headers(parts: seq<string>): seq<string>
  {
    if parts == [] then []
    else (if IsHeader(parts[0]) then [parts[0]] else []) + Headers(parts[1..])
  }

  /** The bullet parts, in order. */
  function Bullets(parts: seq<string>): seq<string>
  {
    if parts == [] then []
    else (if IsBullet(parts[0]) then [parts[0]] else []) + Bullets(parts[1..])
  }

  lemma {:induction false} HeadersConcat(a: seq<string>, b: seq<string>)
    ensures Headers(a + b) == Headers(a) + Headers(b)
    decreases |a|
  {
    if a == [] {
      assert a + b == b;
    } else {
      assert (a + b)[0] == a[0];
      assert (a + b)[1..] == a[1..] + b;
      HeadersConcat(a[1..], b);
    }
  }

  lemma {:induction false} BulletsConcat(a: seq<string>, b: seq<string>)
    ensures Bullets(a + b) == Bullets(a) + Bullets(b)
    decreases |a|
  {
    if a == [] {
      assert a + b == b;
    } else {
      assert (a + b)[0] == a[0];
      assert (a + b)[1..] == a[1..] + b;
      BulletsConcat(a[1..], b);
    }
  }

  /** Headers and bullets of a concatenation are those of the two halves. */
  lemma HeadersAppend(a: seq<string>, b: seq<string>)
    ensures Headers(a + b) == Headers(a) + Headers(b)
    ensures Bullets(a + b) == Bullets(a) + Bullets(b)
  {
    HeadersConcat(a, b);
    BulletsConcat(a, b);
  }

  lemma {:induction false} PlayerLinesAreBullets(g: PlayersGroup, ms: seq<Player>)
    ensures Headers(PlayerLines(g, ms)) == []
    ensures Bullets(PlayerLines(g, ms)) == PlayerLines(g, ms)
    decreases |ms|
  {
    if ms != [] {
      var lines := PlayerLines(g, ms);
      assert lines[1..] == PlayerLines(g, ms[1..]);
      PlayerLinesAreBullets(g, ms[1..]);
      assert lines[0] == PlayerLine(g, ms[0]);
      assert lines[0][0] == '-' && lines[0][1] == ' ';
      assert lines == [lines[0]] + lines[1..];
    }
  }

  /** The groups of `gs` that have at least one player, in the order of `gs`. */
  function PresentGroups(ps: seq<Player>, gs: seq<PlayersGroup>): seq<PlayersGroup>
  {
    if gs == [] then []
    else (if Members(ps, gs[0]) != [] then [gs[0]] else []) + PresentGroups(ps, gs[1..])
  }

  function HeaderLines(gs: seq<PlayersGroup>): (r: seq<string>)
    ensures |r| == |gs|
  {
    seq(|gs|, i requires 0 <= i < |gs| => Header(gs[i]))
  }

  /** A header part is a header and no bullet. */
  lemma HeaderPart(g: PlayersGroup)
    ensures Headers([Header(g)]) == [Header(g)] && Bullets([Header(g)]) == []
  {
    assert Header(g)[0] == '#' && Header(g)[1] == '#' && Header(g)[2] == ' ';
    assert [Header(g)][1..] == [];
  }

  /** One group's section holds its header exactly when the group has players,
      and one bullet per member. */
  lemma SectionShape(ps: seq<Player>, g: PlayersGroup)
    ensures Headers(Section(ps, g)) == if Members(ps, g) == [] then [] else [Header(g)]
    ensures |Bullets(Section(ps, g))| == |Members(ps, g)|
  {
    var ms := Members(ps, g);
    if ms != [] {
      var lines := PlayerLines(g, ms);
      assert Section(ps, g) == [Header(g)] + lines;
      PlayerLinesAreBullets(g, ms);
      HeadersAppend([Header(g)], lines);
      HeaderPart(g);
    }
  }

  lemma HeaderLinesCons(g: PlayersGroup, gs: seq<PlayersGroup>)
    ensures HeaderLines([g] + gs) == [Header(g)] + HeaderLines(gs)
  {
  }

  lemma {:induction false} SectionsShape(ps: seq<Player>, gs: seq<PlayersGroup>)
    ensures Headers(Sections(ps, gs)) == HeaderLines(PresentGroups(ps, gs))
    ensures |Bullets(Sections(ps, gs))| == GroupedCount(ps, gs)
    decreases |gs|
  {
    if gs != [] {
      var g := gs[0];
      SectionsShape(ps, gs[1..]);
      HeadersAppend(Section(ps, g), Sections(ps, gs[1..]));
      SectionShape(ps, g);
      if Members(ps, g) != [] {
        HeaderLinesCons(g, PresentGroups(ps, gs[1..]));
      } else {
        assert PresentGroups(ps, gs) == PresentGroups(ps, gs[1..]);
      }
    }
  }

  /** Section headers appear in the order of `ALL_PLAYER_GROUPS`, one for each
      group that has players and none for the others. */
  lemma HeadersInGroupOrder(squad: Squad)
    ensures Headers(MarkdownParts(squad)) == HeaderLines(PresentGroups(squad.players, AllPlayerGroups))
  {
    SectionsShape(squad.players, AllPlayerGroups);
    HeadersAppend([Title], Sections(squad.players, AllPlayerGroups));
  }

  /** There is one player line per player of the squad. */
  lemma OneLinePerPlayer(squad: Squad)
    ensures |Bullets(MarkdownParts(squad))| == |squad.players|
  {
    SectionsShape(squad.players, AllPlayerGroups);
    HeadersAppend([Title], Sections(squad.players, AllPlayerGroups));
    assert Title[0] == '#';
    GroupSizesSum(squad.players);
  }

  /** A group's section is its header followed by the lines of its members,
      in squad order; a manager's line has no position, every other line ends
      with the position. */
  lemma SectionLines(ps: seq<Player>, g: PlayersGroup, i: nat)
    requires i < |Members(ps, g)|
    ensures |Section(ps, g)| == |Members(ps, g)| + 1
    ensures Section(ps, g)[0] == Header(g)
    ensures var p := Members(ps, g)[i];
      Section(ps, g)[i + 1] ==
        if g == Manager then "- " + p.name + " (" + p.dateOfBirth.iso + ")"
        else "- " + p.name + " (" + p.dateOfBirth.iso + ") - " + p.position
  {
  }
}
