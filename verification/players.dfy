/** Players: the turn flag, the human move, the difficulty setting and the
    computer's move policy. The two draws of a uniform random number in
    [0, 1) that the computer makes are parameters. */
module Players {
  import opened GameBoard
  import opened Search

  /** Who chooses the moves: the type code "c" makes a computer player. */
  datatype Kind = Human | Computer

  /** A player; `skill` is the chance of a smart move (computer players
      with a known difficulty only) and `turn` tells whether it is this
      player's move. */
  datatype Player = Player(name: string, kind: Kind, team: Symbol, skill: Option<real>, turn: bool)

  /** The difficulty labels and their probabilities of a smart move. Any
      other level leaves the probability unset. */
  function Skill(level: string): (p: Option<real>)
    ensures p.Some? <==> level == "impossible" || level == "hard" || level == "normal" || level == "easy"
    ensures p.Some? ==> 0.0 < p.value <= 1.0
    ensures p == Some(1.0) <==> level == "impossible"
    ensures level == "hard" ==> p == Some(0.75)
    ensures level == "normal" ==> p == Some(0.5)
    ensures level == "easy" ==> p == Some(0.25)
  {
    if level == "impossible" then Some(1.0)
    else if level == "hard" then Some(0.75)
    else if level == "normal" then Some(0.5)
    else if level == "easy" then Some(0.25)
    else None
  }

  /** The four labels are strictly ordered by strength: impossible, hard,
      normal, easy. */
  lemma SkillStrictlyOrdered()
    ensures Skill("impossible").value > Skill("hard").value > Skill("normal").value > Skill("easy").value > 0.0
  {
  }

  /** The turn flag a player starts a match with: X moves first. */
  function InitialTurn(team: Symbol): bool {
    team == X
  }

  /** createPlayer(name, type, team, difficulty). */
  function CreatePlayer(name: string, kindCode: string, team: Symbol, difficulty: string): (p: Player)
    ensures p.name == name && p.team == team
    ensures p.turn <==> team == X
    ensures p.kind == Computer <==> kindCode == "c"
    ensures p.kind == Computer ==> p.skill == Skill(difficulty)
  {
    Player(name, if kindCode == "c" then Computer else Human, team,
           if kindCode == "c" then Skill(difficulty) else None, InitialTurn(team))
  }

  /** changeTurn: flips the flag and touches nothing else. */
  function ChangeTurn(p: Player): (q: Player)
    ensures q.turn != p.turn
    ensures q.name == p.name && q.kind == p.kind && q.team == p.team && q.skill == p.skill
  {
    p.(turn := !p.turn)
  }

  /** resetPlayerTurn: back to the flag a new player of that team has. */
  function ResetPlayerTurn(p: Player): (q: Player)
    ensures q.turn <==> p.team == X
    ensures q.name == p.name && q.kind == p.kind && q.team == p.team && q.skill == p.skill
  {
    p.(turn := InitialTurn(p.team))
  }

  /** isPlayerTurn. */
  function IsPlayerTurn(p: Player): bool {
    p.turn
  }

  /** A new player has the turn exactly when it plays X; changeTurn hands
      it over and takes it back; resetPlayerTurn gives it back to X only. */
  lemma TurnFlagLifecycle(name: string, kindCode: string, team: Symbol, difficulty: string, p: Player)
    ensures IsPlayerTurn(CreatePlayer(name, kindCode, team, difficulty)) <==> team == X
    ensures IsPlayerTurn(ChangeTurn(p)) <==> !IsPlayerTurn(p)
    ensures IsPlayerTurn(ChangeTurn(ChangeTurn(p))) <==> IsPlayerTurn(p)
    ensures IsPlayerTurn(ResetPlayerTurn(p)) <==> p.team == X
  {
  }

  /** Resetting a player gives the player it was created as, whatever
      moves were played since. */
  lemma ResetRestoresCreated(name: string, kindCode: string, team: Symbol, difficulty: string, p: Player)
    requires p.name == name && p.team == team && p.kind == CreatePlayer(name, kindCode, team, difficulty).kind
    requires p.skill == CreatePlayer(name, kindCode, team, difficulty).skill
    ensures ResetPlayerTurn(p) == CreatePlayer(name, kindCode, team, difficulty)
  {
  }

  /** The two players of a match start with complementary flags, and one
      changeTurn each keeps them complementary. */
  lemma TurnsComplementary(px: Player, po: Player)
    requires px.team == X && po.team == O
    ensures IsPlayerTurn(ResetPlayerTurn(px)) && !IsPlayerTurn(ResetPlayerTurn(po))
    ensures px.turn != po.turn ==> ChangeTurn(px).turn != ChangeTurn(po).turn
  {
  }

  // ------------------------------------------------------------ human play

  /** The human play(move): the turn passes only when the move is accepted. */
  method HumanPlay(p: Player, b: Board, move: int) returns (q: Player, after: Board, ok: bool)
    ensures ok <==> 0 <= move < 9 && b[move] == Empty
    ensures ok ==> after == b[move := p.team] && q == ChangeTurn(p)
    ensures !ok ==> after == b && q == p
  {
    var attempt := MakeMove(b, p.team, move);
    after := attempt.board;
    if attempt.status != 0 {
      q := ChangeTurn(p);
      ok := true;
    } else {
      q := p;
      ok := false;
    }
  }

  // --------------------------------------------------------- computer play

  /** `Math.floor(u * n)`: a position in a list of length `n` drawn from
      a uniform number `u` in [0, 1). */
  function RandomIndex(u: real, n: nat): (k: nat)
    requires 0.0 <= u < 1.0 && n > 0
    ensures k < n
    ensures k as real <= u * n as real < k as real + 1.0
  {
    assert u * n as real < n as real by {
      assert u * n as real < 1.0 * n as real;
    }
    (u * n as real).Floor
  }

  /** The draw `r` leads to a smart move: the skill is set and at least `r`.
      An unset skill never leads to one. */
  predicate Smart(skill: Option<real>, r: real) {
    skill.Some? && skill.value >= r
  }

  /** Position `k` of `values` is the one the smart move keeps: it strictly
      improves on the starting bound, no value is better for `team`, and no
      earlier position reaches the same value. */
  predicate FirstBest(team: Symbol, values: seq<int>, k: int) {
    && 0 <= k < |values|
    && Better(team, values[k], Bound(team))
    && (forall j :: 0 <= j < |values| ==> !Better(team, values[j], values[k]))
    && (forall j :: 0 <= j < k ==> values[j] != values[k])
  }

  /** No value improves on the starting bound for `team`. */
  predicate NoImprovement(team: Symbol, values: seq<int>) {
    forall j :: 0 <= j < |values| ==> !Better(team, values[j], Bound(team))
  }

  /** The loop of the smart move over the move values: starting from the
      bound, it keeps the first position that strictly improves on the best
      value so far. */
  method SelectFirstBest(team: Symbol, values: seq<int>) returns (best: Option<nat>)
    requires forall j :: 0 <= j < |values| ==> IsScore(values[j])
    ensures best.Some? <==> !NoImprovement(team, values)
    ensures best.Some? ==> FirstBest(team, values, best.value)
  {
    var value := Bound(team);
    best := None;
    var i := 0;
    while i < |values|
      invariant 0 <= i <= |values|
      invariant IsScore(value)
      invariant best.None? ==> value == Bound(team)
      invariant best.None? ==> forall j :: 0 <= j < i ==> !Better(team, values[j], Bound(team))
      invariant best.Some? ==> Better(team, value, Bound(team))
      invariant best.Some? ==> best.value < i && values[best.value] == value
                               && forall j :: 0 <= j < best.value ==> values[j] != value
      invariant forall j :: 0 <= j < i ==> !Better(team, values[j], value)
    {
      var moveValue := values[i];
      if Better(team, moveValue, value) {
        value := moveValue;
        best := Some(i);
      }
      i := i + 1;
    }
  }

  /** The smart move: every free position is evaluated with minimax and the
      first best one is kept. When some move improves on the bound, the
      value kept is the minimax value of the board itself; when none does,
      the board is lost for `team`. */
  method ChooseMove(b: Board, team: Symbol) returns (best: Option<nat>)
    ensures best.Some? <==> !NoImprovement(team, ChildValues(b, team))
    ensures best.Some? ==> FirstBest(team, ChildValues(b, team), best.value)
    ensures best.Some? && !Terminal(b) ==> ChildValues(b, team)[best.value] == Minimax(b, team)
    ensures best.None? && !Terminal(b) ==> Minimax(b, team) == Bound(team)
  {
    var values := ChildValues(b, team);
    best := SelectFirstBest(team, values);
    if !Terminal(b) {
      MinimaxIsBestChild(b, team);
    }
  }

  /** The computer play(): nothing on a finished game; otherwise one free
      cell receives the player's marker and the turn passes. `r` is the
      draw compared with the skill, `u` the draw behind a random move. */
  method ComputerPlay(p: Player, b: Board, r: real, u: real) returns (q: Player, after: Board)
    requires 0.0 <= u < 1.0
    ensures Terminal(b) ==> q == p && after == b
    ensures !Terminal(b) ==> q == ChangeTurn(p)
    ensures !Terminal(b) ==> exists i :: 0 <= i < 9 && b[i] == Empty && after == b[i := p.team]
    ensures !Terminal(b) && Smart(p.skill, r) && !NoImprovement(p.team, ChildValues(b, p.team)) ==>
              exists k :: FirstBest(p.team, ChildValues(b, p.team), k) && after == b[FreeSpaces(b)[k] := p.team]
    ensures !Terminal(b) && (!Smart(p.skill, r) || NoImprovement(p.team, ChildValues(b, p.team))) ==>
              after == b[FreeSpaces(b)[RandomIndex(u, |FreeSpaces(b)|)] := p.team]
  {
    if Terminal(b) {
      return p, b;
    }
    var fs := FreeSpaces(b);
    var move: Index;
    if Smart(p.skill, r) {
      var best := ChooseMove(b, p.team);
      move := if best.Some? then fs[best.value] else fs[RandomIndex(u, |fs|)];
    } else {
      move := fs[RandomIndex(u, |fs|)];
    }
    after := MakeMove(b, p.team, move).board;
    q := ChangeTurn(p);
  }

  /** An unmapped difficulty never produces a smart move, and "impossible"
      always does, since the draw is below 1. */
  lemma DifficultyExtremes(level: string, r: real)
    requires 0.0 <= r < 1.0
    ensures level == "impossible" ==> Smart(Skill(level), r)
    ensures Skill(level).None? ==> !Smart(Skill(level), r)
  {
  }
}
