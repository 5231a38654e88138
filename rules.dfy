/**
 * The rules of the battle engine of game.js, as values: the character and
 * skill tables, the element matchup, the damage arithmetic, and one function
 * per state change the engine makes, each stated over a snapshot of the match.
 * The classes in GameEngine are proved to change their fields exactly as these
 * functions say.
 *
 * Every multiplier of the engine is 0.5, 1.0 or 1.5 and every base damage is
 * a multiple of ten, so the floating-point damage and heal arithmetic of the
 * source is exact here: a multiplier is kept as a count of halves (1, 2 or 3).
 * The 5% burn tick is exact only for the template HPs (see BurnDamage).
 */
module GameRules {

  datatype Element = Water | Fire | Earth | Air | Avatar

  /** The four buttons of the battle screen */
  datatype Move = Light | Mid | Heavy | Special

  /** `state.turn`: 'player' or 'cpu' */
  datatype Turn = Player | Cpu

  /** Which branch of checkWinCondition fired */
  datatype Verdict = Ongoing | PlayerLost | PlayerWon

  /** The keys of CHARACTERS, in table order */
  const Elements: seq<Element> := [Water, Fire, Earth, Air, Avatar]

  /** The keys the CPU's character is drawn from (never the avatar) */
  const CpuKeys: seq<Element> := [Water, Fire, Earth, Air]

  /* --- Tables --- */

  predicate IsTemplateHp(hp: int) {
    hp in {90, 100, 110, 120}
  }

  /** `CHARACTERS[key].hp` */
  function TemplateHp(key: Element): (hp: nat)
    ensures IsTemplateHp(hp)
  {
    match key
    case Water => 100
    case Fire => 100
    case Earth => 120
    case Air => 90
    case Avatar => 110
  }

  /** `SKILLS[move].dmg`; the special move has no entry */
  function SkillDamage(move: Move): (dmg: nat)
    requires move != Special
    ensures dmg in {10, 20, 30}
  {
    match move
    case Light => 10
    case Mid => 20
    case Heavy => 30
  }

  /** The ordered pairs for which an attack is super effective (1.5x) */
  const StrongPairs: set<(Element, Element)> :=
    {(Water, Fire), (Earth, Fire), (Air, Earth), (Fire, Air)}

  /** The ordered pairs the engine treats as weak (0.5x) */
  const EngineWeakPairs: set<(Element, Element)> :=
    {(Fire, Water), (Fire, Earth)}

  /**
   * getTypeModifier, in halves: 3 stands for 1.5, 2 for 1.0 and 1 for 0.5.
   */
  function TypeModifier(atk: Element, def: Element): (halves: nat)
    ensures halves in {1, 2, 3}
    ensures halves == 3 <==> (atk, def) in StrongPairs
    ensures halves == 1 <==> (atk, def) in EngineWeakPairs
    ensures atk == def || atk == Avatar || def == Avatar ==> halves == 2
  {
    if atk == Water && def == Fire then 3
    else if atk == Earth && def == Fire then 3
    else if atk == Air && def == Earth then 3
    else if atk == Fire && def == Air then 3
    else if atk == Fire && def == Water then 1
    else if atk == Fire && def == Earth then 1
    else 2
  }

  /** `Math.floor(base * multiplier)` for a multiplier of `halves / 2` */
  function Scaled(base: nat, halves: nat): (dmg: nat)
    ensures 2 * dmg <= base * halves < 2 * dmg + 2
  {
    base * halves / 2
  }

  /** The damage a basic move deals before evasion (performAttack) */
  function BasicDamage(move: Move, atk: Element, def: Element): (dmg: nat)
    requires move != Special
    ensures 2 * dmg == SkillDamage(move) * TypeModifier(atk, def)
    ensures dmg in {5, 10, 15, 20, 30, 45}
  {
    Scaled(SkillDamage(move), TypeModifier(atk, def))
  }

  /** `Math.floor(maxHp * 0.25)`: 0.25 is exact in binary, so this is exact for every HP */
  function HealAmount(maxHp: int): int {
    maxHp / 4
  }

  /** `Math.floor(maxHp * 0.05)`, exact for the template HPs 90, 100, 110 and 120 */
  function BurnDamage(maxHp: int): int {
    maxHp / 20
  }

  /* --- Fighters --- */

  /** A snapshot of one fighter object */
  datatype FighterState = FighterState(
    element: Element,
    maxHp: int,
    currentHp: int,
    isAvatar: bool,
    stun: int,
    burn: int,
    evade: int)

  /**
   * What holds of every fighter the engine creates and keeps: its maximum is a
   * template HP, its HP never exceeds it (but may fall below 0 through burn),
   * and its counters stay between 0 and the value the special moves set.
   */
  predicate FighterValid(f: FighterState) {
    && IsTemplateHp(f.maxHp)
    && f.currentHp <= f.maxHp
    && 0 <= f.stun <= 2
    && 0 <= f.burn <= 4
    && 0 <= f.evade <= 4
  }

  /** createFighter */
  function CreateFighter(key: Element): (f: FighterState)
    ensures FighterValid(f)
    ensures f.element == key && f.maxHp == TemplateHp(key) && f.currentHp == f.maxHp
    ensures f.stun == 0 && f.burn == 0 && f.evade == 0
    ensures f.isAvatar <==> key == Avatar
  {
    FighterState(key, TemplateHp(key), TemplateHp(key), key == Avatar, 0, 0, 0)
  }

  /** Whether applyDamage's evasion roll negates the hit: only while evade > 0 */
  predicate Evades(target: FighterState, dodge: bool) {
    target.evade > 0 && dodge
  }

  /** The value applyDamage returns */
  function HitDamage(target: FighterState, amount: int, dodge: bool): (dealt: int)
    ensures dealt == 0 || dealt == amount
    ensures dealt != amount ==> Evades(target, dodge)
  {
    if Evades(target, dodge) then 0 else amount
  }

  /** The target after applyDamage */
  function Hit(target: FighterState, amount: int, dodge: bool): (t: FighterState)
    ensures t.(currentHp := target.currentHp) == target
    ensures Evades(target, dodge) ==> t == target
    ensures !Evades(target, dodge) ==> t.currentHp == Max(0, target.currentHp - amount)
    ensures FighterValid(target) && amount >= 0 ==> FighterValid(t)
  {
    if Evades(target, dodge) then target
    else
      var hp := target.currentHp - amount;
      target.(currentHp := if hp < 0 then 0 else hp)
  }

  function Max(a: int, b: int): int {
    if a < b then b else a
  }

  /** handleSpecial: the attacker and the defender afterwards */
  function SpecialEffect(attacker: FighterState, defender: FighterState): (r: (FighterState, FighterState))
    ensures r.1.currentHp == defender.currentHp
    ensures attacker.element == Water ==>
      r == (attacker.(currentHp := Min(attacker.maxHp, attacker.currentHp + HealAmount(attacker.maxHp))), defender)
    ensures attacker.element == Fire ==> r == (attacker, defender.(burn := 4))
    ensures attacker.element == Earth ==> r == (attacker, defender.(stun := 2))
    ensures attacker.element == Air ==> r == (attacker.(evade := 4), defender)
    ensures attacker.element == Avatar ==> r == (attacker, defender)
    ensures FighterValid(attacker) && FighterValid(defender) ==> FighterValid(r.0) && FighterValid(r.1)
  {
    match attacker.element
    case Water =>
      (attacker.(currentHp := Min(attacker.maxHp, attacker.currentHp + HealAmount(attacker.maxHp))), defender)
    case Fire => (attacker, defender.(burn := 4))
    case Earth => (attacker, defender.(stun := 2))
    case Air => (attacker.(evade := 4), defender)
    case Avatar => (attacker, defender)
  }

  function Min(a: int, b: int): int {
    if a < b then a else b
  }

  /** performAttack: the attacker and the defender afterwards */
  function Attack(attacker: FighterState, defender: FighterState, move: Move, dodge: bool): (r: (FighterState, FighterState))
    ensures move == Special ==> r == SpecialEffect(attacker, defender)
    ensures move != Special ==>
      r == (attacker, Hit(defender, BasicDamage(move, attacker.element, defender.element), dodge))
    ensures r.0.element == attacker.element && r.1.element == defender.element
    ensures r.0.maxHp == attacker.maxHp && r.1.maxHp == defender.maxHp
    ensures r.0.isAvatar == attacker.isAvatar && r.1.isAvatar == defender.isAvatar
    ensures FighterValid(attacker) && FighterValid(defender) ==> FighterValid(r.0) && FighterValid(r.1)
  {
    if move == Special then SpecialEffect(attacker, defender)
    else (attacker, Hit(defender, BasicDamage(move, attacker.element, defender.element), dodge))
  }

  /** processStatusEffects */
  function Tick(f: FighterState): (g: FighterState)
    ensures g.element == f.element && g.maxHp == f.maxHp && g.isAvatar == f.isAvatar
    ensures g.stun == f.stun
    ensures f.burn > 0 ==> g.burn == f.burn - 1 && g.currentHp == f.currentHp - BurnDamage(f.maxHp)
    ensures f.burn <= 0 ==> g.burn == f.burn && g.currentHp == f.currentHp
    ensures g.evade == if f.evade > 0 then f.evade - 1 else f.evade
    ensures FighterValid(f) ==> FighterValid(g) && g.currentHp <= f.currentHp
  {
    var afterBurn :=
      if f.burn > 0 then f.(currentHp := f.currentHp - BurnDamage(f.maxHp), burn := f.burn - 1)
      else f;
    if afterBurn.evade > 0 then afterBurn.(evade := afterBurn.evade - 1) else afterBurn
  }

  /* --- The match --- */

  /** A snapshot of `state`: the two fighters, the turn and the over flag */
  datatype MatchState = MatchState(player: FighterState, cpu: FighterState, turn: Turn, isOver: bool)

  /**
   * The invariant of every match the engine plays: both fighters valid, the
   * CPU never the avatar, the CPU alive while the match runs, and the match
   * over only once one side has reached 0 HP.
   */
  predicate MatchValid(m: MatchState) {
    && FighterValid(m.player)
    && FighterValid(m.cpu)
    && !m.cpu.isAvatar && m.cpu.element != Avatar
    && (!m.isOver ==> m.cpu.currentHp > 0)
    && (m.isOver ==> Judge(m) != Ongoing)
  }

  /**
   * selectCharacter followed by startGame: the avatar starts as water. The
   * turn and the over flag are those `state` is initialised with, so this is
   * the first match after the page loads.
   */
  function StartMatch(playerKey: Element, cpuKey: Element): (m: MatchState)
    requires cpuKey in CpuKeys
    ensures MatchValid(m)
    ensures m.turn == Player && !m.isOver
    ensures m.player.element == if playerKey == Avatar then Water else playerKey
    ensures m.player == CreateFighter(playerKey).(element := m.player.element)
    ensures m.cpu == CreateFighter(cpuKey)
  {
    var p := CreateFighter(playerKey);
    MatchState(if p.isAvatar then p.(element := Water) else p, CreateFighter(cpuKey), Player, false)
  }

  /** The outcome checkWinCondition announces: a player at 0 HP or below loses first */
  function Judge(m: MatchState): (v: Verdict)
    ensures v == PlayerLost <==> m.player.currentHp <= 0
    ensures v == PlayerWon <==> m.player.currentHp > 0 && m.cpu.currentHp <= 0
  {
    if m.player.currentHp <= 0 then PlayerLost
    else if m.cpu.currentHp <= 0 then PlayerWon
    else Ongoing
  }

  /** checkWinCondition */
  function WinChecked(m: MatchState): (r: MatchState)
    ensures r.(isOver := m.isOver) == m
    ensures r.isOver <==> m.isOver || Judge(m) != Ongoing
  {
    if Judge(m) != Ongoing then m.(isOver := true) else m
  }

  /**
   * endTurn: the CPU's effects tick, and the match either ends on the spot
   * (the CPU burned to 0) or waits, with the turn at the CPU, for cpuTurn.
   */
  function EndTurnStep(m: MatchState): (r: MatchState)
    ensures r.turn == Cpu
    ensures r.player == m.player && r.cpu == Tick(m.cpu)
    ensures !m.isOver ==> (r.isOver <==> r.cpu.currentHp <= 0)
    ensures m.isOver ==> r.isOver
    ensures MatchValid(m) ==> MatchValid(r)
  {
    var ticked := m.(turn := Cpu, cpu := Tick(m.cpu));
    if ticked.cpu.currentHp <= 0 then WinChecked(ticked) else ticked
  }

  /** executeMove */
  function ExecuteMoveStep(m: MatchState, move: Move, dodge: bool): (r: MatchState)
    ensures m.turn != Player || m.isOver ==> r == m
    ensures m.turn == Player && !m.isOver ==> r.isOver || r.turn == Cpu
    ensures m.turn == Player && !m.isOver && m.player.stun > 0 ==>
      && r.player == m.player.(stun := m.player.stun - 1)
      && r.cpu == Tick(m.cpu)
      && r.turn == Cpu
      && (r.isOver <==> r.cpu.currentHp <= 0)
    ensures m.turn == Player && !m.isOver && m.player.stun <= 0 ==>
      var (p, c) := Attack(m.player, m.cpu, move, dodge);
      var attacked := m.(player := p, cpu := c);
      r == if Judge(attacked) != Ongoing then attacked.(isOver := true) else EndTurnStep(attacked)
    ensures MatchValid(m) ==> MatchValid(r)
  {
    if m.turn != Player || m.isOver then m
    else if m.player.stun > 0 then
      EndTurnStep(m.(player := m.player.(stun := m.player.stun - 1)))
    else
      var (p, c) := Attack(m.player, m.cpu, move, dodge);
      var checked := WinChecked(m.(player := p, cpu := c));
      if checked.isOver then checked else EndTurnStep(checked)
  }

  /**
   * cpuTurn. Guarded only by the over flag; after the move the player's
   * effects tick with no win check, and the turn returns to the player.
   */
  function CpuTurnStep(m: MatchState, move: Move, dodge: bool): (r: MatchState)
    ensures m.isOver ==> r == m
    ensures !m.isOver && !r.isOver ==> r.turn == Player
    ensures !m.isOver && m.cpu.stun > 0 ==>
      r == m.(player := Tick(m.player), cpu := m.cpu.(stun := m.cpu.stun - 1), turn := Player)
    ensures !m.isOver && m.cpu.stun <= 0 ==>
      var (c, p) := Attack(m.cpu, m.player, move, dodge);
      var attacked := m.(player := p, cpu := c);
      r == if Judge(attacked) != Ongoing then attacked.(isOver := true)
           else attacked.(player := Tick(p), turn := Player)
    ensures MatchValid(m) ==> MatchValid(r)
  {
    if m.isOver then m
    else if m.cpu.stun > 0 then
      m.(cpu := m.cpu.(stun := m.cpu.stun - 1), turn := Player, player := Tick(m.player))
    else
      var (c, p) := Attack(m.cpu, m.player, move, dodge);
      var checked := WinChecked(m.(player := p, cpu := c));
      if checked.isOver then checked else checked.(player := Tick(checked.player), turn := Player)
  }

  /** avatarSwitch: no check of the over flag */
  function AvatarSwitchStep(m: MatchState, e: Element): (r: MatchState)
    ensures r.cpu == m.cpu && r.turn == m.turn && r.isOver == m.isOver
    ensures r.player.(element := m.player.element) == m.player
    ensures r.player.element != m.player.element ==> m.player.isAvatar && m.turn == Player
    ensures m.player.isAvatar && m.turn == Player ==> r.player.element == e
    ensures MatchValid(m) ==> MatchValid(r)
  {
    if !m.player.isAvatar || m.turn != Player then m
    else m.(player := m.player.(element := e))
  }

  /* --- The matchup table as a whole --- */

  /** The 25 ordered pairs of the five elements */
  function AllPairs(): set<(Element, Element)> {
    set a <- Elements, d <- Elements :: (a, d)
  }

  /** The ordered pairs for which `table` gives `halves` */
  function PairsWith(table: (Element, Element) -> nat, halves: nat): set<(Element, Element)> {
    set p <- AllPairs() | table(p.0, p.1) == halves
  }

  /** The five pairs with attacker `a` */
  function Row(a: Element): (r: set<(Element, Element)>)
    ensures forall p :: p in r ==> p.0 == a
  {
    {(a, Water), (a, Fire), (a, Earth), (a, Air), (a, Avatar)}
  }

  lemma RowSize(a: Element)
    ensures |Row(a)| == 5
  {
  }

  lemma DisjointUnionSize(x: set<(Element, Element)>, y: set<(Element, Element)>)
    requires x !! y
    ensures |x + y| == |x| + |y|
  {
  }

  lemma DifferenceSize(x: set<(Element, Element)>, y: set<(Element, Element)>)
    requires y <= x
    ensures |x - y| == |x| - |y|
  {
  }

  /** Adding the row of an element no pair of `x` starts with adds five pairs */
  lemma AddRowSize(x: set<(Element, Element)>, a: Element)
    requires forall p :: p in x ==> p.0 != a
    ensures |x + Row(a)| == |x| + 5
  {
    RowSize(a);
    assert x !! Row(a);
    DisjointUnionSize(x, Row(a));
  }

  /** The rows of the five elements, in table order */
  function Rows(): set<(Element, Element)> {
    Row(Water) + Row(Fire) + Row(Earth) + Row(Air) + Row(Avatar)
  }

  lemma AllPairsByRows()
    ensures AllPairs() == Rows()
  {
    forall p | p in AllPairs() ensures p in Rows() {
      assert p in Row(p.0);
    }
    forall p | p in Rows() ensures p in AllPairs() {
      InAllPairs(p.0, p.1);
    }
  }

  lemma AllPairsSize()
    ensures |AllPairs()| == 25
  {
    var r1 := Row(Water);
    RowSize(Water);
    AddRowSize(r1, Fire);
    var r2 := r1 + Row(Fire);
    AddRowSize(r2, Earth);
    var r3 := r2 + Row(Earth);
    AddRowSize(r3, Air);
    var r4 := r3 + Row(Air);
    AddRowSize(r4, Avatar);
    assert r4 + Row(Avatar) == Rows();
    AllPairsByRows();
  }

  lemma InAllPairs(a: Element, d: Element)
    ensures (a, d) in AllPairs()
  {
  }

  /**
   * A table that deviates from neutral exactly on `strong` (1.5x) and `weak`
   * (0.5x) has |strong| super-effective pairs, |weak| weak pairs and the rest
   * of the 25 neutral.
   */
  lemma Census(table: (Element, Element) -> nat, strong: set<(Element, Element)>, weak: set<(Element, Element)>)
    requires strong !! weak
    requires forall a, d :: table(a, d) == 3 <==> (a, d) in strong
    requires forall a, d :: table(a, d) == 1 <==> (a, d) in weak
    requires forall a, d :: table(a, d) == 2 <==> (a, d) !in strong + weak
    ensures |PairsWith(table, 3)| == |strong|
    ensures |PairsWith(table, 1)| == |weak|
    ensures |PairsWith(table, 2)| == 25 - |strong| - |weak|
  {
    forall p | p in strong + weak ensures p in AllPairs() {
      InAllPairs(p.0, p.1);
    }
    assert PairsWith(table, 3) == strong;
    assert PairsWith(table, 1) == weak;
    assert PairsWith(table, 2) == AllPairs() - (strong + weak);
    AllPairsSize();
    DisjointUnionSize(strong, weak);
    DifferenceSize(AllPairs(), strong + weak);
  }

  /** The engine's table: 4 super-effective pairs, 2 weak pairs, 19 neutral */
  lemma EngineCensus()
    ensures |PairsWith(TypeModifier, 3)| == 4
    ensures |PairsWith(TypeModifier, 1)| == 2
    ensures |PairsWith(TypeModifier, 2)| == 19
  {
    assert |StrongPairs| == 4 && |EngineWeakPairs| == 2;
    Census(TypeModifier, StrongPairs, EngineWeakPairs);
  }

  /* --- Whole matches --- */

  /** One call into the engine: a button press, the CPU's timer firing, or an avatar switch */
  datatype Event =
    | PlayerMove(move: Move, dodge: bool)
    | CpuMove(move: Move, dodge: bool)
    | Switch(element: Element)

  function Step(m: MatchState, e: Event): MatchState {
    match e
    case PlayerMove(move, dodge) => ExecuteMoveStep(m, move, dodge)
    case CpuMove(move, dodge) => CpuTurnStep(m, move, dodge)
    case Switch(el) => AvatarSwitchStep(m, el)
  }

  /** The match after the calls `events`, in order */
  function Run(m: MatchState, events: seq<Event>): MatchState
    decreases |events|
  {
    if events == [] then m else Run(Step(m, events[0]), events[1..])
  }

  /** What no call changes: the maxima, the avatar flags, and every element but an avatar's */
  predicate SameFighters(m: MatchState, r: MatchState) {
    && r.player.maxHp == m.player.maxHp && r.cpu.maxHp == m.cpu.maxHp
    && r.player.isAvatar == m.player.isAvatar && r.cpu.isAvatar == m.cpu.isAvatar
    && r.cpu.element == m.cpu.element
    && (!m.player.isAvatar ==> r.player.element == m.player.element)
  }

  /** Over any sequence of calls the counters stay in range, HP stays at most maxHp, and so on */
  lemma {:induction false} RunKeepsValid(m: MatchState, events: seq<Event>)
    requires MatchValid(m)
    ensures MatchValid(Run(m, events))
    decreases |events|
  {
    if events != [] {
      RunKeepsValid(Step(m, events[0]), events[1..]);
    }
  }

  /** The over flag is one-way, and once it is set only an avatar's element can still change */
  lemma {:induction false} RunKeepsOver(m: MatchState, events: seq<Event>)
    requires m.isOver
    ensures var r := Run(m, events);
      r.isOver && r.cpu == m.cpu && r.turn == m.turn && r.player.(element := m.player.element) == m.player
    decreases |events|
  {
    if events != [] {
      var next := Step(m, events[0]);
      RunKeepsOver(next, events[1..]);
    }
  }

  lemma {:induction false} RunKeepsFighters(m: MatchState, events: seq<Event>)
    ensures SameFighters(m, Run(m, events))
    decreases |events|
  {
    if events != [] {
      var next := Step(m, events[0]);
      assert SameFighters(m, next);
      RunKeepsFighters(next, events[1..]);
    }
  }

  /* --- Consequences the source does not announce --- */

  /** A basic hit that deals 0 was evaded: the smallest basic damage is 5 */
  lemma ZeroDamageMeansEvaded(attacker: FighterState, defender: FighterState, move: Move, dodge: bool)
    requires move != Special
    ensures HitDamage(defender, BasicDamage(move, attacker.element, defender.element), dodge) == 0
      <==> Evades(defender, dodge)
  {
  }

  /** The burn tick is not clamped: a valid fighter can fall below 0 HP */
  lemma BurnTickNotClamped()
    ensures var f := FighterState(Water, 100, 3, false, 0, 1, 0);
      FighterValid(f) && Tick(f).currentHp == -2
  {
  }

  /**
   * No win check follows the player's burn tick in cpuTurn: the player can
   * be handed the turn at 0 HP or below while the match is not over. Here a
   * burning water player at 8 HP takes a 0.5x light hit from a fire CPU (down
   * to 3 HP), then the burn tick takes it to -2.
   */
  lemma PlayerBurnTickNotChecked()
    ensures var m := MatchState(FighterState(Water, 100, 8, false, 0, 1, 0),
                                FighterState(Fire, 100, 100, false, 0, 0, 0), Cpu, false);
      var r := CpuTurnStep(m, Light, false);
      MatchValid(m) && MatchValid(r) && !r.isOver && r.turn == Player && r.player.currentHp < 0
  {
  }

  /** avatarSwitch ignores the over flag */
  lemma AvatarSwitchAfterOver()
    ensures var m := MatchState(FighterState(Water, 110, 0, true, 0, 0, 0),
                                FighterState(Fire, 100, 50, false, 0, 0, 0), Player, true);
      MatchValid(m) && AvatarSwitchStep(m, Air).player.element == Air
  {
  }
}
