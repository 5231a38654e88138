/**
 * The test script test_game.js: its own copies of the character and skill
 * tables, of getTypeModifier and of createFighter, and the facts its
 * assertions check. Its matchup table has eight non-neutral pairs where the
 * engine's has six; the lemmas below locate the difference exactly.
 */
module TestGame {
  import opened GameRules

  /** `CHARACTERS[key].hp` in the test script's copy of the table */
  function TestCharacterHp(key: Element): (hp: nat)
    ensures hp == TemplateHp(key)
  {
    match key
    case Water => 100
    case Fire => 100
    case Earth => 120
    case Air => 90
    case Avatar => 110
  }

  /** `SKILLS[move].dmg` in the test script's copy */
  function TestSkillDamage(move: Move): (dmg: nat)
    requires move != Special
    ensures dmg == SkillDamage(move)
  {
    match move
    case Light => 10
    case Mid => 20
    case Heavy => 30
  }

  /** The weak pairs of the test script's table: the engine's two and two more */
  const TestWeakPairs: set<(Element, Element)> :=
    {(Fire, Water), (Fire, Earth), (Earth, Air), (Air, Fire)}

  /** The test script's getTypeModifier, in halves (3 = 1.5, 2 = 1.0, 1 = 0.5) */
  function TestTypeModifier(atk: Element, def: Element): (halves: nat)
    ensures halves in {1, 2, 3}
    ensures halves == 3 <==> (atk, def) in StrongPairs
    ensures halves == 1 <==> (atk, def) in TestWeakPairs
    ensures atk == def || atk == Avatar || def == Avatar ==> halves == 2
  {
    if atk == Water && def == Fire then 3
    else if atk == Earth && def == Fire then 3
    else if atk == Air && def == Earth then 3
    else if atk == Fire && def == Air then 3
    else if atk == Fire && def == Water then 1
    else if atk == Fire && def == Earth then 1
    else if atk == Earth && def == Air then 1
    else if atk == Air && def == Fire then 1
    else 2
  }

  /** The test script's createFighter builds the same fighter as the engine's */
  function TestCreateFighter(key: Element): (f: FighterState)
    ensures f == CreateFighter(key)
  {
    FighterState(key, TestCharacterHp(key), TestCharacterHp(key), key == Avatar, 0, 0, 0)
  }

  /** Over the 25 ordered pairs: 4 give 1.5, 4 give 0.5 and 17 give 1.0 */
  lemma TestTableCensus()
    ensures |AllPairs()| == 25
    ensures |PairsWith(TestTypeModifier, 3)| == 4
    ensures |PairsWith(TestTypeModifier, 1)| == 4
    ensures |PairsWith(TestTypeModifier, 2)| == 17
  {
    AllPairsSize();
    assert |StrongPairs| == 4 && |TestWeakPairs| == 4;
    Census(TestTypeModifier, StrongPairs, TestWeakPairs);
  }

  /**
   * The two tables agree on every ordered pair except (earth, air) and
   * (air, fire), which the test script calls weak and the engine neutral.
   */
  lemma TablesDisagreeExactly(atk: Element, def: Element)
    ensures TestTypeModifier(atk, def) != TypeModifier(atk, def) <==> (atk, def) in {(Earth, Air), (Air, Fire)}
    ensures (atk, def) in {(Earth, Air), (Air, Fire)} ==>
      TypeModifier(atk, def) == 2 && TestTypeModifier(atk, def) == 1
  {
  }

  /** The set of pairs where the tables disagree has exactly two members */
  lemma DisagreementSet()
    ensures (set p <- AllPairs() | TestTypeModifier(p.0, p.1) != TypeModifier(p.0, p.1))
      == {(Earth, Air), (Air, Fire)}
  {
    InAllPairs(Earth, Air);
    InAllPairs(Air, Fire);
    forall p | p in AllPairs() ensures TestTypeModifier(p.0, p.1) != TypeModifier(p.0, p.1) <==> p in {(Earth, Air), (Air, Fire)} {
      TablesDisagreeExactly(p.0, p.1);
    }
  }

  /** The matchup assertions (strong, weak and neutral) hold of the test script's own table */
  lemma ModifierAssertions()
    ensures TestTypeModifier(Water, Fire) == 3 && TestTypeModifier(Earth, Fire) == 3
    ensures TestTypeModifier(Air, Earth) == 3 && TestTypeModifier(Fire, Air) == 3
    ensures TestTypeModifier(Fire, Water) == 1 && TestTypeModifier(Fire, Earth) == 1
    ensures TestTypeModifier(Earth, Air) == 1 && TestTypeModifier(Air, Fire) == 1
    ensures TestTypeModifier(Water, Water) == 2 && TestTypeModifier(Water, Earth) == 2
    ensures TestTypeModifier(Earth, Water) == 2
  {
  }

  /** The engine's getTypeModifier fails the last two weakness assertions and passes the rest */
  lemma EngineAgainstModifierAssertions()
    ensures TypeModifier(Earth, Air) != 1 && TypeModifier(Air, Fire) != 1
    ensures TypeModifier(Water, Fire) == 3 && TypeModifier(Earth, Fire) == 3
    ensures TypeModifier(Air, Earth) == 3 && TypeModifier(Fire, Air) == 3
    ensures TypeModifier(Fire, Water) == 1 && TypeModifier(Fire, Earth) == 1
    ensures TypeModifier(Water, Water) == 2 && TypeModifier(Water, Earth) == 2
    ensures TypeModifier(Earth, Water) == 2
  {
  }

  /** The character and skill assertions */
  lemma TableAssertions()
    ensures TestCharacterHp(Water) == 100 && TestCharacterHp(Fire) == 100
    ensures TestCharacterHp(Earth) == 120 && TestCharacterHp(Air) == 90
    ensures TestCharacterHp(Avatar) == 110
    ensures TestSkillDamage(Light) == 10 && TestSkillDamage(Mid) == 20 && TestSkillDamage(Heavy) == 30
  {
  }

  /** The fighter-creation assertions */
  lemma FighterCreationAssertions()
    ensures TestCreateFighter(Water).currentHp == 100 && TestCreateFighter(Water).maxHp == 100
    ensures TestCreateFighter(Water).burn == 0
    ensures TestCreateFighter(Avatar).isAvatar && !TestCreateFighter(Water).isAvatar
  {
  }

  /** The heavy-attack damage assertions: floor(30 * 1.5), floor(30 * 0.5), floor(30 * 1.0) */
  lemma DamageAssertions()
    ensures Scaled(TestSkillDamage(Heavy), 3) == 45
    ensures Scaled(TestSkillDamage(Heavy), 1) == 15
    ensures Scaled(TestSkillDamage(Heavy), 2) == 30
  {
  }
}
