/**
 * The battle engine of game.js as it runs: fighter objects whose fields the
 * battle functions update in place, and the match that owns two of them with
 * the turn and the over flag. Every method is proved to leave the objects in
 * exactly the state the matching function of GameRules describes, so the
 * properties proved there hold of the running engine.
 *
 * The two random draws of a move are parameters: `dodge` is the outcome of
 * the 80% evasion roll (read only while the target's evade counter is
 * positive), and the CPU's move is an argument of CpuTurn. The 1500 ms timer
 * between endTurn and cpuTurn is not modelled: the match simply waits, with
 * the turn at the CPU, until CpuTurn is called.
 */
module GameEngine {
  import opened GameRules

  /** A fighter object, as createFighter builds it */
  class Fighter {
    var element: Element
    const maxHp: int
    var currentHp: int
    const isAvatar: bool
    var stun: int
    var burn: int
    var evade: int

    function State(): FighterState
      reads this
    {
      FighterState(element, maxHp, currentHp, isAvatar, stun, burn, evade)
    }

    /** createFighter(key) */
    constructor (key: Element)
      ensures State() == CreateFighter(key)
    {
      element := key;
      maxHp := TemplateHp(key);
      currentHp := TemplateHp(key);
      isAvatar := key == Avatar;
      stun, burn, evade := 0, 0, 0;
    }

    /** applyDamage(this, amount): evaded hits leave the fighter untouched */
    method ApplyDamage(amount: int, dodge: bool) returns (dealt: int)
      modifies this
      ensures State() == Hit(old(State()), amount, dodge)
      ensures dealt == HitDamage(old(State()), amount, dodge)
    {
      if evade > 0 {
        if dodge {
          return 0;
        }
      }
      currentHp := currentHp - amount;
      if currentHp < 0 {
        currentHp := 0;
      }
      return amount;
    }

    /** processStatusEffects(this): the burn tick and the evade decay */
    method ProcessStatusEffects()
      modifies this
      ensures State() == Tick(old(State()))
    {
      if burn > 0 {
        var burnDmg := BurnDamage(maxHp);
        currentHp := currentHp - burnDmg;
        burn := burn - 1;
      }
      if evade > 0 {
        evade := evade - 1;
      }
    }
  }

  /** handleSpecial(attacker, defender) */
  method HandleSpecial(attacker: Fighter, defender: Fighter)
    requires attacker != defender
    modifies attacker, defender
    ensures (attacker.State(), defender.State()) == SpecialEffect(old(attacker.State()), old(defender.State()))
  {
    var el := attacker.element;
    if el == Water {
      var healAmt := HealAmount(attacker.maxHp);
      attacker.currentHp := Min(attacker.maxHp, attacker.currentHp + healAmt);
    } else if el == Fire {
      defender.burn := 4;
    } else if el == Earth {
      defender.stun := 2;
    } else if el == Air {
      attacker.evade := 4;
    }
  }

  /**
   * performAttack(attacker, defender, move). The amount applyDamage returns
   * is used by the source only for its message; it is returned here.
   */
  method PerformAttack(attacker: Fighter, defender: Fighter, move: Move, dodge: bool) returns (dealt: int)
    requires attacker != defender
    modifies attacker, defender
    ensures (attacker.State(), defender.State()) == Attack(old(attacker.State()), old(defender.State()), move, dodge)
    ensures move == Special ==> dealt == 0
    ensures move != Special ==>
      dealt == HitDamage(old(defender.State()), BasicDamage(move, old(attacker.element), old(defender.element)), dodge)
  {
    if move == Special {
      HandleSpecial(attacker, defender);
      dealt := 0;
    } else {
      var dmg := SkillDamage(move);
      var modifier := TypeModifier(attacker.element, defender.element);
      dmg := Scaled(dmg, modifier);
      dealt := defender.ApplyDamage(dmg, dodge);
    }
  }

  /** The global `state` of game.js: the two fighters, the turn and the over flag */
  class Match {
    const player: Fighter
    const cpu: Fighter
    var turn: Turn
    var isOver: bool

    function State(): MatchState
      reads this, player, cpu
    {
      MatchState(player.State(), cpu.State(), turn, isOver)
    }

    ghost predicate Valid()
      reads this, player, cpu
    {
      player != cpu && MatchValid(State())
    }

    /**
     * selectCharacter(playerKey) with the CPU's draw `CpuKeys[cpuIndex]`,
     * followed by startGame, which makes an avatar start as water.
     */
    constructor (playerKey: Element, cpuIndex: nat)
      requires cpuIndex < |CpuKeys|
      ensures Valid()
      ensures State() == StartMatch(playerKey, CpuKeys[cpuIndex])
      ensures fresh(player) && fresh(cpu)
    {
      player := new Fighter(playerKey);
      cpu := new Fighter(CpuKeys[cpuIndex]);
      turn := Player;
      isOver := false;
      new;
      if player.isAvatar {
        player.element := Water;
      }
    }

    /** checkWinCondition; the verdict names the message it logs */
    method CheckWinCondition() returns (verdict: Verdict)
      requires player != cpu
      modifies this
      ensures old(Valid()) ==> Valid()
      ensures verdict == Judge(old(State()))
      ensures State() == WinChecked(old(State()))
    {
      if player.currentHp <= 0 {
        verdict := PlayerLost;
        isOver := true;
      } else if cpu.currentHp <= 0 {
        verdict := PlayerWon;
        isOver := true;
      } else {
        verdict := Ongoing;
      }
    }

    /** endTurn: after it the match is over or waits for CpuTurn */
    method EndTurn()
      requires player != cpu
      modifies this, cpu
      ensures old(Valid()) ==> Valid()
      ensures State() == EndTurnStep(old(State()))
    {
      turn := Cpu;
      cpu.ProcessStatusEffects();
      if cpu.currentHp <= 0 {
        var _ := CheckWinCondition();
        return;
      }
    }

    /** executeMove(move), with `dodge` the CPU's evasion roll */
    method ExecuteMove(move: Move, dodge: bool)
      requires Valid()
      modifies this, player, cpu
      ensures Valid()
      ensures State() == ExecuteMoveStep(old(State()), move, dodge)
    {
      if turn != Player || isOver {
        return;
      }
      if player.stun > 0 {
        player.stun := player.stun - 1;
        EndTurn();
        return;
      }
      var _ := PerformAttack(player, cpu, move, dodge);
      var _ := CheckWinCondition();
      if !isOver {
        EndTurn();
      }
    }

    /** cpuTurn, with the CPU's move and the player's evasion roll */
    method CpuTurn(move: Move, dodge: bool)
      requires Valid()
      modifies this, player, cpu
      ensures Valid()
      ensures State() == CpuTurnStep(old(State()), move, dodge)
    {
      if isOver {
        return;
      }
      if cpu.stun > 0 {
        cpu.stun := cpu.stun - 1;
        turn := Player;
        player.ProcessStatusEffects();
        return;
      }
      var _ := PerformAttack(cpu, player, move, dodge);
      var _ := CheckWinCondition();
      if !isOver {
        player.ProcessStatusEffects();
        turn := Player;
      }
    }

    /** avatarSwitch(newElement) */
    method AvatarSwitch(newElement: Element)
      requires Valid()
      modifies player
      ensures Valid()
      ensures State() == AvatarSwitchStep(old(State()), newElement)
    {
      if !player.isAvatar {
        return;
      }
      if turn != Player {
        return;
      }
      player.element := newElement;
    }
  }
}
