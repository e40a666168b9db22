/**
 * Effects shown in the side panel (EffectScripts/DisplayEffectManager.cs).
 * Active effects are keyed by name; each has a side-panel item, and the panel
 * is visible exactly when it holds items. A side-panel item is represented by
 * the effect it was created for. The zoom animation of a triggered effect is
 * not part of this model: its bookkeeping runs at once.
 */
module DisplayEffects {
  import opened Seqs

  datatype EffectType = Continuous | Limited | SingleUse

  class Effect {
    const effectName: string
    const effectDescription: string
    const effectType: EffectType
    const turns: int
    const totalUses: int
    var remainingTurns: int
    var remainingUses: int

    /** A new effect has all its turns and uses left. */
    constructor (name: string, desc: string, t: EffectType, turnCount: int, uses: int)
      ensures effectName == name && effectDescription == desc && effectType == t
      ensures turns == turnCount && totalUses == uses
      ensures remainingTurns == turnCount && remainingUses == uses
    {
      effectName := name;
      effectDescription := desc;
      effectType := t;
      turns := turnCount;
      totalUses := uses;
      remainingTurns := turnCount;
      remainingUses := uses;
    }

    /** A continuous effect is always active; any other while a counter is positive. */
    predicate IsActive()
      reads this
    {
      effectType == Continuous || remainingTurns > 0 || remainingUses > 0
    }

    /** `TickTurn`: a limited effect with turns left loses one; nothing else changes. */
    method TickTurn()
      modifies this
      ensures effectType == Limited && old(remainingTurns) > 0 ==> remainingTurns == old(remainingTurns) - 1
      ensures !(effectType == Limited && old(remainingTurns) > 0) ==> remainingTurns == old(remainingTurns)
      ensures old(remainingTurns) >= 0 ==> remainingTurns >= 0
      ensures remainingUses == old(remainingUses)
    {
      if effectType == Limited && remainingTurns > 0 {
        remainingTurns := remainingTurns - 1;
      }
    }

    /**
     * `Use`: a limited effect with uses left loses one, a single-use effect
     * is used up, and a continuous effect is unchanged.
     */
    method Use()
      modifies this
      ensures effectType == Limited && old(remainingUses) > 0 ==> remainingUses == old(remainingUses) - 1
      ensures effectType == Limited && old(remainingUses) <= 0 ==> remainingUses == old(remainingUses)
      ensures effectType == SingleUse ==> remainingUses == 0 && (IsActive() <==> remainingTurns > 0)
      ensures effectType == Continuous ==> remainingUses == old(remainingUses) && IsActive()
      ensures remainingTurns == old(remainingTurns)
    {
      if effectType == Limited && remainingUses > 0 {
        remainingUses := remainingUses - 1;
      }
      if effectType == SingleUse {
        remainingUses := 0;
      }
    }
  }

  /** What `TickEffects` removes: a limited effect no longer active, or a single-use effect with no uses. */
  predicate Expired(e: Effect)
    reads e
  {
    (e.effectType == Limited && !e.IsActive()) || (e.effectType == SingleUse && e.remainingUses <= 0)
  }

  /**
   * One step of the first pass of `TickEffects`: a limited effect ticks a
   * turn, and the result says whether the effect is then expired.
   */
  method TickAndCheck(e: Effect) returns (expired: bool)
    modifies e
    ensures e.remainingUses == old(e.remainingUses)
    ensures e.remainingTurns == (if e.effectType == Limited && old(e.remainingTurns) > 0
                                 then old(e.remainingTurns) - 1 else old(e.remainingTurns))
    ensures expired == Expired(e)
  {
    expired := false;
    if e.effectType == Limited {
      e.TickTurn();
      expired := !e.IsActive();
    } else if e.effectType == SingleUse {
      expired := e.remainingUses <= 0;
    }
  }

  /**
   * The removal loop of `TickEffects` on the two tables: each collected name
   * leaves the panel (when it has an item there) and the active table.
   */
  method RemoveKeys(active0: map<string, Effect>, panel0: map<string, Effect>, toRemove: set<string>)
    returns (active: map<string, Effect>, panel: map<string, Effect>)
    ensures active == active0 - toRemove && panel == panel0 - toRemove
  {
    active, panel := active0, panel0;
    var rest := toRemove;
    while rest != {}
      invariant rest <= toRemove
      invariant active == active0 - (toRemove - rest)
      invariant panel == panel0 - (toRemove - rest)
      decreases rest
    {
      var key :| key in rest;
      if key in panel {
        panel := panel - {key};
      }
      active := active - {key};
      rest := rest - {key};
    }
  }

  class DisplayEffectManager {
    var activeEffects: map<string, Effect>
    /** The side-panel items by name, each given as the effect it was created for. */
    var sidePanelUI: map<string, Effect>
    var sidePanelVisible: bool
    var randomEffectPool: seq<Effect>

    /**
     * The panel has an item for exactly the active names and is visible
     * exactly when it has items; every effect is filed under its own name.
     */
    predicate Valid()
      reads this
    {
      activeEffects.Keys == sidePanelUI.Keys
      && sidePanelVisible == (|sidePanelUI| > 0)
      && forall k :: k in activeEffects ==> activeEffects[k].effectName == k
    }

    /** The starting pool: a continuous, a two-turn limited and a single-use effect. */
    constructor ()
      ensures Valid() && activeEffects == map[] && |randomEffectPool| == 3
      ensures randomEffectPool[0].effectName == "Extra Point" && randomEffectPool[0].effectType == Continuous
      ensures randomEffectPool[1].effectName == "Shield" && randomEffectPool[1].effectType == Limited
        && randomEffectPool[1].remainingTurns == 2 && randomEffectPool[1].remainingUses == 0
      ensures randomEffectPool[2].effectName == "Instant Bonus" && randomEffectPool[2].effectType == SingleUse
        && randomEffectPool[2].remainingUses == 0
      ensures fresh(randomEffectPool[0]) && fresh(randomEffectPool[1]) && fresh(randomEffectPool[2])
    {
      var extra := new Effect("Extra Point", "Gain 1 extra point", Continuous, 0, 0);
      var shield := new Effect("Shield", "Prevent risk for 2 turns", Limited, 2, 0);
      var bonus := new Effect("Instant Bonus", "Get 3 points immediately", SingleUse, 0, 0);
      activeEffects := map[];
      sidePanelUI := map[];
      sidePanelVisible := false;
      randomEffectPool := [extra, shield, bonus];
    }

    /** `UpdateSidePanelVisibility`: the panel shows iff it has items. */
    method UpdateSidePanelVisibility()
      modifies this
      ensures sidePanelVisible == (|sidePanelUI| > 0)
      ensures activeEffects == old(activeEffects) && sidePanelUI == old(sidePanelUI)
      ensures randomEffectPool == old(randomEffectPool)
    {
      sidePanelVisible := |sidePanelUI| > 0;
    }

    /**
     * `AddEffect`: the effect becomes the active one under its name; a new
     * name also gets a side-panel item, an existing name keeps its item.
     */
    method AddEffect(effect: Effect)
      requires Valid()
      modifies this
      ensures Valid()
      ensures activeEffects == old(activeEffects)[effect.effectName := effect]
      ensures effect.effectName in old(sidePanelUI) ==> sidePanelUI == old(sidePanelUI)
      ensures effect.effectName !in old(sidePanelUI) ==> sidePanelUI == old(sidePanelUI)[effect.effectName := effect]
      ensures randomEffectPool == old(randomEffectPool)
    {
      if effect.effectName in activeEffects {
        activeEffects := activeEffects[effect.effectName := effect];
      } else {
        activeEffects := activeEffects[effect.effectName := effect];
        sidePanelUI := sidePanelUI[effect.effectName := effect];
      }
      UpdateSidePanelVisibility();
    }

    /**
     * `AddRandomEffect`: a pool effect chosen at random is added and leaves
     * the pool; an empty pool changes nothing.
     */
    method AddRandomEffect()
      requires Valid()
      modifies this
      ensures Valid()
      ensures old(randomEffectPool) == [] ==> activeEffects == old(activeEffects) && randomEffectPool == []
      ensures old(randomEffectPool) != [] ==> exists i :: (0 <= i < |old(randomEffectPool)|
        && randomEffectPool == RemoveAt(old(randomEffectPool), i)
        && activeEffects == old(activeEffects)[old(randomEffectPool)[i].effectName := old(randomEffectPool)[i]])
    {
      if |randomEffectPool| == 0 {
        return;
      }
      var index :| 0 <= index < |randomEffectPool|;
      var chosen := randomEffectPool[index];
      AddEffect(chosen);
      randomEffectPool := RemoveAt(randomEffectPool, index);
    }

    /**
     * The effect `e`, filed under `name`, has been triggered: a limited
     * effect ticked a turn, a single-use effect was used, a continuous one is
     * unchanged, and an effect that is then inactive has left the panel and
     * the active table, which are otherwise unchanged.
     */
    twostate predicate Triggered(name: string, e: Effect)
      reads this, e
    {
      (e.effectType == Limited ==>
        e.remainingTurns == (if old(e.remainingTurns) > 0 then old(e.remainingTurns) - 1 else old(e.remainingTurns))
        && e.remainingUses == old(e.remainingUses))
      && (e.effectType == SingleUse ==> e.remainingUses == 0 && e.remainingTurns == old(e.remainingTurns))
      && (e.effectType == Continuous ==>
        e.remainingUses == old(e.remainingUses) && e.remainingTurns == old(e.remainingTurns))
      && (e.IsActive() ==> activeEffects == old(activeEffects) && sidePanelUI == old(sidePanelUI))
      && (!e.IsActive() ==> activeEffects == old(activeEffects) - {name} && sidePanelUI == old(sidePanelUI) - {name})
    }

    /** The counters of `e` are as they were. */
    twostate predicate CountersKept(e: Effect)
      reads e
    {
      e.remainingTurns == old(e.remainingTurns) && e.remainingUses == old(e.remainingUses)
    }

    /**
     * `TriggerEffect`, with its animation step run at once: an unknown name
     * changes nothing; otherwise that effect is triggered. No other effect
     * changes.
     */
    method TriggerEffect(name: string)
      requires Valid()
      modifies this, if name in activeEffects then {activeEffects[name]} else {}
      ensures Valid()
      ensures name !in old(activeEffects) ==> activeEffects == old(activeEffects) && sidePanelUI == old(sidePanelUI)
      ensures name in old(activeEffects) ==> Triggered(name, old(activeEffects)[name])
      ensures randomEffectPool == old(randomEffectPool)
    {
      if name !in activeEffects {
        return;
      }
      if name !in sidePanelUI {
        return;
      }
      var effect := activeEffects[name];
      if effect.effectType == Limited {
        effect.TickTurn();
      } else if effect.effectType == SingleUse {
        effect.Use();
      }
      if !effect.IsActive() {
        sidePanelUI := sidePanelUI - {effect.effectName};
        activeEffects := activeEffects - {effect.effectName};
      }
      UpdateSidePanelVisibility();
    }

    /**
     * `TriggerRandomEffect`: with items on the panel, the effect of one of
     * them, chosen at random, is triggered and every other effect keeps its
     * counters; with none, nothing happens.
     */
    method TriggerRandomEffect()
      requires Valid()
      modifies this, activeEffects.Values
      ensures Valid()
      ensures old(sidePanelUI) == map[] ==> activeEffects == old(activeEffects) && sidePanelUI == old(sidePanelUI)
      ensures old(sidePanelUI) != map[] ==> exists name :: (name in old(sidePanelUI)
        && Triggered(name, old(activeEffects)[name])
        && forall k :: k in old(activeEffects) && k != name ==> CountersKept(old(activeEffects)[k]))
      ensures old(sidePanelUI) == map[] ==> forall k :: k in old(activeEffects) ==> CountersKept(old(activeEffects)[k])
      ensures randomEffectPool == old(randomEffectPool)
    {
      if |sidePanelUI| == 0 {
        return;
      }
      var name :| name in sidePanelUI;
      TriggerEffect(name);
      assert forall k :: k in old(activeEffects) && k != name ==> old(activeEffects)[k] != old(activeEffects)[name];
    }

    /**
     * The first pass of `TickEffects`: every limited effect ticks a turn, and
     * the names of the effects that are then expired are collected. The
     * tables themselves do not change.
     */
    method CollectExpired() returns (toRemove: set<string>)
      requires Valid()
      modifies activeEffects.Values
      ensures forall k :: k in activeEffects ==>
        var e := activeEffects[k];
        e.remainingUses == old(e.remainingUses)
        && e.remainingTurns == (if e.effectType == Limited && old(e.remainingTurns) > 0
                                then old(e.remainingTurns) - 1 else old(e.remainingTurns))
      ensures toRemove <= activeEffects.Keys
      ensures forall k :: k in activeEffects ==> (k in toRemove <==> Expired(activeEffects[k]))
    {
      toRemove := {};
      var pending := activeEffects.Keys;
      while pending != {}
        invariant pending <= activeEffects.Keys
        invariant toRemove <= activeEffects.Keys - pending
        invariant forall k :: k in pending ==>
          activeEffects[k].remainingTurns == old(activeEffects[k].remainingTurns)
          && activeEffects[k].remainingUses == old(activeEffects[k].remainingUses)
        invariant forall k :: k in activeEffects && k !in pending ==>
          var e := activeEffects[k];
          e.remainingUses == old(e.remainingUses)
          && e.remainingTurns == (if e.effectType == Limited && old(e.remainingTurns) > 0
                                  then old(e.remainingTurns) - 1 else old(e.remainingTurns))
          && (k in toRemove <==> Expired(e))
        decreases pending
      {
        var key :| key in pending;
        var expired := TickAndCheck(activeEffects[key]);
        if expired {
          toRemove := toRemove + {key};
        }
        pending := pending - {key};
      }
    }

    /**
     * The second pass of `TickEffects`: the collected names leave the active
     * table and the panel; the effects themselves are not touched.
     */
    method RemoveAll(toRemove: set<string>)
      requires Valid()
      modifies this
      ensures Valid()
      ensures activeEffects == old(activeEffects) - toRemove
      ensures sidePanelUI == old(sidePanelUI) - toRemove
      ensures randomEffectPool == old(randomEffectPool)
    {
      var active, panel := RemoveKeys(activeEffects, sidePanelUI, toRemove);
      activeEffects := active;
      sidePanelUI := panel;
      UpdateSidePanelVisibility();
    }

    /**
     * `TickEffects`: every limited effect ticks a turn; then the expired
     * effects (limited and no longer active, or single-use with no uses)
     * leave the active table and the panel. Continuous effects always stay.
     */
    method TickEffects()
      requires Valid()
      modifies this, activeEffects.Values
      ensures Valid()
      ensures forall k :: k in old(activeEffects) ==>
        var e := old(activeEffects)[k];
        e.remainingUses == old(e.remainingUses)
        && e.remainingTurns == (if e.effectType == Limited && old(e.remainingTurns) > 0
                                then old(e.remainingTurns) - 1 else old(e.remainingTurns))
      ensures forall k :: k in old(activeEffects) ==> (k in activeEffects <==> !Expired(old(activeEffects)[k]))
      ensures activeEffects.Keys <= old(activeEffects).Keys
      ensures forall k :: k in activeEffects ==> activeEffects[k] == old(activeEffects)[k]
      ensures forall k :: k in activeEffects ==> !Expired(activeEffects[k])
      ensures forall k :: k in old(activeEffects) && old(activeEffects)[k].effectType == Continuous ==> k in activeEffects
      ensures randomEffectPool == old(randomEffectPool)
    {
      var toRemove := CollectExpired();
      RemoveAll(toRemove);
    }
  }
}
