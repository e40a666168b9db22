/**
 * The gameplay scene cycle (GameFlowManager.cs): an index into a fixed list
 * of scene names that advances on request and either wraps around or stops
 * after the last scene.
 */
module GameFlow {
  import opened Wrappers

  /** The scene list the serialized field is initialised with. */
  const DefaultScenes: seq<string> := ["GameScreen", "GameBoard"]

  /** The index after a step: the next one, wrapped to 0 past the end when looping. */
  function NextIndex(index: nat, count: nat, loop: bool): (r: nat)
    requires index < count
    ensures loop ==> r == (index + 1) % count
    ensures !loop ==> r == index + 1
    ensures r <= count && (r == count <==> !loop && index == count - 1)
  {
    if index + 1 >= count then (if loop then 0 else count) else index + 1
  }

  /** The index after `k` looping steps from `start`. */
  function StepsFrom(start: nat, count: nat, k: nat): (r: nat)
    requires start < count
    ensures r < count
  {
    if k == 0 then start else NextIndex(StepsFrom(start, count, k - 1), count, true)
  }

  /** Fewer steps than scenes remain: the index just moves forward. */
  lemma {:induction false} StepsForward(start: nat, count: nat, k: nat)
    requires start < count && start + k < count
    ensures StepsFrom(start, count, k) == start + k
  {
    if k > 0 {
      StepsForward(start, count, k - 1);
    }
  }

  /** `a` steps and then `b` more are `a + b` steps. */
  lemma {:induction false} StepsCompose(start: nat, count: nat, a: nat, b: nat)
    requires start < count
    ensures StepsFrom(start, count, a + b) == StepsFrom(StepsFrom(start, count, a), count, b)
  {
    if b > 0 {
      StepsCompose(start, count, a, b - 1);
    }
  }

  /**
   * With looping on, the index after `k` steps from the first scene is `k`
   * modulo the scene count: it counts up to the last scene, and one full
   * round of `count` steps comes back to where it was.
   */
  lemma LoopingCycles(count: nat, k: nat)
    requires count > 0
    ensures k < count ==> StepsFrom(0, count, k) == k
    ensures StepsFrom(0, count, k + count) == StepsFrom(0, count, k)
  {
    if k < count {
      StepsForward(0, count, k);
    }
    StepsForward(0, count, count - 1);
    assert StepsFrom(0, count, count) == 0;
    StepsCompose(0, count, count, k);
    assert count + k == k + count;
  }

  class GameFlowManager {
    /** The scene names (a missing list is the empty list). */
    const gameplayScenes: seq<string>
    const loop: bool
    var index: nat
    var running: bool
    /** The scenes loaded so far, in order. */
    var loaded: seq<string>

    /** The index stays within the list, and points at a scene while the flow runs. */
    predicate Valid()
      reads this
    {
      index <= |gameplayScenes| && (running ==> index < |gameplayScenes|)
    }

    /**
     * The manager as loaded: the scene list set in the inspector, or the
     * field's initial list when the inspector leaves it alone.
     */
    constructor (scenes: Option<seq<string>>, looping: bool)
      ensures Valid()
      ensures scenes.None? ==> gameplayScenes == DefaultScenes
      ensures scenes.Some? ==> gameplayScenes == scenes.value
      ensures loop == looping
      ensures index == 0 && !running && loaded == []
    {
      gameplayScenes := if scenes.Some? then scenes.value else DefaultScenes;
      loop := looping;
      index := 0;
      running := false;
      loaded := [];
    }

    /** `StartGameplayFlow`: with scenes to show, runs from the first and loads it. */
    method StartGameplayFlow()
      requires Valid()
      modifies this
      ensures Valid()
      ensures |gameplayScenes| == 0 ==> index == old(index) && running == old(running) && loaded == old(loaded)
      ensures |gameplayScenes| > 0 ==> running && index == 0 && loaded == old(loaded) + [gameplayScenes[0]]
    {
      if |gameplayScenes| == 0 {
        return;
      }
      running := true;
      index := 0;
      LoadCurrent();
    }

    /**
     * `GoNext`: while running, moves to the next scene and loads it; past the
     * last scene it wraps to the first when looping and stops otherwise.
     */
    method GoNext()
      requires Valid()
      modifies this
      ensures Valid()
      ensures !old(running) ==> index == old(index) && !running && loaded == old(loaded)
      ensures old(running) ==> index == NextIndex(old(index), |gameplayScenes|, loop)
      ensures old(running) ==> running == (index < |gameplayScenes|)
      ensures old(running) && running ==> loaded == old(loaded) + [gameplayScenes[index]]
      ensures old(running) && !running ==> loaded == old(loaded)
    {
      if !running {
        return;
      }
      index := index + 1;
      if index >= |gameplayScenes| {
        if !loop {
          running := false;
          return;
        }
        index := 0;
      }
      LoadCurrent();
    }

    /** `LoadCurrent`: loads the scene at the index. */
    method LoadCurrent()
      requires index < |gameplayScenes|
      modifies this
      ensures index == old(index) && running == old(running)
      ensures loaded == old(loaded) + [gameplayScenes[index]]
    {
      loaded := loaded + [gameplayScenes[index]];
    }
  }
}
