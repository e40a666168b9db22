/**
 * Navigation between the tablet screens (ScreenFlowController.cs): a fixed
 * successor chain of scene names, and a guard that ignores navigation while a
 * scene load is in progress. A scene load is split into its start and its
 * completion, which arrives later.
 */
module ScreenFlow {
  import opened Wrappers

  /** The four scene names the controller is configured with. */
  datatype SceneNames = SceneNames(screens: string, gameLibrary: string, cardLibrary: string, gameScreen: string)

  /** The configured defaults. */
  const DefaultNames: SceneNames := SceneNames("Screens", "GameLibrary", "CardLibraryUI", "GameScreen")

  /** `GetNextScene`: the scene after `current`, or null after the last screen. */
  function GetNextScene(n: SceneNames, current: string): (r: Option<string>)
    ensures current == n.screens ==> r == Some(n.gameLibrary)
    ensures current != n.screens && current == n.gameLibrary ==> r == Some(n.cardLibrary)
    ensures current != n.screens && current != n.gameLibrary && current == n.cardLibrary ==> r == Some(n.gameScreen)
    ensures r.None? <==> current !in {n.screens, n.gameLibrary, n.cardLibrary}
  {
    if current == n.screens then Some(n.gameLibrary)
    else if current == n.gameLibrary then Some(n.cardLibrary)
    else if current == n.cardLibrary then Some(n.gameScreen)
    else None
  }

  /** `GetSharedScreenSceneFor`: the game screen maps to itself; every other scene to null. */
  function GetSharedScreenSceneFor(n: SceneNames, tabletScene: string): (r: Option<string>)
    ensures r.Some? <==> tabletScene == n.gameScreen
    ensures r.Some? ==> r.value == tabletScene
  {
    if tabletScene == n.gameScreen then Some(n.gameScreen) else None
  }

  /** The scene reached from `s` after `k` successor steps, if the chain is that long. */
  function Follow(n: SceneNames, s: string, k: nat): Option<string>
    decreases k
  {
    if k == 0 then Some(s)
    else match GetNextScene(n, s)
      case None => None
      case Some(next) => Follow(n, next, k - 1)
  }

  /** With the default names the chain is Screens, GameLibrary, CardLibraryUI, GameScreen. */
  lemma DefaultChain()
    ensures Follow(DefaultNames, "Screens", 1) == Some("GameLibrary")
    ensures Follow(DefaultNames, "Screens", 2) == Some("CardLibraryUI")
    ensures Follow(DefaultNames, "Screens", 3) == Some("GameScreen")
    ensures Follow(DefaultNames, "Screens", 4) == None
  {
  }

  /**
   * With the default names every chain ends within three steps, whatever
   * the starting scene: the successor relation has no cycle.
   */
  lemma DefaultChainEnds(s: string)
    ensures Follow(DefaultNames, s, 4) == None
  {
    var n := DefaultNames;
    assert n.screens != n.gameLibrary && n.screens != n.cardLibrary && n.screens != n.gameScreen;
    assert n.gameLibrary != n.cardLibrary && n.gameLibrary != n.gameScreen && n.cardLibrary != n.gameScreen;
    if s == n.screens {
      assert Follow(n, s, 4) == Follow(n, n.gameLibrary, 3) == Follow(n, n.cardLibrary, 2);
    } else if s == n.gameLibrary {
      assert Follow(n, s, 4) == Follow(n, n.cardLibrary, 3) == Follow(n, n.gameScreen, 2);
    } else if s == n.cardLibrary {
      assert Follow(n, s, 4) == Follow(n, n.gameScreen, 3);
    }
  }

  /** How the controller is attached to the network. */
  datatype NetMode = Offline | Server | Client

  /** Server RPCs (to the server) and client RPCs (to every client) sent by this controller. */
  datatype Rpc = RequestTransition(scene: string) | TransitionAll(scene: string)

  class ScreenFlowController {
    const names: SceneNames
    const mode: NetMode
    var currentScene: string
    var isTransitioning: bool
    /** Scene loads started and not yet finished. */
    var loading: multiset<string>
    var sent: seq<Rpc>

    /** A transition in progress always has a load behind it. */
    predicate Valid()
      reads this
    {
      isTransitioning ==> |loading| > 0
    }

    constructor (sceneNames: SceneNames, netMode: NetMode)
      ensures Valid()
      ensures names == sceneNames && mode == netMode
      ensures currentScene == "" && !isTransitioning && loading == multiset{} && sent == []
    {
      names := sceneNames;
      mode := netMode;
      currentScene := "";
      isTransitioning := false;
      loading := multiset{};
      sent := [];
    }

    /** `Start`: records the scene that is active when the controller starts. */
    method Start(activeScene: string)
      modifies this
      ensures currentScene == activeScene
      ensures isTransitioning == old(isTransitioning) && loading == old(loading) && sent == old(sent)
    {
      currentScene := activeScene;
    }

    /**
     * `NavigateToNextScreen`: ignored while transitioning or when the current
     * scene has no successor; otherwise navigates to the successor.
     */
    method NavigateToNextScreen()
      requires Valid()
      modifies this
      ensures Valid()
      ensures currentScene == old(currentScene)
      ensures old(isTransitioning) ==> isTransitioning && loading == old(loading) && sent == old(sent)
      ensures !old(isTransitioning) && !NonEmptyScene(GetNextScene(names, currentScene)) ==>
        !isTransitioning && loading == old(loading) && sent == old(sent)
      ensures !old(isTransitioning) && NonEmptyScene(GetNextScene(names, currentScene)) ==>
        Navigated(GetNextScene(names, currentScene).value, old(loading), old(sent))
    {
      if isTransitioning {
        return;
      }
      var nextScene := GetNextScene(names, currentScene);
      if nextScene.None? || nextScene.value == "" {
        return;
      }
      Navigate(nextScene.value);
    }

    /** `NavigateToScene`: ignored while transitioning; otherwise navigates to the given scene. */
    method NavigateToScene(sceneName: string)
      requires Valid()
      modifies this
      ensures Valid()
      ensures currentScene == old(currentScene)
      ensures old(isTransitioning) ==> isTransitioning && loading == old(loading) && sent == old(sent)
      ensures !old(isTransitioning) ==> Navigated(sceneName, old(loading), old(sent))
    {
      if isTransitioning {
        return;
      }
      Navigate(sceneName);
    }

    /**
     * What a navigation does by mode: offline the scene load starts here,
     * the server broadcasts the transition, a client asks the server.
     */
    ghost predicate Navigated(scene: string, oldLoading: multiset<string>, oldSent: seq<Rpc>)
      reads this
    {
      match mode
      case Offline => isTransitioning && loading == oldLoading + multiset{scene} && sent == oldSent
      case Server => !isTransitioning && loading == oldLoading && sent == oldSent + [TransitionAll(scene)]
      case Client => !isTransitioning && loading == oldLoading && sent == oldSent + [RequestTransition(scene)]
    }

    /** The common tail of both navigation methods, once the guard has passed. */
    method Navigate(scene: string)
      requires Valid() && !isTransitioning
      modifies this
      ensures Valid()
      ensures currentScene == old(currentScene)
      ensures Navigated(scene, old(loading), old(sent))
    {
      match mode {
        case Offline => BeginTransition(scene);
        case Server => TransitionToSceneServerRpc(scene);
        case Client => sent := sent + [RequestTransition(scene)];
      }
    }

    /** `RequestSceneTransitionServerRpc`: the server handles a client's request like its own. */
    method RequestSceneTransitionServerRpc(sceneName: string)
      requires Valid()
      modifies this
      ensures Valid()
      ensures isTransitioning == old(isTransitioning) && loading == old(loading) && currentScene == old(currentScene)
      ensures sent == old(sent) + (if isTransitioning then [] else [TransitionAll(sceneName)])
    {
      TransitionToSceneServerRpc(sceneName);
    }

    /** `TransitionToSceneServerRpc`: unless already transitioning, tells every client to load the scene. */
    method TransitionToSceneServerRpc(sceneName: string)
      requires Valid()
      modifies this
      ensures Valid()
      ensures isTransitioning == old(isTransitioning) && loading == old(loading) && currentScene == old(currentScene)
      ensures sent == old(sent) + (if isTransitioning then [] else [TransitionAll(sceneName)])
    {
      if isTransitioning {
        return;
      }
      sent := sent + [TransitionAll(sceneName)];
    }

    /** `TransitionToSceneClientRpc`: every client starts loading the scene, without a guard. */
    method TransitionToSceneClientRpc(sceneName: string)
      requires Valid()
      modifies this
      ensures Valid()
      ensures isTransitioning && loading == old(loading) + multiset{sceneName}
      ensures currentScene == old(currentScene) && sent == old(sent)
    {
      BeginTransition(sceneName);
    }

    /** First half of `TransitionToSceneCoroutine`: marks the transition and starts the load. */
    method BeginTransition(sceneName: string)
      requires Valid()
      modifies this
      ensures Valid()
      ensures isTransitioning && loading == old(loading) + multiset{sceneName}
      ensures currentScene == old(currentScene) && sent == old(sent)
    {
      isTransitioning := true;
      loading := loading + multiset{sceneName};
    }

    /** Second half of `TransitionToSceneCoroutine`: the load finished, the scene is current. */
    method CompleteTransition(sceneName: string)
      requires Valid() && sceneName in loading
      modifies this
      ensures Valid()
      ensures currentScene == sceneName && !isTransitioning
      ensures loading == old(loading) - multiset{sceneName} && sent == old(sent)
    {
      currentScene := sceneName;
      isTransitioning := false;
      loading := loading - multiset{sceneName};
    }
  }

  /** A successor that is present and not the empty string. */
  predicate NonEmptyScene(next: Option<string>)
  {
    next.Some? && next.value != ""
  }
}
