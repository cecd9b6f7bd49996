/**
 * The per-character animation table (src/services/animator-service.ts).
 *
 * `init` starts one asynchronous clip load for each name whose path is long
 * enough; when a load completes, its first clip is bound to an action of the
 * service's mixer and stored under the name. The mixer, the clips and the
 * loader are opaque: an action is identified by the clip it plays (the
 * mixer's `clipAction` hands out one action per clip), and a started load is
 * a `LoadRequest` that the caller completes later with `OnLoaded`.
 */
module Animator {
  import opened Js

  /** `mixer.clipAction(clip)`. */
  datatype AnimationAction<C> = AnimationAction(clip: C)

  /** A call `loader.loadObject(path, ...)` whose callback stores under `key`. */
  datatype LoadRequest = LoadRequest(key: string, path: string)

  /** Why a completed load stored nothing. */
  datatype LoadError = NoAnimations(key: string)

  /**
   * `init`'s filter: a path is loaded when, once trimmed, it is longer than
   * one UTF-16 code unit.
   */
  predicate IsLoadablePath(path: string) {
    Utf16Length(Trim(path)) > 1
  }

  /**
   * The loads `init(paths)` starts, in the map's iteration order: one for
   * each entry with a loadable path, none for the others.
   */
  function LoadsFor(paths: seq<(string, string)>): (loads: seq<LoadRequest>)
    ensures |loads| <= |paths|
    ensures forall r :: r in loads ==> (r.key, r.path) in paths && IsLoadablePath(r.path)
    ensures forall i :: 0 <= i < |paths| && IsLoadablePath(paths[i].1) ==>
      LoadRequest(paths[i].0, paths[i].1) in loads
  {
    if paths == [] then []
    else
      var init, last := paths[..|paths| - 1], paths[|paths| - 1];
      assert paths == init + [last];
      LoadsFor(init) + (if IsLoadablePath(last.1) then [LoadRequest(last.0, last.1)] else [])
  }

  /**
   * `init` visits the entries in order: the loads for two tables one after
   * the other are the loads for the first followed by those for the second.
   */
  lemma {:induction false} LoadsForAppend(p: seq<(string, string)>, q: seq<(string, string)>)
    ensures LoadsFor(p + q) == LoadsFor(p) + LoadsFor(q)
  {
    if q == [] {
      assert p + q == p;
    } else {
      var init := q[..|q| - 1];
      assert (p + q)[..|p + q| - 1] == p + init;
      assert (p + q)[|p + q| - 1] == q[|q| - 1];
      LoadsForAppend(p, init);
    }
  }

  /** A single entry starts one load when its path is loadable, and none otherwise. */
  lemma LoadsForEntry(key: string, path: string)
    ensures LoadsFor([(key, path)])
         == if IsLoadablePath(path) then [LoadRequest(key, path)] else []
  {
    assert [(key, path)][..0] == [];
  }

  /** Empty, blank and one-code-unit paths are never loaded. */
  lemma ShortPathsNotLoadable(path: string)
    requires Utf16Length(path) <= 1 || IsBlank(path)
    ensures !IsLoadablePath(path)
  {
    TrimEmptyIffBlank(path);
    TrimUtf16Length(path);
  }

  /**
   * A path of one character above U+FFFF (an emoji, say) is one code point
   * but two UTF-16 code units, so it is loaded.
   */
  lemma AstralPathLoadable(key: string, c: char)
    requires c as int > 0xFFFF
    ensures |[c]| == 1 && IsLoadablePath([c])
    ensures LoadsFor([(key, [c])]) == [LoadRequest(key, [c])]
  {
    TrimAstralChar(c);
    LoadsForEntry(key, [c]);
  }

  /** A table whose every path is empty starts no load at all. */
  lemma {:induction false} NoLoadsForEmptyPaths(paths: seq<(string, string)>)
    requires forall i :: 0 <= i < |paths| ==> paths[i].1 == ""
    ensures LoadsFor(paths) == []
  {
    if paths != [] {
      NoLoadsForEmptyPaths(paths[..|paths| - 1]);
      ShortPathsNotLoadable(paths[|paths| - 1].1);
    }
  }

  class AnimatorService<M, C> {
    /** The object the mixer animates. */
    const mesh: M
    var animationActions: map<string, AnimationAction<C>>
    /** The mixer's clock, advanced by `Update`. */
    var mixerTime: real

    constructor(mesh: M)
      ensures this.mesh == mesh
      ensures animationActions == map[] && mixerTime == 0.0
    {
      this.mesh := mesh;
      animationActions := map[];
      mixerTime := 0.0;
    }

    /**
     * Visits the name -> path entries in iteration order and starts a load
     * for each loadable path. Nothing is stored until a load completes.
     */
    method Init(paths: seq<(string, string)>) returns (loads: seq<LoadRequest>)
      ensures loads == LoadsFor(paths)
    {
      loads := [];
      var i := 0;
      while i < |paths|
        invariant 0 <= i <= |paths|
        invariant loads == LoadsFor(paths[..i])
      {
        assert paths[..i + 1][..i] == paths[..i];
        var (key, value) := paths[i];
        if IsLoadablePath(value) {
          loads := loads + [LoadRequest(key, value)];
        }
        i := i + 1;
      }
      assert paths[..i] == paths;
    }

    /**
     * The load callback: binds the loaded object's first clip under the
     * request's name. An object without clips makes `clipAction` throw, so
     * nothing is stored.
     */
    method OnLoaded(request: LoadRequest, animations: seq<C>) returns (r: Outcome<LoadError>)
      modifies this`animationActions
      ensures animations == [] ==>
        r == Fail(NoAnimations(request.key)) && animationActions == old(animationActions)
      ensures animations != [] ==>
        && r == Pass
        && animationActions == old(animationActions)[request.key := AnimationAction(animations[0])]
      ensures animations != [] ==> request.key in animationActions
    {
      if animations == [] {
        return Fail(NoAnimations(request.key));
      }
      var _ := SetPair(request.key, animations[0]);
      r := Pass;
    }

    /**
     * Binds `clip` to an action and stores it under `key`, replacing any
     * earlier action for `key`; returns the stored action.
     */
    method SetPair(key: string, clip: C) returns (action: AnimationAction<C>)
      modifies this`animationActions
      ensures animationActions == old(animationActions)[key := AnimationAction(clip)]
      ensures key in animationActions && animationActions[key] == action
      ensures forall k :: k in old(animationActions) && k != key ==>
        k in animationActions && animationActions[k] == old(animationActions)[k]
    {
      action := AnimationAction(clip);
      animationActions := animationActions[key := action];
    }

    /** Advances the mixer's clock; the action table is left alone. */
    method Update(deltaTime: real)
      modifies this`mixerTime
      ensures mixerTime == old(mixerTime) + deltaTime
      ensures animationActions == old(animationActions)
    {
      mixerTime := mixerTime + deltaTime;
    }
  }
}
