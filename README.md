# 3D avatar services — a Dafny model

This project models the in-memory state and lookup rules behind a browser-based
3D talking avatar, an Angular application. The parts covered are:

- the frame-tick registry that calls every registered tickable once per frame
  (`TickService`);
- the two-level key/value cache, an in-memory `Map` in front of an IndexedDB
  object store (`CacheService`);
- the per-character animation table, a filter on clip paths plus a
  name → action map (`AnimatorService`);
- the current emotion and the per-emotion configuration lookup with its
  fallback to `neutral` (`EmotionService`);
- the speech-synthesis wrapper, with its `isSpeaking` flag, option defaults and
  voice choice (`SpeechService`);
- the view logic of the avatar component (`Character`): the emotion picker
  table, label lookup, status line, the speak guard and the `spawn` table.

Files:

- `js.dfy` (module `Js`) holds the JavaScript behaviours the services rely on:
  - `String.prototype.trim` over the ECMAScript white-space and line-terminator
    code points;
  - `Array.prototype.find` as a first-match index;
  - `Map.prototype.set` on an insertion-ordered map, which is a sequence of
    key/value pairs;
  - `Option` and `Outcome` for values that may be missing and calls that may
    throw.
- Each other file models one source file, with a module of the same role:
  - `tick_service.dfy` (`Tick`)
  - `cache_service.dfy` (`Cache`)
  - `animator_service.dfy` (`Animator`)
  - `emotion_service.dfy` (`Emotions`)
  - `speech_service.dfy` (`Speech`)
  - `character.dfy` (`CharacterView`)
- Services whose fields change are classes with `modifies` clauses:
  - tick, cache and speech services;
  - the animator's action table;
  - the emotion service;
  - the component.
- Lookups and rules that only compute are functions, with lemmas beside them.
- Each scenario method builds fresh services and runs a short sequence of calls.
  Its `ensures` states the observable outcome the source leads to.

Angular signals are plain fields. The rxjs `BehaviorSubject` `cache$` is the
field `lastEmitted`, the last value it received.

Things outside the services become parameters:

- the browser speech engine: its voice list, whether it is speaking, and
  whether it has a voices-changed event;
- whether the avatar is animating;
- the loaded 3D model.

What the services ask of the outside world is recorded in fields or results:

- every utterance handed to the engine (`spoken`);
- the number of `cancel` calls (`cancelCount`);
- the clip loads `init` starts (`LoadRequest` values);
- the updates a tick makes (`Update` values).

## Model

| member | source | states |
|---|---|---|
| Js.TrimStart | src/services/animator-service.ts:22 | the result is a suffix of the input; every character dropped is white space, and the result starts with a non-white-space character or is empty |
| Js.TrimEnd | src/services/animator-service.ts:22 | the result is a prefix of the input; every character dropped is white space, and the result ends with a non-white-space character or is empty |
| Js.Trim | src/services/animator-service.ts:22 | `trim()` never lengthens the string, and a non-empty result begins and ends with non-white-space |
| Js.TrimEmptyIffBlank | src/app/character/character.ts:88 | `s.trim()` is empty exactly when every character of `s` is white space, so `!text.trim()` is the blank-text test |
| Js.Utf16Length | src/services/animator-service.ts:22 | `length` counts UTF-16 code units: at least one and at most two per code point |
| Js.Utf16LengthIsCodePoints | src/services/animator-service.ts:22 | `length` equals the number of code points exactly when no character lies above U+FFFF |
| Js.Utf16LengthAppend | src/services/animator-service.ts:22 | the length of a concatenation is the sum of the lengths |
| Js.Utf16LengthParts | src/services/animator-service.ts:22 | a prefix or a suffix is never longer than the whole string |
| Js.TrimUtf16Length | src/services/animator-service.ts:22 | `trim()` never makes `length` grow |
| Js.AstralIsNotWhiteSpace | src/services/animator-service.ts:22 | no character above U+FFFF is white space, so `trim` never strips one |
| Js.TrimAstralChar | src/services/animator-service.ts:22 | a string of one character above U+FFFF is kept whole by `trim()` and has `length` 2 |
| Js.FindIndex | src/app/character/character.ts:102 | `find` returns the first element that satisfies the predicate, and finds nothing exactly when no element does |
| Js.MapSet | src/app/character/character.ts:68 | `Map.set` replaces the value of an existing key in place and appends a new key at the end; keys stay distinct |
| Tick.Without | src/services/tick-service.ts:18 | `Set.delete` removes the given callback and only it: every other member stays, and nothing else appears; a missing member leaves the set as it was |
| Tick.Dispatch | src/services/tick-service.ts:23-25 | a tick makes one update per subscriber, in subscription order, each with the same `dt` |
| Tick.DispatchCount | src/services/tick-service.ts:24 | a tick updates a tickable exactly as often as there are subscribed callbacks for it |
| Tick.DispatchAppendCount | src/services/tick-service.ts:10-12 | adding a callback adds exactly one update per tick for its tickable and none for any other |
| Tick.CallbackCountWithout | src/services/tick-service.ts:18 | deleting one callback from a duplicate-free set removes exactly one callback for its tickable and none for any other |
| Tick.DispatchWithoutCount | src/services/tick-service.ts:18 | deleting one callback removes exactly one update per tick for its tickable and none for any other |
| Tick.NoUpdateIffNoCallback | src/services/tick-service.ts:24 | a tick leaves a tickable alone exactly when no subscribed callback targets it |
| Tick.TickService.constructor | src/services/tick-service.ts:6-7 | the set and the map start empty, and the registry invariant holds |
| Tick.TickService.RegisterTickable | src/services/tick-service.ts:9-13 | keeps the invariant: the set holds each callback once, and every mapped callback is subscribed and targets its key. It appends one fresh callback for the tickable even if it is already registered. The map keeps only the newest callback. Each later tick updates that tickable once more and every other tickable as before |
| Tick.TickService.UnregisterTickable | src/services/tick-service.ts:15-21 | keeps the invariant; removes exactly the mapped callback and the map entry, so each tick updates that tickable once less and every other tickable as before; a tickable with no entry changes nothing |
| Tick.TickService.Tick | src/services/tick-service.ts:23-25 | the loop makes exactly the updates `Dispatch` describes |
| Tick.RegisterOnceScenario | src/services/tick-service.ts:9-25 | a tickable registered once is updated once per tick, and not at all after it is unregistered |
| Tick.RegisterTwiceScenario | src/services/tick-service.ts:10-12 | a tickable registered twice is updated twice per tick, and still once after one unregister |
| Cache.CacheService.constructor | src/services/cache-service.ts:18-20 | memory starts empty, the store holds what it held before, and the subject holds null |
| Cache.CacheService.Set | src/services/cache-service.ts:46-61 | a key already in memory is refused with `DataAlreadyExists` and nothing changes. Otherwise the value is written to the store and to memory and emitted. Only memory is checked, so a stored key not yet in memory is overwritten |
| Cache.CacheService.Get | src/services/cache-service.ts:68-84 | a memory hit is returned and emitted, with memory unchanged. A miss falls through to the store, and a stored value is copied into memory and emitted. A key in neither level gives nothing and changes nothing. The store never changes |
| Cache.CacheService.Clear | src/services/cache-service.ts:90-97 | the key leaves both levels, every other key is untouched, and null is emitted |
| Cache.CacheService.ClearAll | src/services/cache-service.ts:102-108 | both levels end empty and null is emitted |
| Cache.CacheService.LoadAllFromDB | src/services/cache-service.ts:113-120 | after the loop every stored key is in memory with the store's value, and keys only in memory keep theirs |
| Cache.DuplicateSetScenario | src/services/cache-service.ts:48-53 | a second `set` of one key throws, and `get` still returns the first value |
| Cache.SetBeforeLoadScenario | src/services/cache-service.ts:48-56 | before the startup load has run, `set` of a stored key succeeds and replaces the stored value |
| Cache.SetAfterLoadScenario | src/services/cache-service.ts:113-119 | after the startup load, `set` of a stored key throws and `get` returns the stored value |
| Animator.LoadsFor | src/services/animator-service.ts:20-29 | `init` starts a load for every entry whose trimmed path is longer than one UTF-16 code unit, and for no other entry |
| Animator.LoadsForAppend | src/services/animator-service.ts:21 | the loads follow the entries' iteration order: the loads for one table followed by another are the first table's loads followed by the second's |
| Animator.LoadsForEntry | src/services/animator-service.ts:21-27 | a single entry starts exactly one load when its path passes the filter, and none otherwise; with the order lemma this fixes the loads entry by entry |
| Animator.ShortPathsNotLoadable | src/services/animator-service.ts:22 | empty, blank and one-code-unit paths are never loaded |
| Animator.AstralPathLoadable | src/services/animator-service.ts:22 | a path of one character above U+FFFF (an emoji) is a single code point but has `length` 2, so it is loaded |
| Animator.NoLoadsForEmptyPaths | src/services/animator-service.ts:20-29 | a table whose every path is empty starts no load |
| Animator.AnimatorService.constructor | src/services/animator-service.ts:11-18 | the service animates the given mesh and its action table starts empty |
| Animator.AnimatorService.Init | src/services/animator-service.ts:20-29 | the loop over the entries, in iteration order, starts exactly the loads `LoadsFor` describes |
| Animator.AnimatorService.OnLoaded | src/services/animator-service.ts:23-26 | a completed load binds the first clip under its name, which is then in the table. An object without clips throws, and the table is unchanged |
| Animator.AnimatorService.SetPair | src/services/animator-service.ts:31-36 | stores the clip's action under the key, overwriting any earlier one, and returns that same action; every other key keeps its action |
| Animator.AnimatorService.Update | src/services/animator-service.ts:38-40 | the mixer's clock advances by `deltaTime` and the action table is untouched |
| Emotions.ConfigTableShape | src/services/emotion-service.ts:11-18 | the configuration table has six distinct keys, `neutral` among them |
| Emotions.GetEmotionConfigAsWritten | src/services/emotion-service.ts:26-28 | the lookup as written returns the table's own configuration for its keys. It returns an inherited `Object.prototype` member exactly for those member names, and the neutral configuration for every other string |
| Emotions.InheritedNameEscapesFallback | src/services/emotion-service.ts:27 | `getEmotionConfig('toString')` does not return the neutral configuration |
| Emotions.GetEmotionConfig | src/services/emotion-service.ts:26-28 | the corrected lookup always returns a configuration of the table: the one for `emotion` exactly when it is a key, the neutral one otherwise |
| Emotions.GetEmotionConfigAgreesOnOwnKeys | src/services/emotion-service.ts:26-28 | the corrected lookup agrees with the one as written for every name that is not an inherited member |
| Emotions.EmotionService.constructor | src/services/emotion-service.ts:9 | the current emotion starts as `neutral` |
| Emotions.EmotionService.SetEmotion | src/services/emotion-service.ts:22-24 | any string becomes the current emotion, without a check against the table |
| Speech.OrOne | src/services/speech-service.ts:58-60 | the logical-or default to 1: a given non-zero value is kept, a missing or zero value becomes 1, and the result is never 0 |
| Speech.BuildUtterance | src/services/speech-service.ts:48-60 | the utterance carries the text as given; it has a voice exactly when a non-empty name is asked for and an available voice has it, and then that voice is available and has that name; rate, pitch and volume are each the given non-zero value or 1 |
| Speech.SelectVoice | src/services/speech-service.ts:51-56 | a voice is chosen exactly when a non-empty name is asked for and some voice has it; the choice is the first voice with exactly that name |
| Speech.ToVoiceOptions | src/services/speech-service.ts:90-98 | the voice summaries have the engine's length and order and keep each voice's name and language |
| Speech.SpeechService.constructor | src/services/speech-service.ts:22-33 | not speaking, no voices, no current utterance, nothing handed to the engine |
| Speech.SpeechService.Initialize | src/services/speech-service.ts:35-41 | loads the voices, and subscribes to the voices-changed event when the engine has one |
| Speech.SpeechService.OnVoicesChanged | src/services/speech-service.ts:39 | once subscribed, a voices-changed event reloads the voices |
| Speech.SpeechService.LoadVoices | src/services/speech-service.ts:90-98 | the voice list becomes the summaries of the engine's voices |
| Speech.SpeechService.Speak | src/services/speech-service.ts:43-79 | when the flag says speaking, it first stops, which cancels the engine if the engine is speaking. Then it makes the utterance built from the options current, hands it to the engine and leaves the flag false |
| Speech.SpeechService.Stop | src/services/speech-service.ts:81-88 | cancels the engine exactly when it is speaking; the flag is false afterwards either way |
| Speech.SpeechService.Dispose | src/services/speech-service.ts:139-141 | the same effect as `stop` |
| Speech.SpeechService.OnStart | src/services/speech-service.ts:62-65 | the start event sets the flag |
| Speech.SpeechService.OnEnd | src/services/speech-service.ts:67-70 | the end event clears the flag |
| Speech.SpeechService.OnError | src/services/speech-service.ts:72-75 | the error event clears the flag |
| Speech.SpeakOverSpeechScenario | src/services/speech-service.ts:44-46 | a second `speak` after the first utterance started cancels the engine once and leaves the flag false; both utterances were handed over |
| Speech.SpeakBeforeStartScenario | src/services/speech-service.ts:43-46 | a second `speak` before the first utterance's start event cancels nothing, though the engine is busy |
| CharacterView.EmotionsTableShape | src/app/character/character.ts:44-51 | the picker lists the configuration table's keys in order. Its names are distinct and its labels non-empty. Every configuration key has an entry |
| CharacterView.GetEmotionLabel | src/app/character/character.ts:101-104 | the label of the first entry with that name (the name itself if that label is empty); the name itself when no entry has it |
| CharacterView.EmotionLabels | src/app/character/character.ts:101-104 | over the picker's own table, a listed emotion shows its label and any other string shows itself |
| CharacterView.CurrentStatus | src/app/character/character.ts:30-42 | the status is the speech text exactly when speaking and not animating, and the emotion label otherwise |
| CharacterView.SpeakRequest | src/app/character/character.ts:87-95 | blank text requests nothing. Otherwise it requests the untrimmed text with the selected voice and the speed as rate, leaving pitch and volume unset |
| CharacterView.Character.constructor | src/app/character/character.ts:25-28 | the initial speech text, emotion, voice and speed |
| CharacterView.Character.BuildAnimMap | src/app/character/character.ts:59-69 | the loop yields a map with one entry per emotion, in the picker's order, each with the empty path |
| CharacterView.Character.Spawn | src/app/character/character.ts:53-73 | the new animator starts no clip load, because every path is empty |
| CharacterView.Character.Speak | src/app/character/character.ts:87-95 | blank text leaves the speech service untouched. Otherwise the service speaks the text with the selected voice and speed: a running utterance is stopped first (cancelling the engine when it is speaking), the new utterance becomes current and is handed over, and the flag is false. The voice list and its subscription stay |
| CharacterView.Character.StopSpeaking | src/app/character/character.ts:97-99 | the flag ends false, the engine is cancelled exactly when it is speaking, and the utterances, the current utterance, the voice list and its subscription stay |
| CharacterView.Character.NgOnInit | src/app/character/character.ts:75-80 | voices are loaded and the voices-changed subscription is made when the engine offers it; the spawn starts no clip load; the picker and the service are set to `neutral`; the speech text, voice and speed and the speech flag, current utterance, utterances handed over and cancels stay |
| CharacterView.Character.NgOnDestroy | src/app/character/character.ts:82-85 | disposing has the effect of stopping: the flag ends false, the engine is cancelled exactly when it is speaking, and the utterances, the current utterance, the voice list and its subscription stay |

## Left out

- Asynchrony in `CacheService`: the IndexedDB open, the `await`s and the
  interleavings between concurrent calls. Examples are the check-then-await race
  in `set` and the startup load racing a `set`. Each call is one atomic step
  over an abstract store map. The constructor's load is the separate method
  `LoadAllFromDB`, so that a `set` can run before it.
- `undefined` as a stored cache value: values are of an abstract type without
  `undefined`. So `Cache.CacheService.Get` treats a key absent from the store
  as the source treats an `undefined` read.
- three.js internals: the `AnimationMixer`, `clipAction` and the time advance in
  `update` are opaque. An action is identified by the clip it plays, and the
  mixer's clock is a number.
- The entity loader, the scene, the renderer and the application shell are not
  part of this model. The loaded model is a type parameter, and a clip load is a
  `LoadRequest` completed later by `OnLoaded`.
- The browser speech engine: its voice list, its `speaking` flag and whether it
  offers a voices-changed event are parameters. Its `speak` and `cancel` calls
  are recorded, not performed. When events arrive is up to the caller of
  `OnStart`, `OnEnd` and `OnError`.
- The mouth animation (`startMouthAnimation`, `stopMouthAnimation`) is left
  out. Its `mouth` is always `null`, so both return before doing anything. It
  would also use the clock, `requestAnimationFrame` and floating point.
- Numbers are `real`, so `NaN` is not modelled. In the source `NaN || 1` is
  also 1.
- Re-entrant register or unregister from inside a tick callback, which is
  `Set.forEach`'s live iteration, is left out. Tickables' `update` methods do
  not touch the registry here.
- Angular signals, `computed`, dependency injection and rxjs subscriptions are
  plain fields and parameters.
- `isAnimating` is a parameter. `src/app/character/character.ts:32` reads
  `emotionService.isAnimating()`, which `src/services/emotion-service.ts` does
  not define.
- The picker entry's `label` field is named `display`, because `label` is a
  Dafny keyword.
- Tick registration does not deduplicate: the code adds a fresh closure on
  every call and keeps only the newest one in the map, so a tickable
  registered twice is updated twice per tick. See `Tick.RegisterTwiceScenario`.
- Tick.Dispatch: every tickable's `update` is taken to return normally. In the
  source, an `update` that throws stops the `forEach` at that callback: later
  subscribers get no update that frame, and the exception reaches the caller
  of `tick`. The model does not capture that early stop, so
  `Tick.TickService.Tick`, `Tick.DispatchCount` and the tick scenarios assume
  updates that do not throw.
- Js.Utf16Length: Dafny strings hold Unicode scalar values only, so a
  JavaScript string with a lone surrogate cannot be represented. `trim` keeps
  a lone surrogate and `length` counts it as 1; `Js.Trim`,
  `Js.Utf16Length` and the path filter are stated for well-formed strings
  only.
- Tick.Without: its contract states which elements remain, not their order;
  order preservation follows from its definition alone.
- Js.Trim: its contract states the length bound and the non-white-space ends.
  That `trim` returns the middle slice of the input follows from `TrimStart`
  and `TrimEnd` and is not restated on `Trim`.
- `Character.Status` joins the signals to `CurrentStatus` and states nothing
  of its own.

## Findings

| source | as written | input that shows it | evidently intended | confidence | as-written member | corrected member |
|---|---|---|---|---|---|---|
| src/services/emotion-service.ts:27 | the table entry or-defaulted to the neutral entry, read from a plain object literal; a name inherited from `Object.prototype` reads a truthy function, so the fallback is skipped | `getEmotionConfig('toString')` returns `Object.prototype.toString` | every name that is not one of the six keys falls back to the neutral configuration | high, not executed | Emotions.InheritedNameEscapesFallback | Emotions.GetEmotionConfig |
