/**
 * The emotion state (src/services/emotion-service.ts): the current emotion
 * name and a table of per-emotion configurations with a fallback to
 * `neutral`.
 *
 * Every configuration in the source is an empty object literal, so a
 * configuration is identified by the key it is stored under.
 */
module Emotions {

  datatype EmotionConfig = EmotionConfig(key: string)

  /** The keys of the configuration table, in declaration order. */
  const CONFIG_KEYS: seq<string> := ["neutral", "happy", "sad", "angry", "surprised", "confused"]

  /** The configuration table: one configuration under each listed key. */
  const EMOTION_CONFIGS: map<string, EmotionConfig> := map k | k in CONFIG_KEYS :: EmotionConfig(k)

  /** The table has six different keys, `neutral` among them, each with its own configuration. */
  lemma ConfigTableShape()
    ensures |CONFIG_KEYS| == 6
    ensures forall i, j :: 0 <= i < j < |CONFIG_KEYS| ==> CONFIG_KEYS[i] != CONFIG_KEYS[j]
    ensures "neutral" in EMOTION_CONFIGS
    ensures forall k :: k in EMOTION_CONFIGS ==> EMOTION_CONFIGS[k].key == k
  {
    assert CONFIG_KEYS[0] == "neutral";
  }

  /**
   * Property names every plain object inherits from `Object.prototype`.
   * Reading one of them from the configuration table yields a truthy value
   * (a function, or the prototype object itself for `__proto__`).
   */
  const OBJECT_PROTOTYPE_MEMBERS: set<string> := {
    "constructor", "hasOwnProperty", "isPrototypeOf", "propertyIsEnumerable",
    "toLocaleString", "toString", "valueOf", "__proto__",
    "__defineGetter__", "__defineSetter__", "__lookupGetter__", "__lookupSetter__"
  }

  /** What `emotionConfigs[emotion] || emotionConfigs['neutral']` evaluates to. */
  datatype ConfigLookup = OwnConfig(config: EmotionConfig) | InheritedMember(name: string)

  /**
   * The lookup exactly as written: an inherited member of the object
   * literal is truthy, so it is returned instead of the neutral fallback.
   */
  function GetEmotionConfigAsWritten(emotion: string): (r: ConfigLookup)
    ensures emotion in EMOTION_CONFIGS ==> r == OwnConfig(EMOTION_CONFIGS[emotion])
    ensures emotion !in EMOTION_CONFIGS && emotion !in OBJECT_PROTOTYPE_MEMBERS ==>
      r == OwnConfig(EMOTION_CONFIGS["neutral"])
    ensures r.InheritedMember? <==> emotion in OBJECT_PROTOTYPE_MEMBERS
  {
    if emotion in EMOTION_CONFIGS then OwnConfig(EMOTION_CONFIGS[emotion])
    else if emotion in OBJECT_PROTOTYPE_MEMBERS then InheritedMember(emotion)
    else OwnConfig(EMOTION_CONFIGS["neutral"])
  }

  /** `getEmotionConfig('toString')` does not fall back to the neutral configuration. */
  lemma InheritedNameEscapesFallback()
    ensures GetEmotionConfigAsWritten("toString") == InheritedMember("toString")
    ensures GetEmotionConfigAsWritten("toString") != OwnConfig(EMOTION_CONFIGS["neutral"])
  {
  }

  /**
   * The intended lookup: the configuration stored under `emotion` when the
   * table has that key, the neutral configuration for every other string.
   */
  function GetEmotionConfig(emotion: string): (r: EmotionConfig)
    ensures r in EMOTION_CONFIGS.Values
    ensures r.key == emotion || r.key == "neutral"
    ensures r.key == emotion <==> emotion in EMOTION_CONFIGS
  {
    if emotion in EMOTION_CONFIGS then EMOTION_CONFIGS[emotion] else EMOTION_CONFIGS["neutral"]
  }

  /** The corrected lookup agrees with the source wherever the source returns a configuration. */
  lemma GetEmotionConfigAgreesOnOwnKeys(emotion: string)
    requires emotion !in OBJECT_PROTOTYPE_MEMBERS
    ensures GetEmotionConfigAsWritten(emotion) == OwnConfig(GetEmotionConfig(emotion))
  {
  }

  class EmotionService {
    var currentEmotion: string

    constructor()
      ensures currentEmotion == "neutral"
    {
      currentEmotion := "neutral";
    }

    /** Stores any string as the current emotion; it is not checked against the table. */
    method SetEmotion(emotion: string)
      modifies this
      ensures currentEmotion == emotion
    {
      currentEmotion := emotion;
    }
  }
}
