/**
 * The avatar view component (src/app/character/character.ts): its emotion
 * table, the status line it shows, the speak button's guard, and the
 * name -> clip-path table it hands to a new animator when the avatar spawns.
 */
module CharacterView {
  import opened Js
  import Emotions
  import Speech
  import Animator

  /** One entry of the emotion picker: the emotion's name and its display label. */
  datatype EmotionOption = EmotionOption(value: string, display: string)

  const EMOTIONS: seq<EmotionOption> := [
    EmotionOption("neutral", "Neutral"),
    EmotionOption("happy", "Happy"),
    EmotionOption("sad", "Sad"),
    EmotionOption("angry", "Angry"),
    EmotionOption("surprised", "Surprised"),
    EmotionOption("confused", "Confused")
  ]

  /**
   * The picker lists, in order, exactly the keys of the emotion
   * configuration table, so its names are distinct; every label is
   * non-empty.
   */
  lemma EmotionsTableShape()
    ensures |EMOTIONS| == |Emotions.CONFIG_KEYS|
    ensures forall i :: 0 <= i < |EMOTIONS| ==> EMOTIONS[i].value == Emotions.CONFIG_KEYS[i]
    ensures forall i, j :: 0 <= i < j < |EMOTIONS| ==> EMOTIONS[i].value != EMOTIONS[j].value
    ensures forall i :: 0 <= i < |EMOTIONS| ==> EMOTIONS[i].display != ""
    ensures forall i :: 0 <= i < |EMOTIONS| ==> EMOTIONS[i].value in Emotions.EMOTION_CONFIGS
    ensures forall k :: k in Emotions.EMOTION_CONFIGS ==>
      exists i :: 0 <= i < |EMOTIONS| && EMOTIONS[i].value == k
  {
    Emotions.ConfigTableShape();
    forall k | k in Emotions.EMOTION_CONFIGS
      ensures exists i :: 0 <= i < |EMOTIONS| && EMOTIONS[i].value == k
    {
      var i :| 0 <= i < |Emotions.CONFIG_KEYS| && Emotions.CONFIG_KEYS[i] == k;
      assert EMOTIONS[i].value == k;
    }
  }

  /**
   * The picker's names are distinct, so the `spawn` loop adds a new key on
   * every step. This is the one part of `EmotionsTableShape` that loop
   * needs, stated alone so that its proof stays small.
   */
  lemma EmotionValuesDistinct()
    ensures forall i, j :: 0 <= i < j < |EMOTIONS| ==> EMOTIONS[i].value != EMOTIONS[j].value
  {
    EmotionsTableShape();
  }

  /**
   * `getEmotionLabel`: the label of the first entry named `emotion` (or
   * `emotion` itself should that label be empty), and `emotion` itself when
   * no entry has that name.
   */
  function GetEmotionLabel(emotions: seq<EmotionOption>, emotion: string): (r: string)
    ensures forall i ::
      (&& 0 <= i < |emotions| && emotions[i].value == emotion
       && forall j :: 0 <= j < i ==> emotions[j].value != emotion) ==>
      r == (if emotions[i].display != "" then emotions[i].display else emotion)
    ensures (forall i :: 0 <= i < |emotions| ==> emotions[i].value != emotion) ==> r == emotion
  {
    match FindIndex(emotions, (e: EmotionOption) => e.value == emotion)
    case Some(i) => if emotions[i].display != "" then emotions[i].display else emotion
    case None => emotion
  }

  /** Over the picker's own table, every listed emotion shows its label and any other string shows itself. */
  lemma EmotionLabels(emotion: string)
    ensures forall i :: 0 <= i < |EMOTIONS| && EMOTIONS[i].value == emotion ==>
      GetEmotionLabel(EMOTIONS, emotion) == EMOTIONS[i].display
    ensures (forall i :: 0 <= i < |EMOTIONS| ==> EMOTIONS[i].value != emotion) ==>
      GetEmotionLabel(EMOTIONS, emotion) == emotion
  {
    EmotionsTableShape();
  }

  /**
   * The status line: the emotion label while animating; otherwise the
   * speech text while speaking, and the emotion label when idle. So the
   * text shows exactly when speaking and not animating.
   */
  function CurrentStatus(emotions: seq<EmotionOption>, emotion: string, isAnimating: bool,
                         isSpeaking: bool, speechText: string): (r: string)
    ensures r == if isSpeaking && !isAnimating then speechText else GetEmotionLabel(emotions, emotion)
  {
    if isAnimating then GetEmotionLabel(emotions, emotion)
    else if isSpeaking then speechText
    else GetEmotionLabel(emotions, emotion)
  }

  /**
   * What the speak button asks of the speech service: nothing for blank
   * text, otherwise the untrimmed text, the selected voice and the speed as
   * the rate, with pitch and volume left unset.
   */
  function SpeakRequest(speechText: string, selectedVoice: string, speechSpeed: real)
    : (r: Option<Speech.SpeechOptions>)
    ensures r.None? <==> IsBlank(speechText)
    ensures r.Some? ==> r.value.text == speechText && r.value.voice == Some(selectedVoice)
    ensures r.Some? ==> r.value.rate == Some(speechSpeed)
    ensures r.Some? ==> r.value.pitch.None? && r.value.volume.None?
  {
    TrimEmptyIffBlank(speechText);
    if Trim(speechText) == [] then None
    else Some(Speech.SpeechOptions(speechText, Some(selectedVoice), Some(speechSpeed), None, None))
  }

  class Character {
    const emotionService: Emotions.EmotionService
    const speechService: Speech.SpeechService
    const emotions: seq<EmotionOption> := EMOTIONS
    var speechText: string
    var selectedEmotion: string
    var selectedVoice: string
    var speechSpeed: real

    constructor(emotionService: Emotions.EmotionService, speechService: Speech.SpeechService)
      ensures this.emotionService == emotionService && this.speechService == speechService
      ensures speechText == "Hey! How are you doing?" && selectedEmotion == "neutral"
      ensures selectedVoice == "" && speechSpeed == 1.0
    {
      this.emotionService := emotionService;
      this.speechService := speechService;
      speechText := "Hey! How are you doing?";
      selectedEmotion := "neutral";
      selectedVoice := "";
      speechSpeed := 1.0;
    }

    /** The status line for the current signals; whether an animation runs comes from outside. */
    function Status(isAnimating: bool): string
      reads this, emotionService, speechService
    {
      CurrentStatus(emotions, emotionService.currentEmotion, isAnimating, speechService.isSpeaking, speechText)
    }

    /**
     * The loop in `spawn`: sets every emotion name to the empty path, so the
     * table lists the emotions in order, each with path "".
     */
    method BuildAnimMap() returns (animMap: seq<(string, string)>)
      ensures DistinctKeys(animMap)
      ensures |animMap| == |emotions|
      ensures forall i :: 0 <= i < |animMap| ==> animMap[i] == (emotions[i].value, "")
    {
      EmotionValuesDistinct();
      animMap := [];
      var i := 0;
      while i < |emotions|
        invariant 0 <= i <= |emotions|
        invariant DistinctKeys(animMap)
        invariant |animMap| == i
        invariant forall j :: 0 <= j < i ==> animMap[j] == (emotions[j].value, "")
      {
        animMap := MapSet(animMap, emotions[i].value, "");
        i := i + 1;
      }
    }

    /**
     * Creates an animator for the loaded model and initialises it with the
     * table from `BuildAnimMap`; every path is empty, so no clip load starts.
     */
    method Spawn<M, C>(model: M) returns (loads: seq<Animator.LoadRequest>)
      ensures loads == []
    {
      var animMap := BuildAnimMap();
      var mixer := new Animator.AnimatorService<M, C>(model);
      loads := mixer.Init(animMap);
      Animator.NoLoadsForEmptyPaths(animMap);
    }

    /**
     * Does nothing for blank text; otherwise speaks the text with the
     * selected voice and speed, which stops a running utterance first.
     */
    method Speak(engineVoices: seq<Speech.SynthesisVoice>, engineSpeaking: bool)
      modifies speechService
      ensures IsBlank(speechText) ==> unchanged(speechService)
      ensures !IsBlank(speechText) ==>
        var options := Speech.SpeechOptions(speechText, Some(selectedVoice), Some(speechSpeed), None, None);
        && !speechService.isSpeaking
        && speechService.currentUtterance == Some(Speech.BuildUtterance(options, engineVoices))
        && speechService.spoken == old(speechService.spoken) + [Speech.BuildUtterance(options, engineVoices)]
        && speechService.cancelCount
           == old(speechService.cancelCount) + (if old(speechService.isSpeaking) && engineSpeaking then 1 else 0)
      ensures speechService.voices == old(speechService.voices)
      ensures speechService.reloadsOnVoicesChanged == old(speechService.reloadsOnVoicesChanged)
    {
      var request := SpeakRequest(speechText, selectedVoice, speechSpeed);
      if request.Some? {
        speechService.Speak(request.value, engineVoices, engineSpeaking);
      }
    }

    /** Stops speech: the engine is cancelled exactly when it is speaking. */
    method StopSpeaking(engineSpeaking: bool)
      modifies speechService
      ensures !speechService.isSpeaking
      ensures speechService.cancelCount == old(speechService.cancelCount) + (if engineSpeaking then 1 else 0)
      ensures speechService.spoken == old(speechService.spoken)
      ensures speechService.currentUtterance == old(speechService.currentUtterance)
      ensures speechService.voices == old(speechService.voices)
      ensures speechService.reloadsOnVoicesChanged == old(speechService.reloadsOnVoicesChanged)
    {
      speechService.Stop(engineSpeaking);
    }

    /**
     * Loads the voices (subscribing to later changes when the engine offers
     * them), spawns the avatar, and selects and sets the neutral emotion;
     * the speech text, voice and speed and the speech state stay as they were.
     */
    method NgOnInit<M, C>(engineVoices: seq<Speech.SynthesisVoice>, hasVoicesChangedEvent: bool, model: M)
      returns (loads: seq<Animator.LoadRequest>)
      modifies this, emotionService, speechService
      ensures speechService.voices == Speech.ToVoiceOptions(engineVoices)
      ensures speechService.reloadsOnVoicesChanged
              == (old(speechService.reloadsOnVoicesChanged) || hasVoicesChangedEvent)
      ensures loads == []
      ensures selectedEmotion == "neutral" && emotionService.currentEmotion == "neutral"
      ensures speechText == old(speechText) && selectedVoice == old(selectedVoice)
      ensures speechSpeed == old(speechSpeed)
      ensures speechService.isSpeaking == old(speechService.isSpeaking)
      ensures speechService.currentUtterance == old(speechService.currentUtterance)
      ensures speechService.spoken == old(speechService.spoken)
      ensures speechService.cancelCount == old(speechService.cancelCount)
    {
      speechService.Initialize(engineVoices, hasVoicesChangedEvent);
      loads := Spawn<M, C>(model);
      selectedEmotion := "neutral";
      emotionService.SetEmotion("neutral");
    }

    /** Disposes the speech service, which stops it as `StopSpeaking` does. */
    method NgOnDestroy(engineSpeaking: bool)
      modifies speechService
      ensures !speechService.isSpeaking
      ensures speechService.cancelCount == old(speechService.cancelCount) + (if engineSpeaking then 1 else 0)
      ensures speechService.spoken == old(speechService.spoken)
      ensures speechService.currentUtterance == old(speechService.currentUtterance)
      ensures speechService.voices == old(speechService.voices)
      ensures speechService.reloadsOnVoicesChanged == old(speechService.reloadsOnVoicesChanged)
    {
      speechService.Dispose(engineSpeaking);
    }
  }
}
