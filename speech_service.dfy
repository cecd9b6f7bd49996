/**
 * Browser speech synthesis (src/services/speech-service.ts).
 *
 * The service builds an utterance from the caller's options, hands it to the
 * engine, and keeps an `isSpeaking` flag that the utterance's start, end and
 * error events set. The engine itself is outside the model: what the service
 * reads from it (its voice list, its `speaking` flag) arrives as parameters,
 * and what the service asks of it (`speak`, `cancel`) is recorded in the
 * fields `spoken` and `cancelCount`.
 */
module Speech {
  import opened Js

  datatype SpeechOptions = SpeechOptions(
    text: string,
    voice: Option<string>,
    rate: Option<real>,
    pitch: Option<real>,
    volume: Option<real>)

  /** The public summary of a voice. */
  datatype VoiceOption = VoiceOption(name: string, lang: string)

  /** A voice as the engine reports it. */
  datatype SynthesisVoice = SynthesisVoice(
    name: string,
    lang: string,
    voiceURI: string,
    localService: bool,
    isDefault: bool)

  datatype Utterance = Utterance(
    text: string,
    voice: Option<SynthesisVoice>,
    rate: real,
    pitch: real,
    volume: real)

  /**
   * `x || 1` for an optional number: the given value when it is truthy, and
   * 1 when it is missing or 0.
   */
  function OrOne(x: Option<real>): (r: real)
    ensures r != 0.0
    ensures x.Some? && x.value != 0.0 ==> r == x.value
    ensures x.None? || x.value == 0.0 ==> r == 1.0
  {
    match x
    case Some(v) => if v != 0.0 then v else 1.0
    case None => 1.0
  }

  /** A string option is truthy when present and non-empty. */
  predicate IsTruthy(s: Option<string>) {
    s.Some? && s.value != ""
  }

  /**
   * The voice `speak` assigns: the first available voice whose name is
   * exactly the requested one, and none when no name is requested or no
   * voice has it.
   */
  function SelectVoice(available: seq<SynthesisVoice>, wanted: Option<string>): (r: Option<SynthesisVoice>)
    ensures r.Some? <==>
      IsTruthy(wanted) && exists i :: 0 <= i < |available| && available[i].name == wanted.value
    ensures r.Some? ==> r.value.name == wanted.value
    ensures r.Some? ==>
      exists i :: && 0 <= i < |available| && available[i] == r.value
                  && forall j :: 0 <= j < i ==> available[j].name != wanted.value
  {
    if !IsTruthy(wanted) then None
    else
      match FindIndex(available, (v: SynthesisVoice) => v.name == wanted.value)
      case None => None
      case Some(i) => Some(available[i])
  }

  /**
   * The utterance `speak(options)` configures: the text as given, the first
   * available voice with the requested name if any, and rate, pitch and
   * volume each the given truthy value or 1.
   */
  function BuildUtterance(options: SpeechOptions, available: seq<SynthesisVoice>): (u: Utterance)
    ensures u.text == options.text
    ensures u.voice.Some? <==>
      IsTruthy(options.voice) && exists i :: 0 <= i < |available| && available[i].name == options.voice.value
    ensures u.voice.Some? ==> u.voice.value in available && u.voice.value.name == options.voice.value
    ensures u.rate == (if options.rate.Some? && options.rate.value != 0.0 then options.rate.value else 1.0)
    ensures u.pitch == (if options.pitch.Some? && options.pitch.value != 0.0 then options.pitch.value else 1.0)
    ensures u.volume == (if options.volume.Some? && options.volume.value != 0.0 then options.volume.value else 1.0)
  {
    Utterance(
      options.text,
      SelectVoice(available, options.voice),
      OrOne(options.rate),
      OrOne(options.pitch),
      OrOne(options.volume))
  }

  /** `voiceList.map(voice => ({ name: voice.name, lang: voice.lang }))`. */
  function ToVoiceOptions(voiceList: seq<SynthesisVoice>): (r: seq<VoiceOption>)
    ensures |r| == |voiceList|
    ensures forall i :: 0 <= i < |r| ==>
      r[i].name == voiceList[i].name && r[i].lang == voiceList[i].lang
  {
    if voiceList == [] then []
    else [VoiceOption(voiceList[0].name, voiceList[0].lang)] + ToVoiceOptions(voiceList[1..])
  }

  class SpeechService {
    var isSpeaking: bool
    var voices: seq<VoiceOption>
    var currentUtterance: Option<Utterance>
    /** Every utterance handed to the engine's `speak`, oldest first. */
    var spoken: seq<Utterance>
    /** How many times the engine's `cancel` was called. */
    var cancelCount: nat
    /** Whether the engine's `onvoiceschanged` has been set to reload the voices. */
    var reloadsOnVoicesChanged: bool

    constructor()
      ensures !isSpeaking && voices == [] && currentUtterance == None
      ensures spoken == [] && cancelCount == 0 && !reloadsOnVoicesChanged
    {
      isSpeaking := false;
      voices := [];
      currentUtterance := None;
      spoken := [];
      cancelCount := 0;
      reloadsOnVoicesChanged := false;
    }

    /**
     * Loads the voices, and subscribes to the voices-changed event when the
     * engine has one.
     */
    method Initialize(engineVoices: seq<SynthesisVoice>, hasVoicesChangedEvent: bool)
      modifies this
      ensures voices == ToVoiceOptions(engineVoices)
      ensures reloadsOnVoicesChanged == (old(reloadsOnVoicesChanged) || hasVoicesChangedEvent)
      ensures isSpeaking == old(isSpeaking) && currentUtterance == old(currentUtterance)
      ensures spoken == old(spoken) && cancelCount == old(cancelCount)
    {
      LoadVoices(engineVoices);
      if hasVoicesChangedEvent {
        reloadsOnVoicesChanged := true;
      }
    }

    /** The engine's voices-changed event: reloads the voices once subscribed. */
    method OnVoicesChanged(engineVoices: seq<SynthesisVoice>)
      modifies this`voices
      ensures voices == if reloadsOnVoicesChanged then ToVoiceOptions(engineVoices) else old(voices)
    {
      if reloadsOnVoicesChanged {
        LoadVoices(engineVoices);
      }
    }

    /** Keeps the name and language of each engine voice, in the engine's order. */
    method LoadVoices(engineVoices: seq<SynthesisVoice>)
      modifies this`voices
      ensures voices == ToVoiceOptions(engineVoices)
    {
      voices := ToVoiceOptions(engineVoices);
    }

    /**
     * Stops a running utterance first (as far as the flag knows), then
     * builds the utterance for `options`, makes it the current one and hands
     * it to the engine. The flag stays false until the start event.
     */
    method Speak(options: SpeechOptions, engineVoices: seq<SynthesisVoice>, engineSpeaking: bool)
      modifies this
      ensures !isSpeaking
      ensures currentUtterance == Some(BuildUtterance(options, engineVoices))
      ensures spoken == old(spoken) + [BuildUtterance(options, engineVoices)]
      ensures cancelCount == old(cancelCount) + (if old(isSpeaking) && engineSpeaking then 1 else 0)
      ensures voices == old(voices) && reloadsOnVoicesChanged == old(reloadsOnVoicesChanged)
    {
      if isSpeaking {
        Stop(engineSpeaking);
      }
      var utterance := BuildUtterance(options, engineVoices);
      currentUtterance := Some(utterance);
      spoken := spoken + [utterance];
    }

    /** Cancels the engine when it is speaking; the flag is false afterwards either way. */
    method Stop(engineSpeaking: bool)
      modifies this
      ensures !isSpeaking
      ensures cancelCount == old(cancelCount) + (if engineSpeaking then 1 else 0)
      ensures currentUtterance == old(currentUtterance) && spoken == old(spoken)
      ensures voices == old(voices) && reloadsOnVoicesChanged == old(reloadsOnVoicesChanged)
    {
      if engineSpeaking {
        cancelCount := cancelCount + 1;
      }
      isSpeaking := false;
    }

    /** The same as `Stop`. */
    method Dispose(engineSpeaking: bool)
      modifies this
      ensures !isSpeaking
      ensures cancelCount == old(cancelCount) + (if engineSpeaking then 1 else 0)
      ensures currentUtterance == old(currentUtterance) && spoken == old(spoken)
      ensures voices == old(voices) && reloadsOnVoicesChanged == old(reloadsOnVoicesChanged)
    {
      Stop(engineSpeaking);
    }

    /** An utterance's start event. */
    method OnStart()
      modifies this`isSpeaking
      ensures isSpeaking
    {
      isSpeaking := true;
    }

    /** An utterance's end event. */
    method OnEnd()
      modifies this`isSpeaking
      ensures !isSpeaking
    {
      isSpeaking := false;
    }

    /** An utterance's error event. */
    method OnError()
      modifies this`isSpeaking
      ensures !isSpeaking
    {
      isSpeaking := false;
    }
  }

  /**
   * A second `speak` while the first utterance is being spoken cancels the
   * engine once, and the flag stays false until the second utterance starts.
   */
  method SpeakOverSpeechScenario(first: SpeechOptions, second: SpeechOptions, engineVoices: seq<SynthesisVoice>)
    returns (cancels: nat, speakingAfter: bool, handedOver: seq<Utterance>)
    ensures cancels == 1
    ensures !speakingAfter
    ensures handedOver == [BuildUtterance(first, engineVoices), BuildUtterance(second, engineVoices)]
  {
    var service := new SpeechService();
    service.Speak(first, engineVoices, false);
    service.OnStart();
    service.Speak(second, engineVoices, true);
    cancels := service.cancelCount;
    speakingAfter := service.isSpeaking;
    handedOver := service.spoken;
  }

  /**
   * `speak` while the flag is still false (the first utterance has not
   * started yet) cancels nothing, even though the engine is busy: the second
   * utterance is queued behind the first.
   */
  method SpeakBeforeStartScenario(first: SpeechOptions, second: SpeechOptions, engineVoices: seq<SynthesisVoice>)
    returns (cancels: nat, handedOver: seq<Utterance>)
    ensures cancels == 0
    ensures handedOver == [BuildUtterance(first, engineVoices), BuildUtterance(second, engineVoices)]
  {
    var service := new SpeechService();
    service.Speak(first, engineVoices, false);
    service.Speak(second, engineVoices, true);
    cancels := service.cancelCount;
    handedOver := service.spoken;
  }
}
