/** Values shared by the player, the content script and the popup: the
    loosely typed settings values of the extension, the speech engine's
    voices and utterances, the commands the extension issues to the engine,
    and the "last match wins" voice lookup that all three files perform. */
module Speech {

  datatype Option<T> = None | Some(value: T)

  /** A JavaScript value as stored in a settings object: a string, a number,
      or `undefined` (what reading a missing key yields). */
  datatype Value = Str(s: string) | Num(n: real) | Undefined

  /** One entry of the engine's voice list. */
  datatype Voice = Voice(name: string, lang: string)

  /** A speech request as the engine receives it; `voice` is `None` when no
      voice was assigned, so the engine picks its default for `lang`. */
  datatype Utterance = Utterance(
    text: string,
    lang: Value,
    pitch: Value,
    rate: Value,
    volume: Value,
    voice: Option<Voice>)

  /** The calls the extension makes on the engine. */
  datatype Command = Cancel | SpeakUtterance(utterance: Utterance) | PauseSpeech | ResumeSpeech

  /** Reading `obj[key]` in JavaScript: `undefined` for a missing key. */
  function Get(m: map<string, Value>, key: string): Value
  {
    if key in m then m[key] else Undefined
  }

  /** `v.name == wanted`, with `wanted` a value read from settings. */
  predicate NameMatches(v: Voice, wanted: Value)
  {
    wanted == Str(v.name)
  }

  /** The test `v.name == wanted` as a predicate on voices. */
  function Named(wanted: Value): Voice -> bool
  {
    v => NameMatches(v, wanted)
  }

  /** The voice a `for (v of voices) if (test(v)) chosen = v` loop ends with:
      the last voice passing the test, or none. The player, the content
      script and the popup each run such a loop. */
  function LastWhere(voices: seq<Voice>, test: Voice -> bool): Option<Voice>
  {
    if |voices| == 0 then None
    else if test(voices[|voices| - 1]) then Some(voices[|voices| - 1])
    else LastWhere(voices[..|voices| - 1], test)
  }

  /** `voices[i]` passes the test and no later voice does. */
  predicate LastAt(voices: seq<Voice>, test: Voice -> bool, i: int)
  {
    0 <= i < |voices| && test(voices[i]) &&
    forall j :: i < j < |voices| ==> !test(voices[j])
  }

  /** Appending a voice that fails the test keeps the last match where it
      was. */
  lemma LastAtExtends(init: seq<Voice>, v: Voice, test: Voice -> bool, i: int)
    requires LastAt(init, test, i) && !test(v)
    ensures LastAt(init + [v], test, i)
  {
  }

  /** With no match in `init` and none in `v`, there is none in
      `init + [v]`. */
  lemma NoMatchExtends(init: seq<Voice>, v: Voice, test: Voice -> bool)
    requires forall i :: 0 <= i < |init| ==> !test(init[i])
    requires !test(v)
    ensures forall i :: 0 <= i < |init + [v]| ==> !test((init + [v])[i])
  {
  }

  /** `LastWhere` finds a voice exactly when one passes the test, and then it
      is the last such voice of the list. */
  lemma {:induction false} LastWhereIsLastMatch(voices: seq<Voice>, test: Voice -> bool)
    ensures LastWhere(voices, test).Some? <==>
      exists i :: 0 <= i < |voices| && test(voices[i])
    ensures LastWhere(voices, test).Some? ==>
      exists i :: LastAt(voices, test, i) && voices[i] == LastWhere(voices, test).value
  {
    if |voices| > 0 && !test(voices[|voices| - 1]) {
      var init := voices[..|voices| - 1];
      assert voices == init + [voices[|voices| - 1]];
      LastWhereIsLastMatch(init, test);
      if LastWhere(init, test).Some? {
        var i :| LastAt(init, test, i) && init[i] == LastWhere(init, test).value;
        LastAtExtends(init, voices[|voices| - 1], test, i);
      } else {
        NoMatchExtends(init, voices[|voices| - 1], test);
      }
    } else if |voices| > 0 {
      assert LastAt(voices, test, |voices| - 1);
    }
  }

  /** The voice assigned to an utterance: the last voice whose name is
      `wanted`, or none. */
  function VoiceNamed(voices: seq<Voice>, wanted: Value): Option<Voice>
  {
    LastWhere(voices, Named(wanted))
  }

  /** `VoiceNamed` finds a voice exactly when one has the wanted name, and
      then it is the last such voice of the list. */
  lemma VoiceNamedIsLastMatch(voices: seq<Voice>, wanted: Value)
    ensures VoiceNamed(voices, wanted).Some? <==>
      exists i :: 0 <= i < |voices| && NameMatches(voices[i], wanted)
    ensures VoiceNamed(voices, wanted).Some? ==>
      exists i :: LastAt(voices, Named(wanted), i) && voices[i] == VoiceNamed(voices, wanted).value
  {
    LastWhereIsLastMatch(voices, Named(wanted));
  }

  /** The voice-resolution loop itself, as it runs over the engine's list. */
  method ResolveVoice(voices: seq<Voice>, wanted: Value) returns (voice: Option<Voice>)
    ensures voice == VoiceNamed(voices, wanted)
  {
    voice := None;
    for i := 0 to |voices|
      invariant voice == VoiceNamed(voices[..i], wanted)
    {
      assert voices[..i + 1][..i] == voices[..i];
      if NameMatches(voices[i], wanted) {
        voice := Some(voices[i]);
      }
    }
    assert voices[..|voices|] == voices;
  }
}
