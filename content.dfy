/** The content script of the extension (extension/content.js): its settings
    object, which starts from built-in defaults and takes in what storage
    holds and every later change; the one-shot `speak`; and the
    `speakBatched` chain, which speaks a text ten characters at a time, each
    utterance's end handler calling `speakBatched` on what is left.

    Every engine command the script issues is appended to `commands`. */
module Content {
  import opened Speech

  /** The number of characters one `speakBatched` utterance speaks. */
  const BatchSize: nat := 10

  /** The settings object before anything is loaded from storage. */
  const Defaults: map<string, Value> := map[
    "lang" := Str("zh-CN"),
    "pitch" := Num(1.0),
    "rate" := Num(1.0),
    "volume" := Num(1.0),
    "voice" := Str("Google\U{00A0}普通话（中国大陆）"),  // a no-break space after "Google"
    "query" := Str("sentence.original")]

  function Min(a: nat, b: nat): nat
  {
    if a <= b then a else b
  }

  /** `text.substring(0, 10)` and `text.substring(10)`: the segment spoken now
      and the remainder left to the end handler. */
  function Split(text: string): (r: (string, string))
    ensures r.0 + r.1 == text
    ensures |r.0| == Min(BatchSize, |text|)
    ensures |text| > 0 ==> |r.1| < |text|
  {
    var k := Min(BatchSize, |text|);
    (text[..k], text[k..])
  }

  /** The texts the chain started by `speakBatched(text)` speaks, in order:
      the segment of each call, then those of the call on its remainder. */
  function Chunks(text: string): seq<string>
    decreases |text|
  {
    if |text| == 0 then []
    else [Split(text).0] + Chunks(Split(text).1)
  }

  function Concat(parts: seq<string>): string
  {
    if |parts| == 0 then [] else parts[0] + Concat(parts[1..])
  }

  /** Nothing of the text is lost or repeated: the chunks, joined, are the
      text. */
  lemma {:induction false} ChunksConcat(text: string)
    ensures Concat(Chunks(text)) == text
    decreases |text|
  {
    if |text| > 0 {
      var r := Split(text);
      ChunksConcat(r.1);
      assert Chunks(text)[1..] == Chunks(r.1);
    }
  }

  /** Every chunk holds one to ten characters, and every chunk but the last
      exactly ten. */
  lemma {:induction false} ChunkLengths(text: string)
    ensures forall i :: 0 <= i < |Chunks(text)| ==> 1 <= |Chunks(text)[i]| <= BatchSize
    ensures forall i :: 0 <= i < |Chunks(text)| - 1 ==> |Chunks(text)[i]| == BatchSize
    decreases |text|
  {
    if |text| > 0 {
      var r := Split(text);
      ChunkLengths(r.1);
      var cs := Chunks(text);
      forall i | 0 <= i < |cs|
        ensures 1 <= |cs[i]| <= BatchSize
        ensures i < |cs| - 1 ==> |cs[i]| == BatchSize
      {
        if i > 0 {
          assert cs[i] == Chunks(r.1)[i - 1];
        } else if i < |cs| - 1 {
          assert |r.1| > 0;
        }
      }
    }
  }

  /** The chain speaks ⌈|text| / 10⌉ utterances. */
  lemma {:induction false} ChunkCount(text: string)
    ensures |Chunks(text)| == (|text| + BatchSize - 1) / BatchSize
    decreases |text|
  {
    if |text| > 0 {
      ChunkCount(Split(text).1);
    }
  }

  /** The utterance `speak` and `speakBatched` build for `text`: lang, pitch,
      rate and volume read from the settings as they are, and the voice
      named by the `voice` setting; reading a missing key gives
      `undefined`. */
  function UtteranceFrom(settings: map<string, Value>, text: string, voices: seq<Voice>): Utterance
  {
    Utterance(text, Get(settings, "lang"), Get(settings, "pitch"), Get(settings, "rate"),
              Get(settings, "volume"), VoiceNamed(voices, Get(settings, "voice")))
  }

  /** The commands of the whole chain started by `speakBatched(text)`, when the
      settings and the voice list stay as they are: each call cancels and
      speaks its segment, then its end handler continues with the
      remainder. */
  function BatchCommands(settings: map<string, Value>, voices: seq<Voice>, text: string): seq<Command>
    decreases |text|
  {
    if |text| == 0 then []
    else [Cancel, SpeakUtterance(UtteranceFrom(settings, Split(text).0, voices))]
         + BatchCommands(settings, voices, Split(text).1)
  }

  /** The chain issues one cancel and one utterance per chunk, in order, and
      nothing else. */
  lemma {:induction false} BatchCommandsSpeakChunks(settings: map<string, Value>, voices: seq<Voice>, text: string)
    ensures |BatchCommands(settings, voices, text)| == 2 * |Chunks(text)|
    ensures forall i :: 0 <= i < |Chunks(text)| ==>
      && BatchCommands(settings, voices, text)[2 * i] == Cancel
      && BatchCommands(settings, voices, text)[2 * i + 1] == SpeakUtterance(UtteranceFrom(settings, Chunks(text)[i], voices))
    decreases |text|
  {
    if |text| > 0 {
      var r := Split(text);
      BatchCommandsSpeakChunks(settings, voices, r.1);
      var all := BatchCommands(settings, voices, text);
      var rest := BatchCommands(settings, voices, r.1);
      var cs := Chunks(text);
      forall i | 0 <= i < |cs|
        ensures all[2 * i] == Cancel
        ensures all[2 * i + 1] == SpeakUtterance(UtteranceFrom(settings, cs[i], voices))
      {
        if i > 0 {
          assert cs[i] == Chunks(r.1)[i - 1];
          assert all[2 * i] == rest[2 * (i - 1)];
          assert all[2 * i + 1] == rest[2 * (i - 1) + 1];
        }
      }
    }
  }

  /** One entry of the `changes` object `chrome.storage.onChanged` passes to
      its listeners; `newValue` is `undefined` for a removed key. */
  datatype StorageChange = StorageChange(oldValue: Value, newValue: Value)

  /** The new values a `changes` object carries, by key. */
  function NewValues(changes: map<string, StorageChange>): map<string, Value>
  {
    map k | k in changes :: changes[k].newValue
  }

  class ContentScript {
    var extensionSettings: map<string, Value>
    var commands: seq<Command>

    constructor ()
      ensures extensionSettings == Defaults && commands == []
    {
      extensionSettings := Defaults;
      commands := [];
    }

    /** The callback of `loadSettings`: every key of the stored `result`
        overwrites the setting of that name; every other setting keeps its
        value. */
    method LoadSettings(result: map<string, Value>)
      modifies this`extensionSettings
      ensures extensionSettings == old(extensionSettings) + result
      ensures forall k :: k in result ==> k in extensionSettings && extensionSettings[k] == result[k]
      ensures forall k :: k !in result ==> Get(extensionSettings, k) == Get(old(extensionSettings), k)
    {
      var remaining := result.Keys;
      while remaining != {}
        invariant remaining <= result.Keys
        invariant extensionSettings.Keys == old(extensionSettings).Keys + (result.Keys - remaining)
        invariant forall k :: k in result.Keys - remaining ==> extensionSettings[k] == result[k]
        invariant forall k :: k in extensionSettings && k !in result.Keys - remaining ==>
          extensionSettings[k] == old(extensionSettings)[k]
        decreases remaining
      {
        var key :| key in remaining;
        extensionSettings := extensionSettings[key := result[key]];
        remaining := remaining - {key};
      }
    }

    /** `onSettingsChanged`: every changed key takes its new value; every
        other setting keeps its value. */
    method OnSettingsChanged(changes: map<string, StorageChange>)
      modifies this`extensionSettings
      ensures extensionSettings == old(extensionSettings) + NewValues(changes)
      ensures forall k :: k in changes ==> k in extensionSettings && extensionSettings[k] == changes[k].newValue
      ensures forall k :: k !in changes ==> Get(extensionSettings, k) == Get(old(extensionSettings), k)
    {
      var remaining := changes.Keys;
      while remaining != {}
        invariant remaining <= changes.Keys
        invariant extensionSettings.Keys == old(extensionSettings).Keys + (changes.Keys - remaining)
        invariant forall k :: k in changes.Keys - remaining ==> extensionSettings[k] == changes[k].newValue
        invariant forall k :: k in extensionSettings && k !in changes.Keys - remaining ==>
          extensionSettings[k] == old(extensionSettings)[k]
        decreases remaining
      {
        var key :| key in remaining;
        extensionSettings := extensionSettings[key := changes[key].newValue];
        remaining := remaining - {key};
      }
    }

    /** `speak(text)`: cancel whatever is being spoken and speak `text` whole. */
    method Speak(text: string, voices: seq<Voice>)
      modifies this`commands
      ensures commands == old(commands) + [Cancel, SpeakUtterance(UtteranceFrom(extensionSettings, text, voices))]
    {
      var chosen := ResolveVoice(voices, Get(extensionSettings, "voice"));
      var utter := Utterance(text, Get(extensionSettings, "lang"), Get(extensionSettings, "pitch"),
                             Get(extensionSettings, "rate"), Get(extensionSettings, "volume"), chosen);
      commands := commands + [Cancel, SpeakUtterance(utter)];
    }

    /** One call of `speakBatched(text)`. An empty text does nothing;
        otherwise the first ten characters are spoken and `next` is the
        remainder the utterance's end handler will pass to the next call. */
    method SpeakBatched(text: string, voices: seq<Voice>) returns (next: Option<string>)
      modifies this`commands
      ensures text == [] ==> next == None && commands == old(commands)
      ensures text != [] ==>
        && next == Some(Split(text).1)
        && commands == old(commands) + [Cancel, SpeakUtterance(UtteranceFrom(extensionSettings, Split(text).0, voices))]
      ensures commands + BatchCommands(extensionSettings, voices, if next.Some? then next.value else [])
              == old(commands) + BatchCommands(extensionSettings, voices, text)
    {
      if |text| == 0 {
        return None;
      }
      var segment := text[..Min(BatchSize, |text|)];
      var remainder := text[Min(BatchSize, |text|)..];
      var chosen := ResolveVoice(voices, Get(extensionSettings, "voice"));
      var utter := Utterance(segment, Get(extensionSettings, "lang"), Get(extensionSettings, "pitch"),
                             Get(extensionSettings, "rate"), Get(extensionSettings, "volume"), chosen);
      var step := [Cancel, SpeakUtterance(utter)];
      assert (commands + step) + BatchCommands(extensionSettings, voices, remainder)
          == commands + (step + BatchCommands(extensionSettings, voices, remainder));
      commands := commands + step;
      next := Some(remainder);
    }
  }
}
