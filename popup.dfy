/** The settings popup of the extension (extension/popup.js): the voice
    dropdown, rebuilt from the engine's voice list by `updateVoices`, which
    also picks a default voice the first time; and the change handlers that
    write one setting each and save the settings.

    Every `saveSettings` call is recorded in `saves` with the settings it
    writes. */
module Popup {
  import opened Speech

  /** `v.lang == lang`, with `lang` a value read from settings. */
  predicate LangMatches(v: Voice, lang: Value)
  {
    lang == Str(v.lang)
  }

  /** The test `v.lang == lang` as a predicate on voices. */
  function WithLang(lang: Value): Voice -> bool
  {
    v => LangMatches(v, lang)
  }

  /** The voice the `for (v of voices) if (v.lang == lang) ...` loop last
      matches: the last voice of that language, or none. */
  function LastWithLang(voices: seq<Voice>, lang: Value): Option<Voice>
  {
    LastWhere(voices, WithLang(lang))
  }

  /** `LastWithLang` finds a voice exactly when one has the language, and
      then it is the last voice of the list with that language. */
  lemma LastWithLangIsLastMatch(voices: seq<Voice>, lang: Value)
    ensures LastWithLang(voices, lang).Some? <==>
      exists i :: 0 <= i < |voices| && LangMatches(voices[i], lang)
    ensures LastWithLang(voices, lang).Some? ==>
      exists i :: LastAt(voices, WithLang(lang), i) && voices[i] == LastWithLang(voices, lang).value
  {
    LastWhereIsLastMatch(voices, WithLang(lang));
  }

  /** The settings after the first loop of `updateVoices`: while no voice is
      chosen (`voice` is the empty string), the name of the last voice of the
      chosen language becomes the voice. */
  function WithDefaultVoice(settings: map<string, Value>, voices: seq<Voice>): map<string, Value>
  {
    if Get(settings, "voice") != Str("") then settings
    else match LastWithLang(voices, Get(settings, "lang"))
      case None => settings
      case Some(v) => settings["voice" := Str(v.name)]
  }

  /** The default-voice rule: a chosen voice is kept; with none chosen, the
      voice becomes the name of the last voice whose language is the chosen
      language, and stays empty when no voice has that language. No other
      setting changes. */
  lemma DefaultVoiceRule(settings: map<string, Value>, voices: seq<Voice>)
    ensures Get(settings, "voice") != Str("") ==> WithDefaultVoice(settings, voices) == settings
    ensures (&& Get(settings, "voice") == Str("")
             && forall i :: 0 <= i < |voices| ==> !LangMatches(voices[i], Get(settings, "lang")))
      ==> WithDefaultVoice(settings, voices) == settings
    ensures (&& Get(settings, "voice") == Str("")
             && exists i :: 0 <= i < |voices| && LangMatches(voices[i], Get(settings, "lang")))
      ==> exists i ::
        && LastAt(voices, WithLang(Get(settings, "lang")), i)
        && WithDefaultVoice(settings, voices) == settings["voice" := Str(voices[i].name)]
    ensures forall k :: k != "voice" ==> Get(WithDefaultVoice(settings, voices), k) == Get(settings, k)
  {
    LastWithLangIsLastMatch(voices, Get(settings, "lang"));
  }

  /** One entry of the dropdown: `new Option(text, value, defaultSelected,
      selected)`. */
  datatype VoiceOption = VoiceOption(text: string, value: string, defaultSelected: bool, selected: bool)

  /** The dropdown marks a voice selected when both its language and its name
      are the chosen ones. */
  predicate IsCurrent(settings: map<string, Value>, v: Voice)
  {
    Get(settings, "lang") == Str(v.lang) && Get(settings, "voice") == Str(v.name)
  }

  /** What the dropdown's change handler writes for the option picked: the
      option's value as the language and its label as the voice. */
  function Choose(settings: map<string, Value>, o: VoiceOption): map<string, Value>
  {
    settings["lang" := Str(o.value)]["voice" := Str(o.text)]
  }

  /** When no voice was chosen and some voice has the chosen language, the
      voice picked as the default is shown selected once the dropdown is
      rebuilt. */
  lemma DefaultVoiceSelected(settings: map<string, Value>, voices: seq<Voice>)
    requires Get(settings, "voice") == Str("")
    requires exists i :: 0 <= i < |voices| && LangMatches(voices[i], Get(settings, "lang"))
    ensures exists i ::
      && LastAt(voices, WithLang(Get(settings, "lang")), i)
      && IsCurrent(WithDefaultVoice(settings, voices), voices[i])
  {
    DefaultVoiceRule(settings, voices);
    var i :| LastAt(voices, WithLang(Get(settings, "lang")), i) &&
      WithDefaultVoice(settings, voices) == settings["voice" := Str(voices[i].name)];
    assert IsCurrent(WithDefaultVoice(settings, voices), voices[i]);
  }

  /** Picking a voice with a non-empty name in the dropdown and rebuilding the
      dropdown keeps that choice and shows that voice selected. */
  lemma ChoiceSurvivesRebuild(settings: map<string, Value>, voices: seq<Voice>, k: int, o: VoiceOption)
    requires 0 <= k < |voices|
    requires o.text == voices[k].name && o.value == voices[k].lang
    requires voices[k].name != ""
    ensures WithDefaultVoice(Choose(settings, o), voices) == Choose(settings, o)
    ensures IsCurrent(Choose(settings, o), voices[k])
  {
  }

  class PopupPage {
    var currentSettings: map<string, Value>
    var options: seq<VoiceOption>
    var saves: seq<map<string, Value>>

    /** The page once `loadSettings` has handed it the stored settings. */
    constructor (loaded: map<string, Value>)
      ensures currentSettings == loaded && options == [] && saves == []
    {
      currentSettings := loaded;
      options := [];
      saves := [];
    }

    /** `updateVoices`: choose a default voice when none is chosen, then
        rebuild the dropdown with one option per voice, in the voices' order,
        labelled with the voice's name, valued with its language, and
        selected exactly when both match the settings. */
    method UpdateVoices(voices: seq<Voice>)
      modifies this`currentSettings, this`options
      ensures currentSettings == WithDefaultVoice(old(currentSettings), voices)
      ensures |options| == |voices|
      ensures forall i :: 0 <= i < |voices| ==>
        && options[i].text == voices[i].name
        && options[i].value == voices[i].lang
        && (options[i].selected <==> IsCurrent(currentSettings, voices[i]))
        && options[i].defaultSelected == options[i].selected
    {
      if Get(currentSettings, "voice") == Str("") {
        ghost var before := currentSettings;
        for i := 0 to |voices|
          invariant currentSettings == match LastWithLang(voices[..i], Get(before, "lang"))
            case None => before
            case Some(v) => before["voice" := Str(v.name)]
        {
          assert voices[..i + 1][..i] == voices[..i];
          if LangMatches(voices[i], Get(currentSettings, "lang")) {
            currentSettings := currentSettings["voice" := Str(voices[i].name)];
          }
        }
        assert voices[..|voices|] == voices;
      }

      options := [];
      for i := 0 to |voices|
        invariant |options| == i
        invariant currentSettings == WithDefaultVoice(old(currentSettings), voices)
        invariant forall j :: 0 <= j < i ==>
          options[j] == VoiceOption(voices[j].name, voices[j].lang, IsCurrent(currentSettings, voices[j]), IsCurrent(currentSettings, voices[j]))
      {
        var shouldSelect := false;
        if Get(currentSettings, "lang") == Str(voices[i].lang) && Get(currentSettings, "voice") == Str(voices[i].name) {
          shouldSelect := true;
        }
        options := options + [VoiceOption(voices[i].name, voices[i].lang, shouldSelect, shouldSelect)];
      }
    }

    /** `voiceDropdown.onchange` with option `k` picked: the language becomes
        the option's value, the voice its label, and the settings are saved. */
    method OnVoiceDropdownChange(k: nat)
      requires k < |options|
      modifies this`currentSettings, this`saves
      ensures currentSettings == Choose(old(currentSettings), options[k])
      ensures saves == old(saves) + [currentSettings]
    {
      currentSettings := currentSettings["lang" := Str(options[k].value)];
      currentSettings := currentSettings["voice" := Str(options[k].text)];
      saves := saves + [currentSettings];
    }

    /** The handler `getChangeHandler(input, settingName)` returns: the named
        setting takes the input's value, a string, and the settings are
        saved; no other setting changes. */
    method OnSettingChange(settingName: string, inputValue: string)
      modifies this`currentSettings, this`saves
      ensures Get(currentSettings, settingName) == Str(inputValue)
      ensures forall k :: k != settingName ==> Get(currentSettings, k) == Get(old(currentSettings), k)
      ensures currentSettings.Keys == old(currentSettings).Keys + {settingName}
      ensures saves == old(saves) + [currentSettings]
    {
      currentSettings := currentSettings[settingName := Str(inputValue)];
      saves := saves + [currentSettings];
    }
  }

  /** The dropdown is built, the user picks voice `k`, and the dropdown is
      rebuilt from the same voice list: the voice picked stays the chosen one
      and its option is the one shown selected. */
  method PickAndRebuild(page: PopupPage, voices: seq<Voice>, k: nat)
    requires k < |voices| && voices[k].name != ""
    modifies page
    ensures |page.options| == |voices|
    ensures IsCurrent(page.currentSettings, voices[k])
    ensures page.options[k].selected
  {
    page.UpdateVoices(voices);
    ghost var before := page.currentSettings;
    ghost var picked := page.options[k];
    page.OnVoiceDropdownChange(k);
    ChoiceSurvivesRebuild(before, voices, k, picked);
    page.UpdateVoices(voices);
  }
}
