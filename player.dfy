/** The continuous-playback controller of the extension (class TTSPlayer).

    The browser runs the controller's timers and the engine's callbacks one at
    a time on a single thread. Here each such callback is a method of its own,
    called by the environment:

    - `PlayNext(gen, voices)`: an armed `playNext` timer of the run `gen` fires;
    - `SegmentEnded(gen, index)`: the end closure of the segment `index`,
      started by the run `gen`, fires;
    - `StartRefresher()`: the engine reports that an utterance started or
      resumed, which runs the keep-alive refresher once and arms it;
    - `RefresherTick()`: an armed keep-alive timer fires;
    - `DeferredSpeak()`: the oldest armed 50 ms timer of `_speak` fires and
      hands its utterance to the engine.

    Which timers and closures are outstanding is part of the state
    (`pendingPlayNext`, `pendingEnds`, `pendingSpeaks`, `armedRefreshers`),
    and everything the
    controller tells the outside world (listener notifications and engine
    commands) is appended to `trace`. */
module Player {
  import opened Speech

  /** What a setter is given: a value `isNumeric` accepts, with the number it
      denotes, or anything else. */
  datatype Input = Numeric(value: real) | NotNumeric

  predicate IsNumeric(x: Input)
  {
    x.Numeric?
  }

  /** The captured variables of one segment's end closure: the run that
      started it (`cachedInstanceId`) and its index (`cachedIndex`). */
  datatype EndTag = EndTag(gen: nat, index: nat)

  /** What the controller does that is observable from outside. */
  datatype Effect =
    | Engine(command: Command)
    | StartNotified(index: nat)  // the `onstart` listener is called
    | EndNotified(index: nat)    // the `onend` listener is called

  /** Entry `i` of `trace` is a listener notification. */
  ghost predicate NotifiesAt(trace: seq<Effect>, i: int)
  {
    0 <= i < |trace| && (trace[i].StartNotified? || trace[i].EndNotified?)
  }

  /** Every listener notification in `trace` names a segment of a list of
      length `n`. */
  ghost predicate NotificationsWithin(trace: seq<Effect>, n: nat)
  {
    forall i {:trigger NotifiesAt(trace, i)} :: NotifiesAt(trace, i) ==> trace[i].index < n
  }

  /** The `playNext` closure of run `g` is armed. */
  ghost predicate Armed(pn: multiset<nat>, g: nat)
  {
    g in pn
  }

  /** The end closure `t` is waiting for its utterance to end. */
  ghost predicate Awaiting(pe: multiset<EndTag>, t: EndTag)
  {
    t in pe
  }

  /** The invariant of the sequencing state; `cur` is the current run,
      `idx` the current index, `n` the length of the list, and `live` the end
      closure of the current run's speaking segment, if there is one.
      No callback belongs to a run that has not started yet, every started
      segment is a segment of the list, and the chain of the current run has
      at most one outstanding link: one armed `playNext` or the one speaking
      segment `live`, whose presence means that `idx` is inside the list.
      The quantifiers are triggered only by `Armed` and `Awaiting`, which the
      lemmas below mention where they need an instance. */
  ghost predicate ChainOk(pn: multiset<nat>, pe: multiset<EndTag>, live: Option<EndTag>, cur: nat, idx: nat, n: nat)
  {
    && idx <= n
    && (forall g: nat {:trigger Armed(pn, g)} :: Armed(pn, g) ==> g <= cur)
    && (forall t {:trigger Awaiting(pe, t)} :: Awaiting(pe, t) ==> t.index < n && (t.gen < cur || live == Some(t)))
    && pn[cur] <= 1
    && (live.Some? ==> live.value.gen == cur && pe[live.value] == 1 && pn[cur] == 0 && idx < n)
  }

  /** `play()`: a new run with its first `playNext` armed, from index 0;
      whatever the old run left outstanding is now stale. */
  lemma ChainAfterPlay(pn: multiset<nat>, pe: multiset<EndTag>, live: Option<EndTag>, cur: nat, idx: nat, n: nat)
    requires ChainOk(pn, pe, live, cur, idx, n)
    ensures ChainOk(pn + multiset{cur + 1}, pe, None, cur + 1, 0, n)
  {
    var pn' := pn + multiset{cur + 1};
    assert !Armed(pn, cur + 1);
    forall g: nat | Armed(pn', g)
      ensures g <= cur + 1
    {
      if g != cur + 1 {
        assert Armed(pn, g);
      }
    }
    forall t | Awaiting(pe, t)
      ensures t.index < n && t.gen < cur + 1
    {
    }
  }

  /** `reset()`: only the index changes, to 0. */
  lemma ChainAfterReset(pn: multiset<nat>, pe: multiset<EndTag>, live: Option<EndTag>, cur: nat, idx: nat, n: nat)
    requires ChainOk(pn, pe, live, cur, idx, n)
    ensures ChainOk(pn, pe, live, cur, 0, n)
  {
  }

  /** A `playNext` of run `gen` fires and starts the segment `idx`; when
      `gen` is the current run, that segment becomes its live link. */
  lemma ChainAfterStart(pn: multiset<nat>, pe: multiset<EndTag>, live: Option<EndTag>, cur: nat, idx: nat, n: nat, gen: nat)
    requires ChainOk(pn, pe, live, cur, idx, n)
    requires gen in pn && idx < n
    ensures ChainOk(pn - multiset{gen}, pe + multiset{EndTag(gen, idx)},
                    if gen == cur then Some(EndTag(gen, idx)) else live, cur, idx, n)
  {
    var started := EndTag(gen, idx);
    var live' := if gen == cur then Some(started) else live;
    assert Armed(pn, gen);
    if gen == cur {
      assert live == None;
      assert !Awaiting(pe, started);
    }
    forall g: nat | Armed(pn - multiset{gen}, g)
      ensures g <= cur
    {
      assert Armed(pn, g);
    }
    forall t | Awaiting(pe + multiset{started}, t)
      ensures t.index < n && (t.gen < cur || live' == Some(t))
    {
      if t != started {
        assert Awaiting(pe, t);
      }
    }
  }

  /** A `playNext` of run `gen` fires and starts nothing. */
  lemma ChainAfterIdle(pn: multiset<nat>, pe: multiset<EndTag>, live: Option<EndTag>, cur: nat, idx: nat, n: nat, gen: nat)
    requires ChainOk(pn, pe, live, cur, idx, n)
    ensures ChainOk(pn - multiset{gen}, pe, live, cur, idx, n)
  {
    forall g: nat | Armed(pn - multiset{gen}, g)
      ensures g <= cur
    {
      assert Armed(pn, g);
    }
  }

  /** The end closure `t` fires: if it is the current run's live link, the run
      advances by one and re-arms; a stale one changes nothing. */
  lemma ChainAfterEnd(pn: multiset<nat>, pe: multiset<EndTag>, live: Option<EndTag>, cur: nat, idx: nat, n: nat, t: EndTag)
    requires ChainOk(pn, pe, live, cur, idx, n)
    requires t in pe
    ensures t.index < n
    ensures t.gen == cur ==> live == Some(t) && ChainOk(pn + multiset{cur}, pe - multiset{t}, None, cur, idx + 1, n)
    ensures t.gen != cur ==> ChainOk(pn, pe - multiset{t}, live, cur, idx, n)
  {
    assert Awaiting(pe, t);
    if t.gen == cur {
      assert live == Some(t);
      forall g: nat | Armed(pn + multiset{cur}, g)
        ensures g <= cur
      {
        if g != cur {
          assert Armed(pn, g);
        }
      }
      forall u | Awaiting(pe - multiset{t}, u)
        ensures u.index < n && u.gen < cur
      {
        assert Awaiting(pe, u);
      }
    } else {
      forall u | Awaiting(pe - multiset{t}, u)
        ensures u.index < n && (u.gen < cur || live == Some(u))
      {
        assert Awaiting(pe, u);
      }
    }
  }

  /** Appending to a trace in two steps is appending the two parts at once. */
  lemma AppendTwice(t: seq<Effect>, a: seq<Effect>, b: seq<Effect>)
    ensures t + a + b == t + (a + b)
  {
  }

  /** Appending two traces whose notifications name segments of the list
      gives such a trace. */
  lemma NotificationsWithinAppend(a: seq<Effect>, b: seq<Effect>, n: nat)
    requires NotificationsWithin(a, n) && NotificationsWithin(b, n)
    ensures NotificationsWithin(a + b, n)
  {
    forall i | NotifiesAt(a + b, i)
      ensures (a + b)[i].index < n
    {
      if i < |a| {
        assert (a + b)[i] == a[i];
        assert NotifiesAt(a, i);
      } else {
        assert (a + b)[i] == b[i - |a|];
        assert NotifiesAt(b, i - |a|);
      }
    }
  }

  class TtsPlayer {
    const textList: seq<string>

    var lang: string
    var voice: string
    var rate: real
    var pitch: real
    var volume: real

    var currentIndex: nat
    var playbackInstanceId: nat
    var isPlaying: bool
    var isPaused: bool

    // whether an `onstart` / `onend` listener is registered
    var hasOnStart: bool
    var hasOnEnd: bool

    // the outstanding callbacks the browser will run later
    var pendingPlayNext: multiset<nat>  // the run of each armed `playNext` timer
    var pendingEnds: multiset<EndTag>   // end closures of started segments
    var armedRefreshers: nat            // armed keep-alive timers
    var pendingSpeaks: seq<Utterance>   // utterances of armed 50 ms speak timers, oldest first

    var trace: seq<Effect>

    // the end closure of the current run's speaking segment, if any
    ghost var liveEnd: Option<EndTag>

    /** The sequencing state satisfies `ChainOk`. */
    ghost predicate ChainValid()
      reads this`pendingPlayNext, this`pendingEnds, this`liveEnd, this`playbackInstanceId, this`currentIndex
    {
      ChainOk(pendingPlayNext, pendingEnds, liveEnd, playbackInstanceId, currentIndex, |textList|)
    }

    /** The voice parameters lie in the ranges their setters accept. */
    ghost predicate ParamsValid()
      reads this`pitch, this`rate, this`volume
    {
      0.0 <= pitch <= 2.0 && 0.1 <= rate <= 10.0 && 0.0 <= volume <= 1.0
    }

    /** Every index ever passed to a listener is a segment of the list. */
    ghost predicate TraceValid()
      reads this`trace
    {
      NotificationsWithin(trace, |textList|)
    }

    ghost predicate Valid()
      reads this
    {
      ChainValid() && ParamsValid() && TraceValid()
    }

    constructor (textList: seq<string>)
      ensures Valid()
      ensures this.textList == textList
      ensures lang == "zh_CN" && voice == "" && rate == 1.0 && pitch == 1.0 && volume == 1.0
      ensures currentIndex == 0 && playbackInstanceId == 0 && !isPlaying && !isPaused
      ensures !hasOnStart && !hasOnEnd
      ensures pendingPlayNext == multiset{} && pendingEnds == multiset{} && armedRefreshers == 0
      ensures pendingSpeaks == [] && trace == []
    {
      this.textList := textList;
      lang, voice := "zh_CN", "";
      rate, pitch, volume := 1.0, 1.0, 1.0;
      currentIndex, playbackInstanceId := 0, 0;
      isPlaying, isPaused := false, false;
      hasOnStart, hasOnEnd := false, false;
      pendingPlayNext, pendingEnds, armedRefreshers := multiset{}, multiset{}, 0;
      pendingSpeaks, trace := [], [];
      liveEnd := None;
    }

    /** The utterance `_speak` builds for `text` from the current voice
        parameters and the engine's voice list. */
    function UtteranceFor(text: string, voices: seq<Voice>): Utterance
      reads this`lang, this`pitch, this`rate, this`volume, this`voice
    {
      Utterance(text, Str(lang), Num(pitch), Num(rate), Num(volume), VoiceNamed(voices, Str(voice)))
    }

    /** What starting segment `i` adds to the trace: the `onstart`
        notification, the cancel of `_speak`, once its timer fires the
        deferred speak of the segment, and then the resume of the refresher
        that the utterance's start event runs (`_speak` has just cleared the
        pause flag). */
    function StartEffects(i: nat, voices: seq<Voice>): seq<Effect>
      requires i < |textList|
      reads this`lang, this`pitch, this`rate, this`volume, this`voice, this`hasOnStart
    {
      (if hasOnStart then [StartNotified(i)] else [])
      + [Engine(Cancel), Engine(SpeakUtterance(UtteranceFor(textList[i], voices))), Engine(ResumeSpeech)]
    }

    /** What the end closure of segment `i` adds to the trace: the `onend`
        notification. */
    function EndEffects(i: nat): seq<Effect>
      reads this`hasOnEnd
    {
      if hasOnEnd then [EndNotified(i)] else []
    }

    /** What segment `i` of a run adds to the trace when its end event fires
        naturally. */
    function SegmentEffects(i: nat, voices: seq<Voice>): seq<Effect>
      requires i < |textList|
      reads this`lang, this`pitch, this`rate, this`volume, this`voice, this`hasOnStart, this`hasOnEnd
    {
      StartEffects(i, voices) + EndEffects(i)
    }

    /** What the first `n` segments of a run add to the trace, in order. */
    function RunEffects(voices: seq<Voice>, n: nat): seq<Effect>
      requires n <= |textList|
      reads this`lang, this`pitch, this`rate, this`volume, this`voice, this`hasOnStart, this`hasOnEnd
    {
      if n == 0 then [] else RunEffects(voices, n - 1) + SegmentEffects(n - 1, voices)
    }

    /** With both listeners registered, a run over `n` segments notifies
        `onstart` and `onend` once for each of 0, ..., n - 1, in order, and
        in between speaks each segment and resumes the engine as it starts. */
    lemma {:induction false} RunEffectsInOrder(voices: seq<Voice>, n: nat)
      requires n <= |textList| && hasOnStart && hasOnEnd
      ensures |RunEffects(voices, n)| == 5 * n
      ensures forall i :: 0 <= i < n ==>
        && RunEffects(voices, n)[5 * i] == StartNotified(i)
        && RunEffects(voices, n)[5 * i + 1] == Engine(Cancel)
        && RunEffects(voices, n)[5 * i + 2] == Engine(SpeakUtterance(UtteranceFor(textList[i], voices)))
        && RunEffects(voices, n)[5 * i + 3] == Engine(ResumeSpeech)
        && RunEffects(voices, n)[5 * i + 4] == EndNotified(i)
    {
      if n > 0 {
        RunEffectsInOrder(voices, n - 1);
        var prefix := RunEffects(voices, n - 1);
        var segment := SegmentEffects(n - 1, voices);
        assert segment == [StartNotified(n - 1), Engine(Cancel),
                           Engine(SpeakUtterance(UtteranceFor(textList[n - 1], voices))),
                           Engine(ResumeSpeech), EndNotified(n - 1)];
        var all := prefix + segment;
        assert RunEffects(voices, n) == all;
        forall i | 0 <= i < n
          ensures all[5 * i] == StartNotified(i) && all[5 * i + 1] == Engine(Cancel)
          ensures all[5 * i + 2] == Engine(SpeakUtterance(UtteranceFor(textList[i], voices)))
          ensures all[5 * i + 3] == Engine(ResumeSpeech) && all[5 * i + 4] == EndNotified(i)
        {
          if i < n - 1 {
            assert 5 * i + 4 < |prefix|;
          } else {
            assert 5 * i == |prefix|;
          }
        }
      }
    }

    /** Append engine commands to the trace; they name no segment, so the
        trace invariant is kept. */
    method Issue(commands: seq<Command>)
      requires TraceValid()
      modifies this`trace
      ensures TraceValid()
      ensures trace == old(trace) + seq(|commands|, i requires 0 <= i < |commands| => Engine(commands[i]))
    {
      var effects := seq(|commands|, i requires 0 <= i < |commands| => Engine(commands[i]));
      NotificationsWithinAppend(trace, effects, |textList|);
      trace := trace + effects;
    }

    /** `_speak`: cancel whatever is being spoken now, and arm a 50 ms timer
        that will hand the utterance for `text` to the engine. */
    method SpeakText(text: string, voices: seq<Voice>)
      requires TraceValid()
      modifies this`isPaused, this`trace, this`pendingSpeaks
      ensures TraceValid() && !isPaused
      ensures trace == old(trace) + [Engine(Cancel)]
      ensures pendingSpeaks == old(pendingSpeaks) + [UtteranceFor(text, voices)]
    {
      isPaused := false;
      Issue([Cancel]);
      var chosen := ResolveVoice(voices, Str(voice));
      var utter := Utterance(text, Str(lang), Num(pitch), Num(rate), Num(volume), chosen);
      pendingSpeaks := pendingSpeaks + [utter];
    }

    /** The oldest armed speak timer fires: its utterance goes to the engine,
        whatever was cancelled since it was armed. Timers of equal delay fire
        in the order they were armed. */
    method DeferredSpeak()
      requires Valid() && |pendingSpeaks| > 0
      modifies this`trace, this`pendingSpeaks
      ensures Valid()
      ensures trace == old(trace) + [Engine(SpeakUtterance(old(pendingSpeaks)[0]))]
      ensures pendingSpeaks == old(pendingSpeaks)[1..]
    {
      Issue([SpeakUtterance(pendingSpeaks[0])]);
      pendingSpeaks := pendingSpeaks[1..];
    }

    /** `play()`: restart continuous playback from the first segment as a new
        run; its first `playNext` is armed, not run. */
    method Play()
      requires Valid()
      modifies this`currentIndex, this`isPlaying, this`trace, this`playbackInstanceId, this`pendingPlayNext, this`liveEnd
      ensures Valid()
      ensures currentIndex == 0 && isPlaying
      ensures playbackInstanceId == old(playbackInstanceId) + 1
      ensures pendingPlayNext == old(pendingPlayNext) + multiset{playbackInstanceId}
      ensures trace == old(trace) + [Engine(Cancel)]
    {
      Reset();
      ChainAfterPlay(pendingPlayNext, pendingEnds, liveEnd, playbackInstanceId, currentIndex, |textList|);
      playbackInstanceId, isPlaying, pendingPlayNext, liveEnd :=
        playbackInstanceId + 1, true, pendingPlayNext + multiset{playbackInstanceId + 1}, None;
    }

    /** The `playNext` closure of the run `gen`: start the segment at
        `currentIndex` if there is one and playback is on; otherwise do
        nothing at all. */
    method PlayNext(gen: nat, voices: seq<Voice>)
      requires Valid()
      requires gen in pendingPlayNext
      modifies this`pendingPlayNext, this`pendingEnds, this`trace, this`isPaused, this`liveEnd, this`pendingSpeaks
      ensures Valid()
      ensures pendingPlayNext == old(pendingPlayNext) - multiset{gen}
      ensures currentIndex < |textList| && isPlaying ==>
        && pendingEnds == old(pendingEnds) + multiset{EndTag(gen, currentIndex)}
        && trace == old(trace) + (if hasOnStart then [StartNotified(currentIndex)] else []) + [Engine(Cancel)]
        && pendingSpeaks == old(pendingSpeaks) + [UtteranceFor(textList[currentIndex], voices)]
        && !isPaused
      ensures !(currentIndex < |textList| && isPlaying) ==>
        && pendingEnds == old(pendingEnds) && trace == old(trace) && isPaused == old(isPaused)
        && pendingSpeaks == old(pendingSpeaks)
    {
      if currentIndex < |textList| && isPlaying {
        StartSegment(gen, voices);
      } else {
        PlayNextIdle(gen);
      }
    }

    /** A `playNext` whose guard fails: the list is exhausted or playback is
        off, so the fired timer is consumed and nothing else happens. */
    method PlayNextIdle(gen: nat)
      requires Valid() && !(currentIndex < |textList| && isPlaying)
      modifies this`pendingPlayNext
      ensures Valid()
      ensures pendingPlayNext == old(pendingPlayNext) - multiset{gen}
    {
      ChainAfterIdle(pendingPlayNext, pendingEnds, liveEnd, playbackInstanceId, currentIndex, |textList|, gen);
      pendingPlayNext := pendingPlayNext - multiset{gen};
    }

    /** The body of `playNext` once its guard holds: notify the `onstart`
        listener and speak the segment, whose end closure captures `gen` and
        the index. */
    method StartSegment(gen: nat, voices: seq<Voice>)
      requires Valid()
      requires gen in pendingPlayNext && currentIndex < |textList|
      modifies this`pendingPlayNext, this`pendingEnds, this`trace, this`isPaused, this`liveEnd, this`pendingSpeaks
      ensures Valid()
      ensures pendingPlayNext == old(pendingPlayNext) - multiset{gen}
      ensures pendingEnds == old(pendingEnds) + multiset{EndTag(gen, currentIndex)}
      ensures trace == old(trace) + (if hasOnStart then [StartNotified(currentIndex)] else []) + [Engine(Cancel)]
      ensures pendingSpeaks == old(pendingSpeaks) + [UtteranceFor(textList[currentIndex], voices)]
      ensures !isPaused
    {
      ArmEnd(gen);
      NotifyStart();
      SpeakText(textList[currentIndex], voices);
    }

    /** The `playNext` of run `gen` is consumed and the end closure of the
        segment it starts, tagged with `gen` and the index, is armed. */
    method ArmEnd(gen: nat)
      requires ChainValid()
      requires gen in pendingPlayNext && currentIndex < |textList|
      modifies this`pendingPlayNext, this`pendingEnds, this`liveEnd
      ensures ChainValid()
      ensures pendingPlayNext == old(pendingPlayNext) - multiset{gen}
      ensures pendingEnds == old(pendingEnds) + multiset{EndTag(gen, currentIndex)}
    {
      ChainAfterStart(pendingPlayNext, pendingEnds, liveEnd, playbackInstanceId, currentIndex, |textList|, gen);
      pendingPlayNext, pendingEnds, liveEnd :=
        pendingPlayNext - multiset{gen},
        pendingEnds + multiset{EndTag(gen, currentIndex)},
        if gen == playbackInstanceId then Some(EndTag(gen, currentIndex)) else liveEnd;
    }

    /** Call the `onstart` listener, if one is registered, with the current
        index. */
    method NotifyStart()
      requires TraceValid() && currentIndex < |textList|
      modifies this`trace
      ensures TraceValid()
      ensures trace == old(trace) + if hasOnStart then [StartNotified(currentIndex)] else []
    {
      var notice := if hasOnStart then [StartNotified(currentIndex)] else [];
      NotificationsWithinAppend(trace, notice, |textList|);
      trace := trace + notice;
    }

    /** The end closure of the segment `cachedIndex` of the run `cachedGen`:
        notify the `onend` listener, then advance and arm the next `playNext`
        only if no newer run has started. */
    method SegmentEnded(cachedGen: nat, cachedIndex: nat)
      requires Valid()
      requires EndTag(cachedGen, cachedIndex) in pendingEnds
      modifies this`pendingEnds, this`trace, this`currentIndex, this`pendingPlayNext, this`liveEnd
      ensures Valid()
      ensures pendingEnds == old(pendingEnds) - multiset{EndTag(cachedGen, cachedIndex)}
      ensures trace == old(trace) + if hasOnEnd then [EndNotified(cachedIndex)] else []
      ensures cachedGen == playbackInstanceId ==>
        currentIndex == old(currentIndex) + 1 && pendingPlayNext == old(pendingPlayNext) + multiset{cachedGen}
      ensures cachedGen != playbackInstanceId ==>
        currentIndex == old(currentIndex) && pendingPlayNext == old(pendingPlayNext)
    {
      var tag := EndTag(cachedGen, cachedIndex);
      ChainAfterEnd(pendingPlayNext, pendingEnds, liveEnd, playbackInstanceId, currentIndex, |textList|, tag);
      NotifyEnd(cachedIndex);
      FollowEnd(tag);
    }

    /** Call the `onend` listener, if one is registered, with `index`. */
    method NotifyEnd(index: nat)
      requires TraceValid() && index < |textList|
      modifies this`trace
      ensures TraceValid()
      ensures trace == old(trace) + if hasOnEnd then [EndNotified(index)] else []
    {
      var notice := if hasOnEnd then [EndNotified(index)] else [];
      NotificationsWithinAppend(trace, notice, |textList|);
      trace := trace + notice;
    }

    /** The rest of an end closure: a closure of a stale run stops here;
        one of the current run advances the index and arms the next
        `playNext`. */
    method FollowEnd(tag: EndTag)
      requires ChainValid() && tag in pendingEnds
      modifies this`pendingEnds, this`currentIndex, this`pendingPlayNext, this`liveEnd
      ensures ChainValid()
      ensures pendingEnds == old(pendingEnds) - multiset{tag}
      ensures tag.gen == playbackInstanceId ==>
        currentIndex == old(currentIndex) + 1 && pendingPlayNext == old(pendingPlayNext) + multiset{tag.gen}
      ensures tag.gen != playbackInstanceId ==>
        currentIndex == old(currentIndex) && pendingPlayNext == old(pendingPlayNext)
    {
      ChainAfterEnd(pendingPlayNext, pendingEnds, liveEnd, playbackInstanceId, currentIndex, |textList|, tag);
      var advance := tag.gen == playbackInstanceId;
      pendingEnds, currentIndex, pendingPlayNext, liveEnd :=
        pendingEnds - multiset{tag},
        if advance then currentIndex + 1 else currentIndex,
        if advance then pendingPlayNext + multiset{tag.gen} else pendingPlayNext,
        if advance then None else liveEnd;
    }

    /** `reset()`: back to the first segment, playback off, speech cancelled. */
    method Reset()
      requires Valid()
      modifies this`currentIndex, this`isPlaying, this`trace
      ensures Valid()
      ensures currentIndex == 0 && !isPlaying
      ensures trace == old(trace) + [Engine(Cancel)]
    {
      ChainAfterReset(pendingPlayNext, pendingEnds, liveEnd, playbackInstanceId, currentIndex, |textList|);
      currentIndex, isPlaying := 0, false;
      Issue([Cancel]);
    }

    /** `skip()`: cancel the current utterance; its end closure, run later by
        `SegmentEnded`, moves the run on. */
    method Skip()
      requires Valid()
      modifies this`trace
      ensures Valid()
      ensures trace == old(trace) + [Engine(Cancel)]
    {
      Issue([Cancel]);
    }

    /** `speak(text, onend)`: speak one text outside continuous playback. */
    method Speak(text: string, voices: seq<Voice>)
      requires Valid()
      modifies this`isPlaying, this`isPaused, this`trace, this`pendingSpeaks
      ensures Valid()
      ensures !isPlaying && !isPaused
      ensures trace == old(trace) + [Engine(Cancel)]
      ensures pendingSpeaks == old(pendingSpeaks) + [UtteranceFor(text, voices)]
    {
      isPlaying := false;
      SpeakText(text, voices);
    }

    method Pause()
      requires Valid()
      modifies this`isPaused, this`trace
      ensures Valid()
      ensures isPaused && trace == old(trace) + [Engine(PauseSpeech)]
    {
      isPaused := true;
      Issue([PauseSpeech]);
    }

    method Resume()
      requires Valid()
      modifies this`isPaused, this`trace
      ensures Valid()
      ensures !isPaused && trace == old(trace) + [Engine(ResumeSpeech)]
    {
      isPaused := false;
      Issue([ResumeSpeech]);
    }

    /** The refresher run directly from an utterance's `onstart` or
        `onresume` handler: keep the engine going unless paused, and arm one
        more keep-alive timer. */
    method StartRefresher()
      requires Valid()
      modifies this`trace, this`armedRefreshers
      ensures Valid()
      ensures trace == old(trace) + if isPaused then [] else [Engine(ResumeSpeech)]
      ensures armedRefreshers == old(armedRefreshers) + 1
    {
      Issue(if isPaused then [] else [ResumeSpeech]);
      armedRefreshers := armedRefreshers + 1;
    }

    /** An armed keep-alive timer fires: resume unless paused, and re-arm; the
        timer that fired is replaced by the one it arms. */
    method RefresherTick()
      requires Valid()
      requires armedRefreshers > 0
      modifies this`trace
      ensures Valid()
      ensures trace == old(trace) + if isPaused then [] else [Engine(ResumeSpeech)]
      ensures armedRefreshers == old(armedRefreshers)
    {
      Issue(if isPaused then [] else [ResumeSpeech]);
    }

    /** The oldest armed speak timer fires and the engine starts speaking
        its utterance: the utterance's start event runs the refresher, which
        resumes unless paused and arms a keep-alive timer. */
    method SpeakStarts()
      requires Valid() && |pendingSpeaks| > 0
      modifies this`trace, this`pendingSpeaks, this`armedRefreshers
      ensures Valid()
      ensures pendingSpeaks == old(pendingSpeaks)[1..] && armedRefreshers == old(armedRefreshers) + 1
      ensures trace == old(trace) + [Engine(SpeakUtterance(old(pendingSpeaks)[0]))]
                      + if isPaused then [] else [Engine(ResumeSpeech)]
    {
      DeferredSpeak();
      StartRefresher();
    }

    /** The run's armed `playNext` fires and starts segment `currentIndex`,
        then the segment's deferred speak fires and the engine starts
        speaking it. */
    method StartAndSpeak(voices: seq<Voice>)
      requires Valid() && isPlaying && pendingSpeaks == []
      requires playbackInstanceId in pendingPlayNext && currentIndex < |textList|
      modifies this`pendingPlayNext, this`pendingEnds, this`trace, this`isPaused, this`liveEnd, this`pendingSpeaks,
               this`armedRefreshers
      ensures Valid() && pendingSpeaks == []
      ensures pendingPlayNext == old(pendingPlayNext) - multiset{playbackInstanceId}
      ensures pendingEnds == old(pendingEnds) + multiset{EndTag(playbackInstanceId, currentIndex)}
      ensures armedRefreshers == old(armedRefreshers) + 1
      ensures trace == old(trace) + StartEffects(currentIndex, voices)
    {
      PlayNext(playbackInstanceId, voices);
      SpeakStarts();
    }

    /** One link of an undisturbed run: the run's armed `playNext` fires and
        starts segment `currentIndex`, its deferred speak fires, and the
        segment's end closure runs when the utterance ends. */
    method RunStep(voices: seq<Voice>)
      requires Valid() && isPlaying && pendingSpeaks == []
      requires playbackInstanceId in pendingPlayNext && currentIndex < |textList|
      modifies this`pendingPlayNext, this`pendingEnds, this`trace, this`isPaused, this`liveEnd,
               this`pendingSpeaks, this`currentIndex, this`armedRefreshers
      ensures Valid() && pendingSpeaks == []
      ensures currentIndex == old(currentIndex) + 1 && armedRefreshers == old(armedRefreshers) + 1
      ensures pendingPlayNext == old(pendingPlayNext) && pendingEnds == old(pendingEnds)
      ensures trace == old(trace) + SegmentEffects(old(currentIndex), voices)
    {
      var i := currentIndex;
      ghost var before := trace;
      StartAndSpeak(voices);
      ghost var started := trace;
      SegmentEnded(playbackInstanceId, i);
      assert trace == started + EndEffects(i);
      AppendTwice(before, StartEffects(i, voices), EndEffects(i));
    }

    /** The run plays every segment from the first, each end event firing
        naturally, until the index reaches the end of the list. */
    method PlaySegments(voices: seq<Voice>)
      requires Valid() && isPlaying && pendingSpeaks == [] && currentIndex == 0
      requires playbackInstanceId in pendingPlayNext
      modifies this`pendingPlayNext, this`pendingEnds, this`trace, this`isPaused, this`liveEnd,
               this`pendingSpeaks, this`currentIndex, this`armedRefreshers
      ensures Valid() && pendingSpeaks == [] && currentIndex == |textList|
      ensures pendingPlayNext == old(pendingPlayNext) && pendingEnds == old(pendingEnds)
      ensures armedRefreshers == old(armedRefreshers) + |textList|
      ensures trace == old(trace) + RunEffects(voices, |textList|)
    {
      while currentIndex < |textList|
        invariant Valid() && pendingSpeaks == []
        invariant armedRefreshers == old(armedRefreshers) + currentIndex
        invariant pendingPlayNext == old(pendingPlayNext) && pendingEnds == old(pendingEnds)
        invariant trace == old(trace) + RunEffects(voices, currentIndex)
        decreases |textList| - currentIndex
      {
        ghost var k := currentIndex;
        ghost var done := RunEffects(voices, k);
        ghost var segment := SegmentEffects(k, voices);
        assert RunEffects(voices, k + 1) == done + segment;
        RunStep(voices);
        AppendTwice(old(trace), done, segment);
      }
    }

    /** The run plays every segment, and the `playNext` armed by the last end
        closure then finds the list exhausted, so it only consumes its
        timer. */
    method PlayToEnd(voices: seq<Voice>)
      requires Valid() && isPlaying && pendingSpeaks == [] && currentIndex == 0
      requires playbackInstanceId in pendingPlayNext
      modifies this`pendingPlayNext, this`pendingEnds, this`trace, this`isPaused, this`liveEnd,
               this`pendingSpeaks, this`currentIndex, this`armedRefreshers
      ensures Valid() && pendingSpeaks == [] && currentIndex == |textList|
      ensures pendingPlayNext == old(pendingPlayNext) - multiset{playbackInstanceId}
      ensures pendingEnds == old(pendingEnds) && armedRefreshers == old(armedRefreshers) + |textList|
      ensures trace == old(trace) + RunEffects(voices, |textList|)
    {
      PlaySegments(voices);
      PlayNextIdle(playbackInstanceId);
    }

    /** `play()` with every utterance starting and ending naturally: the new
        run speaks every segment of the list once, in order, with its
        notifications, and stops at the end of the list. Of what it armed,
        only the keep-alive timers, one per segment, stay outstanding. */
    method NaturalRun(voices: seq<Voice>)
      requires Valid() && pendingSpeaks == []
      modifies this`pendingPlayNext, this`pendingEnds, this`trace, this`isPaused, this`liveEnd,
               this`pendingSpeaks, this`currentIndex, this`isPlaying, this`playbackInstanceId, this`armedRefreshers
      ensures Valid() && isPlaying && currentIndex == |textList|
      ensures playbackInstanceId == old(playbackInstanceId) + 1
      ensures pendingPlayNext == old(pendingPlayNext) && pendingEnds == old(pendingEnds) && pendingSpeaks == []
      ensures armedRefreshers == old(armedRefreshers) + |textList|
      ensures trace == old(trace) + [Engine(Cancel)] + RunEffects(voices, |textList|)
    {
      Play();
      PlayToEnd(voices);
    }

    method SetPitch(x: Input)
      requires Valid()
      modifies this`pitch
      ensures Valid()
      ensures IsNumeric(x) && 0.0 <= x.value <= 2.0 ==> pitch == x.value
      ensures !(IsNumeric(x) && 0.0 <= x.value <= 2.0) ==> pitch == old(pitch)
    {
      if IsNumeric(x) && 0.0 <= x.value <= 2.0 {
        pitch := x.value;
      }
    }

    method SetRate(x: Input)
      requires Valid()
      modifies this`rate
      ensures Valid()
      ensures IsNumeric(x) && 0.1 <= x.value <= 10.0 ==> rate == x.value
      ensures !(IsNumeric(x) && 0.1 <= x.value <= 10.0) ==> rate == old(rate)
    {
      if IsNumeric(x) && 0.1 <= x.value <= 10.0 {
        rate := x.value;
      }
    }

    method SetVolume(x: Input)
      requires Valid()
      modifies this`volume
      ensures Valid()
      ensures IsNumeric(x) && 0.0 <= x.value <= 1.0 ==> volume == x.value
      ensures !(IsNumeric(x) && 0.0 <= x.value <= 1.0) ==> volume == old(volume)
    {
      if IsNumeric(x) && 0.0 <= x.value <= 1.0 {
        volume := x.value;
      }
    }

    method SetVoice(x: string)
      requires Valid()
      modifies this`voice
      ensures Valid() && voice == x
    {
      voice := x;
    }

    method SetLang(x: string)
      requires Valid()
      modifies this`lang
      ensures Valid() && lang == x
    {
      lang := x;
    }

    method SetOnStart(registered: bool)
      requires Valid()
      modifies this`hasOnStart
      ensures Valid() && hasOnStart == registered
    {
      hasOnStart := registered;
    }

    method SetOnEnd(registered: bool)
      requires Valid()
      modifies this`hasOnEnd
      ensures Valid() && hasOnEnd == registered
    {
      hasOnEnd := registered;
    }
  }

  /** A new player over `textList` with both listeners registered. */
  method ListeningPlayer(textList: seq<string>) returns (p: TtsPlayer)
    ensures fresh(p) && p.Valid() && p.textList == textList && p.hasOnStart && p.hasOnEnd
    ensures p.currentIndex == 0 && p.playbackInstanceId == 0
    ensures p.pendingPlayNext == multiset{} && p.pendingEnds == multiset{} && p.pendingSpeaks == []
  {
    p := new TtsPlayer(textList);
    p.SetOnStart(true);
    p.SetOnEnd(true);
  }

  /** A player over two segments with both listeners registered, whose run
      `g` has started speaking the first segment. */
  method SpeakingFirst(voices: seq<Voice>) returns (p: TtsPlayer, g: nat)
    ensures fresh(p) && p.Valid()
    ensures p.textList == ["你好", "世界"] && p.hasOnStart && p.hasOnEnd && p.isPlaying
    ensures g == p.playbackInstanceId && p.currentIndex == 0
    ensures p.pendingPlayNext == multiset{} && p.pendingEnds == multiset{EndTag(g, 0)}
    ensures p.pendingSpeaks == [p.UtteranceFor("你好", voices)]
  {
    p := ListeningPlayer(["你好", "世界"]);
    p.Play();
    g := p.playbackInstanceId;
    p.PlayNext(g, voices);
  }

  /** `play()` called again while a segment `index` of the current run is
      speaking, and then that segment ends: its end closure still notifies
      `onend` with its index, but neither advances nor arms anything, so only
      the new run's first `playNext` is outstanding beside what was already
      there. */
  method RestartFencesOldRun(p: TtsPlayer, index: nat)
    requires p.Valid()
    requires EndTag(p.playbackInstanceId, index) in p.pendingEnds
    modifies p
    ensures p.Valid() && p.isPlaying && p.currentIndex == 0
    ensures p.playbackInstanceId == old(p.playbackInstanceId) + 1
    ensures p.pendingPlayNext == old(p.pendingPlayNext) + multiset{p.playbackInstanceId}
    ensures p.pendingEnds == old(p.pendingEnds) - multiset{EndTag(old(p.playbackInstanceId), index)}
    ensures p.trace == old(p.trace) + [Engine(Cancel)] + if p.hasOnEnd then [EndNotified(index)] else []
  {
    var g := p.playbackInstanceId;
    p.Play();
    p.SegmentEnded(g, index);
  }

  /** `reset()` stops the chain. A segment `index` of the current run is
      speaking when `reset()` is called, and its end closure then runs:
      being of the current run, it advances the index to 1 and arms one
      `playNext`, but playback stays off, so that `playNext`, like every other
      armed one, fails its guard and starts nothing until `play()`. */
  method ResetStopsChain(p: TtsPlayer, index: nat)
    requires p.Valid()
    requires EndTag(p.playbackInstanceId, index) in p.pendingEnds
    modifies p
    ensures p.Valid() && !p.isPlaying && p.currentIndex == 1
    ensures p.playbackInstanceId == old(p.playbackInstanceId) && p.isPaused == old(p.isPaused)
    ensures p.pendingPlayNext == old(p.pendingPlayNext) + multiset{p.playbackInstanceId}
    ensures p.pendingEnds == old(p.pendingEnds) - multiset{EndTag(p.playbackInstanceId, index)}
    ensures p.pendingSpeaks == old(p.pendingSpeaks)
    ensures p.trace == old(p.trace) + [Engine(Cancel)] + if p.hasOnEnd then [EndNotified(index)] else []
  {
    var g := p.playbackInstanceId;
    p.Reset();
    p.SegmentEnded(g, index);
  }

  /** A `playNext` of a superseded run `g` is still armed (see
      `ResetStopsChain`) while the current run speaks its segment `idx`.
      `playNext` checks no generation, so it fires, notifies `onstart` with
      `idx` again and speaks that segment once more; the cancel it issues ends
      the current run's utterance, whose end closure, being of the current
      run, moves the position on. The stale run has cut the current
      segment short and left its own end closure behind. */
  method StalePlayNextCutsShort(p: TtsPlayer, g: nat, voices: seq<Voice>)
    requires p.Valid() && p.isPlaying
    requires g < p.playbackInstanceId && g in p.pendingPlayNext
    requires EndTag(p.playbackInstanceId, p.currentIndex) in p.pendingEnds
    modifies p
    ensures p.Valid() && p.isPlaying && p.playbackInstanceId == old(p.playbackInstanceId)
    ensures p.currentIndex == old(p.currentIndex) + 1
    ensures p.pendingPlayNext == old(p.pendingPlayNext) - multiset{g} + multiset{p.playbackInstanceId}
    ensures p.pendingEnds == old(p.pendingEnds) + multiset{EndTag(g, old(p.currentIndex))}
                             - multiset{EndTag(p.playbackInstanceId, old(p.currentIndex))}
    ensures p.trace == old(p.trace) + (if p.hasOnStart then [StartNotified(old(p.currentIndex))] else [])
                       + [Engine(Cancel)] + (if p.hasOnEnd then [EndNotified(old(p.currentIndex))] else [])
    ensures p.pendingSpeaks == old(p.pendingSpeaks) + [p.UtteranceFor(p.textList[old(p.currentIndex)], voices)]
  {
    var idx, cur := p.currentIndex, p.playbackInstanceId;
    ChainAfterEnd(p.pendingPlayNext, p.pendingEnds, p.liveEnd, cur, idx, |p.textList|, EndTag(cur, idx));
    p.StartSegment(g, voices);  // the guard of `playNext` holds: the run is playing and `idx` is in the list
    p.SegmentEnded(cur, idx);
  }

  /** A cancel issued within the 50 ms between `_speak` and its deferred
      `speechSynthesis.speak` comes too early to stop it: after `speak(text)`
      and an immediate `reset()`, the text is still spoken. */
  method ResetBeforeDeferredSpeak(p: TtsPlayer, text: string, voices: seq<Voice>)
    requires p.Valid() && p.pendingSpeaks == []
    modifies p
    ensures p.Valid() && !p.isPlaying && p.currentIndex == 0 && p.pendingSpeaks == []
    ensures p.trace == old(p.trace) + [Engine(Cancel), Engine(Cancel), Engine(SpeakUtterance(p.UtteranceFor(text, voices)))]
  {
    p.Speak(text, voices);
    p.Reset();
    p.DeferredSpeak();
  }

  /** The state `StalePlayNextCutsShort` starts from is reachable: the first
      segment of a run is handed to the engine, `reset()` is called and that
      segment's end closure re-arms the run's `playNext`; `play()` then
      starts a new run, whose first `playNext` starts its first segment and
      hands it to the engine before the old run's `playNext` has fired. */
  method StaleRunReachable(voices: seq<Voice>) returns (p: TtsPlayer, g: nat)
    ensures p.Valid() && p.isPlaying && p.currentIndex == 0
    ensures g < p.playbackInstanceId && g in p.pendingPlayNext
    ensures EndTag(p.playbackInstanceId, p.currentIndex) in p.pendingEnds
    ensures p.pendingSpeaks == []
  {
    p, g := SpeakingFirst(voices);
    p.DeferredSpeak();
    ResetStopsChain(p, 0);
    p.Play();
    p.PlayNext(g + 1, voices);
    p.DeferredSpeak();
  }
}
