/** The background-music toggle: two flags (`audioInitialized`,
    `audioPlaying`), the toggle button's class list, and the handlers that act
    on them. The promise returned by the media element's `play()` is the
    parameter `outcome`: it either resolves or rejects (an autoplay refusal). */
module Audio {

  datatype PlayOutcome = Resolved | Rejected

  const PlayingClass: string := "playing"
  const PausedClass: string := "paused"

  /** The class list after `add` of the class for `playing` and `remove` of the
      other one: exactly one of the two toggle classes is present, the one that
      matches `playing`, and every other class is left as it was. */
  function ShowState(classes: set<string>, playing: bool): (r: set<string>)
    ensures PlayingClass in r <==> playing
    ensures PausedClass in r <==> !playing
    ensures r - {PlayingClass, PausedClass} == classes - {PlayingClass, PausedClass}
  {
    if playing then classes + {PlayingClass} - {PausedClass}
    else classes + {PausedClass} - {PlayingClass}
  }

  /** Showing a state twice is the same as showing the second one: the last
      handler to run decides the classes. */
  lemma ShowStateLastWins(classes: set<string>, first: bool, second: bool)
    ensures ShowState(ShowState(classes, first), second) == ShowState(classes, second)
  {
  }

  /** The `<audio>` element, reduced to what the handlers touch. */
  class MediaElement {
    var src: string
    var paused: bool
    var currentTime: real
    var volume: real

    constructor ()
      ensures src == "" && paused && currentTime == 0.0 && volume == 1.0
    {
      src, paused, currentTime, volume := "", true, 0.0, 1.0;
    }

    /** `play()`, settled: a resolved promise means playback started; a
        rejected one leaves the element as it was. */
    method Play(outcome: PlayOutcome) returns (resolved: bool)
      modifies this
      ensures resolved <==> outcome == Resolved
      ensures paused == (old(paused) && !resolved)
      ensures src == old(src) && currentTime == old(currentTime) && volume == old(volume)
    {
      resolved := outcome == Resolved;
      if resolved {
        paused := false;
      }
    }

    /** `pause()`. */
    method Pause()
      modifies this
      ensures paused
      ensures src == old(src) && currentTime == old(currentTime) && volume == old(volume)
    {
      paused := true;
    }
  }

  /** The module-level playback flags together with the toggle button's
      `classList`. */
  class AudioToggle {
    var initialized: bool
    var playing: bool
    var classes: set<string>
    const media: MediaElement

    /** The button shows `playing` iff the flag says playing, `paused` iff not. */
    ghost predicate Synced()
      reads this
    {
      (PlayingClass in classes <==> playing) && (PausedClass in classes <==> !playing)
    }

    /** Both flags start false; the button keeps whatever classes the page gave it. */
    constructor (media: MediaElement, classes: set<string>)
      ensures this.media == media && this.classes == classes
      ensures !initialized && !playing
    {
      this.media := media;
      this.classes := classes;
      initialized, playing := false, false;
    }

    /** `startAudio`: without a source nothing happens. Otherwise the flag and
        the classes follow the settled `play()`: resolved shows playing,
        rejected shows paused; the rejection is absorbed here. */
    method StartAudio(outcome: PlayOutcome)
      modifies this, media
      ensures initialized == old(initialized)
      ensures old(media.src) == "" ==>
        playing == old(playing) && classes == old(classes) && media.paused == old(media.paused)
      ensures old(media.src) != "" ==>
        playing == (outcome == Resolved) && classes == ShowState(old(classes), playing)
        && media.paused == (old(media.paused) && outcome == Rejected)
      ensures old(media.src) != "" ==> Synced()
      ensures media.src == old(media.src) && media.currentTime == old(media.currentTime)
      ensures media.volume == old(media.volume)
    {
      if media.src == "" {
        return;
      }
      var resolved := media.Play(outcome);
      if resolved {
        playing := true;
        classes := classes + {PlayingClass};
        classes := classes - {PausedClass};
      } else {
        playing := false;
        classes := classes + {PausedClass};
        classes := classes - {PlayingClass};
      }
    }

    /** `pauseAudio`: pause the element and show paused. */
    method PauseAudio()
      modifies this, media
      ensures initialized == old(initialized)
      ensures !playing && classes == ShowState(old(classes), false) && Synced()
      ensures media.paused
      ensures media.src == old(media.src) && media.currentTime == old(media.currentTime)
      ensures media.volume == old(media.volume)
    {
      media.Pause();
      playing := false;
      classes := classes + {PausedClass};
      classes := classes - {PlayingClass};
    }

    /** `ensureAudioInitialized`: the first call marks the audio initialised
        and starts it; every later call changes nothing. */
    method EnsureInitialized(outcome: PlayOutcome)
      modifies this, media
      ensures initialized
      ensures old(initialized) ==>
        playing == old(playing) && classes == old(classes) && media.paused == old(media.paused)
      ensures !old(initialized) && old(media.src) == "" ==>
        playing == old(playing) && classes == old(classes) && media.paused == old(media.paused)
      ensures !old(initialized) && old(media.src) != "" ==>
        playing == (outcome == Resolved) && classes == ShowState(old(classes), playing)
        && media.paused == (old(media.paused) && outcome == Rejected)
      ensures media.src == old(media.src) && media.currentTime == old(media.currentTime)
      ensures media.volume == old(media.volume)
    {
      if initialized {
        return;
      }
      initialized := true;
      StartAudio(outcome);
    }

    /** The toggle's `click` handler. `audioPlaying` is read after
        `ensureAudioInitialized` returns, but the `startAudio` it may launch
        only updates state after its `await`, so the branch sees the flag as
        it was before the click: playing pauses; anything else starts. */
    method Click(outcome: PlayOutcome)
      modifies this, media
      ensures initialized
      ensures old(playing) ==> !playing && classes == ShowState(old(classes), false) && media.paused
      ensures !old(playing) && old(media.src) != "" ==>
        playing == (outcome == Resolved) && classes == ShowState(old(classes), playing)
        && media.paused == (old(media.paused) && outcome == Rejected)
      ensures !old(playing) && old(media.src) == "" ==>
        !playing && classes == old(classes) && media.paused == old(media.paused)
      ensures old(playing) || old(media.src) != "" ==> Synced()
      ensures media.src == old(media.src) && media.currentTime == old(media.currentTime)
      ensures media.volume == old(media.volume)
    {
      var wasPlaying := playing;
      ghost var classes0 := classes;
      EnsureInitialized(outcome);
      if wasPlaying {
        PauseAudio();
        ShowStateLastWins(classes0, outcome == Resolved, false);
      } else {
        StartAudio(outcome);
        ShowStateLastWins(classes0, outcome == Resolved, outcome == Resolved);
      }
    }

    /** The one-shot `pointerdown` listener on the document. */
    method PointerDown(outcome: PlayOutcome)
      modifies this, media
      ensures initialized
      ensures old(initialized) || old(media.src) == "" ==>
        playing == old(playing) && classes == old(classes) && media.paused == old(media.paused)
      ensures !old(initialized) && old(media.src) != "" ==>
        playing == (outcome == Resolved) && classes == ShowState(old(classes), playing)
        && media.paused == (old(media.paused) && outcome == Rejected) && Synced()
      ensures media.src == old(media.src) && media.currentTime == old(media.currentTime)
      ensures media.volume == old(media.volume)
    {
      EnsureInitialized(outcome);
    }

    /** The one-shot `keydown` listener: only a key pressed without Meta or
        Ctrl, before initialisation, initialises and starts the audio; any
        other key changes nothing. */
    method KeyDown(metaKey: bool, ctrlKey: bool, outcome: PlayOutcome)
      modifies this, media
      ensures initialized == (old(initialized) || (!metaKey && !ctrlKey))
      ensures old(initialized) || metaKey || ctrlKey || old(media.src) == "" ==>
        playing == old(playing) && classes == old(classes) && media.paused == old(media.paused)
      ensures !old(initialized) && !metaKey && !ctrlKey && old(media.src) != "" ==>
        playing == (outcome == Resolved) && classes == ShowState(old(classes), playing)
        && media.paused == (old(media.paused) && outcome == Rejected) && Synced()
      ensures media.src == old(media.src) && media.currentTime == old(media.currentTime)
      ensures media.volume == old(media.volume)
    {
      if !initialized && !metaKey && !ctrlKey {
        EnsureInitialized(outcome);
      }
    }

    /** The media element's `ended` listener: rewind, then start again. */
    method OnEnded(outcome: PlayOutcome)
      modifies this, media
      ensures media.currentTime == 0.0
      ensures initialized == old(initialized)
      ensures old(media.src) == "" ==>
        playing == old(playing) && classes == old(classes) && media.paused == old(media.paused)
      ensures old(media.src) != "" ==>
        playing == (outcome == Resolved) && classes == ShowState(old(classes), playing) && Synced()
        && media.paused == (old(media.paused) && outcome == Rejected)
      ensures media.src == old(media.src) && media.volume == old(media.volume)
    {
      media.currentTime := 0.0;
      StartAudio(outcome);
    }

    /** The media element's `pause` listener. */
    method OnPause()
      modifies this
      ensures !playing && classes == ShowState(old(classes), false) && Synced()
      ensures initialized == old(initialized)
    {
      playing := false;
      classes := classes + {PausedClass};
      classes := classes - {PlayingClass};
    }

    /** The media element's `play` listener. */
    method OnPlay()
      modifies this
      ensures playing && classes == ShowState(old(classes), true) && Synced()
      ensures initialized == old(initialized)
    {
      playing := true;
      classes := classes + {PlayingClass};
      classes := classes - {PausedClass};
    }
  }

  /** A click while nothing plays, with `play()` refused by the autoplay
      policy: the button ends up paused and the handler completes normally. */
  method RejectedClickScenario() returns (playing: bool, classes: set<string>)
    ensures !playing && PausedClass in classes && PlayingClass !in classes
  {
    var media := new MediaElement();
    media.src := "ambient.mp3";
    var toggle := new AudioToggle(media, {});
    toggle.Click(Rejected);
    playing, classes := toggle.playing, toggle.classes;
  }

  /** Two clicks with playback allowed: the first starts, the second pauses. */
  method ToggleTwiceScenario() returns (afterFirst: bool, afterSecond: bool, classes: set<string>)
    ensures afterFirst && !afterSecond
    ensures classes == {PausedClass}
  {
    var media := new MediaElement();
    media.src := "ambient.mp3";
    var toggle := new AudioToggle(media, {});
    toggle.Click(Resolved);
    afterFirst := toggle.playing;
    toggle.Click(Resolved);
    afterSecond, classes := toggle.playing, toggle.classes;
  }

  /** Initialisation happens once: after a first pointer-down whose `play()` is
      refused, a later key press and pointer-down start nothing. */
  method InitializeOnceScenario() returns (playing: bool, classes: set<string>)
    ensures !playing && classes == {PausedClass}
  {
    var media := new MediaElement();
    media.src := "ambient.mp3";
    var toggle := new AudioToggle(media, {});
    toggle.PointerDown(Rejected);
    toggle.KeyDown(false, false, Resolved);
    toggle.PointerDown(Resolved);
    playing, classes := toggle.playing, toggle.classes;
  }

  /** Without a music source a click changes neither the flag nor the button. */
  method NoSourceScenario() returns (playing: bool, classes: set<string>)
    ensures !playing && classes == {"audio-toggle"}
  {
    var media := new MediaElement();
    var toggle := new AudioToggle(media, {"audio-toggle"});
    toggle.Click(Resolved);
    playing, classes := toggle.playing, toggle.classes;
  }
}
