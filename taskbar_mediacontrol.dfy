/** The taskbar-mediacontrol plugin's backend: a three-button thumbar
    (previous, play/pause, next) on the main window, rebuilt from the current
    song on every playback event except a time update when that song has a
    title, and re-installed from a cached song whenever the window is shown
    again. An untitled song installs nothing and leaves the old buttons. */
module TaskbarMediaControl {
  import opened Electron

  datatype Option<T> = None | Some(value: T)

  /** The fields of the song-info provider's record that the binder reads. */
  datatype SongInfo = SongInfo(title: string, isPaused: bool)

  /** The song-info provider's event kinds; only `TimeChanged` is told apart. */
  datatype SongInfoEvent = TimeChanged | OtherEvent(name: string)

  // ---------------------------------------------------------------------
  // Icons
  // ---------------------------------------------------------------------

  /** The bundled icon assets, named by their asset paths. */
  const PlayIconPath: string := "@assets/media-icons-black/play.png"
  const PauseIconPath: string := "@assets/media-icons-black/pause.png"
  const NextIconPath: string := "@assets/media-icons-black/next.png"
  const PreviousIconPath: string := "@assets/media-icons-black/previous.png"

  predicate IsIconKey(kind: string) {
    kind == "play" || kind == "pause" || kind == "next" || kind == "previous"
  }

  /** `getImagePath`: each of the four icon keys has its own asset; any other
      key has the empty path. */
  function GetImagePath(kind: string): (r: string)
    ensures r != "" <==> IsIconKey(kind)
    ensures kind == "play" ==> r == PlayIconPath
    ensures kind == "pause" ==> r == PauseIconPath
    ensures kind == "next" ==> r == NextIconPath
    ensures kind == "previous" ==> r == PreviousIconPath
  {
    match kind
    case "play" => PlayIconPath
    case "pause" => PauseIconPath
    case "next" => NextIconPath
    case "previous" => PreviousIconPath
    case _ => ""
  }

  /** Distinct icon keys never share an asset. */
  lemma ImagePathInjective(a: string, b: string)
    requires GetImagePath(a) != "" && GetImagePath(a) == GetImagePath(b)
    ensures a == b
  {
  }

  /** `getNativeImage`: the empty image for an unknown key, and otherwise the
      image loaded from the key's asset; it is defined for every key. */
  function GetNativeImage(kind: string): (r: NativeImage)
    ensures r == Empty <==> !IsIconKey(kind)
    ensures IsIconKey(kind) ==> r == FromPath(GetImagePath(kind))
  {
    var imagePath := GetImagePath(kind);
    if imagePath != "" then FromPath(imagePath) else Empty
  }

  datatype Images = Images(play: NativeImage, pause: NativeImage, next: NativeImage, previous: NativeImage)

  /** `images`: the four icons, loaded once; none is empty and no two coincide. */
  function LoadImages(): (r: Images)
    ensures r.play == FromPath(PlayIconPath) && r.pause == FromPath(PauseIconPath)
    ensures r.next == FromPath(NextIconPath) && r.previous == FromPath(PreviousIconPath)
    ensures r.play != r.pause && r.play != r.next && r.play != r.previous
    ensures r.pause != r.next && r.pause != r.previous && r.next != r.previous
  {
    Images(GetNativeImage("play"), GetNativeImage("pause"), GetNativeImage("next"), GetNativeImage("previous"))
  }

  // ---------------------------------------------------------------------
  // The button set
  // ---------------------------------------------------------------------

  /** The full button set `setThumbar` installs for a song in the given
      pause state: Previous, Play/Pause, Next, in that order. */
  function ThumbarButtons(images: Images, isPaused: bool): (r: seq<ThumbarButton>)
    ensures |r| == 3
    ensures r[0] == ThumbarButton("Previous", images.previous, Previous)
    ensures r[1].tooltip == "Play/Pause" && r[1].click == PlayPause
    ensures r[1].icon == if isPaused then images.play else images.pause
    ensures r[2] == ThumbarButton("Next", images.next, Next)
  {
    [ ThumbarButton("Previous", images.previous, Previous),
      ThumbarButton("Play/Pause", if isPaused then images.play else images.pause, PlayPause),
      ThumbarButton("Next", images.next, Next) ]
  }

  /** Only the play/pause icon depends on the pause state: every button's
      tooltip and action, and the other two icons, are the same either way. */
  lemma OnlyPlayPauseIconVaries(images: Images, a: bool, b: bool)
    ensures forall i :: 0 <= i < 3 ==>
      ThumbarButtons(images, a)[i].tooltip == ThumbarButtons(images, b)[i].tooltip &&
      ThumbarButtons(images, a)[i].click == ThumbarButtons(images, b)[i].click
    ensures forall i :: 0 <= i < 3 && i != 1 ==> ThumbarButtons(images, a)[i] == ThumbarButtons(images, b)[i]
  {
  }

  /** With the plugin's icons the play/pause icon tells the two pause states
      apart: the icons agree exactly when the states do. */
  lemma PlayPauseIconReflectsState(a: bool, b: bool)
    ensures ThumbarButtons(LoadImages(), a)[1].icon == ThumbarButtons(LoadImages(), b)[1].icon <==> a == b
  {
  }

  /** Each button triggers a different control. */
  lemma ButtonActionsDistinct(images: Images, isPaused: bool)
    ensures forall i, j :: 0 <= i < j < 3 ==>
      ThumbarButtons(images, isPaused)[i].click != ThumbarButtons(images, isPaused)[j].click
  {
  }

  /** Whether `setThumbar` installs anything: `songInfo?.title` is truthy. */
  predicate HasTitle(songInfo: Option<SongInfo>) {
    songInfo.Some? && songInfo.value.title != ""
  }

  /** The calls `setThumbar(songInfo)` makes: nothing without a titled song,
      and otherwise exactly one install of the full button set. */
  function ThumbarCalls(images: Images, songInfo: Option<SongInfo>): (r: seq<NativeCall>)
    ensures |r| <= 1
    ensures r != [] <==> HasTitle(songInfo)
    ensures r != [] ==> r[0] == SetThumbarButtons(ThumbarButtons(images, songInfo.value.isPaused))
  {
    if !HasTitle(songInfo) then [] else [SetThumbarButtons(ThumbarButtons(images, songInfo.value.isPaused))]
  }

  // ---------------------------------------------------------------------
  // The event-driven state machine, on values
  // ---------------------------------------------------------------------

  /** What reaches the binder: a playback callback, or the window's `show` event. */
  datatype Input = Playback(info: SongInfo, event: SongInfoEvent) | Show

  /** One input: the new cached song and the calls made. */
  function Step(images: Images, cache: Option<SongInfo>, input: Input): (r: (Option<SongInfo>, seq<NativeCall>))
    ensures input.Playback? && input.event == TimeChanged ==> r == (cache, [])
    ensures input.Playback? && input.event != TimeChanged ==>
      r == (Some(input.info), ThumbarCalls(images, Some(input.info)))
    ensures input.Show? ==> r == (cache, ThumbarCalls(images, cache))
  {
    match input
    case Playback(info, event) =>
      if event != TimeChanged then (Some(info), ThumbarCalls(images, Some(info))) else (cache, [])
    case Show => (cache, ThumbarCalls(images, cache))
  }

  /** A stream of inputs, one after another: the final cache and all calls.
      A stream of n inputs makes at most n calls, all of them thumbar installs. */
  function Run(images: Images, cache: Option<SongInfo>, inputs: seq<Input>): (r: (Option<SongInfo>, seq<NativeCall>))
    ensures |r.1| <= |inputs|
    ensures forall c :: c in r.1 ==> c.SetThumbarButtons?
    decreases |inputs|
  {
    if inputs == [] then (cache, [])
    else
      var first := Step(images, cache, inputs[0]);
      var rest := Run(images, first.0, inputs[1..]);
      (rest.0, first.1 + rest.1)
  }

  predicate IsTimeUpdate(input: Input) {
    input.Playback? && input.event == TimeChanged
  }

  /** The stream with its time updates removed: every other input is kept,
      as often as it occurs, and in order (`WithoutTimeUpdatesAppend`). */
  function WithoutTimeUpdates(inputs: seq<Input>): (r: seq<Input>)
    ensures |r| <= |inputs|
    ensures forall x :: multiset(r)[x] == if IsTimeUpdate(x) then 0 else multiset(inputs)[x]
    decreases |inputs|
  {
    if inputs == [] then []
    else
      assert inputs == [inputs[0]] + inputs[1..];
      if IsTimeUpdate(inputs[0]) then WithoutTimeUpdates(inputs[1..])
      else [inputs[0]] + WithoutTimeUpdates(inputs[1..])
  }

  /** A single input is dropped exactly when it is a time update. */
  lemma WithoutTimeUpdatesSingle(x: Input)
    ensures WithoutTimeUpdates([x]) == if IsTimeUpdate(x) then [] else [x]
  {
    assert [x][1..] == [];
  }

  /** Filtering works input by input, so it keeps the order of the stream:
      the filter of a concatenation is the concatenation of the filters. */
  lemma {:induction false} WithoutTimeUpdatesAppend(a: seq<Input>, b: seq<Input>)
    ensures WithoutTimeUpdates(a + b) == WithoutTimeUpdates(a) + WithoutTimeUpdates(b)
    decreases |a|
  {
    if a == [] {
      assert a + b == b;
    } else {
      var ab := a + b;
      assert ab[0] == a[0] && ab[1..] == a[1..] + b;
      WithoutTimeUpdatesAppend(a[1..], b);
      var fa, fb := WithoutTimeUpdates(a[1..]), WithoutTimeUpdates(b);
      if IsTimeUpdate(a[0]) {
        assert WithoutTimeUpdates(ab) == fa + fb;
      } else {
        assert WithoutTimeUpdates(ab) == [a[0]] + (fa + fb);
        assert [a[0]] + (fa + fb) == ([a[0]] + fa) + fb;
      }
    }
  }

  /** Time updates are invisible: dropping them from a stream changes neither
      the cached song nor any call. */
  lemma {:induction false} RunIgnoresTimeUpdates(images: Images, cache: Option<SongInfo>, inputs: seq<Input>)
    ensures Run(images, cache, inputs) == Run(images, cache, WithoutTimeUpdates(inputs))
    decreases |inputs|
  {
    if inputs != [] {
      var first := Step(images, cache, inputs[0]);
      var rest := WithoutTimeUpdates(inputs[1..]);
      RunIgnoresTimeUpdates(images, first.0, inputs[1..]);
      if IsTimeUpdate(inputs[0]) {
        assert first == (cache, []);
        assert [] + Run(images, cache, rest).1 == Run(images, cache, rest).1;
      } else {
        var w := [inputs[0]] + rest;
        assert w[0] == inputs[0] && w[1..] == rest;
        assert Run(images, cache, w) == (Run(images, first.0, rest).0, first.1 + Run(images, first.0, rest).1);
      }
    }
  }

  /** Until the first playback event other than a time update, the cache stays
      unset and nothing is installed, however often the window is shown. */
  lemma {:induction false} NothingBeforeFirstSong(images: Images, inputs: seq<Input>)
    requires forall k :: 0 <= k < |inputs| ==> inputs[k].Show? || inputs[k].event == TimeChanged
    ensures Run(images, None, inputs) == (None, [])
    decreases |inputs|
  {
    if inputs != [] {
      assert Step(images, None, inputs[0]) == (None, []);
      assert forall k :: 0 <= k < |inputs[1..]| ==> inputs[1..][k] == inputs[k + 1];
      NothingBeforeFirstSong(images, inputs[1..]);
      var calls: seq<NativeCall> := [];
      assert Run(images, None, inputs).1 == calls + Run(images, None, inputs[1..]).1;
    }
  }

  /** Every input installs at most once, and everything installed is a full
      three-button set for some pause state. */
  lemma {:induction false} AtMostOneInstallPerInput(images: Images, cache: Option<SongInfo>, inputs: seq<Input>)
    ensures |Run(images, cache, inputs).1| <= |inputs|
    ensures forall c :: c in Run(images, cache, inputs).1 ==>
      exists b: bool :: c == SetThumbarButtons(ThumbarButtons(images, b))
    decreases |inputs|
  {
    if inputs != [] {
      var first := Step(images, cache, inputs[0]);
      AtMostOneInstallPerInput(images, first.0, inputs[1..]);
      if first.1 != [] {
        var info := if inputs[0].Show? then cache.value else inputs[0].info;
        assert first.1 == [SetThumbarButtons(ThumbarButtons(images, info.isPaused))];
      }
    }
  }

  /** A `show` right after a playback event re-installs exactly what that
      event installed. */
  lemma ShowReinstallsLastSet(images: Images, cache: Option<SongInfo>, info: SongInfo, event: SongInfoEvent)
    requires event != TimeChanged
    ensures Step(images, Step(images, cache, Playback(info, event)).0, Show).1
         == Step(images, cache, Playback(info, event)).1
  {
  }

  /** A titled song followed by a time update installs exactly one button set. */
  lemma TitledSongThenTimeUpdate(images: Images, title: string, name: string, later: SongInfo)
    requires title != ""
    ensures Run(images, None, [Playback(SongInfo(title, false), OtherEvent(name)), Playback(later, TimeChanged)]).1
         == [SetThumbarButtons(ThumbarButtons(images, false))]
  {
    var song := SongInfo(title, false);
    var inputs := [Playback(song, OtherEvent(name)), Playback(later, TimeChanged)];
    var tail := inputs[1..];
    var none: seq<NativeCall> := [];
    assert tail == [Playback(later, TimeChanged)] && tail[1..] == [];
    assert Run(images, Some(song), tail[1..]).1 == none;
    assert Run(images, Some(song), tail).1 == none + none;
    assert Run(images, None, inputs).1 == [SetThumbarButtons(ThumbarButtons(images, false))] + Run(images, Some(song), tail).1;
  }

  // ---------------------------------------------------------------------
  // The backend closure as an object
  // ---------------------------------------------------------------------

  class Backend {
    const window: BrowserWindow
    const images: Images
    var currentSongInfo: Option<SongInfo>

    /** `backend({ window })`: loads the icons; the cache starts unset and no
        call is made on the window. */
    constructor (window: BrowserWindow)
      ensures this.window == window && images == LoadImages() && currentSongInfo == None
    {
      this.window := window;
      images := LoadImages();
      currentSongInfo := None;
    }

    /** `setThumbar`. */
    method SetThumbar(songInfo: Option<SongInfo>)
      modifies window
      ensures window.log == old(window.log) + ThumbarCalls(images, songInfo)
    {
      if !(songInfo.Some? && songInfo.value.title != "") {
        return;
      }
      window.Call(SetThumbarButtons(ThumbarButtons(images, songInfo.value.isPaused)));
    }

    /** The callback handed to `registerCallback`. */
    method OnSongInfo(songInfo: SongInfo, event: SongInfoEvent)
      modifies this, window
      ensures currentSongInfo == Step(images, old(currentSongInfo), Playback(songInfo, event)).0
      ensures window.log == old(window.log) + Step(images, old(currentSongInfo), Playback(songInfo, event)).1
      ensures event == TimeChanged ==> currentSongInfo == old(currentSongInfo) && window.log == old(window.log)
      ensures event != TimeChanged ==>
        currentSongInfo == Some(songInfo) && window.log == old(window.log) + ThumbarCalls(images, Some(songInfo))
    {
      if event != TimeChanged {
        currentSongInfo := Some(songInfo);
        SetThumbar(currentSongInfo);
      }
    }

    /** The `show` handler: re-install from the cache. */
    method OnShow()
      modifies window
      ensures currentSongInfo == Step(images, old(currentSongInfo), Show).0
      ensures window.log == old(window.log) + Step(images, old(currentSongInfo), Show).1
      ensures currentSongInfo == old(currentSongInfo)
      ensures window.log == old(window.log) + ThumbarCalls(images, currentSongInfo)
    {
      SetThumbar(currentSongInfo);
    }
  }

  /** A titled, playing song, then a time update, then a `show`: two installs
      of the same set, the first from the event and the second from the cache. */
  method SongThenTimeUpdateThenShow()
  {
    var window := new BrowserWindow(Capabilities(true, false, true));
    var backend := new Backend(window);
    backend.OnShow();
    assert window.log == [];
    var song := SongInfo("Song A", false);
    backend.OnSongInfo(song, OtherEvent("video-src-changed"));
    var install := SetThumbarButtons(ThumbarButtons(LoadImages(), false));
    assert window.log == [install];
    backend.OnSongInfo(song, TimeChanged);
    assert window.log == [install];
    backend.OnShow();
    assert window.log == [install, install];
  }
}
