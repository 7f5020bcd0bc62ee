# Transparent player and taskbar media controls, modelled in Dafny

This project models the backends of two Electron plugins of a desktop music
player:

- **transparent-player** gives the main window a native translucency
  material. On Windows it goes through `setBackgroundMaterial`. On macOS it
  goes through `setVibrancy`. On other platforms it does nothing. The
  material `NONE` becomes the clearing value (`'none'` or `null`). The plugin
  also has platform-dependent defaults and catalogs, radio menus over those
  catalogs, and a backend object. The backend's only state is `mainWindow`,
  and `onConfigChange` never re-applies the tint
  (`src/plugins/transparent-player/index.ts:95-107`).
- **taskbar-mediacontrol** installs a three-button thumbar (Previous,
  Play/Pause, Next) on the window. It rebuilds the thumbar on every playback
  event that is not a time update and whose song has a title. A song without
  a title installs nothing and leaves the old buttons on the window. The
  plugin re-installs the thumbar from a cached song whenever the window is
  shown again.

The native window is a `BrowserWindow` object that records every native call
in a `log`, so each contract says exactly which calls an event produces. The
window methods the source calls through `?.` might be missing on an Electron
build. Which ones exist is a constant `caps` of the window.

Files:
- `platform.dfy`: the platform (`Windows`, `MacOS`, `Other`), fixed once.
- `material_types.dfy`: the material enum.
- `electron.dfy`: the call log vocabulary, image handles, thumbar buttons,
  and the `BrowserWindow` class.
- `transparent_player.dfy`: module `TransparentPlayer`.
- `taskbar_mediacontrol.dfy`: module `TaskbarMediaControl`.

How things are represented:
- Opacity is in integer tenths (0.5 is `5`). The tint call records that
  number.
- Icon assets are named by their asset paths. Image handles are
  tokens: `FromPath(path)` or `Empty`.
- Song controls are the tokens `Previous`, `PlayPause` and `Next`.
- The platform is a constructor parameter. Configuration is a value passed
  to `Start` and `OnConfigChange`.
- The playback stream and `show` events are method calls on the taskbar
  `Backend`. They also appear as a value-level `Input` stream (`Step`,
  `Run`) so lemmas can relate several events.
- `Decoration(log)` is the material a window shows after a call log: the
  argument of the last material call, or no material when there is none.

## Model

| member | source | states |
|---|---|---|
| TransparentPlayer.NativeArg | src/plugins/transparent-player/index.ts:12-23 | a material is forwarded as itself, and `NONE` becomes the clearing value and is never forwarded |
| TransparentPlayer.MaterialCalls | src/plugins/transparent-player/index.ts:11-25 | applying a material makes at most one call; there is exactly one when the platform's API exists on the window; it goes to `setBackgroundMaterial` on Windows and to `setVibrancy` on macOS, with the material or the clearing value for `NONE` |
| TransparentPlayer.SetWindowMaterial | src/plugins/transparent-player/index.ts:11-25 | the imperative dispatch appends exactly `MaterialCalls` to the window's log |
| TransparentPlayer.NoneNeverForwarded | src/plugins/transparent-player/index.ts:11-16 | no call ever passes `NONE` itself as a material |
| TransparentPlayer.NeverBothApis | src/plugins/transparent-player/index.ts:18-24 | one application never calls both `setBackgroundMaterial` and `setVibrancy` |
| TransparentPlayer.TintCalls | src/plugins/transparent-player/index.ts:101 | the tint is one `setBackgroundColor` with the configured opacity, on any platform, skipped only when the method is missing |
| TransparentPlayer.MaterialEffect | src/plugins/transparent-player/index.ts:11-25 | after applying a material the window shows its native argument when the API exists, and is unchanged otherwise |
| TransparentPlayer.TintKeepsDecoration | src/plugins/transparent-player/index.ts:101 | the tint call does not change the window's material |
| TransparentPlayer.StartThenStopReverts | src/plugins/transparent-player/index.ts:96-110 | `start` followed by `stop` on an undecorated window leaves it undecorated, for every material and opacity |
| TransparentPlayer.ReapplyIdempotent | src/plugins/transparent-player/index.ts:103-107 | applying the same material twice leaves the window showing the same material as applying it once; the native call is repeated |
| TransparentPlayer.DefaultConfig | src/plugins/transparent-player/index.ts:28-36 | the default is disabled with opacity 0.5; the material is `ACRYLIC` on Windows, `FULLSCREEN_UI` on macOS, and `NONE` exactly on other platforms |
| TransparentPlayer.OpacityList | src/plugins/transparent-player/index.ts:39 | ten opacities, the i-th being (i+1) tenths, so 0.1 to 1 in steps of 0.1 |
| TransparentPlayer.TypeList | src/plugins/transparent-player/index.ts:40-56 | the material catalog is non-empty and ends in `NONE`; on other platforms it is only `NONE` |
| TransparentPlayer.OpacityListFacts | src/plugins/transparent-player/index.ts:28-39 | the opacity catalog is strictly ascending, has distinct entries, runs from 0.1 to 1, and contains the default opacity of every platform |
| TransparentPlayer.TypeListFacts | src/plugins/transparent-player/index.ts:28-56 | the material catalog has distinct entries, its last entry is `NONE`, and it contains the platform's default material |
| TransparentPlayer.RadioItems | src/plugins/transparent-player/index.ts:70-90 | a submenu has one item per catalog entry, in order; an item is checked exactly when its value equals the configured value |
| TransparentPlayer.CheckedCountOfDistinct | src/plugins/transparent-player/index.ts:70-90 | over a catalog with distinct entries, one item is checked if the configured value is in the catalog, and none otherwise |
| TransparentPlayer.OpacityMenu | src/plugins/transparent-player/index.ts:70-79 | the opacity submenu is `RadioItems` over `OpacityList`: ten items for 1 to 10 tenths, in order, each checked exactly when it equals the configured opacity |
| TransparentPlayer.TypeMenu | src/plugins/transparent-player/index.ts:83-90 | the material submenu is `RadioItems` over the platform's `TypeList`: one item per catalog entry, in order, `NONE` last, each checked exactly when it equals the configured material |
| TransparentPlayer.ApplyPatch | src/plugins/transparent-player/index.ts:76-89 | an item's click changes only the opacity, or only the material, of the configuration |
| TransparentPlayer.MenuCheckedCounts | src/plugins/transparent-player/index.ts:65-93 | each submenu checks at most one item, and exactly one when the configured value is in its catalog |
| TransparentPlayer.DefaultMenuChecksOneEach | src/plugins/transparent-player/index.ts:28-90 | under the default configuration each submenu checks exactly one item |
| TransparentPlayer.ClickOpacitySelects | src/plugins/transparent-player/index.ts:70-79 | after clicking the i-th opacity item, the rebuilt submenu checks that item and no other |
| TransparentPlayer.ClickTypeSelects | src/plugins/transparent-player/index.ts:83-90 | after clicking the i-th material item, the rebuilt submenu checks that item and no other |
| TransparentPlayer.Backend.constructor | src/plugins/transparent-player/index.ts:95 | `mainWindow` starts null |
| TransparentPlayer.Backend.Start | src/plugins/transparent-player/index.ts:96-102 | `start` records the window in `mainWindow`, then applies the configured material, then the tint, in that order, and makes no other call |
| TransparentPlayer.Backend.OnConfigChange | src/plugins/transparent-player/index.ts:103-107 | with no `mainWindow` nothing happens; otherwise only the new material is applied to `mainWindow`, never the tint |
| TransparentPlayer.Backend.Stop | src/plugins/transparent-player/index.ts:108-110 | `stop` applies `NONE` to the given window, whether or not `start` ran |
| TaskbarMediaControl.GetImagePath | src/plugins/taskbar-mediacontrol/index.ts:34-47 | `play`, `pause`, `next` and `previous` map to their own assets; every other key maps to `''` |
| TaskbarMediaControl.ImagePathInjective | src/plugins/taskbar-mediacontrol/index.ts:34-47 | two keys with the same non-empty path are the same key |
| TaskbarMediaControl.GetNativeImage | src/plugins/taskbar-mediacontrol/index.ts:49-58 | an unknown key gives the empty image; a known key gives the image created from its asset; it is defined for every key |
| TaskbarMediaControl.LoadImages | src/plugins/taskbar-mediacontrol/index.ts:60-65 | the four icons are loaded from their four assets; none is empty and no two coincide |
| TaskbarMediaControl.ThumbarButtons | src/plugins/taskbar-mediacontrol/index.ts:74-97 | three buttons, Previous, Play/Pause, Next, with their tooltips, icons and actions; the Play/Pause icon is the play image when paused and the pause image otherwise |
| TaskbarMediaControl.OnlyPlayPauseIconVaries | src/plugins/taskbar-mediacontrol/index.ts:74-97 | the pause state changes only the Play/Pause icon; tooltips, actions and the other two buttons stay the same (Play/Pause always calls `playPause()`) |
| TaskbarMediaControl.PlayPauseIconReflectsState | src/plugins/taskbar-mediacontrol/index.ts:60-97 | with the plugin's icons, two Play/Pause icons are equal exactly when the pause states are |
| TaskbarMediaControl.ButtonActionsDistinct | src/plugins/taskbar-mediacontrol/index.ts:78-95 | the three buttons trigger three different controls |
| TaskbarMediaControl.ThumbarCalls | src/plugins/taskbar-mediacontrol/index.ts:67-98 | `setThumbar` installs nothing when the song is absent or its title is empty, and otherwise makes exactly one `setThumbarButtons` call with the full button set for that song's pause state |
| TaskbarMediaControl.Step | src/plugins/taskbar-mediacontrol/index.ts:100-110 | a time update changes neither the cache nor the log; any other playback event caches its song and then runs `setThumbar` on it; `show` runs `setThumbar` on the cache |
| TaskbarMediaControl.Run | src/plugins/taskbar-mediacontrol/index.ts:100-110 | the final cache and all calls of a stream of inputs, one `Step` after another; a stream of n inputs makes at most n calls, all of them thumbar installs |
| TaskbarMediaControl.WithoutTimeUpdates | src/plugins/taskbar-mediacontrol/index.ts:100-101 | the filtered stream holds exactly the events that are not time updates, each as often as in the original stream |
| TaskbarMediaControl.WithoutTimeUpdatesSingle | src/plugins/taskbar-mediacontrol/index.ts:100-101 | a single event is dropped exactly when it is a time update |
| TaskbarMediaControl.WithoutTimeUpdatesAppend | src/plugins/taskbar-mediacontrol/index.ts:100-101 | filtering a concatenation gives the concatenation of the filtered parts, so the filter keeps the order of the stream |
| TaskbarMediaControl.RunIgnoresTimeUpdates | src/plugins/taskbar-mediacontrol/index.ts:100-107 | removing the time updates from any event stream changes neither the final cache nor any call |
| TaskbarMediaControl.NothingBeforeFirstSong | src/plugins/taskbar-mediacontrol/index.ts:29-110 | before the first playback event that is not a time update, the cache stays unset and no `show` installs anything |
| TaskbarMediaControl.AtMostOneInstallPerInput | src/plugins/taskbar-mediacontrol/index.ts:67-110 | a stream of n inputs installs at most n times, and everything installed is the full three-button set |
| TaskbarMediaControl.ShowReinstallsLastSet | src/plugins/taskbar-mediacontrol/index.ts:100-110 | a `show` right after a playback event re-installs exactly what that event installed, without a new playback event |
| TaskbarMediaControl.TitledSongThenTimeUpdate | src/plugins/taskbar-mediacontrol/index.ts:100-107 | a titled playing song followed by a time update gives exactly one install |
| TaskbarMediaControl.Backend.constructor | src/plugins/taskbar-mediacontrol/index.ts:28-65 | the backend loads the four icons, starts with the cache unset, and makes no call on the window |
| TaskbarMediaControl.Backend.SetThumbar | src/plugins/taskbar-mediacontrol/index.ts:67-98 | the window's log grows by exactly the calls `ThumbarCalls` describes |
| TaskbarMediaControl.Backend.OnSongInfo | src/plugins/taskbar-mediacontrol/index.ts:100-107 | the new cache and the calls appended are those of `Step` for this playback event: a time update leaves the cache and the log unchanged; any other event stores its song in the cache and appends that song's `setThumbar` calls |
| TaskbarMediaControl.Backend.OnShow | src/plugins/taskbar-mediacontrol/index.ts:110 | the new cache and the calls appended are those of `Step` for `show`: the cache stays the same, and the `setThumbar` calls for the cached song are appended |

## Left out

- The transparent-player `renderer` object: it only changes DOM classes and a CSS variable, and it asks another plugin whether it is enabled.
- The `await getConfig()` in `start`: the model runs `start` as one step. An `onConfigChange` that arrives during that await, after `mainWindow` is set and before the material is applied, is not modelled.
- Reading and writing the config store: configuration is a value. A menu click is modelled as the partial configuration it hands to `setConfig` (`ApplyPatch`).
- Floating-point opacity and the `rgba(0, 0, 0, x)` string: opacity is in integer tenths, so opacities that are not a multiple of 0.1 are not represented.
- Menu labels and `t()` translation, `createPlugin` registration, `restartNeeded`, `platform: Platform.Windows`, the stylesheet, and the asset `import` lines: these are plugin plumbing.
- `getSongControls` and `registerCallback`: these are foreign providers. The controls are the tokens `Previous`, `PlayPause` and `Next`, and callbacks are method calls.
- `SongInfo` fields other than `title` and `isPaused`, and the individual `SongInfoEvent` kinds other than `TimeChanged`: the song-info provider is not part of this model. A title that is `null` or `undefined` is modelled as the empty title.
- `currentSongInfo = songInfo` stores a reference to the provider's object, but the model caches a copy of its value. If the provider changes that object between callbacks, a later `show` in the source sees the changed `title` and `isPaused`; the model does not capture that aliasing.
- `LoadImages`: `nativeImage.createFromPath` is a token; what Electron does with a path it cannot load is not modelled.
- The `MaterialType` enum file (`./types`) is not part of this model. Its values are the nine the core names.
- The taskbar plugin has no `stop` and clears nothing, so the model has none.
