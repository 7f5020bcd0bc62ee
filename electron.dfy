/** The part of Electron the two plugins talk to, reduced to a log of calls.
    A `BrowserWindow` records every native call made on it, in order; image
    handles are opaque tokens. */
module Electron {
  import MT = MaterialTypes

  /** The argument of `setBackgroundMaterial` / `setVibrancy`: either a
      material, or the value that clears it (`'none'` and `null` respectively). */
  datatype MaterialArg = Clear | Apply(material: MT.MaterialType)

  /** A `NativeImage` handle: loaded from a file path, or the empty image. */
  datatype NativeImage = FromPath(path: string) | Empty

  /** The song controls a thumbar button can trigger. */
  datatype Control = Previous | PlayPause | Next

  datatype ThumbarButton = ThumbarButton(tooltip: string, icon: NativeImage, click: Control)

  datatype NativeCall =
    | SetBackgroundMaterial(arg: MaterialArg)
    | SetVibrancy(arg: MaterialArg)
    | SetBackgroundColor(alphaTenths: nat)   // `rgba(0, 0, 0, alpha)`, alpha in tenths
    | SetThumbarButtons(buttons: seq<ThumbarButton>)

  /** Which of the optionally-present window methods this Electron build has
      (the source calls them through `?.`). */
  datatype Capabilities = Capabilities(backgroundMaterial: bool, vibrancy: bool, backgroundColor: bool)

  class BrowserWindow {
    const caps: Capabilities
    var log: seq<NativeCall>

    constructor (caps: Capabilities)
      ensures this.caps == caps && log == []
    {
      this.caps := caps;
      log := [];
    }

    method Call(c: NativeCall)
      modifies this
      ensures log == old(log) + [c]
    {
      log := log + [c];
    }
  }
}
