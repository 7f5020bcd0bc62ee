/** The window materials the transparent-player plugin can request. `None` is
    the plugin's "no material" value; it is never handed to the native API as
    a material of its own. */
module MaterialTypes {
  datatype MaterialType =
    | None
    | Mica | Acrylic | Tabbed                                       // Windows
    | Window | FullscreenUI | Content | UnderWindow | UnderPage     // macOS
}
