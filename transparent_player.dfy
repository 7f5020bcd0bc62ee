/** The transparent-player plugin's backend: it routes a window material to
    the native API of the running platform, applies a background tint, and
    keeps the main window's material in step with configuration changes. */
module TransparentPlayer {
  import opened Platform
  import opened MaterialTypes
  import opened Electron

  /** The plugin configuration; `opacity` is in tenths (5 stands for 0.5). */
  datatype Config = Config(enabled: bool, opacity: nat, materialType: MaterialType)

  predicate Distinct<T(==)>(s: seq<T>) {
    forall i, j :: 0 <= i < j < |s| ==> s[i] != s[j]
  }

  // ---------------------------------------------------------------------
  // Platform dispatch of a material
  // ---------------------------------------------------------------------

  /** Whether the platform's material API exists on this window. */
  predicate MaterialApiPresent(p: Kind, caps: Capabilities) {
    (p == Windows && caps.backgroundMaterial) || (p == MacOS && caps.vibrancy)
  }

  /** The argument a material is forwarded as: `None` becomes the clearing value. */
  function NativeArg(t: MaterialType): (a: MaterialArg)
    ensures a.Apply? <==> t != None
    ensures a.Apply? ==> a.material == t
  {
    if t == None then Clear else Apply(t)
  }

  predicate IsMaterialCall(c: NativeCall) {
    c.SetBackgroundMaterial? || c.SetVibrancy?
  }

  /** The native calls that applying material `t` produces. At most one call;
      exactly one when the platform's API is present; always through the
      platform's own API, with `None` turned into the clearing value. */
  function MaterialCalls(p: Kind, caps: Capabilities, t: MaterialType): (r: seq<NativeCall>)
    ensures |r| <= 1
    ensures r != [] <==> MaterialApiPresent(p, caps)
    ensures forall c :: c in r ==>
      ((p == Windows && c.SetBackgroundMaterial?) || (p == MacOS && c.SetVibrancy?))
      && c.arg == NativeArg(t)
  {
    if t == None then
      if p == Windows then (if caps.backgroundMaterial then [SetBackgroundMaterial(Clear)] else [])
      else if p == MacOS then (if caps.vibrancy then [SetVibrancy(Clear)] else [])
      else []
    else if p == Windows then (if caps.backgroundMaterial then [SetBackgroundMaterial(Apply(t))] else [])
    else if p == MacOS then (if caps.vibrancy then [SetVibrancy(Apply(t))] else [])
    else []
  }

  /** The tint call `start` makes: independent of the platform, skipped only
      when the window lacks `setBackgroundColor`. */
  function TintCalls(caps: Capabilities, opacity: nat): (r: seq<NativeCall>)
    ensures |r| <= 1
    ensures r != [] <==> caps.backgroundColor
    ensures forall c :: c in r ==> c == SetBackgroundColor(opacity)
  {
    if caps.backgroundColor then [SetBackgroundColor(opacity)] else []
  }

  /** `setWindowMaterial`: the imperative dispatch on the window itself. */
  method SetWindowMaterial(p: Kind, window: BrowserWindow, t: MaterialType)
    modifies window
    ensures window.log == old(window.log) + MaterialCalls(p, window.caps, t)
  {
    if t == None {
      if p == Windows {
        if window.caps.backgroundMaterial { window.Call(SetBackgroundMaterial(Clear)); }
      } else if p == MacOS {
        if window.caps.vibrancy { window.Call(SetVibrancy(Clear)); }
      }
      return;
    }
    if p == Windows {
      if window.caps.backgroundMaterial { window.Call(SetBackgroundMaterial(Apply(t))); }
    } else if p == MacOS {
      if window.caps.vibrancy { window.Call(SetVibrancy(Apply(t))); }
    }
  }

  /** `None` itself is never forwarded as a material, on any platform. */
  lemma NoneNeverForwarded(p: Kind, caps: Capabilities, t: MaterialType)
    ensures forall c :: c in MaterialCalls(p, caps, t) ==> c.arg != Apply(None)
  {
  }

  /** One application never touches both native APIs. */
  lemma NeverBothApis(p: Kind, caps: Capabilities, t: MaterialType)
    ensures !((exists c :: c in MaterialCalls(p, caps, t) && c.SetBackgroundMaterial?)
              && (exists c :: c in MaterialCalls(p, caps, t) && c.SetVibrancy?))
  {
  }

  // ---------------------------------------------------------------------
  // The decoration state a call log leaves the window in
  // ---------------------------------------------------------------------

  /** The material the window shows after `log`, starting from `init`: the
      argument of the last material call, or `init` when there is none. */
  function DecorationFrom(init: MaterialArg, log: seq<NativeCall>): MaterialArg
    decreases |log|
  {
    if log == [] then init
    else DecorationFrom(if IsMaterialCall(log[0]) then log[0].arg else init, log[1..])
  }

  /** A window that has had no material call is undecorated. */
  function Decoration(log: seq<NativeCall>): MaterialArg {
    DecorationFrom(Clear, log)
  }

  lemma {:induction false} DecorationFromAppend(init: MaterialArg, a: seq<NativeCall>, b: seq<NativeCall>)
    ensures DecorationFrom(init, a + b) == DecorationFrom(DecorationFrom(init, a), b)
    decreases |a|
  {
    if a == [] {
      assert a + b == b;
    } else {
      assert (a + b)[0] == a[0];
      assert (a + b)[1..] == a[1..] + b;
      DecorationFromAppend(if IsMaterialCall(a[0]) then a[0].arg else init, a[1..], b);
    }
  }

  /** Applying a material leaves the window showing that material's native
      argument when the API is present, and changes nothing otherwise. */
  lemma MaterialEffect(p: Kind, caps: Capabilities, t: MaterialType, init: MaterialArg)
    ensures DecorationFrom(init, MaterialCalls(p, caps, t))
         == if MaterialApiPresent(p, caps) then NativeArg(t) else init
  {
  }

  lemma TintKeepsDecoration(caps: Capabilities, opacity: nat, init: MaterialArg)
    ensures DecorationFrom(init, TintCalls(caps, opacity)) == init
  {
  }

  /** Applying a material and then reverting to `None` on the same window
      leaves it undecorated, whatever material and opacity were used. */
  lemma {:induction false} StartThenStopReverts(p: Kind, caps: Capabilities, log: seq<NativeCall>, config: Config)
    requires Decoration(log) == Clear
    ensures Decoration(log + MaterialCalls(p, caps, config.materialType)
                           + TintCalls(caps, config.opacity)
                           + MaterialCalls(p, caps, None)) == Clear
  {
    var m := MaterialCalls(p, caps, config.materialType);
    var tint := TintCalls(caps, config.opacity);
    var n := MaterialCalls(p, caps, None);
    DecorationFromAppend(Clear, log + m + tint, n);
    DecorationFromAppend(Clear, log + m, tint);
    DecorationFromAppend(Clear, log, m);
    MaterialEffect(p, caps, config.materialType, Decoration(log));
    TintKeepsDecoration(caps, config.opacity, Decoration(log + m));
    MaterialEffect(p, caps, None, Decoration(log + m + tint));
  }

  /** Re-applying the same material is idempotent in effect: the native call
      is repeated, but the window shows the material the first one left. */
  lemma {:induction false} ReapplyIdempotent(p: Kind, caps: Capabilities, log: seq<NativeCall>, t: MaterialType)
    ensures Decoration(log + MaterialCalls(p, caps, t) + MaterialCalls(p, caps, t))
         == Decoration(log + MaterialCalls(p, caps, t))
  {
    var m := MaterialCalls(p, caps, t);
    DecorationFromAppend(Clear, log + m, m);
    DecorationFromAppend(Clear, log, m);
    MaterialEffect(p, caps, t, Decoration(log));
    MaterialEffect(p, caps, t, Decoration(log + m));
  }

  // ---------------------------------------------------------------------
  // Defaults and catalogs
  // ---------------------------------------------------------------------

  /** `defaultConfig`: disabled, half opacity, and the platform's preferred material. */
  function DefaultConfig(p: Kind): (c: Config)
    ensures !c.enabled && c.opacity == 5
    ensures p == Windows ==> c.materialType == Acrylic
    ensures p == MacOS ==> c.materialType == FullscreenUI
    ensures c.materialType == None <==> p == Other
  {
    Config(false, 5, if p == Windows then Acrylic else if p == MacOS then FullscreenUI else None)
  }

  /** `opacityList`: 0.1 to 1 in steps of 0.1, in tenths. */
  function OpacityList(): (r: seq<nat>)
    ensures |r| == 10
    ensures forall i :: 0 <= i < |r| ==> r[i] == i + 1
  {
    [1, 2, 3, 4, 5, 6, 7, 8, 9, 10]
  }

  /** `typeList`: the materials offered on the platform, `None` last. */
  function TypeList(p: Kind): (r: seq<MaterialType>)
    ensures |r| > 0 && r[|r| - 1] == None
    ensures p == Other ==> r == [None]
  {
    if p == Windows then [Mica, Acrylic, Tabbed, None]
    else if p == MacOS then [Window, FullscreenUI, Content, UnderWindow, UnderPage, None]
    else [None]
  }

  /** The opacity catalog is strictly ascending (so its entries are distinct)
      and contains the default. */
  lemma OpacityListFacts(p: Kind)
    ensures forall i, j :: 0 <= i < j < |OpacityList()| ==> OpacityList()[i] < OpacityList()[j]
    ensures Distinct(OpacityList())
    ensures OpacityList()[0] == 1 && OpacityList()[9] == 10
    ensures DefaultConfig(p).opacity in OpacityList()
  {
  }

  /** The material catalog holds no duplicates, ends in `None`, and offers
      the platform's default material. */
  lemma TypeListFacts(p: Kind)
    ensures Distinct(TypeList(p))
    ensures TypeList(p)[|TypeList(p)| - 1] == None
    ensures DefaultConfig(p).materialType in TypeList(p)
  {
  }

  // ---------------------------------------------------------------------
  // The menu
  // ---------------------------------------------------------------------

  /** A radio menu item: the value it stands for and whether it is checked. */
  datatype RadioItem<T> = RadioItem(value: T, checked: bool)

  /** `catalog.map(v => ({ checked: current === v, ... }))`. */
  function RadioItems<T(==)>(catalog: seq<T>, current: T): (r: seq<RadioItem<T>>)
    ensures |r| == |catalog|
    ensures forall i :: 0 <= i < |r| ==> r[i].value == catalog[i] && (r[i].checked <==> catalog[i] == current)
    decreases |catalog|
  {
    if catalog == [] then []
    else [RadioItem(catalog[0], catalog[0] == current)] + RadioItems(catalog[1..], current)
  }

  function CheckedCount<T>(items: seq<RadioItem<T>>): nat
    decreases |items|
  {
    if items == [] then 0
    else (if items[0].checked then 1 else 0) + CheckedCount(items[1..])
  }

  /** Over a catalog without duplicates exactly one item is checked when the
      current value is in the catalog, and none otherwise. */
  lemma {:induction false} CheckedCountOfDistinct<T>(catalog: seq<T>, current: T)
    requires Distinct(catalog)
    ensures CheckedCount(RadioItems(catalog, current)) == if current in catalog then 1 else 0
    decreases |catalog|
  {
    if catalog != [] {
      var r := RadioItems(catalog, current);
      var rest := catalog[1..];
      assert Distinct(rest) by {
        forall i, j | 0 <= i < j < |rest| ensures rest[i] != rest[j] {
          assert rest[i] == catalog[i + 1] && rest[j] == catalog[j + 1];
        }
      }
      CheckedCountOfDistinct(rest, current);
      assert r[1..] == RadioItems(rest, current);
      if catalog[0] == current {
        assert current !in rest by {
          forall k | 0 <= k < |rest| ensures rest[k] != current {
            assert rest[k] == catalog[k + 1];
          }
        }
      } else {
        assert current in catalog <==> current in rest by {
          assert catalog == [catalog[0]] + rest;
        }
      }
    }
  }

  /** The opacity submenu. */
  function OpacityMenu(config: Config): (r: seq<RadioItem<nat>>)
    ensures |r| == 10
    ensures forall i :: 0 <= i < |r| ==> r[i].value == i + 1 && (r[i].checked <==> config.opacity == i + 1)
  {
    RadioItems(OpacityList(), config.opacity)
  }

  /** The material submenu. */
  function TypeMenu(p: Kind, config: Config): (r: seq<RadioItem<MaterialType>>)
    ensures |r| == |TypeList(p)| && r[|r| - 1].value == None
    ensures forall i :: 0 <= i < |r| ==> r[i].value == TypeList(p)[i] && (r[i].checked <==> config.materialType == TypeList(p)[i])
  {
    RadioItems(TypeList(p), config.materialType)
  }

  /** The partial configuration a radio item's `click` hands to `setConfig`. */
  datatype ConfigPatch = SetOpacity(opacity: nat) | SetMaterialType(materialType: MaterialType)

  function ApplyPatch(config: Config, patch: ConfigPatch): (c: Config)
    ensures patch.SetOpacity? ==> c == config.(opacity := patch.opacity)
    ensures patch.SetMaterialType? ==> c == config.(materialType := patch.materialType)
  {
    match patch
    case SetOpacity(o) => config.(opacity := o)
    case SetMaterialType(t) => config.(materialType := t)
  }

  /** At most one opacity item and at most one material item is checked;
      exactly one of each when the configured value is in its catalog. */
  lemma MenuCheckedCounts(p: Kind, config: Config)
    ensures CheckedCount(OpacityMenu(config)) == if config.opacity in OpacityList() then 1 else 0
    ensures CheckedCount(TypeMenu(p, config)) == if config.materialType in TypeList(p) then 1 else 0
  {
    OpacityListFacts(p);
    TypeListFacts(p);
    CheckedCountOfDistinct(OpacityList(), config.opacity);
    CheckedCountOfDistinct(TypeList(p), config.materialType);
  }

  /** The default configuration checks exactly one item in each submenu. */
  lemma DefaultMenuChecksOneEach(p: Kind)
    ensures CheckedCount(OpacityMenu(DefaultConfig(p))) == 1
    ensures CheckedCount(TypeMenu(p, DefaultConfig(p))) == 1
  {
    MenuCheckedCounts(p, DefaultConfig(p));
    TypeListFacts(p);
  }

  /** Clicking the i-th opacity item and rebuilding the menu checks that item
      and no other. */
  lemma ClickOpacitySelects(config: Config, i: nat)
    requires i < |OpacityList()|
    ensures var c := ApplyPatch(config, SetOpacity(OpacityMenu(config)[i].value));
      forall j :: 0 <= j < |OpacityMenu(c)| ==> (OpacityMenu(c)[j].checked <==> j == i)
  {
  }

  /** Clicking the i-th material item and rebuilding the menu checks that
      item and no other. */
  lemma ClickTypeSelects(p: Kind, config: Config, i: nat)
    requires i < |TypeList(p)|
    ensures var c := ApplyPatch(config, SetMaterialType(TypeMenu(p, config)[i].value));
      forall j :: 0 <= j < |TypeMenu(p, c)| ==> (TypeMenu(p, c)[j].checked <==> j == i)
  {
  }

  // ---------------------------------------------------------------------
  // The backend object
  // ---------------------------------------------------------------------

  class Backend {
    const platform: Kind
    var mainWindow: BrowserWindow?

    constructor (platform: Kind)
      ensures this.platform == platform && mainWindow == null
    {
      this.platform := platform;
      mainWindow := null;
    }

    /** `start`: remember the window, apply the configured material, then the tint. */
    method Start(window: BrowserWindow, config: Config)
      modifies this, window
      ensures mainWindow == window
      ensures window.log == old(window.log)
                            + MaterialCalls(platform, window.caps, config.materialType)
                            + TintCalls(window.caps, config.opacity)
    {
      mainWindow := window;
      SetWindowMaterial(platform, window, config.materialType);
      if window.caps.backgroundColor {
        window.Call(SetBackgroundColor(config.opacity));
      }
    }

    /** `onConfigChange`: re-apply only the material, and only to a started window. */
    method OnConfigChange(newConfig: Config)
      modifies mainWindow
      ensures mainWindow == old(mainWindow)
      ensures mainWindow != null ==>
        mainWindow.log == old(mainWindow.log) + MaterialCalls(platform, mainWindow.caps, newConfig.materialType)
    {
      if mainWindow != null {
        SetWindowMaterial(platform, mainWindow, newConfig.materialType);
      }
    }

    /** `stop`: clear the material of the given window, started or not. */
    method Stop(window: BrowserWindow)
      modifies window
      ensures window.log == old(window.log) + MaterialCalls(platform, window.caps, None)
    {
      SetWindowMaterial(platform, window, None);
    }
  }

  /** Mica on Windows: one background-material call with Mica, no vibrancy call. */
  method MicaOnWindows()
  {
    var window := new BrowserWindow(Capabilities(true, true, true));
    var backend := new Backend(Windows);
    backend.Start(window, Config(true, 5, Mica));
    assert window.log == [SetBackgroundMaterial(Apply(Mica)), SetBackgroundColor(5)];
  }

  /** FullscreenUI on macOS: one vibrancy call with FullscreenUI. */
  method FullscreenUiOnMacOS()
  {
    var window := new BrowserWindow(Capabilities(true, true, true));
    var backend := new Backend(MacOS);
    backend.Start(window, Config(true, 5, FullscreenUI));
    assert window.log == [SetVibrancy(Apply(FullscreenUI)), SetBackgroundColor(5)];
  }

  /** `stop` without `start` clears the window; `onConfigChange` before
      `start` makes no call. */
  method StopWithoutStart()
  {
    var window := new BrowserWindow(Capabilities(true, true, true));
    var backend := new Backend(Windows);
    backend.OnConfigChange(Config(true, 5, Mica));
    assert window.log == [];
    backend.Stop(window);
    assert window.log == [SetBackgroundMaterial(Clear)];
  }
}
