/**
 * The style store of the drawing tools: the built-in default and preset
 * styles per tool kind, the current default style of each kind, the custom
 * styles saved under a name, and listeners told when a default changes.
 */
module ToolStyles {
  import opened Wrappers
  import opened ChartTypes

  /** The tool kinds, `'line'` and `'rect'`. */
  datatype ToolKind = LineKind | RectKind

  /** A kind's built-in styles: its default and its named presets, in declaration order. */
  datatype ToolConfig = ToolConfig(defaultStyle: Options, presets: seq<(string, Options)>)

  const LineDefault: Options := map[
    Color := Text("#2196F3"), LineWidth := Number(1.0), LineStyle := Stroke(Solid),
    LeftExtend := Flag(false), RightExtend := Flag(false), Snap := Flag(true)]

  const TrendPreset: Options := map[
    Color := Text("#FF4444"), LineWidth := Number(2.0), LineStyle := Stroke(Solid),
    LeftExtend := Flag(true), RightExtend := Flag(true), Snap := Flag(true)]

  const SupportPreset: Options := map[
    Color := Text("#4CAF50"), LineWidth := Number(1.0), LineStyle := Stroke(Dashed), Snap := Flag(true)]

  const RectDefault: Options := map[
    Color := Text("#2196F3"), FillColor := Text("#2196F3"), FillOpacity := Number(0.2),
    BorderStyle := Stroke(Solid), LineWidth := Number(1.0), Snap := Flag(true)]

  const HighlightPreset: Options := map[
    Color := Text("#FFC107"), FillColor := Text("#FFC107"), FillOpacity := Number(0.3),
    BorderStyle := Stroke(Dashed), LineWidth := Number(2.0)]

  const ZonePreset: Options := map[
    Color := Text("#9C27B0"), FillColor := Text("#9C27B0"), FillOpacity := Number(0.1),
    BorderStyle := Stroke(Dotted), LineWidth := Number(1.0)]

  /** `ToolStyleConfigs`. */
  function Config(kind: ToolKind): ToolConfig {
    match kind
    case LineKind => ToolConfig(LineDefault, [("trend", TrendPreset), ("support", SupportPreset)])
    case RectKind => ToolConfig(RectDefault, [("highlight", HighlightPreset), ("zone", ZonePreset)])
  }

  /** The names of a list of named styles, in order. */
  function Names(entries: seq<(string, Options)>): (r: seq<string>)
    ensures |r| == |entries|
    ensures forall i :: 0 <= i < |entries| ==> r[i] == entries[i].0
  {
    if entries == [] then [] else [entries[0].0] + Names(entries[1..])
  }

  /** The style stored under `name`: the first entry with that name. */
  function Lookup(entries: seq<(string, Options)>, name: string): (r: Option<Options>)
    ensures r.Some? <==> name in Names(entries)
    ensures r.Some? ==> (name, r.value) in entries
  {
    if entries == [] then None
    else if entries[0].0 == name then Some(entries[0].1)
    else
      assert Names(entries) == [entries[0].0] + Names(entries[1..]);
      Lookup(entries[1..], name)
  }

  /** When a name occurs more than once, the earliest entry wins. */
  lemma {:induction false} LookupFindsFirst(entries: seq<(string, Options)>, name: string, i: nat)
    requires i < |entries| && entries[i].0 == name
    requires forall j :: 0 <= j < i ==> entries[j].0 != name
    ensures Lookup(entries, name) == Some(entries[i].1)
    decreases i
  {
    if i > 0 {
      assert entries[0].0 != name;
      forall j | 0 <= j < i - 1 ensures entries[1..][j].0 != name {
        assert entries[1..][j] == entries[j + 1];
      }
      LookupFindsFirst(entries[1..], name, i - 1);
    }
  }

  /** `getPresetStyle`: the named preset of the kind, or `None`. */
  function PresetStyle(kind: ToolKind, name: string): (r: Option<Options>)
    ensures r.Some? <==> name in PresetNames(kind)
    ensures r.Some? ==> (name, r.value) in Config(kind).presets
  {
    Lookup(Config(kind).presets, name)
  }

  /** `getPresetNames`. */
  function PresetNames(kind: ToolKind): seq<string> {
    Names(Config(kind).presets)
  }

  /** `getToolTypes`. */
  function ToolTypes(): (r: seq<ToolKind>)
    ensures LineKind in r && RectKind in r
    ensures |r| == 2 && r[0] != r[1]
  {
    [LineKind, RectKind]
  }

  /** The presets of each kind, by name and in order, and what each one is. */
  lemma PresetCatalogue()
    ensures PresetNames(LineKind) == ["trend", "support"]
    ensures PresetNames(RectKind) == ["highlight", "zone"]
    ensures PresetStyle(LineKind, "trend") == Some(TrendPreset)
    ensures PresetStyle(LineKind, "support") == Some(SupportPreset)
    ensures PresetStyle(RectKind, "highlight") == Some(HighlightPreset)
    ensures PresetStyle(RectKind, "zone") == Some(ZonePreset)
    ensures PresetStyle(LineKind, "zone") == None && PresetStyle(RectKind, "trend") == None
  {
    assert Names(Config(LineKind).presets) == ["trend"] + Names([("support", SupportPreset)]);
    assert Names(Config(RectKind).presets) == ["highlight"] + Names([("zone", ZonePreset)]);
  }

  /* ---------------------------------------------------------------------- */
  /* The store and its operations                                            */
  /* ---------------------------------------------------------------------- */

  /** A registered callback, known only by its identity. */
  datatype Listener = Listener(id: nat)

  /** The data of a `defaultStyleChanged` event. */
  datatype StyleChange = StyleChange(toolType: ToolKind, style: Options)

  /** One invocation of a callback with its event data. */
  datatype Delivery = Delivery(listener: Listener, data: StyleChange)

  /** The store, with the callbacks invoked so far in order. */
  datatype StyleStore = StyleStore(
    defaults: map<ToolKind, Options>,
    customs: map<ToolKind, map<string, Options>>,
    listeners: map<string, seq<Listener>>,
    delivered: seq<Delivery>)

  const DefaultStyleChanged: string := "defaultStyleChanged"

  /** A freshly constructed store: the built-in default of each kind, nothing else. */
  function InitialStore(): StyleStore {
    StyleStore(map[LineKind := LineDefault, RectKind := RectDefault], map[], map[], [])
  }

  /** `getDefaultStyle`: a kind without a default gives the empty object. */
  function DefaultOf(s: StyleStore, kind: ToolKind): Options {
    if kind in s.defaults then s.defaults[kind] else map[]
  }

  /** `getCustomStyle`. */
  function CustomOf(s: StyleStore, kind: ToolKind, name: string): Option<Options> {
    if kind in s.customs && name in s.customs[kind] then Some(s.customs[kind][name]) else None
  }

  function ListenersOf(s: StyleStore, event: string): seq<Listener> {
    if event in s.listeners then s.listeners[event] else []
  }

  /** The invocations of `callbacks`, in order, each with `data`. */
  function Deliveries(callbacks: seq<Listener>, data: StyleChange): (r: seq<Delivery>)
    ensures |r| == |callbacks|
    ensures forall i :: 0 <= i < |r| ==> r[i] == Delivery(callbacks[i], data)
  {
    if callbacks == [] then []
    else Deliveries(callbacks[..|callbacks| - 1], data) + [Delivery(callbacks[|callbacks| - 1], data)]
  }

  /** `addCustomStyle`: the kind's current default overridden by the given fields. */
  function AddCustom(s: StyleStore, kind: ToolKind, name: string, style: Options): StyleStore {
    var named := if kind in s.customs then s.customs[kind] else map[];
    s.(customs := s.customs[kind := named[name := Merge(DefaultOf(s, kind), style)]])
  }

  /** `on`. */
  function Subscribe(s: StyleStore, event: string, callback: Listener): StyleStore {
    s.(listeners := s.listeners[event := ListenersOf(s, event) + [callback]])
  }

  /** `emit`: every callback of the event, in registration order. */
  function Emit(s: StyleStore, event: string, data: StyleChange): StyleStore {
    s.(delivered := s.delivered + Deliveries(ListenersOf(s, event), data))
  }

  /** `updateDefaultStyle`: merge into the default, then announce the new default. */
  function UpdateDefault(s: StyleStore, kind: ToolKind, patch: Options): StyleStore {
    var updated := s.(defaults := s.defaults[kind := Merge(DefaultOf(s, kind), patch)]);
    Emit(updated, DefaultStyleChanged, StyleChange(kind, DefaultOf(updated, kind)))
  }

  /** Subscribing several callbacks one after another. */
  function SubscribeAll(s: StyleStore, event: string, callbacks: seq<Listener>): StyleStore
    decreases |callbacks|
  {
    if callbacks == [] then s else SubscribeAll(Subscribe(s, event, callbacks[0]), event, callbacks[1..])
  }

  /* ---------------------------------------------------------------------- */
  /* Properties of the store                                                 */
  /* ---------------------------------------------------------------------- */

  /** Right after construction the default of each kind is its built-in default. */
  lemma InitialDefaults(kind: ToolKind)
    ensures DefaultOf(InitialStore(), kind) == Config(kind).defaultStyle
    ensures forall name :: CustomOf(InitialStore(), kind, name) == None
  {
  }

  /**
   * A custom style is the current default overridden field-wise by the given
   * style; no other custom style and no default changes.
   */
  lemma AddCustomStores(s: StyleStore, kind: ToolKind, name: string, style: Options)
    ensures CustomOf(AddCustom(s, kind, name, style), kind, name) == Some(Merge(DefaultOf(s, kind), style))
    ensures forall k, n :: (k, n) != (kind, name) ==>
      CustomOf(AddCustom(s, kind, name, style), k, n) == CustomOf(s, k, n)
    ensures AddCustom(s, kind, name, style).defaults == s.defaults
    ensures AddCustom(s, kind, name, style).listeners == s.listeners
  {
  }

  /** Adding under a name that is taken overwrites the earlier style. */
  lemma AddCustomOverwrites(s: StyleStore, kind: ToolKind, name: string, first: Options, second: Options)
    ensures AddCustom(AddCustom(s, kind, name, first), kind, name, second) == AddCustom(s, kind, name, second)
  {
    var named := if kind in s.customs then s.customs[kind] else map[];
    var once := AddCustom(s, kind, name, first);
    assert DefaultOf(once, kind) == DefaultOf(s, kind);
    assert once.customs[kind] == named[name := Merge(DefaultOf(s, kind), first)];
    assert once.customs[kind][name := Merge(DefaultOf(s, kind), second)] == named[name := Merge(DefaultOf(s, kind), second)];
  }

  /** A stored custom style is a snapshot: changing the default afterwards leaves it as it was. */
  lemma CustomIsSnapshot(s: StyleStore, kind: ToolKind, patch: Options, k: ToolKind, name: string)
    ensures CustomOf(UpdateDefault(s, kind, patch), k, name) == CustomOf(s, k, name)
  {
  }

  /**
   * Updating a default overrides only the given fields of that kind's
   * default, leaves the other kind alone, and tells exactly the
   * `defaultStyleChanged` listeners, in order, the new default.
   */
  lemma UpdateDefaultMerges(s: StyleStore, kind: ToolKind, patch: Options)
    ensures var r := UpdateDefault(s, kind, patch);
      && DefaultOf(r, kind) == Merge(DefaultOf(s, kind), patch)
      && (forall f :: f in DefaultOf(s, kind) && f !in patch ==> f in DefaultOf(r, kind) && DefaultOf(r, kind)[f] == DefaultOf(s, kind)[f])
      && (forall k :: k != kind ==> DefaultOf(r, k) == DefaultOf(s, k))
      && r.delivered == s.delivered + Deliveries(ListenersOf(s, DefaultStyleChanged), StyleChange(kind, DefaultOf(r, kind)))
  {
  }

  /** Subscriptions are kept in registration order, per event. */
  lemma {:induction false} SubscribeAllAppends(s: StyleStore, event: string, callbacks: seq<Listener>)
    ensures ListenersOf(SubscribeAll(s, event, callbacks), event) == ListenersOf(s, event) + callbacks
    ensures forall e :: e != event ==> ListenersOf(SubscribeAll(s, event, callbacks), e) == ListenersOf(s, e)
    ensures SubscribeAll(s, event, callbacks).delivered == s.delivered
    decreases |callbacks|
  {
    if callbacks != [] {
      var next := Subscribe(s, event, callbacks[0]);
      SubscribeAllAppends(next, event, callbacks[1..]);
      assert ListenersOf(next, event) == ListenersOf(s, event) + [callbacks[0]];
      assert [callbacks[0]] + callbacks[1..] == callbacks;
      assert ListenersOf(s, event) + [callbacks[0]] + callbacks[1..] == ListenersOf(s, event) + callbacks;
    }
  }

  /**
   * Emitting after a series of subscriptions reaches the callbacks the event
   * already had and then exactly the new ones, in the order they subscribed;
   * an event nobody subscribed to delivers nothing.
   */
  lemma EmitReachesSubscribers(s: StyleStore, event: string, callbacks: seq<Listener>, data: StyleChange)
    ensures Emit(SubscribeAll(s, event, callbacks), event, data).delivered
         == s.delivered + Deliveries(ListenersOf(s, event) + callbacks, data)
    ensures event !in s.listeners ==> Emit(s, event, data) == s
  {
    SubscribeAllAppends(s, event, callbacks);
  }

  /* ---------------------------------------------------------------------- */
  /* The manager                                                             */
  /* ---------------------------------------------------------------------- */

  class ToolStyleManager {
    var defaultStyles: map<ToolKind, Options>
    var customStyles: map<ToolKind, map<string, Options>>
    var listeners: map<string, seq<Listener>>
    /** The callback invocations so far, standing for the callbacks' effects. */
    var delivered: seq<Delivery>

    function State(): StyleStore
      reads this
    {
      StyleStore(defaultStyles, customStyles, listeners, delivered)
    }

    constructor ()
      ensures State() == InitialStore()
      ensures forall k :: GetDefaultStyle(k) == Config(k).defaultStyle
    {
      defaultStyles := map[LineKind := LineDefault, RectKind := RectDefault];
      customStyles := map[];
      listeners := map[];
      delivered := [];
    }

    /** `getDefaultStyle`: a copy of the kind's current default. */
    function GetDefaultStyle(kind: ToolKind): (r: Options)
      reads this
      ensures r == DefaultOf(State(), kind)
    {
      if kind in defaultStyles then defaultStyles[kind] else map[]
    }

    /** `getCustomStyle`: `None` for an unknown kind or name. */
    function GetCustomStyle(kind: ToolKind, name: string): (r: Option<Options>)
      reads this
      ensures r == CustomOf(State(), kind, name)
      ensures r.None? <==> kind !in customStyles || name !in customStyles[kind]
    {
      if kind in customStyles && name in customStyles[kind] then Some(customStyles[kind][name]) else None
    }

    function GetPresetStyle(kind: ToolKind, name: string): (r: Option<Options>)
      ensures r == PresetStyle(kind, name)
    {
      Lookup(Config(kind).presets, name)
    }

    function GetPresetNames(kind: ToolKind): (r: seq<string>)
      ensures r == PresetNames(kind)
    {
      Names(Config(kind).presets)
    }

    function GetToolTypes(): (r: seq<ToolKind>)
      ensures r == ToolTypes()
    {
      [LineKind, RectKind]
    }

    method AddCustomStyle(kind: ToolKind, name: string, style: Options)
      modifies this
      ensures State() == AddCustom(old(State()), kind, name, style)
    {
      if kind !in customStyles {
        customStyles := customStyles[kind := map[]];
      }
      var baseStyle := GetDefaultStyle(kind);
      var existingStyles := customStyles[kind];
      customStyles := customStyles[kind := existingStyles[name := Merge(baseStyle, style)]];
    }

    method UpdateDefaultStyle(kind: ToolKind, newStyle: Options)
      modifies this
      ensures State() == UpdateDefault(old(State()), kind, newStyle)
    {
      var currentDefault := GetDefaultStyle(kind);
      defaultStyles := defaultStyles[kind := Merge(currentDefault, newStyle)];
      EmitEvent(DefaultStyleChanged, StyleChange(kind, GetDefaultStyle(kind)));
    }

    method On(event: string, callback: Listener)
      modifies this
      ensures State() == Subscribe(old(State()), event, callback)
    {
      if event !in listeners {
        listeners := listeners[event := []];
      }
      listeners := listeners[event := listeners[event] + [callback]];
    }

    /** `emit`: invokes the event's callbacks one by one. */
    method EmitEvent(event: string, data: StyleChange)
      modifies this
      ensures State() == Emit(old(State()), event, data)
    {
      if event !in listeners {
        return;
      }
      var callbacks := listeners[event];
      for i := 0 to |callbacks|
        invariant defaultStyles == old(defaultStyles) && customStyles == old(customStyles)
        invariant listeners == old(listeners)
        invariant delivered == old(delivered) + Deliveries(callbacks[..i], data)
      {
        assert callbacks[..i + 1][..i] == callbacks[..i];
        delivered := delivered + [Delivery(callbacks[i], data)];
      }
      assert callbacks[..|callbacks|] == callbacks;
    }
  }
}
