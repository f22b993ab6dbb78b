/** The benchmark page: which display strategies are on screen, which of the two
    sockets are opened, where each renderer reports its metrics and which metric
    arrays reach the statistics panel. */
module App {
  import opened Js

  /** The five display strategies. */
  datatype ComparisonType =
    | Base64Direct
    | Base64ObjectUrl
    | BinaryObjectUrl
    | Base64Offscreen
    | BinaryOffscreen

  /** The string value of each strategy. */
  function TypeName(t: ComparisonType): string
  {
    match t
    case Base64Direct => "base64-direct"
    case Base64ObjectUrl => "base64-objecturl"
    case BinaryObjectUrl => "binary-objecturl"
    case Base64Offscreen => "base64-offscreen"
    case BinaryOffscreen => "binary-offscreen"
  }

  /** The stream a strategy consumes. */
  datatype Encoding = Base64 | Binary

  function EncodingOf(t: ComparisonType): Encoding
  {
    match t
    case Base64Direct | Base64ObjectUrl | Base64Offscreen => Base64
    case BinaryObjectUrl | BinaryOffscreen => Binary
  }

  /** A strategy's name contains "base64" exactly when it consumes the Base64
      stream and "binary" exactly when it consumes the binary one, so every name
      contains exactly one of the two. */
  lemma NameNamesEncoding(t: ComparisonType)
    ensures Includes(TypeName(t), "base64") <==> EncodingOf(t) == Base64
    ensures Includes(TypeName(t), "binary") <==> EncodingOf(t) == Binary
  {
    var name := TypeName(t);
    if EncodingOf(t) == Base64 {
      assert OccursAt(name, "base64", 0);
      assert 'y' !in name;
      NotIncludesMissingChar(name, "binary", 5);
    } else {
      assert OccursAt(name, "binary", 0);
      assert '6' !in name;
      NotIncludesMissingChar(name, "base64", 4);
    }
  }

  /** A toggle button's configuration (`label` as `caption`); colour and description are not modelled. */
  datatype ComparisonConfig = ComparisonConfig(kind: ComparisonType, caption: string)

  datatype ViewMode = Single | Comparison

  /** The page state: `viewMode`, `singleType` and `enabledConfigs`. */
  datatype View = View(mode: ViewMode, singleType: ComparisonType, enabled: seq<ComparisonConfig>)

  /** `configs.some(c => c.type === kind)`. */
  predicate HasKind(configs: seq<ComparisonConfig>, kind: ComparisonType)
  {
    exists c | c in configs :: c.kind == kind
  }

  /** `configs.filter(c => c.type !== kind)`: no entry of `kind` is left, and
      the list gets strictly shorter exactly when it held one. */
  function RemoveKind(configs: seq<ComparisonConfig>, kind: ComparisonType): (r: seq<ComparisonConfig>)
    ensures |r| <= |configs|
    ensures forall i :: 0 <= i < |r| ==> r[i].kind != kind
    ensures HasKind(configs, kind) ==> |r| < |configs|
  {
    if configs == [] then []
    else
      var last := configs[|configs| - 1];
      RemoveKind(configs[..|configs| - 1], kind) + (if last.kind != kind then [last] else [])
  }

  /** The filter keeps exactly the entries of other kinds. */
  lemma {:induction false} RemoveKindMembers(configs: seq<ComparisonConfig>, kind: ComparisonType)
    ensures forall c :: c in RemoveKind(configs, kind) <==> c in configs && c.kind != kind
  {
    if configs != [] {
      var n := |configs| - 1;
      RemoveKindMembers(configs[..n], kind);
      assert configs == configs[..n] + [configs[n]];
    }
  }

  /** Filtering out a kind the list does not hold changes nothing. */
  lemma {:induction false} RemoveAbsentKind(configs: seq<ComparisonConfig>, kind: ComparisonType)
    requires !HasKind(configs, kind)
    ensures RemoveKind(configs, kind) == configs
  {
    if configs != [] {
      var n := |configs| - 1;
      var init := configs[..n];
      assert configs == init + [configs[n]];
      assert configs[n] in configs;
      RemoveAbsentKind(init, kind);
    }
  }

  /** `toggleConfig(config)`'s state update: every entry of that kind is removed
      when one is present, otherwise the config is appended. Membership of that
      kind flips and no other kind changes. */
  function Toggle(prev: seq<ComparisonConfig>, config: ComparisonConfig): (r: seq<ComparisonConfig>)
    ensures HasKind(r, config.kind) <==> !HasKind(prev, config.kind)
    ensures forall k :: k != config.kind ==> (HasKind(r, k) <==> HasKind(prev, k))
    ensures HasKind(prev, config.kind) ==> r == RemoveKind(prev, config.kind)
    ensures !HasKind(prev, config.kind) ==> r == prev + [config]
  {
    if HasKind(prev, config.kind) then
      RemoveKindMembers(prev, config.kind);
      RemoveKind(prev, config.kind)
    else
      prev + [config]
  }

  /** Toggling an absent kind twice restores the list. */
  lemma ToggleAbsentTwice(prev: seq<ComparisonConfig>, config: ComparisonConfig)
    requires !HasKind(prev, config.kind)
    ensures Toggle(Toggle(prev, config), config) == prev
  {
    var once := prev + [config];
    assert once[..|once| - 1] == prev;
    RemoveAbsentKind(prev, config.kind);
  }

  /** Toggling a present kind twice keeps it enabled but moves it, as the given
      config, to the end of the list. */
  lemma TogglePresentTwice(prev: seq<ComparisonConfig>, config: ComparisonConfig)
    requires HasKind(prev, config.kind)
    ensures Toggle(Toggle(prev, config), config) == RemoveKind(prev, config.kind) + [config]
    ensures HasKind(Toggle(Toggle(prev, config), config), config.kind)
  {
  }

  /** The connection test for one stream: in comparison mode some enabled
      strategy's name contains the stream's name, in single mode the selected
      one's does. */
  predicate ShouldConnect(v: View, stream: string)
  {
    (v.mode == Comparison && exists i | 0 <= i < |v.enabled| :: Includes(TypeName(v.enabled[i].kind), stream)) ||
    (v.mode == Single && Includes(TypeName(v.singleType), stream))
  }

  /** `shouldConnectBase64`. */
  predicate ShouldConnectBase64(v: View)
  {
    ShouldConnect(v, "base64")
  }

  /** `shouldConnectBinary`. */
  predicate ShouldConnectBinary(v: View)
  {
    ShouldConnect(v, "binary")
  }

  /** The strategies whose renderer is on screen. */
  function Rendered(v: View): (r: seq<ComparisonType>)
    ensures v.mode == Single ==> r == [v.singleType]
    ensures v.mode == Comparison ==> |r| == |v.enabled| && forall i :: 0 <= i < |r| ==> r[i] == v.enabled[i].kind
  {
    if v.mode == Single then [v.singleType]
    else seq(|v.enabled|, i requires 0 <= i < |v.enabled| => v.enabled[i].kind)
  }

  /** A stream's socket is requested exactly when some renderer on screen
      consumes that stream. */
  lemma SocketsFollowRenderers(v: View)
    ensures ShouldConnectBase64(v) <==> exists t :: t in Rendered(v) && EncodingOf(t) == Base64
    ensures ShouldConnectBinary(v) <==> exists t :: t in Rendered(v) && EncodingOf(t) == Binary
  {
    forall t: ComparisonType {
      NameNamesEncoding(t);
    }
    var r := Rendered(v);
    if v.mode == Comparison {
      assert forall t :: t in r <==> exists i | 0 <= i < |v.enabled| :: v.enabled[i].kind == t by {
        forall t | t in r
          ensures exists i | 0 <= i < |v.enabled| :: v.enabled[i].kind == t
        {
          var i :| 0 <= i < |r| && r[i] == t;
          assert v.enabled[i].kind == t;
        }
        forall t | exists i | 0 <= i < |v.enabled| :: v.enabled[i].kind == t
          ensures t in r
        {
          var i :| 0 <= i < |v.enabled| && v.enabled[i].kind == t;
          assert r[i] == t;
        }
      }
    } else {
      assert v.singleType in r;
    }
  }

  /** In single mode exactly one of the two socket URLs is non-null. */
  lemma SingleModeOneSocket(v: View)
    requires v.mode == Single
    ensures ShouldConnectBase64(v) != ShouldConnectBinary(v)
  {
    NameNamesEncoding(v.singleType);
  }

  /** With nothing enabled, comparison mode opens no socket; with anything
      enabled it opens at least one. */
  lemma ComparisonModeSockets(v: View)
    requires v.mode == Comparison
    ensures v.enabled == [] ==> !ShouldConnectBase64(v) && !ShouldConnectBinary(v)
    ensures v.enabled != [] ==> ShouldConnectBase64(v) || ShouldConnectBinary(v)
  {
    if v.enabled != [] {
      NameNamesEncoding(v.enabled[0].kind);
    }
  }

  /** The renderer component `renderComponent` mounts for each strategy. */
  datatype RendererKind =
    | DataUrlImage
    | ObjectUrlImage
    | BinaryImage
    | OffscreenCanvasBase64
    | OffscreenCanvasBinary

  /** The mounted renderer, the latency array its `onLatencyUpdate` writes and
      the size array its `onImageSizeUpdate` writes. */
  datatype Route = Route(renderer: RendererKind, latencySink: ComparisonType, sizeSink: Encoding)

  /** `renderComponent(type)`. */
  function RenderComponent(t: ComparisonType): Route
  {
    match t
    case Base64Direct => Route(DataUrlImage, Base64Direct, Base64)
    case Base64ObjectUrl => Route(ObjectUrlImage, Base64ObjectUrl, Base64)
    case BinaryObjectUrl => Route(BinaryImage, BinaryObjectUrl, Binary)
    case Base64Offscreen => Route(OffscreenCanvasBase64, Base64Offscreen, Base64)
    case BinaryOffscreen => Route(OffscreenCanvasBinary, BinaryOffscreen, Binary)
  }

  /** Every strategy gets a renderer of its own and a latency array of its own,
      but the size array is shared by all strategies of one stream: two of them
      enabled together overwrite each other's sizes. */
  lemma RoutesShareSizesByStream(t: ComparisonType, u: ComparisonType)
    ensures RenderComponent(t).sizeSink == EncodingOf(t)
    ensures t != u ==> RenderComponent(t).renderer != RenderComponent(u).renderer
    ensures t != u ==> RenderComponent(t).latencySink != RenderComponent(u).latencySink
    ensures RenderComponent(t).sizeSink == RenderComponent(u).sizeSink <==> EncodingOf(t) == EncodingOf(u)
  {
  }

  /** The latency array of `t` is passed to the panel only when `t` is enabled
      (comparison) or selected (single); otherwise `[]` is passed. */
  function PanelLatencies(v: View, t: ComparisonType, stored: seq<real>): seq<real>
  {
    if (v.mode == Comparison && HasKind(v.enabled, t)) || (v.mode == Single && v.singleType == t)
    then stored else []
  }

  /** The size array of a stream is passed to the panel under the same test that
      opens its socket. */
  function PanelSizes(v: View, stream: Encoding, stored: seq<real>): seq<real>
  {
    if ShouldConnect(v, if stream == Base64 then "base64" else "binary") then stored else []
  }

  /** The panel shows a strategy's latencies exactly while its renderer is on
      screen, and a stream's sizes exactly while some renderer of that stream is
      on screen. */
  lemma PanelShowsOnlyRendered(v: View, t: ComparisonType, stream: Encoding, stored: seq<real>)
    requires stored != []
    ensures PanelLatencies(v, t, stored) == stored <==> t in Rendered(v)
    ensures PanelLatencies(v, t, stored) != stored ==> PanelLatencies(v, t, stored) == []
    ensures PanelSizes(v, stream, stored) == stored <==> exists u :: u in Rendered(v) && EncodingOf(u) == stream
  {
    SocketsFollowRenderers(v);
    var r := Rendered(v);
    if v.mode == Comparison {
      if HasKind(v.enabled, t) {
        var c :| c in v.enabled && c.kind == t;
        var i :| 0 <= i < |v.enabled| && v.enabled[i] == c;
        assert r[i] == t;
      }
      if t in r {
        var i :| 0 <= i < |r| && r[i] == t;
        assert v.enabled[i] in v.enabled;
      }
    }
  }

  /** The initial enabled strategies: all but the Base64 object-URL one. */
  function InitialEnabled(): seq<ComparisonConfig>
  {
    [ ComparisonConfig(Base64Direct, "Base64 직접 사용"),
      ComparisonConfig(BinaryObjectUrl, "Binary → ObjectURL"),
      ComparisonConfig(Base64Offscreen, "Base64 → OffscreenCanvas"),
      ComparisonConfig(BinaryOffscreen, "Binary → OffscreenCanvas") ]
  }

  /** The first view shows every strategy but the Base64 object-URL one, in
      the order of the toggle buttons, and so requests both sockets. */
  lemma InitialViewOpensBothSockets()
    ensures Rendered(View(Comparison, Base64Direct, InitialEnabled())) ==
      [Base64Direct, BinaryObjectUrl, Base64Offscreen, BinaryOffscreen]
    ensures ShouldConnectBase64(View(Comparison, Base64Direct, InitialEnabled()))
    ensures ShouldConnectBinary(View(Comparison, Base64Direct, InitialEnabled()))
  {
    var v := View(Comparison, Base64Direct, InitialEnabled());
    var r := Rendered(v);
    assert r == [Base64Direct, BinaryObjectUrl, Base64Offscreen, BinaryOffscreen];
    SocketsFollowRenderers(v);
    assert r[0] in r && EncodingOf(r[0]) == Base64;
    assert r[1] in r && EncodingOf(r[1]) == Binary;
  }

  /** The page's state holder. */
  class Page {
    var view: View

    /** The first render: comparison mode, Base64 direct selected for single
        mode, and both sockets requested. */
    constructor ()
      ensures view == View(Comparison, Base64Direct, InitialEnabled())
      ensures ShouldConnectBase64(view) && ShouldConnectBinary(view)
    {
      InitialViewOpensBothSockets();
      view := View(Comparison, Base64Direct, InitialEnabled());
    }

    /** A toggle button click. */
    method ToggleConfig(config: ComparisonConfig)
      modifies this
      ensures view == old(view).(enabled := Toggle(old(view).enabled, config))
    {
      view := view.(enabled := Toggle(view.enabled, config));
    }

    /** One of the two mode buttons. */
    method SetViewMode(mode: ViewMode)
      modifies this
      ensures view == old(view).(mode := mode)
    {
      view := view.(mode := mode);
    }

    /** The strategy selector of single mode. */
    method SetSingleType(t: ComparisonType)
      modifies this
      ensures view == old(view).(singleType := t)
    {
      view := view.(singleType := t);
    }

    /** The URL handed to each receiver hook: the configured URL when the
        socket is wanted, `null` otherwise. */
    function SocketUrls(base64Url: string, binaryUrl: string): (r: (Option<string>, Option<string>))
      reads this
      ensures r.0.Some? <==> ShouldConnectBase64(view)
      ensures r.1.Some? <==> ShouldConnectBinary(view)
      ensures r.0.Some? ==> r.0.value == base64Url
      ensures r.1.Some? ==> r.1.value == binaryUrl
    {
      (if ShouldConnectBase64(view) then Some(base64Url) else None,
       if ShouldConnectBinary(view) then Some(binaryUrl) else None)
    }
  }
}
