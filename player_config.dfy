/**
 * The configuration object the component hands to the player SDK's
 * constructor, the muted-autoplay plugin map and the analytics (pulse)
 * event decorator, together with the small slice of JavaScript values the
 * decorator works on.
 */
module PlayerConfig {
  import opened Browser
  import opened Provider

  /** JavaScript values as far as the decorator sees them; an object is a map from property name to value. */
  datatype JsValue =
    | Undefined
    | Null
    | Bool(b: bool)
    | Num(n: int)
    | Str(s: string)
    | Obj(fields: map<string, JsValue>)

  type JsObject = map<string, JsValue>

  /** `o.key`: a missing property reads as `undefined`. */
  function Get(o: JsObject, key: string): (v: JsValue)
    ensures key in o ==> v == o[key]
    ensures key !in o ==> v == Undefined
  {
    if key in o then o[key] else Undefined
  }

  /** The own properties `{...v}` copies: those of an object; `undefined`, `null`, booleans and numbers give none. */
  function Spread(v: JsValue): (o: JsObject)
    ensures v.Obj? ==> o == v.fields
    ensures !v.Obj? ==> o == map[]
  {
    if v.Obj? then v.fields else map[]
  }

  /** The component's properties, as the host platform passes them in. */
  datatype Props = Props(videoIdMobile: int, videoIdDesktop: int, repeat: bool, theme: bool, autoplay: bool)

  /** The defaults the component's parameter list declares. */
  const DefaultProps := Props(173843, 173843, false, true, true)

  /** The `autoplay` option: the string 'viewable' or the boolean false. */
  datatype AutoplayMode = AutoplayViewable | AutoplayOff

  datatype Recommended = Recommended(autoplay: bool, next: bool, grid: bool)
  datatype Skin = Skin(name: string, url: string)
  datatype Plugin = Plugin(name: string, options: JsObject)

  /** The `pulse` option: the provider tag and the event decorator `(eventData, asset) => event`. */
  datatype Pulse = Pulse(provider: string, decorator: (JsObject, JsValue) -> JsObject)

  datatype Config = Config(
    id: int,
    vendor: string,
    node: string,
    autoplay: AutoplayMode,
    autopause: string,
    stretching: string,
    recommended: Recommended,
    mute: bool,
    locale: string,
    skin: Skin,
    pulse: Pulse,
    plugins: map<string, Plugin>)

  const MutedPluginUrl: string := "https://vgc.no/player/player-plugin-muted-latest.js"
  const SkinUrl: string := "https://vgc.no/player/player-skin-vgtv-latest.css"
  const PartnerTag: string := "partnerstudio"

  /** `plugins`: the muted plugin, keyed by its script URL, exactly when muted autoplay is on. */
  function Plugins(mute: bool): (m: map<string, Plugin>)
    ensures mute ==> m.Keys == {MutedPluginUrl} && m[MutedPluginUrl] == Plugin("MutedPlugin", map[])
    ensures !mute ==> m == map[]
  {
    if mute then map[MutedPluginUrl := Plugin("MutedPlugin", map[])] else map[]
  }

  /**
   * The pulse decorator: the event with `provider.productTag` set to the
   * partner tag and `object.loop` and `object.autoplay` overwritten; the
   * asset is not used.
   */
  function Decorate(repeat: bool, eventData: JsObject, asset: JsValue): (e: JsObject)
    ensures e.Keys == eventData.Keys + {"provider", "object"}
    ensures forall k :: k in eventData && k != "provider" && k != "object" ==> e[k] == eventData[k]
    ensures e["provider"].Obj? && e["object"].Obj?
    ensures e["provider"].fields.Keys == Spread(Get(eventData, "provider")).Keys + {"productTag"}
    ensures e["provider"].fields["productTag"] == Str(PartnerTag)
    ensures forall k :: k in Spread(Get(eventData, "provider")) && k != "productTag" ==>
      e["provider"].fields[k] == Spread(Get(eventData, "provider"))[k]
    ensures e["object"].fields.Keys == Spread(Get(eventData, "object")).Keys + {"loop", "autoplay"}
    ensures e["object"].fields["loop"] == Bool(repeat) && e["object"].fields["autoplay"] == Bool(true)
    ensures forall k :: k in Spread(Get(eventData, "object")) && k != "loop" && k != "autoplay" ==>
      e["object"].fields[k] == Spread(Get(eventData, "object"))[k]
  {
    eventData
      ["provider" := Obj(Spread(Get(eventData, "provider"))["productTag" := Str(PartnerTag)])]
      ["object" := Obj(Spread(Get(eventData, "object"))["loop" := Bool(repeat)]["autoplay" := Bool(true)])]
  }

  /** Decorating an already decorated event changes nothing more. */
  lemma DecorateIdempotent(repeat: bool, eventData: JsObject, asset: JsValue, asset': JsValue)
    ensures Decorate(repeat, Decorate(repeat, eventData, asset), asset') == Decorate(repeat, eventData, asset)
  {
    var once := Decorate(repeat, eventData, asset);
    var provider := once["provider"].fields;
    var obj := once["object"].fields;
    assert provider["productTag" := Str(PartnerTag)] == provider;
    assert obj["loop" := Bool(repeat)]["autoplay" := Bool(true)] == obj;
  }

  /** The environment the component reads from globals: the user agent and the page's hostname. */
  datatype Environment = Environment(userAgent: string, hostname: string)

  /** The configuration object `playerInit` passes to the player constructor. */
  function BuildConfig(p: Props, device: Device, env: Environment, node: string): (c: Config)
    ensures c.id == SelectVideoId(device, DetectBrowser(env.userAgent), p.videoIdMobile, p.videoIdDesktop)
    ensures c.mute <==> p.autoplay && p.theme
    ensures c.autoplay == (if p.autoplay then AutoplayViewable else AutoplayOff)
    ensures c.plugins == (if p.autoplay && p.theme then map[MutedPluginUrl := Plugin("MutedPlugin", map[])] else map[])
    ensures c.pulse.provider == ProviderFor(env.hostname)
    ensures forall e, a :: c.pulse.decorator(e, a) == Decorate(p.repeat, e, a)
    ensures c.node == node
    ensures c.vendor == "brandstudio" && c.locale == "no" && c.autopause == "viewable" && c.stretching == "fill"
    ensures c.recommended == Recommended(false, false, false)
    ensures c.skin == Skin("vgtv", SkinUrl)
  {
    ReturnProviderIsFirstMatch(env.hostname);
    var mute := p.autoplay && p.theme;
    var flags := DetectBrowser(env.userAgent);
    Config(
      id := SelectVideoId(device, flags, p.videoIdMobile, p.videoIdDesktop),
      vendor := "brandstudio",
      node := node,
      autoplay := if p.autoplay then AutoplayViewable else AutoplayOff,
      autopause := "viewable",
      stretching := "fill",
      recommended := Recommended(autoplay := false, next := false, grid := false),
      mute := mute,
      locale := "no",
      skin := Skin("vgtv", SkinUrl),
      pulse := Pulse(ReturnProvider(env.hostname), (eventData, asset) => Decorate(p.repeat, eventData, asset)),
      plugins := Plugins(mute))
  }

  /** With autoplay and theme on, the player starts muted on becoming viewable, with the muted plugin. */
  lemma MutedAutoplayConfig(p: Props, device: Device, env: Environment, node: string)
    requires p.autoplay && p.theme
    ensures BuildConfig(p, device, env, node).mute
    ensures BuildConfig(p, device, env, node).autoplay == AutoplayViewable
    ensures BuildConfig(p, device, env, node).plugins.Keys == {MutedPluginUrl}
  {
  }

  /**
   * With the component's default properties the player autoplays muted and,
   * as both default ids are equal, shows video 173843 whatever the browser.
   */
  lemma DefaultPropsConfig(device: Device, env: Environment, node: string)
    ensures BuildConfig(DefaultProps, device, env, node).id == 173843
    ensures BuildConfig(DefaultProps, device, env, node).mute
    ensures BuildConfig(DefaultProps, device, env, node).autoplay == AutoplayViewable
    ensures BuildConfig(DefaultProps, device, env, node).plugins.Keys == {MutedPluginUrl}
  {
  }

  /** With autoplay off, the player neither autoplays nor mutes and loads no plugin. */
  lemma NoAutoplayConfig(p: Props, device: Device, env: Environment, node: string)
    requires !p.autoplay
    ensures !BuildConfig(p, device, env, node).mute
    ensures BuildConfig(p, device, env, node).autoplay == AutoplayOff
    ensures BuildConfig(p, device, env, node).plugins == map[]
  {
  }
}
