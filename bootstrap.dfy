/**
 * Player bootstrap: on mount the component loads the SDK script, then
 * either constructs the player at once (the SDK global is present and
 * reports itself loaded) or registers `playerInit` as a listener for the
 * SDK's readiness event.  The constructed player gets a `time` handler that
 * seeks back to the start near the end of playback when `repeat` is on.
 */
module Bootstrap {
  import opened Wrappers
  import opened Browser
  import opened PlayerConfig
  import opened ScriptLoader

  const ReadyEvent: string := "onSvpPlayerReady"
  const SdkScriptTag: string := "script"
  const SdkScriptId: string := "svp-player-sdk"

  /** `window.SVP`, when the global exists. */
  datatype Sdk = Sdk(isLoaded: bool)

  /** One mounted instance of the widget: its properties and the device kind of the view. */
  datatype Component = Component(props: Props, device: Device)

  /** A constructed player: the configuration it was given and whether a `time` handler was attached. */
  datatype Player = Player(config: Config, loopsOnTime: bool)

  /** A listener registered on the window: the event name and the component whose `playerInit` it runs. */
  datatype Listener = Listener(event: string, component: Component)

  /** The number a string of decimal digits denotes, most significant digit first. */
  ghost function DigitsValue(s: string): int {
    if s == [] then 0 else DigitsValue(s[..|s| - 1]) * 10 + (s[|s| - 1] as int - 48)
  }

  /**
   * The decimal text of an integer, as a template literal writes it: the
   * digits of the number with no leading zero, after a '-' when negative.
   */
  function DecimalText(n: int): (r: string)
    ensures |r| > 0
    ensures n >= 0 ==> (forall i :: 0 <= i < |r| ==> '0' <= r[i] <= '9') && DigitsValue(r) == n
    ensures n >= 0 ==> (r[0] == '0' ==> |r| == 1)
    ensures n < 0 ==> r[0] == '-' && |r| > 1 && DigitsValue(r[1..]) == -n && r[1] != '0'
    ensures n < 0 ==> forall i :: 1 <= i < |r| ==> '0' <= r[i] <= '9'
    decreases if n < 0 then -n + 1 else n
  {
    if n < 0 then
      var t := DecimalText(-n);
      assert ("-" + t)[1..] == t;
      "-" + t
    else if n < 10 then [(48 + n) as char]
    else
      var t := DecimalText(n / 10);
      var r := t + [(48 + n % 10) as char];
      assert r[..|r| - 1] == t;
      r
  }

  /** The id of the node the player is mounted in: `${videoIdDesktop}${videoIdMobile}-player`. */
  function NodeId(p: Props): (id: string)
    ensures |id| > |"-player"| && id[|id| - |"-player"|..] == "-player"
    ensures id[..|id| - |"-player"|] == DecimalText(p.videoIdDesktop) + DecimalText(p.videoIdMobile)
  {
    DecimalText(p.videoIdDesktop) + DecimalText(p.videoIdMobile) + "-player"
  }

  /**
   * Concatenating the two ids without a separator loses where one ends:
   * desktop 12 with mobile 3 and desktop 1 with mobile 23 share a node id.
   */
  lemma NodeIdsCanCollide(p: Props, q: Props)
    requires p.videoIdDesktop == 12 && p.videoIdMobile == 3
    requires q.videoIdDesktop == 1 && q.videoIdMobile == 23
    ensures NodeId(p) == NodeId(q) == "123-player"
  {
  }

  /** `playerInit`: construct the player, and attach the loop handler only when `repeat` is on. */
  function PlayerInit(c: Component, env: Environment): (p: Player)
    ensures p.loopsOnTime <==> c.props.repeat
    ensures p.config.node == NodeId(c.props)
    ensures p.config.mute <==> c.props.autoplay && c.props.theme
  {
    Player(BuildConfig(c.props, c.device, env, NodeId(c.props)), c.props.repeat)
  }

  /**
   * One `time` tick on a player: a seek to 0 is issued exactly when the
   * loop handler is attached and playback is near its end (`nearEnd`
   * stands for the SDK's duration minus current time being at most half a
   * second).
   */
  function OnTime(p: Player, nearEnd: bool): (seek: Option<int>)
    ensures seek.Some? <==> p.loopsOnTime && nearEnd
    ensures seek.Some? ==> seek.value == 0
  {
    if p.loopsOnTime && nearEnd then Some(0) else None
  }

  /** A player built with `repeat` off never seeks, whatever the playback position. */
  lemma NoRepeatNeverSeeks(c: Component, env: Environment, nearEnd: bool)
    requires !c.props.repeat
    ensures OnTime(PlayerInit(c, env), nearEnd) == None
  {
  }

  /** The two ways `runPlayer` can go. */
  datatype Decision = InitNow | WaitForReady

  /** `runPlayer`'s test: construct now only when the SDK global exists and is loaded. */
  function Decide(svp: Option<Sdk>): (d: Decision)
    ensures d == InitNow <==> svp.Some? && svp.value.isLoaded
  {
    if svp.None? || !svp.value.isLoaded then WaitForReady else InitNow
  }

  /** The browser globals the widget touches. */
  class Window {
    var svp: Option<Sdk>
    var listeners: seq<Listener>
    var players: seq<Player>
    const userAgent: string
    const hostname: string
    const document: Document

    constructor (svp: Option<Sdk>, userAgent: string, hostname: string, document: Document)
      ensures this.svp == svp && this.userAgent == userAgent && this.hostname == hostname
      ensures this.document == document
      ensures listeners == [] && players == []
    {
      this.svp := svp;
      this.userAgent := userAgent;
      this.hostname := hostname;
      this.document := document;
      listeners := [];
      players := [];
    }

    function Env(): Environment
      reads this
    {
      Environment(userAgent, hostname)
    }
  }

  /** `runPlayer`: construct the player now, or defer it to the readiness event; nothing else changes. */
  method RunPlayer(w: Window, c: Component)
    modifies w
    ensures w.svp == old(w.svp)
    ensures Decide(w.svp) == InitNow ==>
      w.players == old(w.players) + [PlayerInit(c, w.Env())] && w.listeners == old(w.listeners)
    ensures Decide(w.svp) == WaitForReady ==>
      w.listeners == old(w.listeners) + [Listener(ReadyEvent, c)] && w.players == old(w.players)
  {
    if w.svp.None? || !w.svp.value.isLoaded {
      w.listeners := w.listeners + [Listener(ReadyEvent, c)];
    } else {
      var player := PlayerInit(c, w.Env());
      w.players := w.players + [player];
    }
  }

  /**
   * The mount effect: load the SDK script into the window's document, then
   * run the player.  When the load throws for want of a `<script>` element
   * to insert before, the effect stops there and `runPlayer` is not reached.
   */
  method Mount(w: Window, c: Component)
    modifies w, w.document
    ensures w.document.elements == AfterLoad(old(w.document.elements), SdkScriptTag, SdkScriptId)
    ensures w.svp == old(w.svp)
    ensures LoadPlan(old(w.document.elements), SdkScriptTag, SdkScriptId) == MissingAnchor ==>
      w.listeners == old(w.listeners) && w.players == old(w.players)
    ensures LoadPlan(old(w.document.elements), SdkScriptTag, SdkScriptId) != MissingAnchor && Decide(w.svp) == InitNow ==>
      w.players == old(w.players) + [PlayerInit(c, w.Env())] && w.listeners == old(w.listeners)
    ensures LoadPlan(old(w.document.elements), SdkScriptTag, SdkScriptId) != MissingAnchor && Decide(w.svp) == WaitForReady ==>
      w.listeners == old(w.listeners) + [Listener(ReadyEvent, c)] && w.players == old(w.players)
  {
    var outcome := InitPlayer(w.document, SdkScriptTag, SdkScriptId);
    if outcome == MissingAnchor {
      return;
    }
    RunPlayer(w, c);
  }

  /**
   * Mounting twice before the SDK is ready (the effect re-runs when the
   * device kind changes) inserts the SDK script once but leaves two
   * readiness listeners behind.
   */
  method RemountBeforeReady(w: Window, c: Component, c': Component)
    requires Decide(w.svp) == WaitForReady
    requires c.device != c'.device
    requires forall j :: 0 <= j < |w.document.elements| ==> w.document.elements[j].id != SdkScriptId
    requires exists k :: 0 <= k < |w.document.elements| && w.document.elements[k].tag == SdkScriptTag
    modifies w, w.document
    ensures CountWithId(w.document.elements, SdkScriptId) == 1
    ensures w.listeners == old(w.listeners) + [Listener(ReadyEvent, c), Listener(ReadyEvent, c')]
    ensures w.players == old(w.players)
  {
    ghost var k :| 0 <= k < |w.document.elements| && w.document.elements[k].tag == SdkScriptTag;
    ghost var i := FirstByTag(w.document.elements, SdkScriptTag).value;
    LoadInsertsBeforeFirst(w.document.elements, SdkScriptTag, SdkScriptId, i);
    LoadLeavesOne(w.document.elements, SdkScriptTag, SdkScriptId, k);
    Mount(w, c);
    assert w.document.elements[i] == SdkScript(SdkScriptTag, SdkScriptId);
    LoadWhenPresent(w.document.elements, SdkScriptTag, SdkScriptId, i);
    Mount(w, c');
  }
}
