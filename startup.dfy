/**
 * Startup validation: the checks the bridge makes on its configuration
 * before starting any thread, in the order it makes them.
 */
module Startup {
  import opened Wrappers
  import opened LightMap
  import Topic

  /** The broker address of the default configuration, which must be edited. */
  const DEFAULT_URL: string := "example.com"

  /** The configuration file's recognised keys, after loading. */
  datatype Config = Config(
    url: string,
    port: int,
    username: string,
    password: string,
    topic: string,
    qos: int,
    retain: bool,
    rebroadcast: int,
    channels: int,
    lights: int,
    startUniverse: int,
    universeCount: int)

  /** The configuration written out when the file is missing or invalid. */
  function DefaultConfig(): Config {
    Config("example.com", 1883, "", "", "light/[NUM]", 1, false, 60, 4, 1, 0, 1)
  }

  /** What the running bridge keeps from a configuration that passed every check. */
  datatype Settings = Settings(
    layout: Layout,
    url: string,
    port: int,
    topic: string,
    qos: int,
    retain: bool,
    rebroadcast: int)

  datatype StartupError =
    | BadLayout(cause: LayoutError)   // the stride or the universe capacity
    | NegativeRebroadcast
    | BadBroker                       // the default address or a non-positive port
    | MissingPlaceholder
    | BadQos

  /** A rebroadcast time of zero is accepted: every frame republishes every light. */
  predicate ValidRebroadcast(rebroadcast: int) {
    rebroadcast >= 0
  }

  /**
   * The address is compared with the bytes value `b""` and with
   * "example.com"; a loaded address is a string, which never equals a bytes
   * value, so only the default address is refused.
   */
  predicate ValidBroker(url: string, port: int) {
    url != DEFAULT_URL && port > 0
  }

  predicate ValidTopic(topic: string) {
    Topic.Contains(topic, Topic.PLACEHOLDER)
  }

  predicate ValidQos(qos: int) {
    qos == 0 || qos == 1 || qos == 2
  }

  function LayoutOf(c: Config): Result<Layout, LayoutError> {
    Plan(c.startUniverse, c.universeCount, c.channels, c.lights)
  }

  /**
   * Runs the checks in source order and reports the first one that fails;
   * the bridge starts only when all of them pass.
   */
  function Start(c: Config): (r: Result<Settings, StartupError>)
    ensures r.Success? <==>
              LayoutOf(c).Success? && ValidRebroadcast(c.rebroadcast) && ValidBroker(c.url, c.port)
              && ValidTopic(c.topic) && ValidQos(c.qos)
    ensures r.Success? ==>
              r.value == Settings(LayoutOf(c).value, c.url, c.port, c.topic, c.qos, c.retain, c.rebroadcast)
    ensures LayoutOf(c).Failure? ==> r == Failure(BadLayout(LayoutOf(c).error))
    ensures r == Failure(NegativeRebroadcast) <==> LayoutOf(c).Success? && c.rebroadcast < 0
    ensures r == Failure(BadBroker) <==>
              LayoutOf(c).Success? && ValidRebroadcast(c.rebroadcast) && !ValidBroker(c.url, c.port)
    ensures r == Failure(MissingPlaceholder) <==>
              LayoutOf(c).Success? && ValidRebroadcast(c.rebroadcast) && ValidBroker(c.url, c.port)
              && !ValidTopic(c.topic)
    ensures r == Failure(BadQos) <==>
              LayoutOf(c).Success? && ValidRebroadcast(c.rebroadcast) && ValidBroker(c.url, c.port)
              && ValidTopic(c.topic) && !ValidQos(c.qos)
  {
    var layout := LayoutOf(c);
    if layout.Failure? then Failure(BadLayout(layout.error))
    else if !ValidRebroadcast(c.rebroadcast) then Failure(NegativeRebroadcast)
    else if !ValidBroker(c.url, c.port) then Failure(BadBroker)
    else if !ValidTopic(c.topic) then Failure(MissingPlaceholder)
    else if !ValidQos(c.qos) then Failure(BadQos)
    else Success(Settings(layout.value, c.url, c.port, c.topic, c.qos, c.retain, c.rebroadcast))
  }

  /** The default topic contains the placeholder. */
  lemma DefaultTopicValid()
    ensures ValidTopic("light/[NUM]")
  {
    assert Topic.MatchAt("light/[NUM]", Topic.PLACEHOLDER, 6);
  }

  /** The default configuration passes the layout checks and stops at its placeholder address. */
  lemma DefaultConfigRejected()
    ensures Start(DefaultConfig()) == Failure(BadBroker)
  {
    var c := DefaultConfig();
    assert LightsPerUniverse(4) == 128;
    assert |Universes(0, 1)| == 1;
    assert LayoutOf(c).Success?;
  }

  /** Editing only the address of the default configuration makes it start. */
  lemma EditedDefaultStarts(url: string)
    requires url != DEFAULT_URL
    ensures Start(DefaultConfig().(url := url)).Success?
  {
    var c := DefaultConfig().(url := url);
    assert LightsPerUniverse(4) == 128;
    assert |Universes(0, 1)| == 1;
    assert LayoutOf(c).Success?;
    DefaultTopicValid();
  }

  /** A rebroadcast time of zero and an empty address both pass their checks. */
  lemma ZeroRebroadcastAndEmptyUrlAccepted(c: Config)
    requires LayoutOf(c).Success? && ValidTopic(c.topic) && ValidQos(c.qos) && c.port > 0
    requires c.rebroadcast == 0 && c.url == ""
    ensures Start(c).Success?
  {
  }
}
