/** The parser of configuration descriptors: a configuration, its interfaces with
    their alternate settings, their endpoints, and the class or vendor descriptors
    that may follow each of them. Memory is total: the code reads headers beyond the
    stated size, and does not use what it reads there. */
module Descriptors {
  import opened Bytes
  import opened Bags

  type Memory = nat -> Byte

  const DT_DEVICE: Byte := 1
  const DT_CONFIG: Byte := 2
  const DT_INTERFACE: Byte := 4
  const DT_ENDPOINT: Byte := 5
  const HEADER_LENGTH: int := 2
  const INTERFACE_LENGTH: int := 9
  const ENDPOINT_LENGTH: int := 7
  const AUDIO_LENGTH: int := 9
  const MAX_INTERFACES: int := 32
  const MAX_ENDPOINTS: int := 32

  datatype Endpoint = Endpoint(bLength: Byte, bDescriptorType: Byte, bEndpointAddress: Byte, bmAttributes: Byte,
                               wMaxPacketSize: U16, bInterval: Byte, bRefresh: Byte, bSynchAddress: Byte,
                               extra: seq<Byte>)

  datatype Setting = Setting(bLength: Byte, bDescriptorType: Byte, bInterfaceNumber: Byte, bAlternateSetting: Byte,
                             bNumEndpoints: Byte, bInterfaceClass: Byte, bInterfaceSubClass: Byte,
                             bInterfaceProtocol: Byte, iInterface: Byte, extra: seq<Byte>, endpoints: seq<Endpoint>)

  datatype Configuration = Configuration(bLength: Byte, bDescriptorType: Byte, wTotalLength: U16,
                                         bNumInterfaces: Byte, bConfigurationValue: Byte, iConfiguration: Byte,
                                         bmAttributes: Byte, maxPower: Byte, extra: seq<Byte>,
                                         interfaces: seq<seq<Setting>>)

  /** What a parsing function fills in and how far it got; -1 in the source is Bad. */
  datatype Parsed<T> = Parsed(value: T, used: int) | Bad

  const NO_ENDPOINT := Endpoint(0, 0, 0, 0, 0, 0, 0, 0, [])

  // ------------------------------------------------------------ fields

  function Word(mem: Memory, p: nat): U16 {
    var lo: int, hi: int := mem(p), mem(p + 1);
    hi * 0x100 + lo
  }

  function Block(mem: Memory, p: nat, n: nat): (b: seq<Byte>)
    ensures |b| == n
  {
    seq(n, i requires 0 <= i < n => mem(p + i))
  }

  /** The types that end a run of class and vendor descriptors. */
  predicate Proper(kind: Byte) {
    kind == DT_ENDPOINT || kind == DT_INTERFACE || kind == DT_CONFIG || kind == DT_DEVICE
  }

  /** The loop over class and vendor descriptors: how many bytes it passes, or None
      at an impossible length. Only the configuration's own loop is strict about a
      descriptor longer than what is left. */
  function Skip(mem: Memory, p: nat, size: int, strict: bool): (r: Option<nat>)
    decreases size
  {
    if size < HEADER_LENGTH then Some(0)
    else if mem(p) < 2 || (strict && mem(p) > size) then None
    else if Proper(mem(p + 1)) then Some(0)
    else
      match Skip(mem, p + mem(p), size - mem(p), strict)
      case None => None
      case Some(n) => Some(mem(p) + n)
  }

  // ------------------------------------------------------------ the parsers

  function EndpointFields(mem: Memory, p: nat): Endpoint {
    if mem(p) >= AUDIO_LENGTH then
      Endpoint(mem(p), mem(p + 1), mem(p + 2), mem(p + 3), Word(mem, p + 4), mem(p + 6), mem(p + 7), mem(p + 8), [])
    else if mem(p) >= ENDPOINT_LENGTH then
      Endpoint(mem(p), mem(p + 1), mem(p + 2), mem(p + 3), Word(mem, p + 4), mem(p + 6), 0, 0, [])
    else NO_ENDPOINT
  }

  /** usb_parse_endpoint. */
  function ParseEndpoint(mem: Memory, p: nat, size: int): (r: Parsed<Endpoint>)
    ensures r.Parsed? ==> r.used >= 0
  {
    if mem(p) > size then Bad
    else if mem(p + 1) != DT_ENDPOINT then Parsed(NO_ENDPOINT, 0)
    else
      var q := p + mem(p);
      match Skip(mem, q, size - mem(p), false)
      case None => Bad
      case Some(n) => Parsed(EndpointFields(mem, p).(extra := Block(mem, q, n)), mem(p) + n)
  }

  /** The loop over the endpoints of one setting. */
  function ParseEndpoints(mem: Memory, p: nat, size: int, n: nat): (r: Parsed<seq<Endpoint>>)
    ensures r.Parsed? ==> r.used >= 0 && |r.value| == n
    decreases n
  {
    if n == 0 then Parsed([], 0)
    else if mem(p) > size then Bad
    else
      match ParseEndpoint(mem, p, size)
      case Bad => Bad
      case Parsed(e, used) =>
        match ParseEndpoints(mem, p + used, size - used, n - 1)
        case Bad => Bad
        case Parsed(es, more) => Parsed([e] + es, used + more)
  }

  function SettingFields(mem: Memory, p: nat): Setting {
    Setting(mem(p), mem(p + 1), mem(p + 2), mem(p + 3), mem(p + 4), mem(p + 5), mem(p + 6), mem(p + 7), mem(p + 8),
            [], [])
  }

  /** One turn of usb_parse_interface's outer loop. Stopped: a configuration or device
      descriptor follows, and the function returns. */
  datatype Turn = Turn(setting: Setting, used: int, stopped: bool) | BadTurn

  function ParseSetting(mem: Memory, p: nat, size: int): (t: Turn)
    requires size >= INTERFACE_LENGTH
    ensures t.Turn? ==> t.used > 0
  {
    var f := SettingFields(mem, p);
    var q := p + f.bLength;
    var left := size - f.bLength;
    match Skip(mem, q, left, false)
    case None => BadTurn
    case Some(n) =>
      var s := f.(extra := Block(mem, q, n));
      var e, rest := q + n, left - n;
      if rest >= HEADER_LENGTH && (mem(e + 1) == DT_CONFIG || mem(e + 1) == DT_DEVICE) then
        Turn(s, f.bLength + n, true)
      else if f.bNumEndpoints > MAX_ENDPOINTS then BadTurn
      else
        match ParseEndpoints(mem, e, rest, f.bNumEndpoints)
        case Bad => BadTurn
        case Parsed(es, used) => Turn(s.(endpoints := es), f.bLength + n + used, false)
  }

  /** Another setting of the same interface follows. */
  predicate AlternateFollows(mem: Memory, p: nat, size: int) {
    size >= INTERFACE_LENGTH && mem(p + 1) == DT_INTERFACE && mem(p + 3) != 0
  }

  /** usb_parse_interface. Its outer loop ends even at a descriptor of length zero:
      the skipping loop then meets the same length again and gives up. */
  function ParseInterface(mem: Memory, p: nat, size: int): (r: Parsed<seq<Setting>>)
    ensures r.Parsed? ==> r.used >= 0
    decreases size
  {
    if size < INTERFACE_LENGTH then Parsed([], 0)
    else
      match ParseSetting(mem, p, size)
      case BadTurn => Bad
      case Turn(s, used, stopped) =>
        if stopped || !AlternateFollows(mem, p + used, size - used) then Parsed([s], used)
        else
          match ParseInterface(mem, p + used, size - used)
          case Bad => Bad
          case Parsed(ss, more) => Parsed([s] + ss, used + more)
  }

  function ConfigurationFields(mem: Memory, p: nat): Configuration {
    Configuration(mem(p), mem(p + 1), Word(mem, p + 2), mem(p + 4), mem(p + 5), mem(p + 6), mem(p + 7), mem(p + 8),
                  [], [])
  }

  datatype Body = Body(extra: seq<Byte>, interfaces: seq<seq<Setting>>, left: int) | BadBody

  /** The loop over interfaces. Class and vendor bytes are kept once, the first time
      there are any. */
  function ParseInterfaces(mem: Memory, p: nat, size: int, n: nat, extra: seq<Byte>): (b: Body)
    ensures b.Body? ==> |b.interfaces| == n
    decreases n
  {
    if n == 0 then Body(extra, [], size)
    else
      match Skip(mem, p, size, true)
      case None => BadBody
      case Some(k) =>
        var kept := if extra == [] then Block(mem, p, k) else extra;
        match ParseInterface(mem, p + k, size - k)
        case Bad => BadBody
        case Parsed(i, used) =>
          match ParseInterfaces(mem, p + k + used, size - k - used, n - 1, kept)
          case BadBody => BadBody
          case Body(x, later, left) => Body(x, [i] + later, left)
  }

  /** usb_parse_configuration: the tree, and the number of bytes it did not use. */
  function ParseConfiguration(mem: Memory, p: nat): Parsed<Configuration> {
    var f := ConfigurationFields(mem, p);
    if f.bNumInterfaces > MAX_INTERFACES then Bad
    else
      match ParseInterfaces(mem, p + f.bLength, f.wTotalLength - f.bLength, f.bNumInterfaces, [])
      case BadBody => Bad
      case Body(x, all, left) => Parsed(f.(extra := x, interfaces := all), left)
  }
}
