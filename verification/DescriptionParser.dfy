/** The parser of device descriptions (UPnPDeviceParser) and the UPnPDeviceDesc constructor. */
module DescriptionParser {
  import opened StringUtils
  import opened DeviceDescription

  /** What the XML library reports. */
  datatype Event = Tagged(tag: Tag) | Text(chunk: string)

  /** The element names that mean something. */
  datatype Kind =
    | KService | KDevice | KControlUrl | KEventSubUrl | KServiceType | KServiceId | KScpdUrl
    | KDeviceType | KFriendlyName | KManufacturer | KModelName | KUdn | KUrlBase | KOther

  function KindOf(name: string): Kind {
    if name == "service" then KService
    else if name == "device" then KDevice
    else if name == "controlURL" then KControlUrl
    else if name == "eventSubURL" then KEventSubUrl
    else if name == "serviceType" then KServiceType
    else if name == "serviceId" then KServiceId
    else if name == "SCPDURL" then KScpdUrl
    else if name == "deviceType" then KDeviceType
    else if name == "friendlyName" then KFriendlyName
    else if name == "manufacturer" then KManufacturer
    else if name == "modelName" then KModelName
    else if name == "UDN" then KUdn
    else if name == "URLBase" then KUrlBase
    else KOther
  }

  function LowerChar(c: char): char {
    if 'A' <= c <= 'Z' then c - 'A' + 'a' else c
  }

  function Lower(s: string): string {
    if s == [] then [] else [LowerChar(s[0])] + Lower(s[1..])
  }

  predicate IsDeviceList(name: string) {
    Lower(name) == "devicelist"
  }

  /** No device list around. */
  predicate IsMain(path: seq<string>) {
    forall i | 0 <= i < |path| :: !IsDeviceList(path[i])
  }

  /** The parser's fields, but for the text read since the last closing tag. */
  datatype Core = Core(path: seq<string>, tservice: ServiceDesc, tdevice: DeviceDesc, device: DeviceDesc) {
    function Dev(): DeviceDesc {
      if IsMain(path) then device else tdevice
    }

    function WithDev(d: DeviceDesc): Core {
      if IsMain(path) then this.(device := d) else this.(tdevice := d)
    }
  }

  /** The effect of a closing tag whose trimmed text is given. */
  function Closed(c: Core, kind: Kind, text: string): Core {
    match kind
    case KService => c.WithDev(c.Dev().(services := c.Dev().services + [c.tservice])).(tservice := NO_SERVICE)
    case KDevice =>
      (if IsMain(c.path) then c else c.(device := c.device.(embedded := c.device.embedded + [c.tdevice])))
      .(tdevice := NO_DEVICE)
    case KControlUrl => c.(tservice := c.tservice.(controlUrl := text))
    case KEventSubUrl => c.(tservice := c.tservice.(eventSubUrl := text))
    case KServiceType => c.(tservice := c.tservice.(serviceType := text))
    case KServiceId => c.(tservice := c.tservice.(serviceId := text))
    case KScpdUrl => c.(tservice := c.tservice.(scpdUrl := text))
    case KDeviceType => c.WithDev(c.Dev().(deviceType := text))
    case KFriendlyName => c.WithDev(c.Dev().(friendlyName := text))
    case KManufacturer => c.WithDev(c.Dev().(manufacturer := text))
    case KModelName => c.WithDev(c.Dev().(modelName := text))
    case KUdn => c.WithDev(c.Dev().(udn := text))
    case KUrlBase => c.(device := c.device.(urlBase := text))
    case KOther => c
  }

  function Popped(c: Core): Core {
    c.(path := if c.path == [] then [] else c.path[..|c.path| - 1])
  }

  // ---------------------------------------------------------------- the parser

  datatype ParserState = ParserState(core: Core, chardata: string)

  const START := ParserState(Core([], NO_SERVICE, NO_DEVICE, NO_DEVICE), [])

  function Handle(p: ParserState, e: Event): ParserState {
    match e
    case Text(chunk) =>
      if chunk == [] || chunk[0] == 0 as char then p else p.(chardata := p.chardata + chunk)
    case Tagged(Open(name)) => p.(core := p.core.(path := p.core.path + [name]))
    case Tagged(Close(name)) => ParserState(Popped(Closed(p.core, KindOf(name), Trim(p.chardata))), [])
  }

  function Run(p: ParserState, es: seq<Event>): ParserState {
    if es == [] then p else Handle(Run(p, es[..|es| - 1]), es[|es| - 1])
  }

  class UPnPDeviceParser {
    var path: seq<string>
    var chardata: string
    var tservice: ServiceDesc
    var tdevice: DeviceDesc
    var device: DeviceDesc

    function State(): ParserState
      reads this
    {
      ParserState(Core(path, tservice, tdevice, device), chardata)
    }

    constructor ()
      ensures State() == START
    {
      path, chardata, tservice, tdevice, device := [], [], NO_SERVICE, NO_DEVICE, NO_DEVICE;
    }

    method StartElement(name: string)
      modifies this`path
      ensures State() == Handle(old(State()), Tagged(Open(name)))
    {
      path := path + [name];
    }

    method CharacterData(s: string)
      modifies this`chardata
      ensures State() == Handle(old(State()), Text(s))
    {
      if s == [] || s[0] == 0 as char {
        return;
      }
      chardata := chardata + s;
    }

    /** EndElement, before the path is popped. */
    method EndElement(name: string)
      modifies this`chardata, this`tservice, this`tdevice, this`device
      ensures State() == ParserState(Closed(old(State()).core, KindOf(name), Trim(old(chardata))), [])
    {
      chardata := TrimString(chardata, WHITE);
      hide Lower, Trimmed;
      var ismain := true;
      var i := 0;
      while i < |path| && ismain
        invariant i <= |path| && ismain == IsMain(path[..i])
        invariant !ismain ==> !IsMain(path)
      {
        ismain := !IsDeviceList(path[i]);
        i := i + 1;
      }
      assert ismain == IsMain(path) by {
        if i == |path| {
          assert path[..i] == path;
        }
      }
      hide IsMain, IsDeviceList;
      match KindOf(name) {
        case KService =>
          if ismain {
            device := device.(services := device.services + [tservice]);
          } else {
            tdevice := tdevice.(services := tdevice.services + [tservice]);
          }
          tservice := NO_SERVICE;
        case KDevice =>
          if !ismain {
            device := device.(embedded := device.embedded + [tdevice]);
          }
          tdevice := NO_DEVICE;
        case KControlUrl => tservice := tservice.(controlUrl := chardata);
        case KEventSubUrl => tservice := tservice.(eventSubUrl := chardata);
        case KServiceType => tservice := tservice.(serviceType := chardata);
        case KServiceId => tservice := tservice.(serviceId := chardata);
        case KScpdUrl => tservice := tservice.(scpdUrl := chardata);
        case KDeviceType =>
          if ismain {
            device := device.(deviceType := chardata);
          } else {
            tdevice := tdevice.(deviceType := chardata);
          }
        case KFriendlyName =>
          if ismain {
            device := device.(friendlyName := chardata);
          } else {
            tdevice := tdevice.(friendlyName := chardata);
          }
        case KManufacturer =>
          if ismain {
            device := device.(manufacturer := chardata);
          } else {
            tdevice := tdevice.(manufacturer := chardata);
          }
        case KModelName =>
          if ismain {
            device := device.(modelName := chardata);
          } else {
            tdevice := tdevice.(modelName := chardata);
          }
        case KUdn =>
          if ismain {
            device := device.(udn := chardata);
          } else {
            tdevice := tdevice.(udn := chardata);
          }
        case KUrlBase => device := device.(urlBase := chardata);
        case KOther =>
      }
      chardata := [];
    }

    /** What the XML library calls for one event. */
    method Dispatch(e: Event)
      modifies this
      ensures State() == Handle(old(State()), e)
    {
      match e {
        case Text(chunk) => CharacterData(chunk);
        case Tagged(Open(name)) => StartElement(name);
        case Tagged(Close(name)) =>
          EndElement(name);
          path := if path == [] then [] else path[..|path| - 1];
      }
    }

    /** ... and for a whole document. */
    method Parse(es: seq<Event>)
      modifies this
      ensures State() == Run(old(State()), es)
    {
      hide Handle, Popped, Closed, KindOf, Trim;
      var n := 0;
      while n < |es|
        invariant n <= |es| && State() == Run(old(State()), es[..n])
      {
        assert es[..n + 1][..n] == es[..n];
        Dispatch(es[n]);
        n := n + 1;
      }
      assert es[..n] == es;
    }
  }

  // ---------------------------------------------------------------- the constructor

  /** Up to and including the slash that ends the authority part. */
  function BaseUrl(url: string): string {
    match FindString(url, "://")
    case None => url
    case Some(pos) =>
      match FindAt(url, '/', pos + 3)
      case None => url
      case Some(slash) => url[..slash + 1]
  }

  function Completed(d: DeviceDesc, url: string): DeviceDesc {
    var urlBase := if d.urlBase == [] then BaseUrl(url) else d.urlBase;
    d.(descUrl := url, urlBase := urlBase, ok := true,
       embedded := seq(|d.embedded|, i requires 0 <= i < |d.embedded| =>
                                       d.embedded[i].(urlBase := urlBase, ok := true)))
  }

  /** The UPnPDeviceDesc constructor. The events and the verdict wellFormed are what the XML library makes
      of the description. */
  method MakeDeviceDesc(url: string, description: string, es: seq<Event>, wellFormed: bool) returns (d: DeviceDesc)
    ensures var parsed := Run(START, es).core.device.(xmlText := description);
            d == if wellFormed then Completed(parsed, url) else parsed
  {
    hide Run, BaseUrl;
    var parser := new UPnPDeviceParser();
    parser.Parse(es);
    d := parser.device.(xmlText := description);
    if !wellFormed {
      return;
    }
    ghost var parsed := d;
    d := d.(descUrl := url);
    if d.urlBase == [] {
      d := d.(urlBase := BaseUrl(url));
    }
    var n := 0;
    while n < |d.embedded|
      invariant n <= |d.embedded| == |parsed.embedded|
      invariant d == parsed.(descUrl := url, urlBase := d.urlBase, embedded := d.embedded)
      invariant d.urlBase == if parsed.urlBase == [] then BaseUrl(url) else parsed.urlBase
      invariant forall i | 0 <= i < n :: d.embedded[i] == parsed.embedded[i].(urlBase := d.urlBase, ok := true)
      invariant forall i | n <= i < |d.embedded| :: d.embedded[i] == parsed.embedded[i]
      decreases |parsed.embedded| - n
    {
      d := d.(embedded := d.embedded[n := d.embedded[n].(urlBase := d.urlBase, ok := true)]);
      n := n + 1;
    }
    d := d.(ok := true);
    assert d.embedded == Completed(parsed, url).embedded;
  }
}
