/** The description parser inverts the document that the device side builds. */
module DescriptionRoundTrip {
  import opened StringUtils
  import opened DeviceDescription
  import opened DescriptionParser

  // ---------------------------------------------------------------- events of a document

  /** The text that the parser hears: the chunks, but for those that start with a null character. */
  function Heard(chunks: seq<string>): string {
    if chunks == [] then []
    else
      var n := |chunks| - 1;
      Heard(chunks[..n]) + if chunks[n] != [] && chunks[n][0] == '\0' then [] else chunks[n]
  }

  function Texts(chunks: seq<string>): seq<Event> {
    seq(|chunks|, i requires 0 <= i < |chunks| => Text(chunks[i]))
  }

  /** The text before a tag comes in any chunks. It is blank before an opening tag; before a closing tag it is the
      item's text but for white space around it. */
  ghost predicate Fits(item: Item, chunks: seq<string>) {
    match item.tag
    case Open(_) => Blank(Heard(chunks), {' ', '\t', '\n', '\r'})
    case Close(_) => Trim(Heard(chunks)) == Trim(item.text)
  }

  ghost predicate AllFit(items: seq<Item>, gaps: seq<seq<string>>) {
    |gaps| == |items| && forall i | 0 <= i < |items| :: Fits(items[i], gaps[i])
  }

  function Events(items: seq<Item>, gaps: seq<seq<string>>): seq<Event>
    requires |gaps| == |items|
  {
    if items == [] then []
    else
      var n := |items| - 1;
      Events(items[..n], gaps[..n]) + (Texts(gaps[n]) + [Tagged(items[n].tag)])
  }

  // ---------------------------------------------------------------- the same on clean items

  function ItemStep(c: Core, item: Item): Core {
    match item.tag
    case Open(name) => c.(path := c.path + [name])
    case Close(name) => Popped(Closed(c, KindOf(name), Trim(item.text)))
  }

  function RunItems(c: Core, items: seq<Item>): Core {
    if items == [] then c else ItemStep(RunItems(c, items[..|items| - 1]), items[|items| - 1])
  }

  lemma {:induction false} RunAppend(p: ParserState, a: seq<Event>, b: seq<Event>)
    ensures Run(p, a + b) == Run(Run(p, a), b)
    decreases |b|
  {
    hide Handle;
    if b == [] {
      assert a + b == a;
    } else {
      var n := |b| - 1;
      assert (a + b)[..|a + b| - 1] == a + b[..n];
      RunAppend(p, a, b[..n]);
    }
  }

  lemma {:induction false} RunItemsAppend(c: Core, a: seq<Item>, b: seq<Item>)
    ensures RunItems(c, a + b) == RunItems(RunItems(c, a), b)
    decreases |b|
  {
    hide ItemStep;
    if b == [] {
      assert a + b == a;
    } else {
      var n := |b| - 1;
      assert (a + b)[..|a + b| - 1] == a + b[..n];
      RunItemsAppend(c, a, b[..n]);
    }
  }

  lemma {:induction false} TextsRun(p: ParserState, chunks: seq<string>)
    ensures Run(p, Texts(chunks)) == p.(chardata := p.chardata + Heard(chunks))
    decreases |chunks|
  {
    if chunks == [] {
      assert p.chardata + Heard(chunks) == p.chardata;
    } else {
      var n := |chunks| - 1;
      assert Texts(chunks)[..n] == Texts(chunks[..n]);
      TextsRun(p, chunks[..n]);
      assert p.chardata + Heard(chunks[..n]) + chunks[n] == p.chardata + (Heard(chunks[..n]) + chunks[n]);
      assert p.chardata + Heard(chunks[..n]) + [] == p.chardata + Heard(chunks[..n]);
      assert Heard(chunks[..n]) + [] == Heard(chunks[..n]);
    }
  }

  lemma {:induction false} TrimmedRightAfter(a: string, s: string)
    ensures TrimmedRight(a + s, WHITE) ==
            if TrimmedRight(s, WHITE) == [] then TrimmedRight(a, WHITE) else a + TrimmedRight(s, WHITE)
    decreases |s|
  {
    if s == [] {
      assert a + s == a;
    } else {
      var t := a + s;
      assert t[|t| - 1] == s[|s| - 1];
      if s[|s| - 1] in WHITE {
        assert t[..|t| - 1] == a + s[..|s| - 1];
        TrimmedRightAfter(a, s[..|s| - 1]);
      }
    }
  }

  lemma {:induction false} BlankTrimmed(s: string)
    requires Blank(s, WHITE)
    ensures TrimmedRight(s, WHITE) == []
    decreases |s|
  {
    if s != [] {
      BlankTrimmed(s[..|s| - 1]);
    }
  }

  /** Blanks in front do not matter. */
  lemma TrimIgnoresBlanks(a: string, s: string)
    requires Blank(a, WHITE)
    ensures Trim(a + s) == Trim(s)
  {
    TrimmedRightAfter(a, s);
    BlankTrimmed(a);
    TrimmedLeftBlanks(a, TrimmedRight(s, WHITE), WHITE);
  }

  /** One item: its text in chunks, then its tag. */
  lemma ItemRun(p: ParserState, item: Item, chunks: seq<string>)
    requires Blank(p.chardata, WHITE) && Fits(item, chunks)
    ensures var q := Run(p, Texts(chunks) + [Tagged(item.tag)]);
            q.core == ItemStep(p.core, item) && Blank(q.chardata, WHITE)
  {
    hide Closed, KindOf, Trim, Popped;
    TextsRun(p, chunks);
    var es := Texts(chunks) + [Tagged(item.tag)];
    assert es[..|es| - 1] == Texts(chunks);
    TrimIgnoresBlanks(p.chardata, Heard(chunks));
  }

  /** White space between elements and the way texts are split make no difference. */
  lemma {:induction false} EventsRun(p: ParserState, items: seq<Item>, gaps: seq<seq<string>>)
    requires Blank(p.chardata, WHITE) && AllFit(items, gaps)
    ensures var q := Run(p, Events(items, gaps));
            q.core == RunItems(p.core, items) && Blank(q.chardata, WHITE)
    decreases |items|
  {
    hide Fits, ItemStep;
    if items != [] {
      var n := |items| - 1;
      EventsRun(p, items[..n], gaps[..n]);
      var last := Texts(gaps[n]) + [Tagged(items[n].tag)];
      RunAppend(p, Events(items[..n], gaps[..n]), last);
      hide Run;
      ItemRun(Run(p, Events(items[..n], gaps[..n])), items[n], gaps[n]);
    }
  }

  // ---------------------------------------------------------------- what a document says

  function TrimmedService(s: ServiceDesc): ServiceDesc {
    ServiceDesc(Trim(s.serviceType), Trim(s.serviceId), Trim(s.scpdUrl), Trim(s.controlUrl), Trim(s.eventSubUrl))
  }

  function TrimmedServices(ss: seq<ServiceDesc>): seq<ServiceDesc> {
    seq(|ss|, i requires 0 <= i < |ss| => TrimmedService(ss[i]))
  }

  /** The trimmed text of the last element of this name, or a default. */
  function Prop(props: seq<Item>, name: string, default: string): string {
    if props == [] then default
    else
      var n := |props| - 1;
      if props[n].tag == Close(name) then Trim(props[n].text)
      else Prop(props[..n], name, default)
  }

  /** A device's own data. */
  function Stated(d: DeviceData): DeviceDesc {
    NO_DEVICE.(deviceType := Prop(d.props, "deviceType", []), friendlyName := Prop(d.props, "friendlyName", []),
               manufacturer := Prop(d.props, "manufacturer", []), modelName := Prop(d.props, "modelName", []),
               udn := Trim(d.udn), services := TrimmedServices(d.services))
  }

  /** All devices share one base URL, and the last one stated counts, whichever device states it. */
  function LastUrlBase(ds: seq<DeviceData>, default: string): string {
    if ds == [] then default
    else
      var n := |ds| - 1;
      Prop(ds[n].props, "URLBase", LastUrlBase(ds[..n], default))
  }

  function StatedAll(ds: seq<DeviceData>): seq<DeviceDesc> {
    seq(|ds|, i requires 0 <= i < |ds| => Stated(ds[i]))
  }

  function StatedRoot(root: DeviceData, embedded: seq<DeviceData>): DeviceDesc {
    Stated(root).(urlBase := LastUrlBase([root] + embedded, []), embedded := StatedAll(embedded))
  }

  /** The names of the elements that are open at the end. */
  function OpenNames(items: seq<Item>): seq<string> {
    if items == [] then []
    else
      var n := |items| - 1;
      var before := OpenNames(items[..n]);
      if items[n].tag.Open? then before + [items[n].tag.name]
      else if before == [] then []
      else before[..|before| - 1]
  }

  /** Every closing tag closes the innermost open element. */
  predicate Nested(items: seq<Item>) {
    items == [] ||
    (var n := |items| - 1;
     Nested(items[..n]) &&
     (items[n].tag.Close? ==>
        var before := OpenNames(items[..n]); before != [] && before[|before| - 1] == items[n].tag.name))
  }

  /** No element is a service, a device or a device list. */
  predicate NoStructure(items: seq<Item>) {
    forall item | item in items ::
      match item.tag
      case Open(name) => !IsDeviceList(name)
      case Close(name) => name != "service" && name != "device"
  }

  /** A properties fragment: whole elements, nested at will, that do not build services or devices. */
  predicate PlainProps(props: seq<Item>) {
    Nested(props) && OpenNames(props) == [] && NoStructure(props)
  }

  // ---------------------------------------------------------------- names

  lemma {:induction false} LowerAt(s: string)
    ensures |Lower(s)| == |s| && forall i | 0 <= i < |s| :: Lower(s)[i] == LowerChar(s[i])
  {
    if s != [] {
      LowerAt(s[1..]);
    }
  }

  lemma NotDeviceList(s: string, i: nat)
    requires |s| != 10 || (i < 10 && LowerChar(s[i]) != "devicelist"[i])
    ensures !IsDeviceList(s)
  {
    LowerAt(s);
    assert |"devicelist"| == 10;
  }

  lemma KnownIsNotDeviceList(name: string)
    requires KindOf(name) != KOther
    ensures !IsDeviceList(name)
  {
    if |name| == 10 {
      assert name == "controlURL" || name == "deviceType";
      assert LowerChar("controlURL"[0]) != "devicelist"[0];
      assert LowerChar("deviceType"[6]) != "devicelist"[6];
      NotDeviceList(name, if name == "controlURL" then 0 else 6);
    } else {
      NotDeviceList(name, 0);
    }
  }

  /** The known names of 4, 5, 10 or 11 letters end in L or e. */
  lemma OtherName(name: string)
    requires |name| in {4, 5, 10, 11} && name[|name| - 1] !in {'L', 'e'}
    ensures KindOf(name) == KOther
  {
  }

  /** Elements that only hold others. */
  lemma ContainerNames()
    ensures KindOf("root") == KindOf("specVersion") == KindOf("serviceList") == KindOf("deviceList") == KOther
    ensures KindOf("major") == KindOf("minor") == KOther
    ensures !IsDeviceList("root") && !IsDeviceList("specVersion") && !IsDeviceList("serviceList")
  {
    hide KindOf, IsDeviceList;
    OtherName("root");
    OtherName("specVersion");
    OtherName("serviceList");
    OtherName("deviceList");
    OtherName("major");
    OtherName("minor");
    NotDeviceList("root", 0);
    NotDeviceList("specVersion", 0);
    NotDeviceList("serviceList", 0);
  }

  /** "devicelist", whatever the case of each letter. */
  lemma DeviceListIff(name: string)
    ensures IsDeviceList(name) <==>
            |name| == 10 && forall i | 0 <= i < 10 :: name[i] == "devicelist"[i] || name[i] == "DEVICELIST"[i]
  {
    LowerAt(name);
    var list, capital := "devicelist", "DEVICELIST";
    assert |list| == 10 == |capital|;
    assert forall i | 0 <= i < 10 ::
      capital[i] - 'A' + 'a' == list[i] && 'a' <= list[i] <= 'z' && 'A' <= capital[i] <= 'Z';
    if |name| == 10 && forall i | 0 <= i < 10 :: LowerChar(name[i]) == list[i] {
      assert Lower(name) == list;
    }
  }

  lemma DeviceListName()
    ensures IsDeviceList("deviceList")
  {
    var s := "deviceList";
    LowerAt(s);
    assert Lower(s) == "devicelist";
  }

  lemma IsMainPush(path: seq<string>, name: string)
    ensures IsMain(path + [name]) <==> IsMain(path) && !IsDeviceList(name)
  {
    hide IsDeviceList;
    var q := path + [name];
    assert q[|path|] == name;
    assert forall i | 0 <= i < |path| :: q[i] == path[i];
  }

  // ---------------------------------------------------------------- running the parts

  function Inside(c: Core, name: string): Core {
    c.(path := c.path + [name])
  }

  lemma RunOpen(c: Core, name: string)
    ensures RunItems(c, OpenItem(name)) == Inside(c, name)
  {
    assert OpenItem(name)[..0] == [];
  }

  lemma RunClose(c: Core, name: string)
    ensures RunItems(c, CloseItem(name)) == Popped(Closed(c, KindOf(name), []))
  {
    hide Popped, Closed, KindOf;
    assert CloseItem(name)[..0] == [];
    assert Trim([]) == [];
  }

  /** A closing tag does not depend on its own name being on the path. */
  lemma ClosedInside(c: Core, name: string, kind: Kind, text: string)
    requires !IsDeviceList(name) || kind == KOther
    ensures Popped(Closed(Inside(c, name), kind, text)) == Closed(c, kind, text)
  {
    hide IsMain, IsDeviceList;
    IsMainPush(c.path, name);
    assert (c.path + [name])[..|c.path|] == c.path;
  }

  /** A leaf only sets its field. */
  lemma RunLeaf(c: Core, name: string, text: string)
    requires !IsDeviceList(name) || KindOf(name) == KOther
    ensures RunItems(c, LeafItems(name, text)) == Closed(c, KindOf(name), Trim(text))
  {
    hide Popped, Closed, KindOf, Trim, IsDeviceList;
    var items := LeafItems(name, text);
    assert items[..1] == OpenItem(name);
    RunOpen(c, name);
    assert RunItems(c, items) == ItemStep(Inside(c, name), items[1]);
    ClosedInside(c, name, KindOf(name), Trim(text));
  }

  /** An element around something that leaves the path as it was. */
  lemma RunElement(c: Core, name: string, items: seq<Item>, inner: Core)
    requires RunItems(Inside(c, name), items) == inner
    ensures RunItems(c, OpenItem(name) + items + CloseItem(name)) == Popped(Closed(inner, KindOf(name), []))
  {
    hide Popped, Closed, KindOf, RunItems, OpenItem, CloseItem, Inside;
    RunOpen(c, name);
    RunItemsAppend(c, OpenItem(name), items);
    RunItemsAppend(c, OpenItem(name) + items, CloseItem(name));
    RunClose(inner, name);
  }

  lemma ServiceNames()
    ensures KindOf("service") == KService && KindOf("serviceType") == KServiceType
    ensures KindOf("serviceId") == KServiceId && KindOf("SCPDURL") == KScpdUrl
    ensures KindOf("controlURL") == KControlUrl && KindOf("eventSubURL") == KEventSubUrl
  {
  }

  /** A field of a service. */
  lemma RunField(c: Core, name: string, text: string)
    requires KindOf(name) in {KServiceType, KServiceId, KScpdUrl, KControlUrl, KEventSubUrl}
    ensures RunItems(c, LeafItems(name, text)) == Closed(c, KindOf(name), Trim(text))
  {
    KnownIsNotDeviceList(name);
    RunLeaf(c, name, text);
  }

  /** All fields of a service are set, so nothing of what was there before remains. */
  lemma RunServiceFields(c: Core, s: ServiceDesc)
    ensures RunItems(c, ServiceFields(s)) == c.(tservice := TrimmedService(s))
  {
    ServiceNames();
    hide KindOf, Trim, RunItems, LeafItems, IsMain;
    var l1, l2 := LeafItems("serviceType", s.serviceType), LeafItems("serviceId", s.serviceId);
    var l3, l4 := LeafItems("SCPDURL", s.scpdUrl), LeafItems("controlURL", s.controlUrl);
    var l5 := LeafItems("eventSubURL", s.eventSubUrl);
    RunItemsAppend(c, l1 + l2 + l3 + l4, l5);
    RunItemsAppend(c, l1 + l2 + l3, l4);
    RunItemsAppend(c, l1 + l2, l3);
    RunItemsAppend(c, l1, l2);
    RunField(c, "serviceType", s.serviceType);
    var c1 := RunItems(c, l1);
    RunField(c1, "serviceId", s.serviceId);
    var c2 := RunItems(c1, l2);
    RunField(c2, "SCPDURL", s.scpdUrl);
    var c3 := RunItems(c2, l3);
    RunField(c3, "controlURL", s.controlUrl);
    RunField(RunItems(c3, l4), "eventSubURL", s.eventSubUrl);
  }

  function WithServices(c: Core, ss: seq<ServiceDesc>): Core {
    c.WithDev(c.Dev().(services := c.Dev().services + ss)).(tservice := if ss == [] then c.tservice else NO_SERVICE)
  }

  lemma ClosedService(c: Core, s: ServiceDesc)
    ensures Closed(c.(tservice := s), KService, []) == WithServices(c, [s])
  {
    hide IsMain;
  }

  lemma MoreServices(c: Core, a: seq<ServiceDesc>, b: seq<ServiceDesc>)
    ensures WithServices(WithServices(c, a), b) == WithServices(c, a + b)
    ensures WithServices(c, []) == c
  {
    hide IsMain;
    assert c.Dev().services + a + b == c.Dev().services + (a + b);
    assert c.Dev().services + [] == c.Dev().services;
  }

  lemma RunService(c: Core, s: ServiceDesc)
    ensures RunItems(c, ServiceItems(s)) == WithServices(c, [TrimmedService(s)])
  {
    ServiceNames();
    KnownIsNotDeviceList("service");
    hide KindOf, RunItems, TrimmedService, ServiceFields, IsDeviceList, IsMain, Closed, Popped, WithServices;
    RunServiceFields(Inside(c, "service"), s);
    var done := c.(tservice := TrimmedService(s));
    RunElement(c, "service", ServiceFields(s), Inside(done, "service"));
    ClosedInside(done, "service", KService, []);
    ClosedService(c, TrimmedService(s));
  }

  lemma {:induction false} RunServices(c: Core, ss: seq<ServiceDesc>)
    ensures RunItems(c, ServicesItems(ss)) == WithServices(c, TrimmedServices(ss))
    decreases |ss|
  {
    hide WithServices, ServiceItems, TrimmedService;
    if ss == [] {
      assert TrimmedServices(ss) == [];
      MoreServices(c, [], []);
    } else {
      hide RunItems;
      var n := |ss| - 1;
      var before := TrimmedServices(ss[..n]);
      RunServices(c, ss[..n]);
      RunItemsAppend(c, ServicesItems(ss[..n]), ServiceItems(ss[n]));
      MoreServices(c, before, [TrimmedService(ss[n])]);
      RunService(WithServices(c, before), ss[n]);
      assert before + [TrimmedService(ss[n])] == TrimmedServices(ss);
    }
  }

  // ---------------------------------------------------------------- properties

  function PropsOn(d: DeviceDesc, props: seq<Item>): DeviceDesc {
    d.(deviceType := Prop(props, "deviceType", d.deviceType),
       friendlyName := Prop(props, "friendlyName", d.friendlyName),
       manufacturer := Prop(props, "manufacturer", d.manufacturer), modelName := Prop(props, "modelName", d.modelName),
       udn := Prop(props, "UDN", d.udn))
  }

  /** Elements named like the fields of a service are taken for one. */
  function PropsOnService(s: ServiceDesc, props: seq<Item>): ServiceDesc {
    ServiceDesc(Prop(props, "serviceType", s.serviceType), Prop(props, "serviceId", s.serviceId),
                Prop(props, "SCPDURL", s.scpdUrl), Prop(props, "controlURL", s.controlUrl),
                Prop(props, "eventSubURL", s.eventSubUrl))
  }

  function WithUrlBase(c: Core, urlBase: string): Core {
    c.(device := c.device.(urlBase := urlBase))
  }

  function WithProps(c: Core, props: seq<Item>): Core {
    WithUrlBase(c.WithDev(PropsOn(c.Dev(), props)), Prop(props, "URLBase", c.device.urlBase))
    .(tservice := PropsOnService(c.tservice, props))
  }

  /** Each name that means something is that of one field. */
  lemma NamesOfKinds(name: string)
    ensures name == "service" <==> KindOf(name) == KService
    ensures name == "device" <==> KindOf(name) == KDevice
    ensures name == "controlURL" <==> KindOf(name) == KControlUrl
    ensures name == "eventSubURL" <==> KindOf(name) == KEventSubUrl
    ensures name == "serviceType" <==> KindOf(name) == KServiceType
    ensures name == "serviceId" <==> KindOf(name) == KServiceId
    ensures name == "SCPDURL" <==> KindOf(name) == KScpdUrl
    ensures name == "deviceType" <==> KindOf(name) == KDeviceType
    ensures name == "friendlyName" <==> KindOf(name) == KFriendlyName
    ensures name == "manufacturer" <==> KindOf(name) == KManufacturer
    ensures name == "modelName" <==> KindOf(name) == KModelName
    ensures name == "UDN" <==> KindOf(name) == KUdn
    ensures name == "URLBase" <==> KindOf(name) == KUrlBase
  {
  }

  lemma OneMoreProp(c: Core, props: seq<Item>)
    requires NoStructure(props) && props != []
    ensures var n := |props| - 1;
            WithProps(c, props) ==
            match props[n].tag
            case Open(_) => WithProps(c, props[..n])
            case Close(name) => Closed(WithProps(c, props[..n]), KindOf(name), Trim(props[n].text))
  {
    var n := |props| - 1;
    NamesOfKinds(props[n].tag.name);
    hide KindOf, Trim, IsMain, IsDeviceList;
    assert props[n] in props;
  }

  lemma {:induction false} NoDeviceListOpen(items: seq<Item>)
    requires NoStructure(items)
    ensures forall name | name in OpenNames(items) :: !IsDeviceList(name)
    decreases |items|
  {
    hide KindOf, IsDeviceList;
    if items != [] {
      var n := |items| - 1;
      assert items[n] in items && forall item :: item in items[..n] ==> item in items;
      NoDeviceListOpen(items[..n]);
    }
  }

  function Deeper(c: Core, names: seq<string>): Core {
    c.(path := c.path + names)
  }

  /** Inside elements other than device lists a closing tag has the same effect. */
  lemma ClosedDeeper(c: Core, names: seq<string>, kind: Kind, text: string)
    requires forall name | name in names :: !IsDeviceList(name)
    ensures Closed(Deeper(c, names), kind, text) == Deeper(Closed(c, kind, text), names)
  {
    hide IsDeviceList;
    var path := c.path + names;
    assert IsMain(path) <==> IsMain(c.path) by {
      assert forall i | 0 <= i < |c.path| :: path[i] == c.path[i];
      assert forall i | |c.path| <= i < |path| :: path[i] in names;
    }
    hide IsMain;
  }

  lemma StepOpens(c: Core, names: seq<string>, item: Item)
    requires item.tag.Open?
    ensures ItemStep(Deeper(c, names), item) == Deeper(c, names + [item.tag.name])
  {
    assert c.path + names + [item.tag.name] == c.path + (names + [item.tag.name]);
  }

  lemma StepCloses(c: Core, names: seq<string>, item: Item)
    requires item.tag.Close? && names != [] && forall name | name in names :: !IsDeviceList(name)
    ensures ItemStep(Deeper(c, names), item) ==
            Deeper(Closed(c, KindOf(item.tag.name), Trim(item.text)), names[..|names| - 1])
  {
    hide KindOf, Trim, Closed, IsDeviceList;
    var kind, text := KindOf(item.tag.name), Trim(item.text);
    ClosedDeeper(c, names, kind, text);
    ClosedKeepsPath(c, kind, text);
    assert (c.path + names)[..|c.path + names| - 1] == c.path + names[..|names| - 1];
  }

  /** The closing tags of a fragment set their fields, whatever they are nested in. */
  lemma {:induction false} RunPropsPart(c: Core, props: seq<Item>)
    requires Nested(props) && NoStructure(props)
    ensures RunItems(c, props) == Deeper(WithProps(c, props), OpenNames(props))
    decreases |props|
  {
    if props == [] {
      assert c.path + [] == c.path;
    } else {
      var n := |props| - 1;
      assert props[n] in props && forall other :: other in props[..n] ==> other in props;
      RunPropsPart(c, props[..n]);
      NoDeviceListOpen(props[..n]);
      OneMoreProp(c, props);
      hide WithProps, KindOf, Trim, Closed, IsDeviceList, ItemStep, Deeper, NoStructure;
      if props[n].tag.Open? {
        StepOpens(WithProps(c, props[..n]), OpenNames(props[..n]), props[n]);
      } else {
        StepCloses(WithProps(c, props[..n]), OpenNames(props[..n]), props[n]);
      }
    }
  }

  lemma ClosedKeepsPath(c: Core, kind: Kind, text: string)
    ensures Closed(c, kind, text).path == c.path
  {
  }

  lemma RunProps(c: Core, props: seq<Item>)
    requires PlainProps(props)
    ensures RunItems(c, props) == WithProps(c, props)
  {
    RunPropsPart(c, props);
    assert c.path + [] == c.path;
  }

  lemma {:induction false} NothingKnown(props: seq<Item>, name: string, default: string)
    requires forall item | item in props :: item.tag != Close(name)
    ensures Prop(props, name, default) == default
    decreases |props|
  {
    if props != [] {
      var n := |props| - 1;
      assert props[n] in props && forall item :: item in props[..n] ==> item in props;
      NothingKnown(props[..n], name, default);
    }
  }

  /** The names that set a field. */
  const FIELD_NAMES := {"deviceType", "friendlyName", "manufacturer", "modelName", "UDN", "URLBase", "serviceType",
                        "serviceId", "SCPDURL", "controlURL", "eventSubURL"}

  /** A nested property such as an icon list, with no element that means something, has no effect at all. */
  lemma UnknownPropertyIsIgnored(c: Core, items: seq<Item>)
    requires PlainProps(items)
    requires forall item | item in items && item.tag.Close? :: item.tag.name !in FIELD_NAMES
    ensures RunItems(c, items) == c
  {
    RunProps(c, items);
    hide PlainProps, RunItems, Prop;
    forall name, default | name in FIELD_NAMES
      ensures Prop(items, name, default) == default
    {
      NothingKnown(items, name, default);
    }
  }

  // ---------------------------------------------------------------- devices

  /** A whole device body, read into an empty device. */
  function WithBody(c: Core, d: DeviceData): Core {
    WithServices(Closed(WithProps(c, d.props), KUdn, Trim(d.udn)), TrimmedServices(d.services))
  }

  lemma RunServiceList(c: Core, ss: seq<ServiceDesc>)
    ensures RunItems(c, OpenItem("serviceList") + ServicesItems(ss) + CloseItem("serviceList")) ==
            WithServices(c, TrimmedServices(ss))
  {
    ContainerNames();
    hide KindOf, RunItems, IsDeviceList, Closed, ServicesItems, TrimmedServices;
    var ts := TrimmedServices(ss);
    RunServices(Inside(c, "serviceList"), ss);
    InsideServices(c, "serviceList", ts);
    var done := WithServices(c, ts);
    RunElement(c, "serviceList", ServicesItems(ss), Inside(done, "serviceList"));
    ClosedInside(done, "serviceList", KOther, []);
    ClosedOther(done);
  }

  lemma ClosedOther(c: Core)
    ensures Closed(c, KOther, []) == c
  {
  }

  lemma InsideServices(c: Core, name: string, ss: seq<ServiceDesc>)
    requires !IsDeviceList(name)
    ensures WithServices(Inside(c, name), ss) == Inside(WithServices(c, ss), name)
  {
    hide IsMain, IsDeviceList;
    IsMainPush(c.path, name);
  }

  lemma RunBody(c: Core, d: DeviceData)
    requires PlainProps(d.props)
    ensures RunItems(c, BodyItems(d)) == WithBody(c, d)
  {
    assert KindOf("UDN") == KUdn;
    KnownIsNotDeviceList("UDN");
    hide RunItems, OpenItem, CloseItem, LeafItems, PlainProps, ServicesItems, TrimmedServices,
      WithServices, WithProps, Closed, Trim, KindOf, IsDeviceList;
    var props, udn := d.props, LeafItems("UDN", d.udn);
    var list := OpenItem("serviceList") + ServicesItems(d.services) + CloseItem("serviceList");
    RunItemsAppend(c, props + udn, list);
    RunItemsAppend(c, props, udn);
    RunProps(c, d.props);
    RunLeaf(WithProps(c, d.props), "UDN", d.udn);
    RunServiceList(Closed(WithProps(c, d.props), KUdn, Trim(d.udn)), d.services);
  }

  /** What a body leaves in the fields of the current service, after those in t. */
  function LeftOver(t: ServiceDesc, d: DeviceData): ServiceDesc {
    if d.services == [] then PropsOnService(t, d.props) else NO_SERVICE
  }

  function LeftOverAll(t: ServiceDesc, ds: seq<DeviceData>): ServiceDesc {
    if ds == [] then t else LeftOver(LeftOverAll(t, ds[..|ds| - 1]), ds[|ds| - 1])
  }

  lemma SameNumber(ss: seq<ServiceDesc>)
    ensures TrimmedServices(ss) == [] <==> ss == []
    ensures [] + TrimmedServices(ss) == TrimmedServices(ss)
  {
  }

  /** What the body of an embedded device does. */
  lemma EmbeddedBody(c: Core, d: DeviceData)
    requires !IsMain(c.path) && c.tdevice == NO_DEVICE
    ensures WithBody(c, d) ==
            WithUrlBase(c, Prop(d.props, "URLBase", c.device.urlBase))
            .(tdevice := Stated(d), tservice := LeftOver(c.tservice, d))
  {
    hide IsMain, Prop, Trim, TrimmedServices;
    SameNumber(d.services);
  }

  /** ... and that of the root device. */
  lemma RootBody(c: Core, d: DeviceData)
    requires IsMain(c.path) && c.device == NO_DEVICE
    ensures WithBody(c, d) == c.(device := Stated(d).(urlBase := Prop(d.props, "URLBase", [])),
                                 tservice := LeftOver(c.tservice, d))
  {
    hide IsMain, Prop, Trim, TrimmedServices;
    SameNumber(d.services);
  }

  /** Embedded devices: they are added to the root device, which also gets their base URL; t is what they
      leave of a service. */
  function WithEmbedded(c: Core, urlBase: string, ds: seq<DeviceDesc>, t: ServiceDesc): Core {
    c.(device := c.device.(urlBase := urlBase, embedded := c.device.embedded + ds), tservice := t)
  }

  lemma ClosedDevice(c: Core, urlBase: string, d: DeviceDesc, t: ServiceDesc)
    requires !IsMain(c.path) && c.tdevice == NO_DEVICE
    ensures Closed(WithUrlBase(c, urlBase).(tdevice := d, tservice := t), KDevice, []) ==
            WithEmbedded(c, urlBase, [d], t)
  {
    hide IsMain;
  }

  lemma RunDevice(c: Core, d: DeviceData)
    requires !IsMain(c.path) && c.tdevice == NO_DEVICE && PlainProps(d.props)
    ensures RunItems(c, DeviceItems(d)) ==
            WithEmbedded(c, Prop(d.props, "URLBase", c.device.urlBase), [Stated(d)], LeftOver(c.tservice, d))
  {
    assert KindOf("device") == KDevice;
    KnownIsNotDeviceList("device");
    hide KindOf, RunItems, IsDeviceList, IsMain, Closed, BodyItems, Prop, Stated, WithBody, Popped, WithEmbedded,
      LeftOver, PlainProps;
    var inside := Inside(c, "device");
    var urlBase, t := Prop(d.props, "URLBase", c.device.urlBase), LeftOver(c.tservice, d);
    IsMainPush(c.path, "device");
    RunBody(inside, d);
    EmbeddedBody(inside, d);
    var done := WithUrlBase(c, urlBase).(tdevice := Stated(d), tservice := t);
    RunElement(c, "device", BodyItems(d), Inside(done, "device"));
    ClosedInside(done, "device", KDevice, []);
    ClosedDevice(c, urlBase, Stated(d), t);
  }

  lemma MoreDevices(c: Core, u: string, a: seq<DeviceDesc>, v: string, d: DeviceDesc, t: ServiceDesc, t': ServiceDesc)
    ensures WithEmbedded(WithEmbedded(c, u, a, t), v, [d], t') == WithEmbedded(c, v, a + [d], t')
    ensures WithEmbedded(c, c.device.urlBase, [], c.tservice) == c
    ensures var m := WithEmbedded(c, u, a, t);
            m.path == c.path && m.tservice == t && m.tdevice == c.tdevice && m.device.urlBase == u
  {
    assert c.device.embedded + a + [d] == c.device.embedded + (a + [d]);
    assert c.device.embedded + [] == c.device.embedded;
  }

  function WithAll(c: Core, ds: seq<DeviceData>): Core {
    WithEmbedded(c, LastUrlBase(ds, c.device.urlBase), StatedAll(ds), LeftOverAll(c.tservice, ds))
  }

  lemma {:induction false} RunDevices(c: Core, ds: seq<DeviceData>)
    requires !IsMain(c.path) && c.tdevice == NO_DEVICE
    requires forall d | d in ds :: PlainProps(d.props)
    ensures RunItems(c, DevicesItems(ds)) == WithAll(c, ds)
    decreases |ds|
  {
    hide IsMain, DeviceItems, Prop, Stated, PlainProps, WithEmbedded, LeftOver;
    if ds == [] {
      assert StatedAll(ds) == [];
      MoreDevices(c, [], [], [], NO_DEVICE, NO_SERVICE, NO_SERVICE);
    } else {
      hide RunItems;
      var n := |ds| - 1;
      assert ds[n] in ds && forall d :: d in ds[..n] ==> d in ds;
      var before, urlBase := StatedAll(ds[..n]), LastUrlBase(ds[..n], c.device.urlBase);
      var t := LeftOverAll(c.tservice, ds[..n]);
      RunDevices(c, ds[..n]);
      RunItemsAppend(c, DevicesItems(ds[..n]), DeviceItems(ds[n]));
      MoreDevices(c, urlBase, before, Prop(ds[n].props, "URLBase", urlBase), Stated(ds[n]), t, LeftOver(t, ds[n]));
      RunDevice(WithEmbedded(c, urlBase, before, t), ds[n]);
      assert before + [Stated(ds[n])] == StatedAll(ds);
    }
  }

  lemma InsideDevices(c: Core, name: string, ds: seq<DeviceData>)
    ensures WithAll(Inside(c, name), ds) == Inside(WithAll(c, ds), name)
  {
  }

  lemma RunSomeDevices(c: Core, ds: seq<DeviceData>)
    requires c.tdevice == NO_DEVICE && forall d | d in ds :: PlainProps(d.props)
    ensures RunItems(c, OpenItem("deviceList") + DevicesItems(ds) + CloseItem("deviceList")) == WithAll(c, ds)
  {
    ContainerNames();
    DeviceListName();
    hide PlainProps, WithAll, Closed, IsMain, Popped, KindOf, RunItems, IsDeviceList, DevicesItems, OpenItem, CloseItem;
    var name := "deviceList";
    IsMainPush(c.path, name);
    RunDevices(Inside(c, name), ds);
    InsideDevices(c, name, ds);
    var done := WithAll(c, ds);
    RunElement(c, name, DevicesItems(ds), Inside(done, name));
    ClosedInside(done, name, KOther, []);
    ClosedOther(done);
  }

  lemma RunDeviceList(c: Core, ds: seq<DeviceData>)
    requires c.tdevice == NO_DEVICE && forall d | d in ds :: PlainProps(d.props)
    ensures RunItems(c, DeviceListItems(ds)) == WithAll(c, ds)
  {
    hide PlainProps, WithEmbedded, DevicesItems;
    if ds == [] {
      assert StatedAll(ds) == [];
      MoreDevices(c, [], [], [], NO_DEVICE, NO_SERVICE, NO_SERVICE);
    } else {
      hide RunItems, WithAll;
      RunSomeDevices(c, ds);
    }
  }

  // ---------------------------------------------------------------- the document

  lemma RunHeading(c: Core)
    ensures RunItems(c, Heading()) == Inside(Inside(c, "root"), "device")
  {
    ContainerNames();
    hide KindOf, RunItems, IsDeviceList, Closed, OpenItem, CloseItem, LeafItems, Inside, Popped;
    var root := Inside(c, "root");
    var major, minor := LeafItems("major", "1"), LeafItems("minor", "1");
    var version := OpenItem("specVersion") + (major + minor) + CloseItem("specVersion");
    var inside := Inside(root, "specVersion");
    RunLeaf(inside, "major", "1");
    RunLeaf(inside, "minor", "1");
    OtherLeaf(inside, Trim("1"));
    RunItemsAppend(inside, major, minor);
    RunElement(root, "specVersion", major + minor, inside);
    ClosedInside(root, "specVersion", KOther, []);
    ClosedOther(root);
    RunOpen(c, "root");
    RunItemsAppend(c, OpenItem("root"), version);
    RunOpen(root, "device");
    RunItemsAppend(c, OpenItem("root") + version, OpenItem("device"));
  }

  lemma OtherLeaf(c: Core, text: string)
    ensures Closed(c, KOther, text) == c
  {
  }

  lemma RunEnding(c: Core)
    requires c.path == [] && c.tdevice == NO_DEVICE
    ensures RunItems(Inside(Inside(c, "root"), "device"), Ending()) == c
  {
    ContainerNames();
    assert KindOf("device") == KDevice;
    KnownIsNotDeviceList("device");
    hide KindOf, RunItems, IsDeviceList, Closed, OpenItem, CloseItem, Inside, Popped;
    var root := Inside(c, "root");
    RunItemsAppend(Inside(root, "device"), CloseItem("device"), CloseItem("root"));
    RunClose(Inside(root, "device"), "device");
    ClosedInside(root, "device", KDevice, []);
    RootDeviceEnds(c);
    RunClose(root, "root");
    ClosedInside(c, "root", KOther, []);
    ClosedOther(c);
  }

  lemma RootDeviceEnds(c: Core)
    requires c.path == [] && c.tdevice == NO_DEVICE
    ensures Closed(Inside(c, "root"), KDevice, []) == Inside(c, "root")
  {
    ContainerNames();
    IsMainPush([], "root");
  }

  const NOTHING := Core([], NO_SERVICE, NO_DEVICE, NO_DEVICE)

  lemma RunRootBody(c: Core, root: DeviceData)
    requires c == Inside(Inside(NOTHING, "root"), "device") && PlainProps(root.props)
    ensures RunItems(c, BodyItems(root)) ==
            c.(device := Stated(root).(urlBase := Prop(root.props, "URLBase", [])),
               tservice := LeftOver(NO_SERVICE, root))
  {
    ContainerNames();
    KnownIsNotDeviceList("device");
    hide IsDeviceList, RunItems, BodyItems, WithBody, KindOf, PlainProps, Prop, Stated, LeftOver;
    IsMainPush([], "root");
    IsMainPush(["root"], "device");
    assert [] + ["root"] == ["root"];
    hide IsMain;
    RunBody(c, root);
    RootBody(c, root);
  }

  lemma {:induction false} LastUrlBaseFrom(root: DeviceData, ds: seq<DeviceData>)
    ensures LastUrlBase([root] + ds, []) == LastUrlBase(ds, Prop(root.props, "URLBase", []))
    decreases |ds|
  {
    hide Prop;
    if ds == [] {
      assert [root] + ds == [root] && [root][..0] == [];
    } else {
      var n := |ds| - 1;
      assert ([root] + ds)[..|ds|] == [root] + ds[..n];
      LastUrlBaseFrom(root, ds[..n]);
    }
  }

  /** What is left of a service at the end, which nothing reads any more. */
  function LastLeftOver(root: DeviceData, embedded: seq<DeviceData>): ServiceDesc {
    LeftOverAll(LeftOver(NO_SERVICE, root), embedded)
  }

  lemma RunDocument(root: DeviceData, embedded: seq<DeviceData>)
    requires PlainProps(root.props) && forall d | d in embedded :: PlainProps(d.props)
    ensures RunItems(NOTHING, Document(root, embedded)) ==
            NOTHING.(device := StatedRoot(root, embedded), tservice := LastLeftOver(root, embedded))
  {
    hide RunItems, Heading, Ending, BodyItems, DeviceListItems, PlainProps, Prop, LastUrlBase, StatedAll, LeftOver,
      LeftOverAll;
    var a, b, c, d := Heading(), BodyItems(root), DeviceListItems(embedded), Ending();
    RunItemsAppend(NOTHING, a + b + c, d);
    RunItemsAppend(NOTHING, a + b, c);
    RunItemsAppend(NOTHING, a, b);
    RunHeading(NOTHING);
    var c1 := Inside(Inside(NOTHING, "root"), "device");
    RunRootBody(c1, root);
    var c2 := c1.(device := Stated(root).(urlBase := Prop(root.props, "URLBase", [])),
                  tservice := LeftOver(NO_SERVICE, root));
    RunDeviceList(c2, embedded);
    LastUrlBaseFrom(root, embedded);
    assert [] + StatedAll(embedded) == StatedAll(embedded);
    RunEnding(NOTHING.(device := StatedRoot(root, embedded), tservice := LastLeftOver(root, embedded)));
  }

  /** Parsing the built document gives back the fields and services of each device, in order, with nothing
      of one device in another. */
  lemma ParserInvertsDocument(root: DeviceData, embedded: seq<DeviceData>, gaps: seq<seq<string>>)
    requires PlainProps(root.props) && forall d | d in embedded :: PlainProps(d.props)
    requires AllFit(Document(root, embedded), gaps)
    ensures var core := Run(START, Events(Document(root, embedded), gaps)).core;
            core.device == StatedRoot(root, embedded) && core.path == [] && core.tdevice == NO_DEVICE
  {
    hide Run, RunItems, Document, StatedRoot, PlainProps, AllFit;
    RunDocument(root, embedded);
    EventsRun(START, Document(root, embedded), gaps);
  }

  /** The constructor on the built document: the data of all devices, the shared base URL, which
      comes from the document's own URL when no device states it, and the flags. */
  lemma DescriptionReadBack(root: DeviceData, embedded: seq<DeviceData>, gaps: seq<seq<string>>, url: string)
    requires PlainProps(root.props) && forall d | d in embedded :: PlainProps(d.props)
    requires AllFit(Document(root, embedded), gaps)
    ensures var d := Completed(Run(START, Events(Document(root, embedded), gaps)).core.device, url);
            && d == Stated(root).(ok := true, descUrl := url, urlBase := d.urlBase, embedded := d.embedded)
            && d.urlBase == (var stated := LastUrlBase([root] + embedded, []);
                             if stated == [] then BaseUrl(url) else stated)
            && |d.embedded| == |embedded|
            && forall i | 0 <= i < |embedded| ::
                 d.embedded[i] == Stated(embedded[i]).(ok := true, urlBase := d.urlBase)
  {
    hide Run, Events, Document, PlainProps, AllFit, BaseUrl, LastUrlBase;
    ParserInvertsDocument(root, embedded, gaps);
  }

  /** The base URL is the scheme and authority, with a slash. */
  lemma BaseUrlIsAuthority(scheme: string, authority: string, path: string)
    requires ':' !in scheme && '/' !in authority
    ensures BaseUrl(scheme + "://" + authority + "/" + path) == scheme + "://" + authority + "/"
  {
    var front := scheme + "://";
    var url := front + authority + "/" + path;
    assert url == front + (authority + "/" + path);
    FindStringAfter(scheme, "://", authority + "/" + path);
    hide FindString;
    assert url[|front|..] == authority + ['/'] + path;
    FindAfter(authority, '/', path);
  }

  /** ... without a path, the whole URL. */
  lemma BaseUrlWithoutPath(scheme: string, authority: string)
    requires ':' !in scheme && '/' !in authority
    ensures BaseUrl(scheme + "://" + authority) == scheme + "://" + authority
  {
    var front := scheme + "://";
    FindStringAfter(scheme, "://", authority);
    hide FindString;
    assert (front + authority)[|front|..] == authority;
    FindNone(authority, '/');
  }
}
