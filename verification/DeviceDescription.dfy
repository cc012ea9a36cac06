/** The device description: the document that the device side builds, as a list of tags with the
    text before each of them, and the data that the control side keeps of it. */
module DeviceDescription {
  import opened Options
  import opened StringUtils

  const WHITE := {' ', '\t', '\n', '\r'}

  function Trim(s: string): string {
    Trimmed(s, WHITE)
  }

  // ---------------------------------------------------------------- what is parsed

  datatype ServiceDesc = ServiceDesc(serviceType: string, serviceId: string, scpdUrl: string,
                                     controlUrl: string, eventSubUrl: string)

  const NO_SERVICE := ServiceDesc([], [], [], [], [])

  datatype DeviceDesc = DeviceDesc(ok: bool, deviceType: string, friendlyName: string, udn: string,
                                   descUrl: string, urlBase: string, manufacturer: string, modelName: string,
                                   xmlText: string, services: seq<ServiceDesc>, embedded: seq<DeviceDesc>)

  const NO_DEVICE := DeviceDesc(false, [], [], [], [], [], [], [], [], [], [])

  // ---------------------------------------------------------------- what is built

  datatype Tag = Open(name: string) | Close(name: string)

  /** A tag and the text between the tag before it and itself; blanks around it do not matter. */
  datatype Item = Item(text: string, tag: Tag)

  /** What is known of one device: its properties fragment, its id and its services. */
  datatype DeviceData = DeviceData(props: seq<Item>, udn: string, services: seq<ServiceDesc>)

  function OpenItem(name: string): seq<Item> { [Item([], Open(name))] }
  function CloseItem(name: string): seq<Item> { [Item([], Close(name))] }

  function LeafItems(name: string, text: string): seq<Item> {
    [Item([], Open(name)), Item(text, Close(name))]
  }

  function ServiceFields(s: ServiceDesc): seq<Item> {
    LeafItems("serviceType", s.serviceType)
    + LeafItems("serviceId", s.serviceId)
    + LeafItems("SCPDURL", s.scpdUrl)
    + LeafItems("controlURL", s.controlUrl)
    + LeafItems("eventSubURL", s.eventSubUrl)
  }

  /** What addService appends. */
  function ServiceItems(s: ServiceDesc): seq<Item> {
    OpenItem("service") + ServiceFields(s) + CloseItem("service")
  }

  function ServicesItems(ss: seq<ServiceDesc>): seq<Item> {
    if ss == [] then [] else ServicesItems(ss[..|ss| - 1]) + ServiceItems(ss[|ss| - 1])
  }

  /** The inside of a device element, up to its services. */
  function BodyItems(d: DeviceData): seq<Item> {
    d.props + LeafItems("UDN", d.udn)
    + (OpenItem("serviceList") + ServicesItems(d.services) + CloseItem("serviceList"))
  }

  function DeviceItems(d: DeviceData): seq<Item> {
    OpenItem("device") + BodyItems(d) + CloseItem("device")
  }

  function DevicesItems(ds: seq<DeviceData>): seq<Item> {
    if ds == [] then [] else DevicesItems(ds[..|ds| - 1]) + DeviceItems(ds[|ds| - 1])
  }

  function DeviceListItems(ds: seq<DeviceData>): seq<Item> {
    if ds == [] then [] else OpenItem("deviceList") + DevicesItems(ds) + CloseItem("deviceList")
  }

  function Heading(): seq<Item> {
    OpenItem("root")
    + (OpenItem("specVersion") + (LeafItems("major", "1") + LeafItems("minor", "1")) + CloseItem("specVersion"))
    + OpenItem("device")
  }

  function Ending(): seq<Item> {
    CloseItem("device") + CloseItem("root")
  }

  /** The whole document of a root device and its embedded devices. */
  function Document(root: DeviceData, embedded: seq<DeviceData>): seq<Item> {
    Heading() + BodyItems(root) + DeviceListItems(embedded) + Ending()
  }

  // ---------------------------------------------------------------- how the device side builds it

  /** What is kept of a device: the two fragments, the service map, and the ids in registration order. */
  datatype Setup = Setup(propsxml: seq<Item>, servicexml: seq<Item>, servicemap: map<string, ServiceDesc>,
                         serviceids: seq<string>)

  const NO_SETUP := Setup([], [], map[], [])

  /** The ids without the first occurrence of one of them. */
  function WithoutFirst(ids: seq<string>, id: string): seq<string> {
    if ids == [] then [] else if ids[0] == id then ids[1..] else [ids[0]] + WithoutFirst(ids[1..], id)
  }

  function MapOf(ss: seq<ServiceDesc>): map<string, ServiceDesc> {
    if ss == [] then map[]
    else
      var last := ss[|ss| - 1];
      MapOf(ss[..|ss| - 1])[last.serviceId := last]
  }

  function IdsOf(ss: seq<ServiceDesc>): seq<string> {
    if ss == [] then []
    else
      var id := ss[|ss| - 1].serviceId;
      WithoutFirst(IdsOf(ss[..|ss| - 1]), id) + [id]
  }

  predicate Distinct(ids: seq<string>) {
    forall i, j | 0 <= i < j < |ids| :: ids[i] != ids[j]
  }

  lemma DistinctCons(id: string, ids: seq<string>)
    requires Distinct(ids) && id !in ids
    ensures Distinct([id] + ids)
  {
    var all := [id] + ids;
    assert forall i | 0 < i < |all| :: all[i] == ids[i - 1];
  }

  lemma {:induction false} WithoutFirstOfDistinct(ids: seq<string>, id: string)
    requires Distinct(ids)
    ensures Distinct(WithoutFirst(ids, id))
    ensures forall x :: x in WithoutFirst(ids, id) <==> x in ids && x != id
  {
    if ids != [] {
      WithoutFirstOfDistinct(ids[1..], id);
      assert ids == [ids[0]] + ids[1..];
      assert forall x :: x in ids <==> x == ids[0] || x in ids[1..];
      assert ids[0] !in ids[1..];
      if ids[0] != id {
        var rest := WithoutFirst(ids[1..], id);
        DistinctCons(ids[0], rest);
        assert forall x :: x in [ids[0]] + rest <==> x == ids[0] || x in rest;
      }
    }
  }

  /** However services are added, again or not, each id is listed once, and the listed ids are those of the
      map. */
  lemma {:induction false} IdsAreTheKeys(ss: seq<ServiceDesc>)
    ensures Distinct(IdsOf(ss))
    ensures forall id :: id in IdsOf(ss) <==> id in MapOf(ss)
  {
    if ss != [] {
      var before, id := IdsOf(ss[..|ss| - 1]), ss[|ss| - 1].serviceId;
      IdsAreTheKeys(ss[..|ss| - 1]);
      WithoutFirstOfDistinct(before, id);
      var rest := WithoutFirst(before, id);
      DistinctSnoc(rest, id);
      assert forall x :: x in rest + [id] <==> x in rest || x == id;
    }
  }

  /** The map has the last service added under each id. */
  lemma {:induction false} MapHasLast(ss: seq<ServiceDesc>, i: nat)
    requires i < |ss| && forall j | i < j < |ss| :: ss[j].serviceId != ss[i].serviceId
    ensures ss[i].serviceId in MapOf(ss) && MapOf(ss)[ss[i].serviceId] == ss[i]
    decreases |ss|
  {
    if i < |ss| - 1 {
      MapHasLast(ss[..|ss| - 1], i);
    }
  }

  /** When a service of this id was last added. */
  function LastAdded(ss: seq<ServiceDesc>, id: string): int {
    if ss == [] then -1
    else
      var n := |ss| - 1;
      if ss[n].serviceId == id then n else LastAdded(ss[..n], id)
  }

  ghost predicate Rising(ids: seq<string>, key: string -> int) {
    forall i, j | 0 <= i < j < |ids| :: key(ids[i]) < key(ids[j])
  }

  lemma {:induction false} WithoutFirstRising(ids: seq<string>, id: string, key: string -> int)
    requires Rising(ids, key)
    ensures Rising(WithoutFirst(ids, id), key)
    ensures forall x | x in WithoutFirst(ids, id) :: x in ids
  {
    if ids != [] {
      WithoutFirstRising(ids[1..], id, key);
      if ids[0] != id {
        var rest := WithoutFirst(ids[1..], id);
        var all := [ids[0]] + rest;
        forall i, j | 0 <= i < j < |all| ensures key(all[i]) < key(all[j]) {
          assert all[j] == rest[j - 1] && rest[j - 1] in ids[1..];
        }
      }
    }
  }

  /** The ids are listed in the order in which their services were last added. */
  lemma {:induction false} IdsInOrder(ss: seq<ServiceDesc>)
    ensures Rising(IdsOf(ss), id => LastAdded(ss, id))
  {
    if ss != [] {
      var n := |ss| - 1;
      var before, id := IdsOf(ss[..n]), ss[n].serviceId;
      IdsInOrder(ss[..n]);
      IdsAreTheKeys(ss[..n]);
      var rest := WithoutFirst(before, id);
      var all := rest + [id];
      WithoutFirstRising(before, id, x => LastAdded(ss[..n], x));
      WithoutFirstOfDistinct(before, id);
      forall i, j | 0 <= i < j < |all| ensures LastAdded(ss, all[i]) < LastAdded(ss, all[j]) {
        assert rest[i] in rest && rest[i] != id;
        AddedBefore(ss[..n], rest[i]);
        if j < |rest| {
          assert rest[j] in rest && rest[j] != id;
        }
      }
    }
  }

  lemma {:induction false} AddedBefore(ss: seq<ServiceDesc>, id: string)
    ensures LastAdded(ss, id) < |ss|
  {
    if ss != [] {
      AddedBefore(ss[..|ss| - 1], id);
    }
  }

  lemma DistinctSnoc(ids: seq<string>, id: string)
    requires Distinct(ids) && id !in ids
    ensures Distinct(ids + [id])
  {
    var all := ids + [id];
    assert forall i | 0 <= i < |ids| :: all[i] == ids[i];
  }

  /** What addService makes of it; None when the properties are missing and cannot be read. */
  function Extended(m: Setup, s: ServiceDesc, fragment: Option<seq<Item>>): Option<Setup> {
    if m.propsxml == [] && fragment.None? then None
    else Some(Setup(if m.propsxml == [] then fragment.value else m.propsxml, m.servicexml + ServiceItems(s),
                    m.servicemap[s.serviceId := s], WithoutFirst(m.serviceids, s.serviceId) + [s.serviceId]))
  }

  /** The same on the data of the device. */
  function OneMore(d: DeviceData, s: ServiceDesc, fragment: Option<seq<Item>>): DeviceData {
    DeviceData(if d.props == [] && fragment.Some? then fragment.value else d.props, d.udn, d.services + [s])
  }

  ghost predicate Describes(m: Setup, d: DeviceData) {
    m == Setup(d.props, ServicesItems(d.services), MapOf(d.services), IdsOf(d.services))
  }

  lemma ExtendedDescribes(m: Setup, d: DeviceData, s: ServiceDesc, fragment: Option<seq<Item>>)
    requires Describes(m, d)
    ensures Extended(m, s, fragment).None? <==> d.props == [] && fragment.None?
    ensures Extended(m, s, fragment).Some? ==> Describes(Extended(m, s, fragment).value, OneMore(d, s, fragment))
  {
    hide ServiceItems, WithoutFirst;
    var ss := d.services + [s];
    assert ss[..|ss| - 1] == d.services;
  }

  /** All fragments describe the data. */
  ghost predicate AllDescribe(embeds: map<string, Setup>, embedded: map<string, DeviceData>) {
    && embeds.Keys == embedded.Keys
    && forall id | id in embedded :: embedded[id].udn == id && Describes(embeds[id], embedded[id])
  }

  lemma EmbedOne(embeds: map<string, Setup>, embedded: map<string, DeviceData>, id: string, m: Setup, d: DeviceData)
    requires AllDescribe(embeds, embedded) && d.udn == id && Describes(m, d)
    ensures AllDescribe(embeds[id := m], embedded[id := d])
  {
    hide Describes;
  }

  lemma NothingDescribed(udn: string)
    ensures Describes(NO_SETUP, DeviceData([], udn, []))
  {
  }

  /** A root device while it is being set up, with its embedded devices. */
  class UpnpDevice {
    const deviceId: string
    var mine: Setup
    var embeds: map<string, Setup>

    ghost var root: DeviceData
    ghost var embedded: map<string, DeviceData>

    ghost predicate Valid()
      reads this
    {
      root.udn == deviceId && Describes(mine, root) && AllDescribe(embeds, embedded)
    }

    constructor (deviceId: string)
      ensures Valid() && root == DeviceData([], deviceId, []) && embedded == map[]
    {
      this.deviceId := deviceId;
      mine, embeds := NO_SETUP, map[];
      root, embedded := DeviceData([], deviceId, []), map[];
    }

    /** What the constructor of an embedded device does to its root device. */
    method Embed(id: string)
      requires Valid()
      modifies this
      ensures Valid() && root == old(root) && embedded == old(embedded)[id := DeviceData([], id, [])]
    {
      hide Describes, AllDescribe;
      NothingDescribed(id);
      EmbedOne(embeds, embedded, id, NO_SETUP, DeviceData([], id, []));
      embeds := embeds[id := NO_SETUP];
      embedded := embedded[id := DeviceData([], id, [])];
    }

    /** addService on the root device. The properties fragment is read the first time; reading it can fail. */
    method AddService(s: ServiceDesc, fragment: Option<seq<Item>>) returns (ok: bool)
      requires Valid()
      modifies this`mine, this`root
      ensures Valid() && (ok <==> old(root).props == [] ==> fragment.Some?)
      ensures !ok ==> root == old(root)
      ensures ok ==> root.udn == old(root).udn && root.services == old(root).services + [s]
      ensures ok ==> root.props == if old(root).props != [] then old(root).props else fragment.value
    {
      hide Describes, Extended, AllDescribe;
      ExtendedDescribes(mine, root, s, fragment);
      var m := Extended(mine, s, fragment);
      if m.None? {
        return false;
      }
      mine := m.value;
      root := OneMore(root, s, fragment);
      ok := true;
    }

    /** addService on the embedded device of that id, which has to be known to its root device. */
    method AddEmbeddedService(id: string, s: ServiceDesc, fragment: Option<seq<Item>>) returns (ok: bool)
      requires Valid()
      modifies this`embeds, this`embedded
      ensures Valid()
      ensures ok <==> id in old(embedded) && (old(embedded)[id].props == [] ==> fragment.Some?)
      ensures !ok ==> embedded == old(embedded)
      ensures ok ==> id in embedded && embedded == old(embedded)[id := embedded[id]]
      ensures ok ==> embedded[id].udn == old(embedded)[id].udn
      ensures ok ==> embedded[id].services == old(embedded)[id].services + [s]
      ensures ok ==> embedded[id].props ==
                     if old(embedded)[id].props != [] then old(embedded)[id].props else fragment.value
    {
      if id !in embeds {
        return false;
      }
      ExtendedDescribes(embeds[id], embedded[id], s, fragment);
      var m := Extended(embeds[id], s, fragment);
      if m.None? {
        return false;
      }
      ghost var d := OneMore(embedded[id], s, fragment);
      hide Describes, Extended, AllDescribe;
      EmbedOne(embeds, embedded, id, m.value, d);
      embeds := embeds[id := m.value];
      embedded := embedded[id := d];
      ok := true;
    }

    /** The loop of start over the embedded devices, in the order of the map. */
    method BuildEmbedded(order: seq<string>) returns (list: seq<Item>)
      requires Valid() && Enumerates(order, embedded.Keys)
      ensures list == DevicesItems(InOrder(embedded, order))
    {
      hide OpenItem, CloseItem, BodyItems, BodyXml, Describes, DeviceItems, DevicesItems, InOrder;
      list := [];
      var n := 0;
      DevicesSoFar(embedded, order, 0);
      while n < |order|
        invariant n <= |order| && list == DevicesItems(InOrder(embedded, order[..n]))
      {
        DeviceDescribed(embeds[order[n]], embedded[order[n]]);
        DevicesSoFar(embedded, order, n);
        list := list + (OpenItem("device") + BodyXml(embeds[order[n]], order[n]) + CloseItem("device"));
        n := n + 1;
      }
      assert order[..n] == order;
    }

    /** start: the whole description. */
    method Start(order: seq<string>) returns (desc: seq<Item>)
      requires Valid() && Enumerates(order, embedded.Keys)
      ensures desc == Document(root, InOrder(embedded, order))
    {
      BodyDescribed(mine, root);
      hide OpenItem, CloseItem, BodyItems, BodyXml, Describes, DevicesItems, Heading, Ending;
      desc := Heading() + BodyXml(mine, deviceId);
      SomeKey(order, embeds);
      if embeds != map[] {
        var list := BuildEmbedded(order);
        desc := desc + (OpenItem("deviceList") + list + CloseItem("deviceList"));
      }
      desc := desc + Ending();
    }
  }

  lemma DevicesSoFar(m: map<string, DeviceData>, order: seq<string>, n: nat)
    requires n <= |order| && forall i | 0 <= i < |order| :: order[i] in m
    ensures DevicesItems(InOrder(m, order[..0])) == []
    ensures n < |order| ==> DevicesItems(InOrder(m, order[..n + 1])) ==
                            DevicesItems(InOrder(m, order[..n])) + DeviceItems(m[order[n]])
  {
    hide DeviceItems;
    if n < |order| {
      assert InOrder(m, order[..n + 1])[..n] == InOrder(m, order[..n]);
    }
  }

  ghost predicate Enumerates(order: seq<string>, keys: set<string>) {
    && (forall i | 0 <= i < |order| :: order[i] in keys)
    && (forall id | id in keys :: id in order)
    && forall i, j | 0 <= i < j < |order| :: order[i] != order[j]
  }

  ghost function InOrder(m: map<string, DeviceData>, order: seq<string>): seq<DeviceData>
    requires forall i | 0 <= i < |order| :: order[i] in m
  {
    seq(|order|, i requires 0 <= i < |order| => m[order[i]])
  }

  lemma SomeKey(order: seq<string>, m: map<string, Setup>)
    requires Enumerates(order, m.Keys)
    ensures order != [] <==> m != map[]
  {
    assert order != [] ==> order[0] in m;
    if m != map[] {
      var id :| id in m;
      assert id in order;
    }
  }

  lemma BodyDescribed(xml: Setup, d: DeviceData)
    requires Describes(xml, d)
    ensures BodyXml(xml, d.udn) == BodyItems(d)
  {
    hide ServicesItems, OpenItem, CloseItem, LeafItems;
  }

  lemma DeviceDescribed(xml: Setup, d: DeviceData)
    requires Describes(xml, d)
    ensures OpenItem("device") + BodyXml(xml, d.udn) + CloseItem("device") == DeviceItems(d)
  {
    hide OpenItem, CloseItem, BodyXml, BodyItems, Describes;
    BodyDescribed(xml, d);
  }

  function BodyXml(xml: Setup, udn: string): seq<Item> {
    xml.propsxml + LeafItems("UDN", udn) + (OpenItem("serviceList") + xml.servicexml + CloseItem("serviceList"))
  }
}
