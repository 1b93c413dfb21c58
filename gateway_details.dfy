/** The Gateway details page: condition labels, the rows of a listener's table and the
    sections built from the Gateway (frontend/src/components/gateway/GatewayDetails.tsx). */
module GatewayDetails {
  import opened Wrappers

  /** A Kubernetes condition; `condType` is its `type`. */
  datatype Condition = Condition(condType: string, status: string)

  /** The `status` of a status label: 'success', 'error' or ''. */
  datatype LabelStatus = Success | Error | Plain

  datatype StatusLabel = StatusLabel(status: LabelStatus, text: string)

  /** `makeStatusLabel`: an "Available" condition is a success when its status is "True" and
      an error otherwise; any other condition gets a plain label. The text is the type. */
  function MakeStatusLabel(c: Condition): (r: StatusLabel)
    ensures r.text == c.condType
    ensures r.status == Success <==> c.condType == "Available" && c.status == "True"
    ensures r.status == Error <==> c.condType == "Available" && c.status != "True"
    ensures r.status == Plain <==> c.condType != "Available"
  {
    var status := if c.condType == "Available" then (if c.status == "True" then Success else Error) else Plain;
    StatusLabel(status, c.condType)
  }

  datatype Listener = Listener(name: string, hostname: Option<string>, port: int, protocol: string)

  datatype ListenerStatus = ListenerStatus(name: string, conditions: seq<Condition>)

  /** The name column of a listener table row. */
  datatype RowName = ListenerName(name: string) | Hostname | Port | Protocol | Conditions

  /** The value column of a row: none (the listener's own row), text, a port number, or the
      condition labels (missing without a status). */
  datatype RowValue =
    | NoValue
    | Text(text: Option<string>)
    | PortNumber(port: int)
    | Labels(labels: Option<seq<StatusLabel>>)

  datatype Row = Row(name: RowName, value: RowValue, withHighlightStyle: bool)

  function LabelsOf(conditions: seq<Condition>): (r: seq<StatusLabel>)
    ensures |r| == |conditions|
    ensures forall i :: 0 <= i < |conditions| ==> r[i] == MakeStatusLabel(conditions[i])
  {
    seq(|conditions|, i requires 0 <= i < |conditions| => MakeStatusLabel(conditions[i]))
  }

  /** `GatewayListenerTable`: the listener's name (highlighted), then hostname, port, protocol
      and the conditions, one label per condition of the status in order. */
  function ListenerRows(listener: Listener, status: Option<ListenerStatus>): (rows: seq<Row>)
    ensures |rows| == 5
    ensures rows[0] == Row(ListenerName(listener.name), NoValue, true)
    ensures rows[1] == Row(Hostname, Text(listener.hostname), false)
    ensures rows[2] == Row(Port, PortNumber(listener.port), false)
    ensures rows[3] == Row(Protocol, Text(Some(listener.protocol)), false)
    ensures rows[4].name == Conditions && rows[4].value.Labels? && !rows[4].withHighlightStyle
    ensures status.None? <==> rows[4].value.labels.None?
    ensures status.Some? ==> |rows[4].value.labels.value| == |status.value.conditions|
    ensures status.Some? ==> forall i :: 0 <= i < |status.value.conditions| ==>
      rows[4].value.labels.value[i] == MakeStatusLabel(status.value.conditions[i])
  {
    [ Row(ListenerName(listener.name), NoValue, true),
      Row(Hostname, Text(listener.hostname), false),
      Row(Port, PortNumber(listener.port), false),
      Row(Protocol, Text(Some(listener.protocol)), false),
      Row(Conditions, Labels(if status.Some? then Some(LabelsOf(status.value.conditions)) else None), false) ]
  }

  /** A listener's condition row shows a success label exactly for its "Available: True"
      conditions. */
  lemma SuccessLabelsAreAvailable(listener: Listener, status: ListenerStatus, i: nat)
    requires i < |status.conditions|
    ensures var labels := ListenerRows(listener, Some(status))[4].value.labels.value;
      labels[i].status == Success <==>
        status.conditions[i] == Condition("Available", "True")
  {
  }

  /** The content of the Listeners section. */
  datatype ListenersContent = NoData | Tables(tables: seq<seq<Row>>)

  /** The Listeners section: "No data" without listeners, else one table per listener, in order,
      each with the status `statusByName` (`getListernerStatusByName`) gives for its name. */
  function ListenersSection(listeners: seq<Listener>,
                            statusByName: string -> Option<ListenerStatus>): (r: ListenersContent)
    ensures r.NoData? <==> |listeners| == 0
    ensures r.Tables? ==> |r.tables| == |listeners|
    ensures r.Tables? ==> forall i :: 0 <= i < |listeners| ==>
      r.tables[i] == ListenerRows(listeners[i], statusByName(listeners[i].name))
  {
    if |listeners| == 0 then NoData
    else Tables(seq(|listeners|, i requires 0 <= i < |listeners| =>
                      ListenerRows(listeners[i], statusByName(listeners[i].name))))
  }

  datatype Address = Address(addressType: string, value: string)

  /** The rows of the Addresses table: the Gateway's addresses, none when it has none. */
  function AddressesData(addresses: Option<seq<Address>>): (r: seq<Address>)
    ensures addresses.None? ==> r == []
    ensures addresses.Some? ==> r == addresses.value
  {
    addresses.GetOr([])
  }

  /** The "Class Name" entry: a link to the Gateway class route when a class name is set. */
  datatype ClassLink = ClassLink(routeName: string, params: map<string, string>)

  function ClassNameValue(gatewayClassName: Option<string>): (r: Option<ClassLink>)
    ensures r.Some? <==> gatewayClassName.Some? && gatewayClassName.value != ""
    ensures r.Some? ==> r.value == ClassLink("gatewayclass", map["name" := gatewayClassName.value])
  {
    if gatewayClassName.Some? && gatewayClassName.value != "" then
      Some(ClassLink("gatewayclass", map["name" := gatewayClassName.value]))
    else None
  }

  /** The extra sections of the page, in order. */
  datatype Section =
    | AddressesSection(id: string, data: seq<Address>)
    | ListenersSectionBox(id: string, content: ListenersContent)
    | ConditionsSection(id: string)

  function ExtraSections(addresses: Option<seq<Address>>, listeners: seq<Listener>,
                         statusByName: string -> Option<ListenerStatus>): (r: seq<Section>)
    ensures |r| == 3
    ensures r[0] == AddressesSection("headlamp.gateway-addresses", AddressesData(addresses))
    ensures r[1] == ListenersSectionBox("headlamp.gateway-listeners", ListenersSection(listeners, statusByName))
    ensures r[2] == ConditionsSection("headlamp.gateway-conditions")
  {
    [ AddressesSection("headlamp.gateway-addresses", AddressesData(addresses)),
      ListenersSectionBox("headlamp.gateway-listeners", ListenersSection(listeners, statusByName)),
      ConditionsSection("headlamp.gateway-conditions") ]
  }
}
