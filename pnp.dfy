/**
 * The Plug and Play request router of the virtual host controller driver
 * (driver/vhci/pnp.cpp) and the per-node lifecycle state machine that its
 * handlers drive.
 *
 * The file has two layers. The pure layer (Node, Effect, Handle, Route)
 * says what one request does to a node and to the request's I/O status
 * block; the lemmas about it state the properties of the router and of the
 * handlers. The imperative layer (classes Irp and Vdev) updates the node's
 * fields and the I/O status block in place, handler by handler, as the
 * driver does, and each of its methods is proved to have exactly the effect
 * the pure layer gives.
 */
module Pnp {
  import opened Wrappers

  // ---------------------------------------------------------------------
  // Node kinds and lifecycle states
  // ---------------------------------------------------------------------

  /** vdev_type_t: the six kinds of virtual device node, in declaration order. */
  datatype Kind = Root | Cpdo | Vhci | Hpdo | Vhub | Vpdo

  /** The ordinal of a kind, used to index the description table. */
  function KindIndex(k: Kind): (i: nat)
    ensures i < |VdevDesc|
  {
    match k
    case Root => 0
    case Cpdo => 1
    case Vhci => 2
    case Hpdo => 3
    case Vhub => 4
    case Vpdo => 5
  }

  /** vdev_desc: one canned description per kind, in kind order. */
  const VdevDesc: seq<string> := [
    "usbip-win ROOT",
    "usbip-win CPDO",
    "usbip-win VHCI",
    "usbip-win HPDO",
    "usbip-win VHUB",
    "usbip-win VPDO"
  ]

  function CannedDescription(k: Kind): string
  {
    VdevDesc[KindIndex(k)]
  }

  /** pnp_state: the lifecycle states of a node. */
  datatype PnpState =
    | NotStarted
    | Started
    | StopPending
    | Stopped
    | RemovePending
    | SurpriseRemovePending
    | Removed

  /** The two lifecycle slots of a node: PnPState and PreviousPnPState. */
  datatype Node = Node(state: PnpState, prev: PnpState)

  /** set_state: move to s, saving the state that is left. */
  function SetState(n: Node, s: PnpState): Node
  {
    Node(s, n.state)
  }

  /** set_previous_pnp_state: the saved state becomes current again. */
  function Restore(n: Node): Node
  {
    Node(n.prev, n.prev)
  }

  // ---------------------------------------------------------------------
  // Requests and their I/O status block
  // ---------------------------------------------------------------------

  /** The NTSTATUS values this core produces; any other value is carried as is. */
  datatype Status =
    | Success
    | NotSupported
    | NoSuchDevice
    | Unsuccessful
    | InsufficientResources
    | InvalidParameter
    | OtherStatus(code: int)

  /** GUID_BUS_TYPE_USB, as a text form of the GUID. */
  const GUID_BUS_TYPE_USB: string := "9d7debbc-c85d-11d1-9eb4-006008c3a19a"
  /** PNPBus, the value of INTERFACE_TYPE for a Plug and Play bus. */
  const PNP_BUS: int := 15

  /** PNP_BUS_INFORMATION. */
  datatype BusInformation = BusInformation(busTypeGuid: string, legacyBusType: int, busNumber: nat)

  /** What IoStatus.Information holds: nothing, a device-state bit mask, or a
      reference to a result the caller now owns. */
  datatype Info =
    | Null
    | Flags(bits: bv32)
    | Bus(bus: BusInformation)
    | Text(text: string)

  /** IO_STATUS_BLOCK. */
  datatype IoStatus = IoStatus(status: Status, information: Info)

  /** An IRP as this core sees it: the minor function code, the device text
      type of the stack location, and the I/O status block. */
  datatype Request = Request(minor: nat, textType: int, io: IoStatus)

  /** PNP_DEVICE_REMOVED, a bit of PNP_DEVICE_STATE. */
  const PNP_DEVICE_REMOVED: bv32 := 0x0000_0008

  /** DEVICE_TEXT_TYPE values. */
  const DEVICE_TEXT_DESCRIPTION: int := 0
  const DEVICE_TEXT_LOCATION_INFORMATION: int := 1

  /** How a handler resolves a request: passed to the next lower driver,
      completed with a status (CompleteRequest), or completed with the status
      already in the IRP (CompleteRequestAsIs). */
  datatype Outcome = PassedDown | Completed(status: Status) | CompletedAsIs

  /** The effect of a handler that lives outside this file: the node's new
      slots, the status block it leaves (status and result) and its outcome. */
  datatype Foreign = Foreign(node: Node, io: IoStatus, outcome: Outcome)

  /** What the outside world answers while a request is handled. */
  datatype World = World(
    canBeRemoved: bool,           // the zero-timeout wait on intf_ref_event succeeded
    busAllocated: bool,           // the pool allocation for PNP_BUS_INFORMATION succeeded
    description: Option<string>,  // GetDeviceProperty(DevicePropertyDeviceDescription)
    location: Option<string>,     // GetDeviceProperty(DevicePropertyLocationInformation)
    product: Option<string>,      // get_product of a VPDO
    productCopied: bool,          // libdrv_strdup of the product string succeeded
    cannedCopied: bool,           // libdrv_strdup of the canned description succeeded
    foreign: Foreign              // what a delegated handler does
  )

  /** Everything one request changes: the node's slots, the I/O status block,
      how the request is resolved, and whether vhub_unplug_vpdo was called. */
  datatype Effect = Effect(node: Node, io: IoStatus, outcome: Outcome, unplugged: bool)

  // ---------------------------------------------------------------------
  // The minor function table
  // ---------------------------------------------------------------------

  /** The handlers of pnpmn_functions. */
  datatype Handler =
    | StartDevice
    | QueryRemoveDevice
    | RemoveDevice
    | CancelRemoveDevice
    | StopDevice
    | QueryStopDevice
    | CancelStopDevice
    | QueryDeviceRelations
    | QueryInterface
    | QueryCapabilities
    | QueryResources
    | QueryResourceRequirements
    | QueryDeviceText
    | FilterResourceRequirements
    | Undefined0E
    | ReadConfig
    | WriteConfig
    | Eject
    | SetLock
    | QueryId
    | QueryPnpDeviceState
    | QueryBusInformation
    | DeviceUsageNotification
    | SurpriseRemoval
    | QueryLegacyBusInformation
    | DeviceEnumerated

  /** pnpmn_functions: the dispatch table, indexed by minor function code. */
  const MinorTable: seq<Handler> := [
    StartDevice, QueryRemoveDevice, RemoveDevice, CancelRemoveDevice,
    StopDevice, QueryStopDevice, CancelStopDevice,
    QueryDeviceRelations, QueryInterface, QueryCapabilities, QueryResources,
    QueryResourceRequirements, QueryDeviceText, FilterResourceRequirements,
    Undefined0E,
    ReadConfig, WriteConfig, Eject, SetLock, QueryId, QueryPnpDeviceState,
    QueryBusInformation, DeviceUsageNotification, SurpriseRemoval,
    QueryLegacyBusInformation, DeviceEnumerated
  ]

  /** The IRP_MN_* code of the request each handler serves, as the Windows
      headers define it (0x0E has no request). */
  function MinorCode(h: Handler): nat
  {
    match h
    case StartDevice => 0x00
    case QueryRemoveDevice => 0x01
    case RemoveDevice => 0x02
    case CancelRemoveDevice => 0x03
    case StopDevice => 0x04
    case QueryStopDevice => 0x05
    case CancelStopDevice => 0x06
    case QueryDeviceRelations => 0x07
    case QueryInterface => 0x08
    case QueryCapabilities => 0x09
    case QueryResources => 0x0A
    case QueryResourceRequirements => 0x0B
    case QueryDeviceText => 0x0C
    case FilterResourceRequirements => 0x0D
    case Undefined0E => 0x0E
    case ReadConfig => 0x0F
    case WriteConfig => 0x10
    case Eject => 0x11
    case SetLock => 0x12
    case QueryId => 0x13
    case QueryPnpDeviceState => 0x14
    case QueryBusInformation => 0x15
    case DeviceUsageNotification => 0x16
    case SurpriseRemoval => 0x17
    case QueryLegacyBusInformation => 0x18
    case DeviceEnumerated => 0x19
  }

  /** The handler the router selects for a minor code, if the code is in the table. */
  function HandlerFor(minor: nat): (h: Option<Handler>)
    ensures h.Some? <==> minor < 0x1A
    ensures h.Some? ==> MinorCode(h.value) == minor
  {
    if minor < |MinorTable| then Some(MinorTable[minor]) else None
  }

  /** Handlers whose bodies live in other files of the driver (pnp_start.h,
      pnp_remove.h, pnp_relations.h, pnp_intf.h, pnp_cap.h, pnp_resources.h,
      pnp_id.h): their effect is taken from the world. */
  predicate Delegated(h: Handler)
  {
    h in {StartDevice, RemoveDevice, QueryDeviceRelations, QueryInterface,
          QueryCapabilities, QueryResources, QueryResourceRequirements,
          FilterResourceRequirements, QueryId}
  }

  // ---------------------------------------------------------------------
  // The effect of each handler
  // ---------------------------------------------------------------------

  /** CompleteRequest(irp, st): the status is set, the result is left alone. */
  function Complete(n: Node, io: IoStatus, st: Status): Effect
  {
    Effect(n, io.(status := st), Completed(st), false)
  }

  /** CompleteRequestAsIs(irp): nothing in the IRP changes. */
  function AsIs(n: Node, io: IoStatus): Effect
  {
    Effect(n, io, CompletedAsIs, false)
  }

  /** irp_pass_down_or_complete: an FDO hands the IRP to the next lower
      driver untouched, any other node completes it with success. */
  function PassedDownOrCompleted(fdo: bool, n: Node, io: IoStatus): Effect
  {
    if fdo then Effect(n, io, PassedDown, false) else Complete(n, io, Success)
  }

  /** The status block after copy_str: only a successful copy writes it. */
  function CopyStr(s: string, copied: bool, io: IoStatus): IoStatus
  {
    if copied then IoStatus(Success, Text(s)) else io
  }

  /** Whether IoStatus.Information holds 0: a null reference and an empty
      device-state mask are the same value. */
  predicate IsZero(info: Info)
  {
    info == Null || info == Flags(0)
  }

  /** Reads IoStatus.Information as a PNP_DEVICE_STATE; a null value is 0. */
  function AsFlags(info: Info): bv32
  {
    if info.Flags? then info.bits else 0
  }

  /** pnp_query_pnp_device_state: the REMOVED bit is or-ed in exactly for a
      removed node; every other bit is kept. */
  function DeviceStateFlags(s: PnpState, flags: bv32): (r: bv32)
    ensures (r & PNP_DEVICE_REMOVED != 0) <==> (s == Removed || flags & PNP_DEVICE_REMOVED != 0)
    ensures r & !PNP_DEVICE_REMOVED == flags & !PNP_DEVICE_REMOVED
    ensures s != Removed ==> r == flags
  {
    if s == Removed then flags | PNP_DEVICE_REMOVED else flags
  }

  /** pnp_query_device_text: the registry property wins; a VPDO's product
      string is next for a description; the canned description of the kind
      is the last resort, and only when nothing has been stored yet. */
  function DeviceText(kind: Kind, n: Node, rq: Request, w: World): (e: Effect)
    ensures e.node == n && !e.unplugged
    ensures e.outcome == if rq.textType in {DEVICE_TEXT_DESCRIPTION, DEVICE_TEXT_LOCATION_INFORMATION}
                         then CompletedAsIs else Completed(InvalidParameter)
    ensures rq.textType !in {DEVICE_TEXT_DESCRIPTION, DEVICE_TEXT_LOCATION_INFORMATION} ==>
              e.io == IoStatus(InvalidParameter, rq.io.information)
    ensures rq.textType == DEVICE_TEXT_DESCRIPTION && w.description.Some? ==>
              e.io == IoStatus(Success, Text(w.description.value))
    ensures rq.textType == DEVICE_TEXT_DESCRIPTION && w.description.None? &&
            kind == Vpdo && w.product.Some? && w.productCopied ==>
              e.io == IoStatus(Success, Text(w.product.value))
    ensures rq.textType == DEVICE_TEXT_DESCRIPTION && w.description.None? &&
            !(kind == Vpdo && w.product.Some? && w.productCopied) && IsZero(rq.io.information) ==>
              e.io == CopyStr(CannedDescription(kind), w.cannedCopied, rq.io)
    ensures rq.textType == DEVICE_TEXT_LOCATION_INFORMATION ==>
              e.io == if w.location.Some? then IoStatus(Success, Text(w.location.value)) else rq.io
  {
    if rq.textType == DEVICE_TEXT_DESCRIPTION then
      var io :=
        if w.description.Some? then IoStatus(Success, Text(w.description.value))
        else if kind == Vpdo && w.product.Some? then CopyStr(w.product.value, w.productCopied, rq.io)
        else rq.io;
      var io' := if IsZero(io.information) then CopyStr(CannedDescription(kind), w.cannedCopied, io) else io;
      AsIs(n, io')
    else if rq.textType == DEVICE_TEXT_LOCATION_INFORMATION then
      var io := if w.location.Some? then IoStatus(Success, Text(w.location.value)) else rq.io;
      AsIs(n, io)
    else
      Complete(n, rq.io, InvalidParameter)
  }

  /** The bus information a successful pnp_query_bus_information hands out. */
  const UsbBusInformation: BusInformation := BusInformation(GUID_BUS_TYPE_USB, PNP_BUS, 1)

  /** What handler h does to a node of the given kind for request rq. */
  function Handle(h: Handler, kind: Kind, fdo: bool, n: Node, rq: Request, w: World): Effect
  {
    match h
    case QueryStopDevice => PassedDownOrCompleted(fdo, SetState(n, StopPending), rq.io)
    case CancelStopDevice =>
      PassedDownOrCompleted(fdo, if n.state == StopPending then Restore(n) else n, rq.io)
    case StopDevice => PassedDownOrCompleted(fdo, SetState(n, Stopped), rq.io)
    case QueryRemoveDevice =>
      if w.canBeRemoved then PassedDownOrCompleted(fdo, SetState(n, RemovePending), rq.io)
      else Complete(n, rq.io, Unsuccessful)
    case CancelRemoveDevice =>
      PassedDownOrCompleted(fdo, if n.state == RemovePending then Restore(n) else n, rq.io)
    case SurpriseRemoval => PassedDownOrCompleted(fdo, SetState(n, SurpriseRemovePending), rq.io)
    case QueryBusInformation =>
      if w.busAllocated then Complete(n, rq.io.(information := Bus(UsbBusInformation)), Success)
      else Complete(n, rq.io.(information := Null), InsufficientResources)
    case Eject =>
      if kind == Vpdo then Effect(n, rq.io.(status := Success), Completed(Success), true)
      else AsIs(n, rq.io)
    case QueryPnpDeviceState =>
      Complete(n, rq.io.(information := Flags(DeviceStateFlags(n.state, AsFlags(rq.io.information)))), Success)
    case QueryDeviceText => DeviceText(kind, n, rq, w)
    case DeviceUsageNotification => PassedDownOrCompleted(fdo, n, rq.io)
    case DeviceEnumerated => Complete(n, rq.io, Success)
    case Undefined0E => AsIs(n, rq.io)
    case ReadConfig => AsIs(n, rq.io)
    case WriteConfig => AsIs(n, rq.io)
    case SetLock => AsIs(n, rq.io)
    case QueryLegacyBusInformation => AsIs(n, rq.io)
    case _ =>
      var f := w.foreign;
      var io := if f.outcome.Completed? then f.io.(status := f.outcome.status) else f.io;
      Effect(f.node, io, f.outcome, false)
  }

  /** vhci_pnp: what the router does with request rq. */
  function Route(kind: Kind, fdo: bool, n: Node, rq: Request, w: World): Effect
  {
    if n.state == Removed then Complete(n, rq.io, NoSuchDevice)
    else if rq.minor < |MinorTable| then Handle(MinorTable[rq.minor], kind, fdo, n, rq, w)
    else AsIs(n, rq.io)
  }

  /** The node after a series of requests, and the effect of each one. */
  function RouteAll(kind: Kind, fdo: bool, n: Node, rqs: seq<(Request, World)>): (r: (Node, seq<Effect>))
    decreases |rqs|
  {
    if |rqs| == 0 then (n, [])
    else
      var e := Route(kind, fdo, n, rqs[0].0, rqs[0].1);
      var rest := RouteAll(kind, fdo, e.node, rqs[1..]);
      (rest.0, [e] + rest.1)
  }

  // ---------------------------------------------------------------------
  // Properties of the router and the handlers
  // ---------------------------------------------------------------------

  /** The table lists the handlers in IRP_MN_* order, each exactly once. */
  lemma TableFollowsMinorCodes()
    ensures |MinorTable| == 26
    ensures forall i :: 0 <= i < |MinorTable| ==> MinorCode(MinorTable[i]) == i
    ensures forall h: Handler :: MinorCode(h) < |MinorTable| && MinorTable[MinorCode(h)] == h
  {
  }

  /** A removed node fails every request with NO_SUCH_DEVICE; nothing is
      passed down and neither lifecycle slot changes. */
  lemma RemovedFailsFast(kind: Kind, fdo: bool, n: Node, rq: Request, w: World)
    requires n.state == Removed
    ensures Route(kind, fdo, n, rq, w) ==
            Effect(n, IoStatus(NoSuchDevice, rq.io.information), Completed(NoSuchDevice), false)
  {
  }

  /** A minor code past the table is completed as is: not passed down, and
      neither the node nor the IRP changes. */
  lemma UnknownMinorCompletedAsIs(kind: Kind, fdo: bool, n: Node, rq: Request, w: World)
    requires n.state != Removed && rq.minor >= 26
    ensures Route(kind, fdo, n, rq, w) == Effect(n, rq.io, CompletedAsIs, false)
  {
  }

  /** A minor code inside the table runs exactly the handler at that index. */
  lemma KnownMinorRunsTableEntry(kind: Kind, fdo: bool, n: Node, rq: Request, w: World)
    requires n.state != Removed && rq.minor < 26
    ensures HandlerFor(rq.minor).Some?
    ensures Route(kind, fdo, n, rq, w) == Handle(HandlerFor(rq.minor).value, kind, fdo, n, rq, w)
  {
  }

  /** The state each of QueryStop, Stop and SurpriseRemoval moves to. */
  function Target(h: Handler): PnpState
    requires h in {QueryStopDevice, StopDevice, SurpriseRemoval}
  {
    match h
    case QueryStopDevice => StopPending
    case StopDevice => Stopped
    case SurpriseRemoval => SurpriseRemovePending
  }

  /** QueryStop, Stop and SurpriseRemoval save the old state, move to their
      target, then pass the IRP down (FDO) or complete it with success. */
  lemma UnconditionalTransitions(h: Handler, kind: Kind, fdo: bool, n: Node, rq: Request, w: World)
    requires h in {QueryStopDevice, StopDevice, SurpriseRemoval}
    ensures var e := Handle(h, kind, fdo, n, rq, w);
      && e.node == Node(Target(h), n.state)
      && e.outcome == (if fdo then PassedDown else Completed(Success))
      && e.io == (if fdo then rq.io else rq.io.(status := Success))
      && !e.unplugged
  {
  }

  /** CancelStop and CancelRemove restore the saved state only from their
      own pending state; otherwise both slots stay as they were. Either way
      the IRP is passed down or completed. */
  lemma CancelRestoresOnlyFromPending(h: Handler, kind: Kind, fdo: bool, n: Node, rq: Request, w: World)
    requires h in {CancelStopDevice, CancelRemoveDevice}
    ensures var pending := if h == CancelStopDevice then StopPending else RemovePending;
      var e := Handle(h, kind, fdo, n, rq, w);
      && (n.state == pending ==> e.node == Node(n.prev, n.prev))
      && (n.state != pending ==> e.node == n)
      && e.outcome == (if fdo then PassedDown else Completed(Success))
  {
  }

  /** QueryRemove is refused with UNSUCCESSFUL, without any state change and
      without passing the IRP down, exactly when the node cannot be removed. */
  lemma QueryRemoveGate(kind: Kind, fdo: bool, n: Node, rq: Request, w: World)
    ensures var e := Handle(QueryRemoveDevice, kind, fdo, n, rq, w);
      && (!w.canBeRemoved ==> e == Effect(n, rq.io.(status := Unsuccessful), Completed(Unsuccessful), false))
      && (w.canBeRemoved ==> e.node == Node(RemovePending, n.state) &&
                             e.outcome == (if fdo then PassedDown else Completed(Success)))
  {
  }

  /** QueryBusInformation is always completed here: a USB bus numbered 1 on
      success, a null result and INSUFFICIENT_RESOURCES when the allocation fails. */
  lemma BusInformationCompletedLocally(kind: Kind, fdo: bool, n: Node, rq: Request, w: World)
    ensures var e := Handle(QueryBusInformation, kind, fdo, n, rq, w);
      && e.node == n
      && (w.busAllocated ==>
            e.outcome == Completed(Success) &&
            e.io.information == Bus(BusInformation(GUID_BUS_TYPE_USB, PNP_BUS, 1)))
      && (!w.busAllocated ==>
            e.outcome == Completed(InsufficientResources) &&
            e.io == IoStatus(InsufficientResources, Null))
  {
  }

  /** Only an ejected VPDO is unplugged from its hub; other kinds complete the
      eject request as is. */
  lemma EjectUnplugsOnlyVpdo(kind: Kind, fdo: bool, n: Node, rq: Request, w: World)
    ensures var e := Handle(Eject, kind, fdo, n, rq, w);
      && e.node == n
      && (e.unplugged <==> kind == Vpdo)
      && (kind != Vpdo ==> e == AsIs(n, rq.io))
  {
  }

  /** Through the router, QueryPnpDeviceState never raises PNP_DEVICE_REMOVED:
      a removed node is refused before the handler runs. */
  lemma RouterNeverRaisesRemovedBit(kind: Kind, fdo: bool, n: Node, rq: Request, w: World)
    requires rq.minor == MinorCode(QueryPnpDeviceState)
    requires AsFlags(rq.io.information) & PNP_DEVICE_REMOVED == 0
    ensures AsFlags(Route(kind, fdo, n, rq, w).io.information) & PNP_DEVICE_REMOVED == 0
  {
  }

  /** QueryStop followed by CancelStop brings a node back to the state it was in. */
  lemma QueryStopThenCancelStop(kind: Kind, fdo: bool, n: Node, rq1: Request, rq2: Request, w1: World, w2: World)
    requires n.state != Removed
    requires rq1.minor == MinorCode(QueryStopDevice) && rq2.minor == MinorCode(CancelStopDevice)
    ensures var e1 := Route(kind, fdo, n, rq1, w1);
      && e1.node == Node(StopPending, n.state)
      && Route(kind, fdo, e1.node, rq2, w2).node == Node(n.state, n.state)
  {
  }

  /** A QueryRemove that is accepted, followed by CancelRemove, brings a node
      back to the state it was in. */
  lemma QueryRemoveThenCancelRemove(kind: Kind, fdo: bool, n: Node, rq1: Request, rq2: Request, w1: World, w2: World)
    requires n.state != Removed && w1.canBeRemoved
    requires rq1.minor == MinorCode(QueryRemoveDevice) && rq2.minor == MinorCode(CancelRemoveDevice)
    ensures var e1 := Route(kind, fdo, n, rq1, w1);
      && e1.node == Node(RemovePending, n.state)
      && Route(kind, fdo, e1.node, rq2, w2).node == Node(n.state, n.state)
  {
  }

  /** Removed is terminal under the router: whatever requests follow, the node
      keeps both slots and every request fails with NO_SUCH_DEVICE. */
  lemma {:induction false} RemovedIsTerminal(kind: Kind, fdo: bool, n: Node, rqs: seq<(Request, World)>)
    requires n.state == Removed
    ensures RouteAll(kind, fdo, n, rqs).0 == n
    ensures |RouteAll(kind, fdo, n, rqs).1| == |rqs|
    ensures forall i :: 0 <= i < |rqs| ==>
              RouteAll(kind, fdo, n, rqs).1[i] ==
              Effect(n, IoStatus(NoSuchDevice, rqs[i].0.io.information), Completed(NoSuchDevice), false)
    decreases |rqs|
  {
    if |rqs| > 0 {
      RemovedIsTerminal(kind, fdo, n, rqs[1..]);
      var rest := RouteAll(kind, fdo, n, rqs[1..]);
      assert RouteAll(kind, fdo, n, rqs).1 == [Route(kind, fdo, n, rqs[0].0, rqs[0].1)] + rest.1;
      forall i | 0 <= i < |rqs|
        ensures RouteAll(kind, fdo, n, rqs).1[i] ==
                Effect(n, IoStatus(NoSuchDevice, rqs[i].0.io.information), Completed(NoSuchDevice), false)
      {
        if i > 0 {
          assert RouteAll(kind, fdo, n, rqs).1[i] == rest.1[i - 1];
          assert rqs[1..][i - 1] == rqs[i];
        }
      }
    }
  }

  /** A handler from another file leaves the node and the status block the
      world gives, so it may set a status and then pass the IRP down or
      complete it as is; completing with a status records that status. */
  lemma DelegatedTakesForeignEffect(h: Handler, kind: Kind, fdo: bool, n: Node, rq: Request, w: World)
    requires Delegated(h)
    ensures var e := Handle(h, kind, fdo, n, rq, w);
      && e.node == w.foreign.node && e.outcome == w.foreign.outcome && !e.unplugged
      && (!w.foreign.outcome.Completed? ==> e.io == w.foreign.io)
      && (w.foreign.outcome.Completed? ==>
            e.io == IoStatus(w.foreign.outcome.status, w.foreign.io.information))
  {
  }

  /** The handlers of this file never enter Removed: from a node whose slots
      both hold something other than Removed, they lead to such a node again.
      Only a delegated handler (remove, above all) can remove a node. */
  lemma ShownHandlersNeverRemove(h: Handler, kind: Kind, fdo: bool, n: Node, rq: Request, w: World)
    requires !Delegated(h)
    requires n.state != Removed && n.prev != Removed
    ensures Handle(h, kind, fdo, n, rq, w).node.state != Removed
    ensures Handle(h, kind, fdo, n, rq, w).node.prev != Removed
  {
  }

  // ---------------------------------------------------------------------
  // The imperative layer
  // ---------------------------------------------------------------------

  /** An IRP: the stack location's parameters and the I/O status block the
      handlers write in place. */
  class Irp {
    const minor: nat
    const textType: int
    var status: Status
    var information: Info

    constructor (minor: nat, textType: int, status: Status, information: Info)
      ensures this.minor == minor && this.textType == textType
      ensures this.status == status && this.information == information
    {
      this.minor := minor;
      this.textType := textType;
      this.status := status;
      this.information := information;
    }

    function Io(): IoStatus
      reads this
    {
      IoStatus(status, information)
    }

    function Value(): Request
      reads this
    {
      Request(minor, textType, Io())
    }

    /** CompleteRequest: record the status and report it. */
    method CompleteRequest(st: Status) returns (out: Outcome)
      modifies this
      ensures status == st && information == old(information)
      ensures out == Completed(st)
    {
      status := st;
      out := Completed(st);
    }

    /** copy_str: the string is handed out only when the copy is allocated;
        otherwise the status block stays as it was. */
    method CopyStr(s: string, copied: bool)
      modifies this
      ensures copied ==> status == Success && information == Text(s)
      ensures !copied ==> status == old(status) && information == old(information)
    {
      if copied {
        information := Text(s);
        status := Success;
      }
    }
  }

  /** vdev_t: a virtual device node with its two lifecycle slots. */
  class Vdev {
    const kind: Kind
    /** is_fdo(kind): whether the node sits above a lower driver. */
    const fdo: bool
    var state: PnpState
    var prev: PnpState

    constructor (kind: Kind, fdo: bool)
      ensures this.kind == kind && this.fdo == fdo
      ensures state == NotStarted && prev == NotStarted
    {
      this.kind := kind;
      this.fdo := fdo;
      state := NotStarted;
      prev := NotStarted;
    }

    function Current(): Node
      reads this
    {
      Node(state, prev)
    }

    /** set_state: the state it leaves is saved, on every transition. */
    method SetState(s: PnpState)
      modifies this
      ensures state == s && prev == old(state)
    {
      prev := state;
      state := s;
    }

    /** set_previous_pnp_state. */
    method RestorePrevious()
      modifies this
      ensures state == old(prev) && prev == old(prev)
    {
      state := prev;
    }

    method PassDownOrComplete(irp: Irp) returns (out: Outcome)
      modifies irp
      ensures Effect(Current(), irp.Io(), out, false) == PassedDownOrCompleted(fdo, Current(), old(irp.Io()))
    {
      if fdo {
        out := PassedDown;
      } else {
        out := irp.CompleteRequest(Success);
      }
    }

    method QueryStopDevice(irp: Irp, w: World) returns (out: Outcome)
      modifies this, irp
      ensures Effect(Current(), irp.Io(), out, false) ==
              Handle(Handler.QueryStopDevice, kind, fdo, old(Current()), old(irp.Value()), w)
    {
      SetState(StopPending);
      out := PassDownOrComplete(irp);
    }

    method CancelStopDevice(irp: Irp, w: World) returns (out: Outcome)
      modifies this, irp
      ensures Effect(Current(), irp.Io(), out, false) ==
              Handle(Handler.CancelStopDevice, kind, fdo, old(Current()), old(irp.Value()), w)
    {
      if state == StopPending {
        RestorePrevious();
      }
      out := PassDownOrComplete(irp);
    }

    method StopDevice(irp: Irp, w: World) returns (out: Outcome)
      modifies this, irp
      ensures Effect(Current(), irp.Io(), out, false) ==
              Handle(Handler.StopDevice, kind, fdo, old(Current()), old(irp.Value()), w)
    {
      SetState(Stopped);
      out := PassDownOrComplete(irp);
    }

    /** pnp_query_remove_device; w.canBeRemoved is device_can_be_removed. */
    method QueryRemoveDevice(irp: Irp, w: World) returns (out: Outcome)
      modifies this, irp
      ensures Effect(Current(), irp.Io(), out, false) ==
              Handle(Handler.QueryRemoveDevice, kind, fdo, old(Current()), old(irp.Value()), w)
    {
      if w.canBeRemoved {
        SetState(RemovePending);
        out := PassDownOrComplete(irp);
      } else {
        out := irp.CompleteRequest(Unsuccessful);
      }
    }

    method CancelRemoveDevice(irp: Irp, w: World) returns (out: Outcome)
      modifies this, irp
      ensures Effect(Current(), irp.Io(), out, false) ==
              Handle(Handler.CancelRemoveDevice, kind, fdo, old(Current()), old(irp.Value()), w)
    {
      if state == RemovePending {
        RestorePrevious();
      }
      out := PassDownOrComplete(irp);
    }

    method SurpriseRemoval(irp: Irp, w: World) returns (out: Outcome)
      modifies this, irp
      ensures Effect(Current(), irp.Io(), out, false) ==
              Handle(Handler.SurpriseRemoval, kind, fdo, old(Current()), old(irp.Value()), w)
    {
      SetState(SurpriseRemovePending);
      out := PassDownOrComplete(irp);
    }

    /** pnp_query_bus_information; w.busAllocated is the pool allocation. */
    method QueryBusInformation(irp: Irp, w: World) returns (out: Outcome)
      modifies irp
      ensures Effect(Current(), irp.Io(), out, false) ==
              Handle(Handler.QueryBusInformation, kind, fdo, Current(), old(irp.Value()), w)
    {
      var bi: Option<BusInformation> := None;
      if w.busAllocated {
        bi := Some(BusInformation(GUID_BUS_TYPE_USB, PNP_BUS, 1));
      }
      irp.information := if bi.Some? then Bus(bi.value) else Null;
      var st := if bi.Some? then Success else InsufficientResources;
      out := irp.CompleteRequest(st);
    }

    /** pnp_eject: unplugged reports the call of vhub_unplug_vpdo. */
    method Eject(irp: Irp, w: World) returns (out: Outcome, unplugged: bool)
      modifies irp
      ensures Effect(Current(), irp.Io(), out, unplugged) ==
              Handle(Handler.Eject, kind, fdo, Current(), old(irp.Value()), w)
    {
      if kind == Vpdo {
        unplugged := true;
        out := irp.CompleteRequest(Success);
        return;
      }
      unplugged := false;
      out := CompletedAsIs;
    }

    method QueryPnpDeviceState(irp: Irp, w: World) returns (out: Outcome)
      modifies irp
      ensures Effect(Current(), irp.Io(), out, false) ==
              Handle(Handler.QueryPnpDeviceState, kind, fdo, Current(), old(irp.Value()), w)
    {
      var st := AsFlags(irp.information);
      if state == Removed {
        st := st | PNP_DEVICE_REMOVED;
      }
      irp.information := Flags(st);
      out := irp.CompleteRequest(Success);
    }

    method QueryDeviceText(irp: Irp, w: World) returns (out: Outcome)
      modifies irp
      ensures Effect(Current(), irp.Io(), out, false) ==
              Handle(Handler.QueryDeviceText, kind, fdo, Current(), old(irp.Value()), w)
    {
      var descriptive: bool;
      var propStr: Option<string> := None;
      if irp.textType == DEVICE_TEXT_DESCRIPTION {
        descriptive := true;
        propStr := Some(CannedDescription(kind));
      } else if irp.textType == DEVICE_TEXT_LOCATION_INFORMATION {
        descriptive := false;
      } else {
        out := irp.CompleteRequest(InvalidParameter);
        return;
      }

      var property := if descriptive then w.description else w.location;
      if property.Some? {
        irp.information := Text(property.value);
        irp.status := Success;
      } else if kind == Vpdo && descriptive {
        if w.product.Some? {
          irp.CopyStr(w.product.value, w.productCopied);
        }
      }

      if IsZero(irp.information) && propStr.Some? {
        irp.CopyStr(propStr.value, w.cannedCopied);
      }
      out := CompletedAsIs;
    }

    method DeviceUsageNotification(irp: Irp, w: World) returns (out: Outcome)
      modifies irp
      ensures Effect(Current(), irp.Io(), out, false) ==
              Handle(Handler.DeviceUsageNotification, kind, fdo, Current(), old(irp.Value()), w)
    {
      out := PassDownOrComplete(irp);
    }

    method DeviceEnumerated(irp: Irp, w: World) returns (out: Outcome)
      modifies irp
      ensures Effect(Current(), irp.Io(), out, false) ==
              Handle(Handler.DeviceEnumerated, kind, fdo, Current(), old(irp.Value()), w)
    {
      out := irp.CompleteRequest(Success);
    }

    /** pnp_0x0E, pnp_read_config, pnp_write_config, pnp_set_lock and
        pnp_query_legacy_bus_information: complete the IRP as it is. */
    method CompleteAsIs(h: Handler, irp: Irp, w: World) returns (out: Outcome)
      requires h in {Undefined0E, ReadConfig, WriteConfig, SetLock, QueryLegacyBusInformation}
      ensures Effect(Current(), irp.Io(), out, false) ==
              Handle(h, kind, fdo, Current(), irp.Value(), w)
    {
      out := CompletedAsIs;
    }

    /** A handler defined in another file of the driver: it does what the
        world says. */
    method CallDelegated(h: Handler, irp: Irp, w: World) returns (out: Outcome)
      requires Delegated(h)
      modifies this, irp
      ensures Effect(Current(), irp.Io(), out, false) ==
              Handle(h, kind, fdo, old(Current()), old(irp.Value()), w)
    {
      var f := w.foreign;
      state, prev := f.node.state, f.node.prev;
      irp.status, irp.information := f.io.status, f.io.information;
      if f.outcome.Completed? {
        irp.status := f.outcome.status;
      }
      out := f.outcome;
    }

    /** pnpmn_functions[h](vdev, irp). */
    method Call(h: Handler, irp: Irp, w: World) returns (out: Outcome, unplugged: bool)
      modifies this, irp
      ensures Effect(Current(), irp.Io(), out, unplugged) ==
              Handle(h, kind, fdo, old(Current()), old(irp.Value()), w)
    {
      unplugged := false;
      match h {
        case QueryStopDevice => out := QueryStopDevice(irp, w);
        case CancelStopDevice => out := CancelStopDevice(irp, w);
        case StopDevice => out := StopDevice(irp, w);
        case QueryRemoveDevice => out := QueryRemoveDevice(irp, w);
        case CancelRemoveDevice => out := CancelRemoveDevice(irp, w);
        case SurpriseRemoval => out := SurpriseRemoval(irp, w);
        case QueryBusInformation => out := QueryBusInformation(irp, w);
        case Eject => out, unplugged := Eject(irp, w);
        case QueryPnpDeviceState => out := QueryPnpDeviceState(irp, w);
        case QueryDeviceText => out := QueryDeviceText(irp, w);
        case DeviceUsageNotification => out := DeviceUsageNotification(irp, w);
        case DeviceEnumerated => out := DeviceEnumerated(irp, w);
        case Undefined0E => out := CompleteAsIs(h, irp, w);
        case ReadConfig => out := CompleteAsIs(h, irp, w);
        case WriteConfig => out := CompleteAsIs(h, irp, w);
        case SetLock => out := CompleteAsIs(h, irp, w);
        case QueryLegacyBusInformation => out := CompleteAsIs(h, irp, w);
        case _ => out := CallDelegated(h, irp, w);
      }
    }

    /** vhci_pnp: refuse every request once removed, dispatch a code inside
        the table, complete any other code as is. */
    method Dispatch(irp: Irp, w: World) returns (out: Outcome, unplugged: bool)
      modifies this, irp
      ensures Effect(Current(), irp.Io(), out, unplugged) ==
              Route(kind, fdo, old(Current()), old(irp.Value()), w)
      ensures old(state) == Removed ==>
                out == Completed(NoSuchDevice) && state == old(state) && prev == old(prev)
      ensures old(state) != Removed && irp.minor >= 26 ==>
                out == CompletedAsIs && state == old(state) && prev == old(prev) &&
                irp.status == old(irp.status) && irp.information == old(irp.information)
    {
      if state == Removed {
        out := irp.CompleteRequest(NoSuchDevice);
        unplugged := false;
      } else if irp.minor < |MinorTable| {
        out, unplugged := Call(MinorTable[irp.minor], irp, w);
      } else {
        out := CompletedAsIs;
        unplugged := false;
      }
    }
  }

  /** Started, then QueryStop and CancelStop through the router: the node is
      Started again. */
  method StopCancelledScenario(w: World) returns (v: Vdev)
    ensures fresh(v) && v.state == Started
  {
    v := new Vdev(Vhub, true);
    v.SetState(Started);
    var q := new Irp(MinorCode(QueryStopDevice), 0, NotSupported, Null);
    var out, unplugged := v.Dispatch(q, w);
    assert v.state == StopPending && v.prev == Started;
    var c := new Irp(MinorCode(CancelStopDevice), 0, NotSupported, Null);
    out, unplugged := v.Dispatch(c, w);
  }
}
