/** Endpoint bookkeeping of the xHCI host-controller driver
    (uspace/drv/bus/usb/xhci/endpoint.c): Device Context Index arithmetic
    (section 4.5.1 of the xHCI specification), the transfer-type to
    endpoint-type mapping, endpoint-context setup, the Input Control Context
    flags of section 4.6.6, and the per-device endpoint table.

    Controller commands, DMA allocation (malloc32/free32) and transfer rings
    are outside this model: the outcome of the allocation and of the
    Configure Endpoint command are inputs, and a ring is its dequeue
    pointer. How the context macros pack fields into dwords is not modelled;
    each context field is a separate number. */
module XhciEndpoint {
  import opened Common

  /** USB transfer types, numbered as in bmAttributes of an endpoint
      descriptor. Any other value is not a transfer type. */
  const USB_TRANSFER_CONTROL: nat := 0
  const USB_TRANSFER_ISOCHRONOUS: nat := 1
  const USB_TRANSFER_BULK: nat := 2
  const USB_TRANSFER_INTERRUPT: nat := 3

  datatype Direction = In | Out | Both

  /** Values of the EP Type field of an endpoint context (section 6.2.3 of
      the xHCI specification): bit 2 is the IN direction, the low two bits
      the transfer type. */
  const EP_TYPE_INVALID: nat := 0
  const EP_TYPE_ISOCH_OUT: nat := 1
  const EP_TYPE_BULK_OUT: nat := 2
  const EP_TYPE_INTERRUPT_OUT: nat := 3
  const EP_TYPE_CONTROL: nat := 4
  const EP_TYPE_ISOCH_IN: nat := 5
  const EP_TYPE_BULK_IN: nat := 6
  const EP_TYPE_INTERRUPT_IN: nat := 7

  /** Slots of a device's endpoint table: one per Device Context Index 1..31. */
  const XHCI_EP_COUNT: nat := 31
  /** USB endpoint numbers are 0..15. */
  const USB_ENDPOINT_MAX: nat := 16

  /** A transfer ring, reduced to its dequeue pointer. */
  datatype TrbRing = TrbRing(dequeue: nat)

  /** An endpoint: its target (device address and endpoint number), its
      transfer type and direction, its maximum packet size and its ring. */
  datatype Endpoint = Endpoint(
    address: nat,
    endpoint: nat,
    transferType: nat,
    direction: Direction,
    maxPacketSize: nat,
    ring: TrbRing)

  /** Whether the DCI uses the IN (odd) slot: control endpoints and IN
      endpoints do. */
  predicate UsesInSlot(ep: Endpoint)
  {
    ep.transferType == USB_TRANSFER_CONTROL || ep.direction == In
  }

  /** xhci_endpoint_dci: section 4.5.1 of the xHCI specification; the
      result is a uint8_t. For every real endpoint number the DCI encodes
      the endpoint number in its upper bits and the direction in bit 0. */
  function Dci(ep: Endpoint): (dci: nat)
    ensures dci < 256
    ensures ep.endpoint < USB_ENDPOINT_MAX ==>
              dci / 2 == ep.endpoint && (dci % 2 == 1 <==> UsesInSlot(ep)) && dci < 32
  {
    (2 * ep.endpoint + (if UsesInSlot(ep) then 1 else 0)) % 256
  }

  /** xhci_endpoint_index: DCI - 1, as a uint8_t. EP0 gets 0, EPn OUT gets
      2n-1 and EPn IN (or control) gets 2n; only a non-control OUT endpoint
      0 would wrap around, to 255. */
  function Index(ep: Endpoint): (i: nat)
    ensures i < 256
    ensures Dci(ep) >= 1 ==> i + 1 == Dci(ep)
    ensures ep.endpoint < USB_ENDPOINT_MAX && ep.endpoint >= 1 ==>
              i == (if UsesInSlot(ep) then 2 * ep.endpoint else 2 * ep.endpoint - 1) && i < XHCI_EP_COUNT
    ensures ep.endpoint == 0 && UsesInSlot(ep) ==> i == 0
    ensures ep.endpoint == 0 && !UsesInSlot(ep) ==> i == 255
  {
    (Dci(ep) - 1) % 256
  }

  /** Two endpoints of one device with different endpoint numbers, or the
      same number and different DCI directions, get different indices. */
  lemma IndexInjective(a: Endpoint, b: Endpoint)
    requires a.endpoint < USB_ENDPOINT_MAX && b.endpoint < USB_ENDPOINT_MAX
    requires Index(a) == Index(b)
    ensures a.endpoint == b.endpoint && (UsesInSlot(a) <==> UsesInSlot(b))
  {
    if Dci(a) >= 1 && Dci(b) >= 1 {
      assert Dci(a) == Dci(b);
    }
  }

  /** xhci_endpoint_type: the EP Type field for an endpoint. For a real
      transfer type, the low two bits are the transfer type and bit 2 says
      IN; control endpoints are bidirectional (always type 4). */
  function EndpointType(ep: Endpoint): (t: nat)
    ensures t <= 7
    ensures ep.transferType > USB_TRANSFER_INTERRUPT <==> t == EP_TYPE_INVALID
    ensures ep.transferType <= USB_TRANSFER_INTERRUPT ==>
              t % 4 == ep.transferType && (t >= 4 <==> UsesInSlot(ep))
  {
    var isIn := ep.direction == In;
    if ep.transferType == USB_TRANSFER_CONTROL then EP_TYPE_CONTROL
    else if ep.transferType == USB_TRANSFER_ISOCHRONOUS then (if isIn then EP_TYPE_ISOCH_IN else EP_TYPE_ISOCH_OUT)
    else if ep.transferType == USB_TRANSFER_BULK then (if isIn then EP_TYPE_BULK_IN else EP_TYPE_BULK_OUT)
    else if ep.transferType == USB_TRANSFER_INTERRUPT then (if isIn then EP_TYPE_INTERRUPT_IN else EP_TYPE_INTERRUPT_OUT)
    else EP_TYPE_INVALID
  }

  /** The EP Type's direction bit agrees with the DCI's direction bit. */
  lemma EndpointTypeAgreesWithDci(ep: Endpoint)
    requires ep.endpoint < USB_ENDPOINT_MAX && ep.transferType <= USB_TRANSFER_INTERRUPT
    ensures EndpointType(ep) >= 4 <==> Dci(ep) % 2 == 1
  {
  }

  // ---------------------------------------------------------------------
  // Contexts.

  /** The fields of an endpoint context the driver writes. */
  datatype EpContext = EpContext(
    epType: nat,
    maxPacketSize: nat,
    maxBurstSize: nat,
    mult: nat,
    errorCount: nat,
    maxPStreams: nat,
    trDequeuePtr: nat,
    dcs: nat)

  const ZeroEpContext: EpContext := EpContext(0, 0, 0, 0, 0, 0, 0, 0)

  /** Maximum packet sizes of periodic endpoints keep their low 11 bits
      (the 0x07FF mask). */
  function PeriodicPacketSize(mps: nat): (r: nat)
    ensures r < 0x800
    ensures (mps - r) % 0x800 == 0
    ensures mps < 0x800 ==> r == mps
  {
    mps % 0x800
  }

  /** An Input Context: the Input Control Context's add and drop flags and
      the endpoint contexts (indexed by DCI - 1). A 32-bit flags word is
      modelled as the set of its set bits, so setting flag `i` adds `i`. */
  class InputContext {
    var addFlags: set<nat>
    var dropFlags: set<nat>
    var endpointCtx: array<EpContext>

    /** malloc32 followed by memset to zero. */
    constructor ()
      ensures addFlags == {} && dropFlags == {}
      ensures fresh(endpointCtx) && endpointCtx.Length == XHCI_EP_COUNT
      ensures forall i :: 0 <= i < XHCI_EP_COUNT ==> endpointCtx[i] == ZeroEpContext
    {
      addFlags := {};
      dropFlags := {};
      endpointCtx := new EpContext[XHCI_EP_COUNT](_ => ZeroEpContext);
    }
  }

  /** setup_control_ep_ctx: only for control endpoints other than EP0. */
  method SetupControlEpCtx(ep: Endpoint, ctx: array<EpContext>, i: nat)
    requires ep.endpoint > 0
    requires i < ctx.Length
    modifies ctx
    ensures ctx[..] == old(ctx[..])[i := old(ctx[i]).(epType := EndpointType(ep), maxPacketSize := ep.maxPacketSize,
                                                       errorCount := 3, trDequeuePtr := ep.ring.dequeue, dcs := 1)]
  {
    ctx[i] := ctx[i].(epType := EndpointType(ep));
    ctx[i] := ctx[i].(maxPacketSize := ep.maxPacketSize);
    ctx[i] := ctx[i].(errorCount := 3);
    ctx[i] := ctx[i].(trDequeuePtr := ep.ring.dequeue);
    ctx[i] := ctx[i].(dcs := 1);
  }

  /** setup_bulk_ep_ctx: the burst size comes from the SuperSpeed companion
      descriptor on a USB 3 device; streams are never used, so the ring is
      attached directly. */
  method SetupBulkEpCtx(ep: Endpoint, ctx: array<EpContext>, i: nat, usb3: bool, ssMaxBurst: nat)
    requires i < ctx.Length
    modifies ctx
    ensures ctx[..] == old(ctx[..])[i := old(ctx[i]).(epType := EndpointType(ep), maxPacketSize := ep.maxPacketSize,
                                                       maxBurstSize := if usb3 then ssMaxBurst else 0,
                                                       errorCount := 3, maxPStreams := 0,
                                                       trDequeuePtr := ep.ring.dequeue, dcs := 1)]
  {
    ctx[i] := ctx[i].(epType := EndpointType(ep));
    ctx[i] := ctx[i].(maxPacketSize := ep.maxPacketSize);
    ctx[i] := ctx[i].(maxBurstSize := if usb3 then ssMaxBurst else 0);
    ctx[i] := ctx[i].(errorCount := 3);
    var maxStreams := 0;
    if maxStreams > 0 {
      // primary stream arrays are not set up by the driver
    } else {
      ctx[i] := ctx[i].(maxPStreams := 0);
      ctx[i] := ctx[i].(trDequeuePtr := ep.ring.dequeue);
      ctx[i] := ctx[i].(dcs := 1);
    }
  }

  /** setup_isoch_ep_ctx: no error retries for isochronous transfers. */
  method SetupIsochEpCtx(ep: Endpoint, ctx: array<EpContext>, i: nat, ssMaxBurst: nat)
    requires i < ctx.Length
    modifies ctx
    ensures ctx[..] == old(ctx[..])[i := old(ctx[i]).(epType := EndpointType(ep),
                                                       maxPacketSize := PeriodicPacketSize(ep.maxPacketSize),
                                                       maxBurstSize := ssMaxBurst, mult := 0, errorCount := 0,
                                                       trDequeuePtr := ep.ring.dequeue, dcs := 1)]
  {
    ctx[i] := ctx[i].(epType := EndpointType(ep));
    ctx[i] := ctx[i].(maxPacketSize := PeriodicPacketSize(ep.maxPacketSize));
    ctx[i] := ctx[i].(maxBurstSize := ssMaxBurst);
    ctx[i] := ctx[i].(mult := 0);
    ctx[i] := ctx[i].(errorCount := 0);
    ctx[i] := ctx[i].(trDequeuePtr := ep.ring.dequeue);
    ctx[i] := ctx[i].(dcs := 1);
  }

  /** setup_interrupt_ep_ctx */
  method SetupInterruptEpCtx(ep: Endpoint, ctx: array<EpContext>, i: nat, ssMaxBurst: nat)
    requires i < ctx.Length
    modifies ctx
    ensures ctx[..] == old(ctx[..])[i := old(ctx[i]).(epType := EndpointType(ep),
                                                       maxPacketSize := PeriodicPacketSize(ep.maxPacketSize),
                                                       maxBurstSize := ssMaxBurst, mult := 0, errorCount := 3,
                                                       trDequeuePtr := ep.ring.dequeue, dcs := 1)]
  {
    ctx[i] := ctx[i].(epType := EndpointType(ep));
    ctx[i] := ctx[i].(maxPacketSize := PeriodicPacketSize(ep.maxPacketSize));
    ctx[i] := ctx[i].(maxBurstSize := ssMaxBurst);
    ctx[i] := ctx[i].(mult := 0);
    ctx[i] := ctx[i].(errorCount := 3);
    ctx[i] := ctx[i].(trDequeuePtr := ep.ring.dequeue);
    ctx[i] := ctx[i].(dcs := 1);
  }

  /** The Input Context xhci_device_add_endpoint prepares for a non-zero
      endpoint, before it issues the Configure Endpoint command: per section 4.6.6 A0 is set,
      A1, D0 and D1 are clear, and the endpoint's own add flag A(index+1)
      is set (the slot context precedes the endpoint contexts); the
      endpoint's context is set up for its transfer type. The
      SuperSpeed companion descriptor is zero-filled by the driver. */
  method BuildInputContext(ep: Endpoint, usb3: bool) returns (ictx: InputContext)
    requires 1 <= ep.endpoint < USB_ENDPOINT_MAX
    ensures fresh(ictx) && fresh(ictx.endpointCtx) && ictx.endpointCtx.Length == XHCI_EP_COUNT
    ensures ictx.addFlags == {0, Index(ep) + 1} && 1 !in ictx.addFlags && Index(ep) + 1 < 32
    ensures ictx.dropFlags == {}
    ensures ep.transferType <= USB_TRANSFER_INTERRUPT ==>
              var c := ictx.endpointCtx[Index(ep)];
              c.epType == EndpointType(ep) && c.dcs == 1 && c.trDequeuePtr == ep.ring.dequeue
              && c.errorCount == (if ep.transferType == USB_TRANSFER_ISOCHRONOUS then 0 else 3)
    ensures ep.transferType <= USB_TRANSFER_INTERRUPT ==>
              var c := ictx.endpointCtx[Index(ep)];
              && c.maxPacketSize == (if ep.transferType == USB_TRANSFER_ISOCHRONOUS || ep.transferType == USB_TRANSFER_INTERRUPT
                                     then PeriodicPacketSize(ep.maxPacketSize) else ep.maxPacketSize)
              && c.maxBurstSize == 0 && c.mult == 0 && c.maxPStreams == 0
    ensures ep.transferType > USB_TRANSFER_INTERRUPT ==> ictx.endpointCtx[Index(ep)] == ZeroEpContext
    ensures forall j :: 0 <= j < XHCI_EP_COUNT && j != Index(ep) ==> ictx.endpointCtx[j] == ZeroEpContext
  {
    var ssMaxBurst := 0;
    var epIdx := Index(ep);
    ictx := new InputContext();
    ictx.addFlags := ictx.addFlags - {1};
    ictx.dropFlags := ictx.dropFlags - {0};
    ictx.dropFlags := ictx.dropFlags - {1};
    ictx.addFlags := ictx.addFlags + {0};
    ictx.addFlags := ictx.addFlags + {epIdx + 1};
    if ep.transferType == USB_TRANSFER_CONTROL {
      SetupControlEpCtx(ep, ictx.endpointCtx, epIdx);
    } else if ep.transferType == USB_TRANSFER_BULK {
      SetupBulkEpCtx(ep, ictx.endpointCtx, epIdx, usb3, ssMaxBurst);
    } else if ep.transferType == USB_TRANSFER_ISOCHRONOUS {
      SetupIsochEpCtx(ep, ictx.endpointCtx, epIdx, ssMaxBurst);
    } else if ep.transferType == USB_TRANSFER_INTERRUPT {
      SetupInterruptEpCtx(ep, ictx.endpointCtx, epIdx, ssMaxBurst);
    }
  }

  // ---------------------------------------------------------------------
  // The per-device endpoint table.

  /** Number of occupied slots of an endpoint table. */
  function Occupied(t: seq<Option<Endpoint>>): (n: nat)
    ensures n <= |t|
    ensures n == 0 <==> forall i :: 0 <= i < |t| ==> t[i] == None
  {
    if t == [] then 0
    else (if t[0].Some? then 1 else 0) + Occupied(t[1..])
  }

  /** Replacing one slot changes the occupied count by the difference of
      the two slots' occupancy. */
  lemma {:induction false} OccupiedUpdate(t: seq<Option<Endpoint>>, i: nat, e: Option<Endpoint>)
    requires i < |t|
    ensures Occupied(t[i := e]) + (if t[i].Some? then 1 else 0) == Occupied(t) + (if e.Some? then 1 else 0)
  {
    if i == 0 {
      assert t[i := e][1..] == t[1..];
    } else {
      assert t[i := e][1..] == t[1..][i - 1 := e];
      OccupiedUpdate(t[1..], i - 1, e);
    }
  }

  /** The table after xhci_device_add_endpoint stores `ep` at its
      endpoint number. */
  function Added(t: seq<Option<Endpoint>>, ep: Endpoint): (r: seq<Option<Endpoint>>)
    requires ep.endpoint < |t| && t[ep.endpoint] == None
    ensures |r| == |t| && r[ep.endpoint] == Some(ep)
    ensures forall i :: 0 <= i < |t| && i != ep.endpoint ==> r[i] == t[i]
    ensures Occupied(r) == Occupied(t) + 1
  {
    OccupiedUpdate(t, ep.endpoint, Some(ep));
    t[ep.endpoint := Some(ep)]
  }

  /** The failure path of xhci_device_add_endpoint AS WRITTEN: it clears
      slot Index(ep) (the DCI-based index) although `ep` was stored at slot
      ep.endpoint (the endpoint number). */
  function RollbackAsWritten(t: seq<Option<Endpoint>>, ep: Endpoint): (r: seq<Option<Endpoint>>)
    requires |t| == XHCI_EP_COUNT && 1 <= ep.endpoint < USB_ENDPOINT_MAX && t[ep.endpoint] == None
    ensures |r| == |t| && r[Index(ep)] == None
    ensures forall i :: 0 <= i < |t| && i != Index(ep) ==> r[i] == Added(t, ep)[i]
  {
    Added(t, ep)[Index(ep) := None]
  }

  /** The failure path as evidently intended: the slot the endpoint was
      stored in is cleared, which restores the table exactly. */
  function RollbackCorrected(t: seq<Option<Endpoint>>, ep: Endpoint): (r: seq<Option<Endpoint>>)
    requires |t| == XHCI_EP_COUNT && 1 <= ep.endpoint < USB_ENDPOINT_MAX && t[ep.endpoint] == None
    ensures r == t
  {
    Added(t, ep)[ep.endpoint := None]
  }

  /** The two slots coincide only for the OUT endpoint 1 of a non-control
      transfer type; for every other endpoint the as-written rollback
      leaves `ep` in the table and clears an unrelated slot. */
  lemma RollbackSlotsDiffer(ep: Endpoint)
    requires 1 <= ep.endpoint < USB_ENDPOINT_MAX
    ensures Index(ep) == ep.endpoint <==> ep.endpoint == 1 && !UsesInSlot(ep)
  {
  }

  /** Whenever the two slots differ, the as-written rollback leaves a
      stale `ep` at its endpoint number and, if it cleared another
      endpoint's slot, loses that endpoint too. */
  lemma {:induction false} RollbackAsWrittenIsWrong(t: seq<Option<Endpoint>>, ep: Endpoint)
    requires |t| == XHCI_EP_COUNT && 1 <= ep.endpoint < USB_ENDPOINT_MAX && t[ep.endpoint] == None
    requires Index(ep) != ep.endpoint
    ensures RollbackAsWritten(t, ep)[ep.endpoint] == Some(ep)
    ensures RollbackAsWritten(t, ep) != t
    ensures t[Index(ep)].Some? ==> Occupied(RollbackAsWritten(t, ep)) == Occupied(t)
    ensures t[Index(ep)].None? ==> Occupied(RollbackAsWritten(t, ep)) == Occupied(t) + 1
  {
    var added := Added(t, ep);
    OccupiedUpdate(added, Index(ep), None);
    assert RollbackAsWritten(t, ep)[ep.endpoint] != t[ep.endpoint];
  }

  /** A concrete case: a failed add of the bulk IN endpoint 1 to a device
      with no endpoints leaves the endpoint in slot 1 while the active count
      drops back to 0. */
  lemma BulkInEndpoint1RollbackLeavesStaleEntry()
    ensures var t := seq(XHCI_EP_COUNT, _ => None);
            var ep := Endpoint(1, 1, USB_TRANSFER_BULK, In, 512, TrbRing(0));
            Index(ep) == 2
            && RollbackAsWritten(t, ep)[1] == Some(ep)
            && Occupied(RollbackAsWritten(t, ep)) == 1 && Occupied(t) == 0
  {
    var t: seq<Option<Endpoint>> := seq(XHCI_EP_COUNT, _ => None);
    var ep := Endpoint(1, 1, USB_TRANSFER_BULK, In, 512, TrbRing(0));
    RollbackAsWrittenIsWrong(t, ep);
  }

  class XhciDevice {
    var address: nat
    var slotId: nat
    var usb3: bool
    /** endpoints[n] is the endpoint with endpoint number n, or NULL. */
    var endpoints: array<Option<Endpoint>>
    var activeEndpointCount: int

    /** The active count is the number of occupied slots. */
    ghost predicate Valid()
      reads this, endpoints
    {
      endpoints.Length == XHCI_EP_COUNT && activeEndpointCount == Occupied(endpoints[..])
    }

    constructor (address: nat, slotId: nat, usb3: bool)
      ensures Valid() && fresh(endpoints)
      ensures this.address == address && this.slotId == slotId && this.usb3 == usb3
      ensures forall i :: 0 <= i < XHCI_EP_COUNT ==> endpoints[i] == None
    {
      this.address := address;
      this.slotId := slotId;
      this.usb3 := usb3;
      endpoints := new Option<Endpoint>[XHCI_EP_COUNT](_ => None);
      activeEndpointCount := 0;
      new;
      assert endpoints[..] == seq(XHCI_EP_COUNT, _ => None);
    }

    /** xhci_device_add_endpoint AS WRITTEN. The endpoint is stored at its
        endpoint number and counted; EP0 needs no command. Otherwise an
        Input Context is built and a Configure Endpoint command issued
        (`allocOk` and `cmdRc` are the outcomes of malloc32 and of waiting
        for the command). On failure the count is restored but slot
        Index(ep) is cleared instead of slot ep.endpoint. */
    method AddEndpoint(ep: Endpoint, allocOk: bool, cmdRc: int) returns (rc: int)
      requires Valid()
      requires ep.address == address && ep.endpoint < USB_ENDPOINT_MAX
      requires endpoints[ep.endpoint] == None
      modifies this`activeEndpointCount, endpoints
      ensures endpoints == old(endpoints) && address == old(address) && usb3 == old(usb3)
      ensures ep.endpoint == 0 ==> rc == EOK
      ensures rc == EOK ==> Valid() && endpoints[..] == Added(old(endpoints[..]), ep)
                            && activeEndpointCount == old(activeEndpointCount) + 1
      ensures !allocOk && ep.endpoint != 0 ==> rc == ENOMEM
      ensures allocOk && ep.endpoint != 0 ==> rc == cmdRc
      ensures rc != EOK ==> endpoints[..] == RollbackAsWritten(old(endpoints[..]), ep)
                            && activeEndpointCount == old(activeEndpointCount)
    {
      rc := ENOMEM;
      var epNum := ep.endpoint;
      ghost var before := endpoints[..];
      endpoints[epNum] := Some(ep);
      activeEndpointCount := activeEndpointCount + 1;
      assert endpoints[..] == Added(before, ep);
      if epNum == 0 {
        return EOK;
      }
      var epIdx := Index(ep);
      if allocOk {
        var ictx := BuildInputContext(ep, usb3);
        rc := cmdRc;
        if rc == EOK {
          return EOK;
        }
      }
      endpoints[epIdx] := None;
      activeEndpointCount := activeEndpointCount - 1;
    }

    /** xhci_device_add_endpoint with the failure path clearing the slot
        the endpoint was stored in: every outcome keeps the active count
        equal to the number of occupied slots, and a failure leaves the
        table exactly as it was. */
    method AddEndpointCorrected(ep: Endpoint, allocOk: bool, cmdRc: int) returns (rc: int)
      requires Valid()
      requires ep.address == address && ep.endpoint < USB_ENDPOINT_MAX
      requires endpoints[ep.endpoint] == None
      modifies this`activeEndpointCount, endpoints
      ensures Valid()
      ensures endpoints == old(endpoints) && address == old(address) && usb3 == old(usb3)
      ensures ep.endpoint == 0 ==> rc == EOK
      ensures rc == EOK ==> endpoints[..] == Added(old(endpoints[..]), ep)
                            && activeEndpointCount == old(activeEndpointCount) + 1
      ensures !allocOk && ep.endpoint != 0 ==> rc == ENOMEM
      ensures allocOk && ep.endpoint != 0 ==> rc == cmdRc
      ensures rc != EOK ==> endpoints[..] == old(endpoints[..]) && activeEndpointCount == old(activeEndpointCount)
    {
      rc := ENOMEM;
      var epNum := ep.endpoint;
      ghost var before := endpoints[..];
      endpoints[epNum] := Some(ep);
      activeEndpointCount := activeEndpointCount + 1;
      assert endpoints[..] == Added(before, ep);
      if epNum == 0 {
        return EOK;
      }
      if allocOk {
        var ictx := BuildInputContext(ep, usb3);
        rc := cmdRc;
        if rc == EOK {
          return EOK;
        }
      }
      endpoints[epNum] := None;
      activeEndpointCount := activeEndpointCount - 1;
      assert endpoints[..] == RollbackCorrected(before, ep);
    }

    /** xhci_device_remove_endpoint: the slot must be occupied (an
        assertion in the source); it is cleared and the count drops by one. */
    method RemoveEndpoint(ep: Endpoint) returns (rc: int)
      requires Valid()
      requires ep.address == address && ep.endpoint < XHCI_EP_COUNT && endpoints[ep.endpoint] != None
      modifies this`activeEndpointCount, endpoints
      ensures Valid() && endpoints == old(endpoints)
      ensures rc == EOK
      ensures endpoints[..] == old(endpoints[..])[ep.endpoint := None]
      ensures activeEndpointCount == old(activeEndpointCount) - 1
    {
      OccupiedUpdate(endpoints[..], ep.endpoint, None);
      endpoints[ep.endpoint] := None;
      activeEndpointCount := activeEndpointCount - 1;
      return EOK;
    }

    /** xhci_device_get_endpoint: the slot's content; nothing changes. */
    method GetEndpoint(e: nat) returns (r: Option<Endpoint>)
      requires e < endpoints.Length
      ensures r == endpoints[e]
      ensures r.Some? ==> Occupied(endpoints[..]) >= 1
    {
      r := endpoints[e];
      if r.Some? {
        assert endpoints[..][e] == r;
      }
    }
  }
}
