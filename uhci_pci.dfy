/** Discovery of the UHCI host controller's registers
    (uspace/drv/uhci_hcd/pci.c, pci_get_my_registers): the hardware
    resources the parent PCI bus driver reports are scanned for the I/O
    range of the registers and the interrupt line.

    The IPC round trips are not modelled: the phone returned by connecting
    to the parent device and the return code of fetching the resource list
    are inputs, and hanging up the phone is counted. */
module UhciPci {
  import opened Common

  /** One hardware resource of a device (hw_resource_t); resource kinds
      other than an interrupt and an I/O range are not distinguished. */
  datatype HwResource =
    | Interrupt(irq: int)
    | IoRange(address: nat, size: nat)
    | OtherResource

  /** An I/O range: base address and size. */
  datatype IoRegion = IoRegion(address: nat, size: nat)

  /** The interrupt of the last INTERRUPT entry, if any. */
  function LastIrq(rs: seq<HwResource>): (r: Option<int>)
    ensures r.None? <==> forall i :: 0 <= i < |rs| ==> !rs[i].Interrupt?
  {
    if rs == [] then None
    else if rs[|rs| - 1].Interrupt? then Some(rs[|rs| - 1].irq)
    else LastIrq(rs[..|rs| - 1])
  }

  /** The range of the last IO_RANGE entry, if any. */
  function LastIoRange(rs: seq<HwResource>): (r: Option<IoRegion>)
    ensures r.None? <==> forall i :: 0 <= i < |rs| ==> !rs[i].IoRange?
  {
    if rs == [] then None
    else if rs[|rs| - 1].IoRange? then Some(IoRegion(rs[|rs| - 1].address, rs[|rs| - 1].size))
    else LastIoRange(rs[..|rs| - 1])
  }

  /** The last INTERRUPT entry decides the interrupt. */
  lemma {:induction false} LastIrqIsLastEntry(rs: seq<HwResource>, i: nat)
    requires i < |rs| && rs[i].Interrupt?
    requires forall j :: i < j < |rs| ==> !rs[j].Interrupt?
    ensures LastIrq(rs) == Some(rs[i].irq)
    decreases |rs|
  {
    if i < |rs| - 1 {
      LastIrqIsLastEntry(rs[..|rs| - 1], i);
    }
  }

  /** The last IO_RANGE entry decides the I/O range. */
  lemma {:induction false} LastIoRangeIsLastEntry(rs: seq<HwResource>, i: nat)
    requires i < |rs| && rs[i].IoRange?
    requires forall j :: i < j < |rs| ==> !rs[j].IoRange?
    ensures LastIoRange(rs) == Some(IoRegion(rs[i].address, rs[i].size))
    decreases |rs|
  {
    if i < |rs| - 1 {
      LastIoRangeIsLastEntry(rs[..|rs| - 1], i);
    }
  }

  /** An entry of another kind, inserted anywhere, does not change the
      interrupt the scan finds. */
  lemma {:induction false} IrqIgnoresOtherResources(rs: seq<HwResource>, i: nat)
    requires i <= |rs|
    ensures LastIrq(rs[..i] + [OtherResource] + rs[i..]) == LastIrq(rs)
    decreases |rs| - i
  {
    var ext := rs[..i] + [OtherResource] + rs[i..];
    if i == |rs| {
      assert ext[..|ext| - 1] == rs;
    } else {
      var n := |rs| - 1;
      IrqIgnoresOtherResources(rs[..n], i);
      assert ext[..|ext| - 1] == rs[..n][..i] + [OtherResource] + rs[..n][i..];
    }
  }

  /** An entry of another kind, inserted anywhere, does not change the
      I/O range the scan finds. */
  lemma {:induction false} IoRangeIgnoresOtherResources(rs: seq<HwResource>, i: nat)
    requires i <= |rs|
    ensures LastIoRange(rs[..i] + [OtherResource] + rs[i..]) == LastIoRange(rs)
    decreases |rs| - i
  {
    var ext := rs[..i] + [OtherResource] + rs[i..];
    if i == |rs| {
      assert ext[..|ext| - 1] == rs;
    } else {
      var n := |rs| - 1;
      IoRangeIgnoresOtherResources(rs[..n], i);
      assert ext[..|ext| - 1] == rs[..n][..i] + [OtherResource] + rs[..n][i..];
    }
  }

  /** The selection loop of pci_get_my_registers: one pass over the list,
      where a later entry of a kind overrides an earlier one. Values not
      found keep their initial 0. */
  method ScanResources(rs: seq<HwResource>)
    returns (ioAddress: nat, ioSize: nat, ioFound: bool, irq: int, irqFound: bool)
    ensures ioFound <==> LastIoRange(rs).Some?
    ensures ioFound ==> IoRegion(ioAddress, ioSize) == LastIoRange(rs).value
    ensures !ioFound ==> ioAddress == 0 && ioSize == 0
    ensures irqFound <==> LastIrq(rs).Some?
    ensures irqFound ==> irq == LastIrq(rs).value
    ensures !irqFound ==> irq == 0
  {
    ioAddress, ioSize, ioFound := 0, 0, false;
    irq, irqFound := 0, false;
    var i := 0;
    while i < |rs|
      invariant 0 <= i <= |rs|
      invariant ioFound <==> LastIoRange(rs[..i]).Some?
      invariant ioFound ==> IoRegion(ioAddress, ioSize) == LastIoRange(rs[..i]).value
      invariant !ioFound ==> ioAddress == 0 && ioSize == 0
      invariant irqFound <==> LastIrq(rs[..i]).Some?
      invariant irqFound ==> irq == LastIrq(rs[..i]).value
      invariant !irqFound ==> irq == 0
    {
      assert rs[..i + 1][..i] == rs[..i];
      match rs[i] {
        case Interrupt(n) =>
          irq := n;
          irqFound := true;
        case IoRange(a, s) =>
          ioAddress := a;
          ioSize := s;
          ioFound := true;
        case OtherResource =>
      }
      i := i + 1;
    }
    assert rs[..i] == rs;
  }

  /** The caller's output variables (io_reg_address, io_reg_size, irq_no). */
  class Registers {
    var ioRegAddress: nat
    var ioRegSize: nat
    var irqNo: int

    constructor ()
      ensures ioRegAddress == 0 && ioRegSize == 0 && irqNo == 0
    {
      ioRegAddress, ioRegSize, irqNo := 0, 0, 0;
    }
  }

  /** pci_get_my_registers. `parentPhone` is the result of connecting to
      the parent device and `listRc` that of fetching its resource list
      (`resources` when it succeeds). A failed connect is returned as is;
      after a successful one the phone is hung up exactly once on every
      path. The outputs are written only on EOK, which needs both an I/O
      range and an interrupt; they hold the last of each. */
  method PciGetMyRegisters(parentPhone: int, listRc: int, resources: seq<HwResource>, out: Registers)
    returns (rc: int, ghost hangups: nat)
    modifies out
    ensures parentPhone < 0 ==> rc == parentPhone && hangups == 0
    ensures parentPhone >= 0 ==> hangups == 1
    ensures parentPhone >= 0 && listRc != EOK ==> rc == listRc
    ensures parentPhone >= 0 && listRc == EOK ==>
              (rc == EOK <==> LastIoRange(resources).Some? && LastIrq(resources).Some?)
              && (rc != EOK ==> rc == ENOENT)
    ensures rc != EOK ==> unchanged(out)
    ensures rc == EOK ==>
              && IoRegion(out.ioRegAddress, out.ioRegSize) == LastIoRange(resources).value
              && out.irqNo == LastIrq(resources).value
  {
    hangups := 0;
    if parentPhone < 0 {
      return parentPhone, hangups;
    }
    if listRc != EOK {
      hangups := hangups + 1;
      return listRc, hangups;
    }
    var ioAddress, ioSize, ioFound, irq, irqFound := ScanResources(resources);
    hangups := hangups + 1;
    if !ioFound || !irqFound {
      return ENOENT, hangups;
    }
    out.ioRegAddress := ioAddress;
    out.ioRegSize := ioSize;
    out.irqNo := irq;
    return EOK, hangups;
  }
}
