# HelenOS: phone table, ext4 directory iterator, xHCI endpoints, stream push-back, UHCI register discovery

A Dafny model of five pieces of HelenOS, each in its own module:

- `IpcPhones` (`ipc_phones.dfy`): the kernel's per-task table of IPC phones.
  It covers allocating the lowest free slot, freeing a slot (a connected one is
  destroyed first), connecting a slot to an answerbox, and the range and
  connectedness gate used before sending on a phone.
- `Ext4Directory` (`ext4_directory.dfy`): the ext4 library's linear directory entries and
  its directory iterator (init, seek, set, next, fini). Set, seek, init and
  next are specified by pure functions on the iterator's state, and the
  `DirIterator` class is proved to follow them. Fini's contract is stated
  directly on the iterator's fields. The module also covers the checks
  `ext4_directory_dx_find_entry` makes on a hash-tree index root, and its binary search.
- `XhciEndpoint` (`xhci_endpoint.dfy`): xHCI Device Context Index arithmetic (section 4.5.1 of
  the xHCI specification) and the endpoint-type mapping. It also covers
  endpoint-context setup, the Input Control Context flags of section 4.6.6,
  and the per-device endpoint table with its active-endpoint count.
- `PosixStdio` (`posix_stdio.dfy`): `posix_ungetc`, `posix_clearerr` and `posix_ctermid`
  of the POSIX compatibility library.
- `UhciPci` (`uhci_pci.dfy`): the UHCI driver's scan of the hardware resources its parent
  PCI device reports, which selects the register I/O range and the interrupt.

`Common` (`common.dfy`) holds the optional-value type standing for NULL pointers and the
error codes. Only `EOK == 0` matters, plus the others being negative and
distinct. The non-zero values are placeholders, because the errno header is not
part of this model.

Calls into code outside these files are inputs to the model:

- block I/O and the logical-to-physical block lookup (`BlockIo`);
- the name hash (`hashString`);
- malloc32 and the Configure Endpoint command (`allocOk`, `cmdRc`);
- connecting to the parent device and fetching its resource list (`parentPhone`, `listRc`).

`ipc_phone_connect` and `ipc_phone_destroy` are abstract methods that only
connect or disconnect the slot.

## Model

| member | source | states |
|---|---|---|
| IpcPhones.BusyCount | generic/src/ipc/ipcrsc.c:85-90 | the number of allocated slots, which is at most the table size and is zero exactly when no slot is busy |
| IpcPhones.BusyCountUpdate | generic/src/ipc/ipcrsc.c:85-108 | replacing one slot changes the busy count by the difference of the old and new slot's busy flags |
| IpcPhones.PhoneTable.GetPhoneAndLock | generic/src/ipc/ipcrsc.c:62-76 | an id at or above IPC_MAX_PHONES gives NULL with no lock touched; an unconnected slot gives NULL with its lock released again; a connected slot is returned with its lock held; no other slot changes |
| IpcPhones.PhoneTable.PhoneAlloc | generic/src/ipc/ipcrsc.c:79-96 | returns the lowest slot that was not busy and marks only it busy, raising the busy count by one; returns -1 with the table unchanged exactly when every slot is busy; the result is below IPC_MAX_PHONES |
| IpcPhones.PhoneTable.IpcPhoneDestroy | generic/src/ipc/ipcrsc.c:105-106 | the external destroy step, called only on a connected slot and taken only to disconnect it |
| IpcPhones.PhoneTable.IpcPhoneConnect | generic/src/ipc/ipcrsc.c:116 | the external connect step, taken only to connect the slot to the answerbox |
| IpcPhones.PhoneTable.PhoneDealloc | generic/src/ipc/ipcrsc.c:99-110 | needs a busy slot; destroys it exactly when it is connected; afterwards the slot is free and unconnected, other slots are unchanged, and the busy count drops by one |
| IpcPhones.PhoneTable.PhoneConnect | generic/src/ipc/ipcrsc.c:112-117 | needs an allocated, unconnected slot (see Left out); connects slot `phoneid` to the box; no other slot changes |
| Ext4Directory.U16AtDecodes | uspace/lib/ext4/libext4_directory.c:54 | the 16-bit read is the little-endian value of its two bytes: the low byte first, then the high byte |
| Ext4Directory.U32AtDecodes | uspace/lib/ext4/libext4_directory.c:48 | the 32-bit read is the little-endian value of its four bytes: the low 16-bit half first, then the high half |
| Ext4Directory.EntryInode | uspace/lib/ext4/libext4_directory.c:46-49 | the inode number is below 2^32 and is the little-endian value of the entry's bytes 0-3 |
| Ext4Directory.EntryLength | uspace/lib/ext4/libext4_directory.c:51-55 | the record length is below 2^16 and is the little-endian value of the entry's bytes 4-5 |
| Ext4Directory.NameLength | uspace/lib/ext4/libext4_directory.c:57-66 | for revision 0 with minor revision below 5, the name length is 16 bits with `name_length_high` as its upper byte and `name_length` as its lower byte; otherwise it is the `name_length` byte alone, so at most 255 |
| Ext4Directory.SetSpec | uspace/lib/ext4/libext4_directory.c:193-226 | EOK with `current` at the entry exactly when it is 4-byte aligned, its header, record and name fit in the block (int promotion rejects records shorter than 8); otherwise EIO and `current` NULL; offset and block unchanged |
| Ext4Directory.DirIterator.Set | uspace/lib/ext4/libext4_directory.c:193-226 | the iterator's new state and return code are those of SetSpec |
| Ext4Directory.SwitchErrorCode | uspace/lib/ext4/libext4_directory.c:166-184 | when some call of a block switch fails, the result is a non-EOK code returned by block_put, the block lookup or block_get |
| Ext4Directory.SeekWithin | uspace/lib/ext4/libext4_directory.c:158-190 | a position inside the directory: on EOK the offset is `pos`, the held block is the one containing `pos` and `current` points at the entry; on error `current` is NULL. When a block switch is needed and one of its calls fails, the result is exactly no block held, the old offset and the first failing call's code. When every call succeeds, the block of `pos` is held at offset `pos` and the code is EOK or EIO. Without a block switch the block is kept, the offset becomes `pos` and only EOK or EIO is possible. Whenever a block is in hand, the result is EOK exactly when the entry at `pos` fits in that block |
| Ext4Directory.SeekSpec | uspace/lib/ext4/libext4_directory.c:129-191 | at or past the end `current` is NULL and no block is held; an error is returned exactly when a held block's block_put fails, and then it is block_put's code with the offset unchanged; otherwise EOK with the offset at `pos`; inside the directory it is SeekWithin; the iterator invariant is preserved and `current` is set only on EOK |
| Ext4Directory.SeekWithinBlockNeedsNoIo | uspace/lib/ext4/libext4_directory.c:165-186 | a seek that stays in the held block does not depend on any block I/O outcome |
| Ext4Directory.PositionInBlocks | uspace/lib/ext4/libext4_directory.c:158-160 | every position below the inode size lies in one of the directory's blocks |
| Ext4Directory.DirIterator.Seek | uspace/lib/ext4/libext4_directory.c:129-191 | the iterator's new state and return code are those of SeekSpec, and the iterator stays valid |
| Ext4Directory.DirIterator.SeekWithinDirectory | uspace/lib/ext4/libext4_directory.c:158-190 | the new state and return code are those of SeekWithin |
| Ext4Directory.DirIterator.FetchBlock | uspace/lib/ext4/libext4_directory.c:166-185 | releases the held block, then looks up and reads block `idx`; the first failing call's code is returned and no block is then held; on EOK block `idx` is held |
| Ext4Directory.DirIterator.PutBlock | uspace/lib/ext4/libext4_directory.c:146-151 | a held block is released with block_put's code; with none held the result is EOK; afterwards no block is held |
| Ext4Directory.DirIterator.Init | uspace/lib/ext4/libext4_directory.c:104-114 | attaches the iterator to the directory and behaves as SeekSpec from the empty state |
| Ext4Directory.NextPos | uspace/lib/ext4/libext4_directory.c:121-125 | the next position is at least a header past the current offset, because a valid entry's record is at least 8 bytes |
| Ext4Directory.NextAdvances | uspace/lib/ext4/libext4_directory.c:117-126 | a successful step of the iterator advances its offset by at least 8 |
| Ext4Directory.DirIterator.Next | uspace/lib/ext4/libext4_directory.c:117-126 | needs a current entry; seeks past its record as SeekSpec does; on EOK the offset grew by at least 8 |
| Ext4Directory.DirIterator.Fini | uspace/lib/ext4/libext4_directory.c:229-245 | detaches the iterator and returns block_put's code for a held block (EOK if none); the block handle itself is left as it was |
| Ext4Directory.DxHashVersion | uspace/lib/ext4/libext4_directory.c:68-71 | the root's hash version is its byte 28, offset 4 of the root info |
| Ext4Directory.DxIndirectLevels | uspace/lib/ext4/libext4_directory.c:78-81 | the root's indirect levels are its byte 30, offset 6 of the root info |
| Ext4Directory.DxUnusedFlags | uspace/lib/ext4/libext4_directory.c:276 | the root's unused flags are its byte 31, offset 7 of the root info |
| Ext4Directory.DxLimit | uspace/lib/ext4/libext4_directory.c:83-86 | the limit is below 2^16 and is the little-endian value of the root's bytes 32-33 |
| Ext4Directory.DxCount | uspace/lib/ext4/libext4_directory.c:87-90 | the count is below 2^16 and is the little-endian value of the root's bytes 34-35 |
| Ext4Directory.DxEntryHash | uspace/lib/ext4/libext4_directory.c:92-95 | the hash of dx entry `i` is below 2^32 and is the little-endian value of the four bytes at 32 + 8i |
| Ext4Directory.EntrySpace | uspace/lib/ext4/libext4_directory.c:291-292 | the number of 8-byte dx entries that fit in the block after the two dot entries and the root info |
| Ext4Directory.AcceptedRootEntriesFit | uspace/lib/ext4/libext4_directory.c:295-306 | a root that passes the limit and count checks has between 1 and `limit` entries, all inside its block |
| Ext4Directory.HashInfoFor | uspace/lib/ext4/libext4_directory.c:316-323 | the seed comes from the superblock; for a root version up to TEA on a filesystem with unsigned hashes, the hash version is the root's plus 3; in every other case it is the root's version unchanged |
| Ext4Directory.DxSearch | uspace/lib/ext4/libext4_directory.c:336-346 | the binary search over entries 1..count-1 terminates with `p` in 1..count; when those entries are sorted by hash, the entries before `p` have hash at most the target and those from `p` on exceed it |
| Ext4Directory.DxFindEntry | uspace/lib/ext4/libext4_directory.c:247-387 | lookup and read errors of block 0 are passed through (a failed read clears the iterator's block); the search runs exactly when the root passes the unused-flags, indirect-levels, limit and count checks; every path after reading the root returns EXT4_ERR_BAD_DX_DIR |
| XhciEndpoint.Dci | uspace/drv/bus/usb/xhci/endpoint.c:67-74 | the DCI carries the endpoint number in its upper bits and is odd exactly for control and IN endpoints; it is a uint8_t |
| XhciEndpoint.Index | uspace/drv/bus/usb/xhci/endpoint.c:76-89 | the index is DCI - 1 as a uint8_t: EP0 maps to 0, EPn OUT to 2n-1, EPn IN or control to 2n |
| XhciEndpoint.IndexInjective | uspace/drv/bus/usb/xhci/endpoint.c:76-89 | endpoints 0-15 of a device that differ in number, or in direction slot, get distinct indices (a non-control OUT endpoint 0 wraps to 255, which no other endpoint gets) |
| XhciEndpoint.EndpointType | uspace/drv/bus/usb/xhci/endpoint.c:91-113 | an unknown transfer type gives INVALID; otherwise the EP type's low two bits are the transfer type and bit 2 is set exactly for control and IN endpoints |
| XhciEndpoint.EndpointTypeAgreesWithDci | uspace/drv/bus/usb/xhci/endpoint.c:67-113 | the EP type's IN bit agrees with the DCI's direction bit |
| XhciEndpoint.PeriodicPacketSize | uspace/drv/bus/usb/xhci/endpoint.c:156 | the 0x07FF mask keeps the low 11 bits of the max packet size: the result is below 2048, differs from the input by a multiple of 2048, and leaves a size below 2048 alone |
| XhciEndpoint.SetupControlEpCtx | uspace/drv/bus/usb/xhci/endpoint.c:115-126 | needs a non-zero endpoint; writes the control EP type, the max packet size, error count 3, the ring's dequeue pointer and DCS 1 into that one context |
| XhciEndpoint.SetupBulkEpCtx | uspace/drv/bus/usb/xhci/endpoint.c:128-150 | writes EP type, max packet size, the companion burst size on USB 3 (else 0), error count 3, no primary streams, the dequeue pointer and DCS 1 |
| XhciEndpoint.SetupIsochEpCtx | uspace/drv/bus/usb/xhci/endpoint.c:152-164 | writes EP type, the masked packet size, the burst size, mult 0, error count 0, the dequeue pointer and DCS 1 |
| XhciEndpoint.SetupInterruptEpCtx | uspace/drv/bus/usb/xhci/endpoint.c:166-177 | writes EP type, the masked packet size, the burst size, mult 0, error count 3, the dequeue pointer and DCS 1 |
| XhciEndpoint.BuildInputContext | uspace/drv/bus/usb/xhci/endpoint.c:203-238 | the add flags are exactly A0 and A(index+1) (so A1 is clear) and no drop flag is set; for a known transfer type the endpoint's context has its EP type, DCS 1, its ring, error count 0 for isochronous or else 3, the max packet size masked to 11 bits for isochronous and interrupt endpoints and unmasked otherwise, and burst size, mult and max primary streams 0; for an unknown transfer type that context stays zero; every other context stays zero |
| XhciEndpoint.Occupied | uspace/drv/bus/usb/xhci/endpoint.c:191-192 | the number of occupied table slots, zero exactly for an empty table |
| XhciEndpoint.OccupiedUpdate | uspace/drv/bus/usb/xhci/endpoint.c:191-192 | replacing one slot changes the occupied count by the difference of the two slots' occupancy |
| XhciEndpoint.Added | uspace/drv/bus/usb/xhci/endpoint.c:189-192 | storing an endpoint at its empty slot changes only that slot and raises the occupied count by one |
| XhciEndpoint.RollbackAsWritten | uspace/drv/bus/usb/xhci/endpoint.c:256-259 | the failure path clears slot Index(ep) of the table where `ep` was stored at its endpoint number |
| XhciEndpoint.RollbackCorrected | uspace/drv/bus/usb/xhci/endpoint.c:256-259 | clearing the slot at the endpoint number restores the table exactly |
| XhciEndpoint.RollbackSlotsDiffer | uspace/drv/bus/usb/xhci/endpoint.c:205 | the slot the failure path clears is the stored slot only for OUT endpoint 1 of a non-control type |
| XhciEndpoint.RollbackAsWrittenIsWrong | uspace/drv/bus/usb/xhci/endpoint.c:256-259 | when those slots differ, the as-written rollback leaves `ep` in the table; the occupied count no longer matches the restored active count, or another endpoint was dropped |
| XhciEndpoint.BulkInEndpoint1RollbackLeavesStaleEntry | uspace/drv/bus/usb/xhci/endpoint.c:256-259 | a failed add of bulk IN endpoint 1 to an empty device leaves it in slot 1 while the count returns to 0 |
| XhciEndpoint.XhciDevice.AddEndpoint | uspace/drv/bus/usb/xhci/endpoint.c:179-260 | needs an empty slot; EP0 is stored and counted and EOK is returned; otherwise ENOMEM on allocation failure, else the command's code; on EOK the endpoint is stored and counted and the table invariant holds; on failure the count is restored and the table is RollbackAsWritten; only the table and the active count change |
| XhciEndpoint.XhciDevice.AddEndpointCorrected | uspace/drv/bus/usb/xhci/endpoint.c:179-260 | the same, except that a failure leaves table and count exactly as before, so the invariant holds on every path; only the table and the active count change |
| XhciEndpoint.XhciDevice.RemoveEndpoint | uspace/drv/bus/usb/xhci/endpoint.c:262-273 | needs an occupied slot; clears it, lowers the count by one, keeps the invariant and returns EOK; only the table and the active count change |
| XhciEndpoint.XhciDevice.GetEndpoint | uspace/drv/bus/usb/xhci/endpoint.c:275-278 | returns the slot's content and changes nothing |
| PosixStdio.Unget | uspace/lib/posix/stdio.c:96-127 | when the character is EOF, or the stream has its error flag, is unbuffered, last did something other than a read, has no buffer, or its tail is at the buffer start, EOF is returned and nothing changes; otherwise the tail moves back by one, the byte `c mod 256` is stored there, no other byte changes, `eof` is cleared and that byte (never EOF) is returned |
| PosixStdio.PushesBounded | uspace/lib/posix/stdio.c:117-120 | consecutive successful push-backs number at most the tail's distance from the start of the buffer |
| PosixStdio.Stream.Ungetc | uspace/lib/posix/stdio.c:96-127 | the stream's new state and the result are those of Unget |
| PosixStdio.Stream.Clearerr | uspace/lib/posix/stdio.c:62-66 | clears the error and end-of-file indicators and nothing else |
| PosixStdio.Ctermid | uspace/lib/posix/stdio.c:74-87 | a caller's buffer gets a NUL first character (the rest is untouched) and is returned; without one the static empty path is returned |
| UhciPci.LastIrq | uspace/drv/uhci_hcd/pci.c:87-91 | no interrupt is found exactly when the list has no INTERRUPT entry |
| UhciPci.LastIoRange | uspace/drv/uhci_hcd/pci.c:93-99 | no I/O range is found exactly when the list has no IO_RANGE entry |
| UhciPci.LastIrqIsLastEntry | uspace/drv/uhci_hcd/pci.c:83-104 | the last INTERRUPT entry of the list decides the interrupt |
| UhciPci.LastIoRangeIsLastEntry | uspace/drv/uhci_hcd/pci.c:83-104 | the last IO_RANGE entry of the list decides the I/O range |
| UhciPci.IrqIgnoresOtherResources | uspace/drv/uhci_hcd/pci.c:101-102 | an entry of another kind, wherever it is, does not change the interrupt found |
| UhciPci.IoRangeIgnoresOtherResources | uspace/drv/uhci_hcd/pci.c:101-102 | an entry of another kind, wherever it is, does not change the I/O range found |
| UhciPci.ScanResources | uspace/drv/uhci_hcd/pci.c:74-104 | the loop's found flags are set exactly when an entry of that kind exists; its values are those of the last such entry, else 0 |
| UhciPci.PciGetMyRegisters | uspace/drv/uhci_hcd/pci.c:54-115 | a failed connect is returned as is with no hang-up; after a successful connect the phone is hung up exactly once; a failed list fetch returns its code; EOK exactly when both an I/O range and an interrupt exist, else ENOENT; outputs are written only on EOK and then hold the last range and interrupt |

## Left out

- Spinlocks in ipcrsc.c are modelled sequentially. A slot's lock is a `locked` flag, and the task lock has no sequential effect.
- `get_call` in ipcrsc.c only casts an id to a pointer, so it has no behaviour to model.
- `ipc_phone_connect` and `ipc_phone_destroy` are not part of this model. They are abstract methods that only connect or disconnect a slot. Answerbox call queues are not modelled.
- IpcPhones.PhoneTable.PhoneDealloc, IpcPhones.PhoneTable.PhoneConnect: the source does not range-check `phoneid`, so these require an in-range id.
- IpcPhones.PhoneTable.PhoneConnect: also requires the slot to be allocated and not yet connected, which `phone_connect` itself does not check. This is the precondition the model assumes for the external `ipc_phone_connect`, which is not part of this model: it is taken to connect only an allocated phone that has no callee. What connecting a free or already connected slot would do is not modelled.
- Ext4Directory: block_get, block_put, the inode's block-index lookup, the name hash and the superblock getters are not part of this model. Their results are inputs. A directory's data is given as its sequence of logical blocks.
- The getters `ext4_directory_dx_root_info_get_info_length` and `ext4_directory_dx_entry_get_block` are not modelled, because no modelled function uses them.
- The descent below the dx root is commented out in the source (uspace/lib/ext4/libext4_directory.c:348-376), so it is not modelled. `dx_find_entry` also never releases the root block on its search path, and the model does not track that block.
- Ext4Directory.DxFindEntry: the hash is taken as a number of any size; its 32-bit width is not stated.
- xHCI command submission and waiting, malloc32 and free32, TRB rings (beyond a ring's dequeue pointer) and `xhci_device_configure` are not part of this model.
- Endpoint-context fields are separate numbers. Their packing into context dwords by the header macros is not modelled, and neither is the assertion that the endpoint belongs to the device object.
- The SuperSpeed companion descriptor is always zero in the source, so its burst size is 0. The model does not represent the descriptor itself.
- The stream structure (libc's private stdio header) is not part of this model. A stream is reduced to the fields push-back reads and writes, and `buf_tail` is an offset into `buf`.
- PosixStdio.Ctermid: the static `dummy_path` buffer is passed in, with `L_ctermid` elements. The caller's buffer is required to hold at least one character.
- PosixStdio.Ctermid: also requires `dummy_path[0]` to be NUL. The source relies on the static buffer's zero initialisation, but a caller may have written into the buffer it returned earlier; such a state is not modelled.
- The other stdio.c functions are not modelled. They are thin wrappers over libc I/O and formatting, `posix_freopen`, the printf writers and stubs.
- UhciPci.PciGetMyRegisters: connecting to the parent device and fetching the resource list are inputs. The phone hang-up is only counted. `pci_enable_interrupts` and `pci_disable_legacy` are IPC round trips and are not modelled.

## Findings

| source | as written | input that shows it | evidently intended | confidence | as-written member | corrected member |
|---|---|---|---|---|---|---|
| uspace/drv/bus/usb/xhci/endpoint.c:256-259 | on failure `xhci_device_add_endpoint` clears `dev->endpoints[ep_idx]`, the DCI-based index, but the endpoint was stored at `dev->endpoints[ep_num]` | bulk IN endpoint 1 (index 2) with malloc32 failing: slot 1 keeps the endpoint while the active count returns to 0; if slot 2 held endpoint 2, that endpoint is dropped instead | clear `dev->endpoints[ep_num]`, restoring the table and count | high (not executed) | XhciEndpoint.XhciDevice.AddEndpoint, XhciEndpoint.RollbackAsWrittenIsWrong, XhciEndpoint.BulkInEndpoint1RollbackLeavesStaleEntry | XhciEndpoint.XhciDevice.AddEndpointCorrected, XhciEndpoint.RollbackCorrected |
