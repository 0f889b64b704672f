# usbip-win2: the PnP router of the virtual host controller and the devnode installer's string lists

This project models two parts of usbip-win2 in Dafny and proves properties of them.

- **The Plug and Play request router** of the virtual host controller driver (`driver/vhci/pnp.cpp`) and the two-slot lifecycle state machine of each virtual device node.
  - `vhci_pnp` refuses every request once a node is `Removed`. It dispatches a minor code inside `pnpmn_functions` to its handler and completes any other code as it is.
  - A node's state is one of `NotStarted`, `Started`, `StopPending`, `Stopped`, `RemovePending`, `SurpriseRemovePending` and `Removed`. Through `set_state`, which saves the state it leaves in `PreviousPnPState`, the handlers shown move a node only into `StopPending`, `Stopped`, `RemovePending` and `SurpriseRemovePending`. The two cancel handlers return a node from its pending state to whatever state was saved, `Started` included (and `Removed`, should the saved slot hold it). Only the start and remove handlers of other files move a node into `Started` or `Removed` through `set_state`. A QueryRemove that is refused moves nothing.
  - Most handlers then pass the request down (on a node above a lower driver) or complete it.
  - The pure layer (`Pnp.Handle`, `Pnp.Route`) says what one request does to a node and to its I/O status block.
  - The classes `Pnp.Irp` and `Pnp.Vdev` update those fields in place, handler by handler, as the driver does. Each of their methods is proved to have exactly the effect the pure layer gives.
- **The installer's REG_MULTI_SZ handling** (`userspace/devnode/main.cpp`):
  - `split_multi_sz`: a loop over a buffer of NUL-terminated strings;
  - `make_hwid`;
  - `classfilter`: the read, update and write-back decision for a class's `UpperFilters`/`LowerFilters` value;
  - `enum_device_info`: walking the setup API's device list with a visitor that can stop the walk;
  - `uninstall_device` and `remove_devnode`.

Files:

- `wrappers.dfy`: `Option`.
- `pnp.dfy`: module `Pnp`.
- `devnode.dfy`: module `Devnode`.

Inputs the code gets from the operating system are parameters of the model:

- the zero-timeout wait on `intf_ref_event`;
- pool allocations and `libdrv_strdup`;
- `GetDeviceProperty`, `get_product`;
- the call of `vhub_unplug_vpdo`, recorded as `Effect.unplugged`;
- `SetupDi*`, `RegGetValue`, `RegSetValueEx`, `DiUninstallDevice`.

The effect of a handler whose body lives in another file of the driver is an input too (`World.foreign`). Those handlers are start, remove, relations, interface, capabilities, resources, resource requirements, filter resource requirements and query id.

Three behaviours of the code worth knowing:

- **`classfilter add` always writes the value back.** `modified` starts as `add`, so even when the driver is already listed a write happens. `Devnode.AddTwiceWritesSameList` proves that the second write carries exactly the same list, with the driver in it once.
- **Cancelling restores the saved state.** `CancelStopDevice`/`CancelRemoveDevice` call `set_previous_pnp_state`. Its body is not part of this model. The model assumes it makes the saved state current and leaves `PreviousPnPState` as it was, giving `Node(prev, prev)`. Nothing in the code shown clears the saved slot.
- **Forwarding depends on `is_fdo(vdev->type)`.** `irp_pass_down_or_complete` decides by that predicate, not by a per-kind "has a lower layer" rule. `is_fdo` is not part of this model, so `Vdev.fdo` is a constant fixed when the node is created.

## Model

| member | source | states |
|---|---|---|
| Pnp.HandlerFor | driver/vhci/pnp.cpp:318-350 | a minor code has a handler exactly when it is below 0x1A, and that handler serves the request with that IRP_MN code |
| Pnp.TableFollowsMinorCodes | driver/vhci/pnp.cpp:318-350 | the table has 26 entries in IRP_MN order: entry i serves code i and every handler sits at its own code |
| Pnp.DeviceStateFlags | driver/vhci/pnp.cpp:199-211 | PNP_DEVICE_REMOVED is set in the result exactly when the node is Removed or it was already set; every other bit is unchanged |
| Pnp.DeviceText | driver/vhci/pnp.cpp:264-314 | description and location are completed as is, any other text type with INVALID_PARAMETER; the registry property wins; then a VPDO's product string; the canned per-kind description only when nothing has been stored yet; a failed copy leaves the status block alone |
| Pnp.Handle | driver/vhci/pnp.cpp:34-255 | what each handler does to a node and to the I/O status block; the per-handler lemmas below state its properties, and each Vdev method is proved equal to it |
| Pnp.Route | driver/vhci/pnp.cpp:365-387 | what vhci_pnp does with one request; RemovedFailsFast, UnknownMinorCompletedAsIs, KnownMinorRunsTableEntry and RemovedIsTerminal state its properties |
| Pnp.IsZero | driver/vhci/pnp.cpp:306 | IoStatus.Information is 0 both as a null reference and as an empty device-state mask; the canned description is copied in either case |
| Pnp.RemovedFailsFast | driver/vhci/pnp.cpp:376-377 | on a Removed node every request is completed with NO_SUCH_DEVICE, nothing is passed down and neither slot changes |
| Pnp.UnknownMinorCompletedAsIs | driver/vhci/pnp.cpp:380-383 | a minor code past the table is completed as is: neither the node nor the IRP changes |
| Pnp.KnownMinorRunsTableEntry | driver/vhci/pnp.cpp:378-379 | a code inside the table runs exactly the handler at that index |
| Pnp.UnconditionalTransitions | driver/vhci/pnp.cpp:40-116 | QueryStop, Stop and SurpriseRemoval move to StopPending, Stopped and SurpriseRemovePending, saving the old state, then pass the IRP down (FDO) untouched or complete it with success |
| Pnp.CancelRestoresOnlyFromPending | driver/vhci/pnp.cpp:50-106 | CancelStop/CancelRemove restore the saved state only from their own pending state and are a no-op otherwise; the IRP is passed down or completed either way |
| Pnp.QueryRemoveGate | driver/vhci/pnp.cpp:73-93 | QueryRemove fails with UNSUCCESSFUL, with no state change and nothing passed down, exactly when the interface wait does not succeed; otherwise the node becomes RemovePending |
| Pnp.BusInformationCompletedLocally | driver/vhci/pnp.cpp:119-135 | bus information is always completed locally: USB bus type, PNPBus, bus number 1 on success; a null result with INSUFFICIENT_RESOURCES when allocation fails |
| Pnp.EjectUnplugsOnlyVpdo | driver/vhci/pnp.cpp:177-188 | only a VPDO is unplugged from its hub on eject; other kinds complete the request as is |
| Pnp.RouterNeverRaisesRemovedBit | driver/vhci/pnp.cpp:199-211 | through the router, QueryPnpDeviceState never raises PNP_DEVICE_REMOVED, because a removed node is refused first |
| Pnp.QueryStopThenCancelStop | driver/vhci/pnp.cpp:40-60 | QueryStop followed by CancelStop returns the node to the state it started in |
| Pnp.QueryRemoveThenCancelRemove | driver/vhci/pnp.cpp:81-106 | an accepted QueryRemove followed by CancelRemove returns the node to the state it started in |
| Pnp.RemovedIsTerminal | driver/vhci/pnp.cpp:365-387 | once Removed, any sequence of requests leaves both slots unchanged and each request fails with NO_SUCH_DEVICE |
| Pnp.DelegatedTakesForeignEffect | driver/vhci/pnp.cpp:318-350 | a handler from another file leaves the node, the status block and the outcome the world gives; completing with a status records that status |
| Pnp.ShownHandlersNeverRemove | driver/vhci/pnp.cpp:40-245 | from a node whose two slots both hold something other than Removed, no handler defined in this file enters Removed, and the saved slot stays other than Removed |
| Pnp.Irp.CompleteRequest | driver/vhci/pnp.cpp:91 | the status is recorded, the result left alone, and the request is reported completed with that status |
| Pnp.Irp.CopyStr | driver/vhci/pnp.cpp:248-255 | the string and SUCCESS are stored only when the copy is allocated; otherwise the status block is unchanged |
| Pnp.Vdev.SetState | driver/vhci/pnp.cpp:356-361 | the new state becomes current and the state left is saved |
| Pnp.Vdev.RestorePrevious | driver/vhci/pnp.cpp:55-57 | the saved state becomes current and the saved slot keeps it (an assumption about set_previous_pnp_state) |
| Pnp.Vdev.PassDownOrComplete | driver/vhci/pnp.cpp:34-37 | an FDO passes the IRP down untouched; any other node completes it with success |
| Pnp.Vdev.QueryStopDevice | driver/vhci/pnp.cpp:40-47 | the in-place update has exactly the effect of Handle for QueryStop |
| Pnp.Vdev.CancelStopDevice | driver/vhci/pnp.cpp:50-60 | the in-place update has exactly the effect of Handle for CancelStop |
| Pnp.Vdev.StopDevice | driver/vhci/pnp.cpp:63-70 | the in-place update has exactly the effect of Handle for Stop |
| Pnp.Vdev.QueryRemoveDevice | driver/vhci/pnp.cpp:81-93 | the in-place update has exactly the effect of Handle for QueryRemove |
| Pnp.Vdev.CancelRemoveDevice | driver/vhci/pnp.cpp:96-106 | the in-place update has exactly the effect of Handle for CancelRemove |
| Pnp.Vdev.SurpriseRemoval | driver/vhci/pnp.cpp:109-116 | the in-place update has exactly the effect of Handle for SurpriseRemoval |
| Pnp.Vdev.QueryBusInformation | driver/vhci/pnp.cpp:119-135 | the in-place update has exactly the effect of Handle for bus information |
| Pnp.Vdev.Eject | driver/vhci/pnp.cpp:177-188 | the in-place update, and the unplug report, are exactly those of Handle for Eject |
| Pnp.Vdev.QueryPnpDeviceState | driver/vhci/pnp.cpp:199-211 | the in-place update of the device-state mask is exactly that of Handle |
| Pnp.Vdev.QueryDeviceText | driver/vhci/pnp.cpp:264-314 | the in-place walk through property, product and canned description has exactly the effect of DeviceText |
| Pnp.Vdev.DeviceUsageNotification | driver/vhci/pnp.cpp:214-225 | the request is passed down or completed as Handle says |
| Pnp.Vdev.DeviceEnumerated | driver/vhci/pnp.cpp:240-245 | the request is completed with success as Handle says |
| Pnp.Vdev.CompleteAsIs | driver/vhci/pnp.cpp:138-233 | 0x0E, read/write config, set lock and legacy bus information complete the IRP as is, as Handle says |
| Pnp.Vdev.CallDelegated | driver/vhci/pnp.cpp:318-350 | a handler from another file has the effect the world gives, as Handle says |
| Pnp.Vdev.Call | driver/vhci/pnp.cpp:318-350 | calling the table entry has exactly the effect of Handle for that handler |
| Pnp.Vdev.Dispatch | driver/vhci/pnp.cpp:365-387 | vhci_pnp has exactly the effect of Route; a Removed node is refused with both slots unchanged; an unknown code changes nothing |
| Pnp.StopCancelledScenario | driver/vhci/pnp.cpp:40-60 | a Started node that gets QueryStop and then CancelStop through the router is Started again |
| Devnode.NulIndex | userspace/devnode/main.cpp:85 | the length of the string at the start of a buffer is the index of its first NUL: no NUL before it |
| Devnode.StringLength | userspace/devnode/main.cpp:85 | the loop finds the first NUL from i and agrees with NulIndex |
| Devnode.NextString | userspace/devnode/main.cpp:85-91 | one step yields a non-empty NUL-free string and the index just past its NUL, where the rest of the list starts |
| Devnode.SplitBuffer | userspace/devnode/main.cpp:83-92 | the loop returns the listed strings in order without any copy of exclude, and raises excluded exactly when a copy was seen |
| Devnode.SplitMultiSz | userspace/devnode/main.cpp:80-95 | split_multi_sz returns Without(listed, exclude); excluded ends true exactly when it was true or exclude was listed; a null buffer is an empty list |
| Devnode.StringsAreEntries | userspace/devnode/main.cpp:83-92 | every string the walk yields is non-empty and free of NUL |
| Devnode.WithoutOmits | userspace/devnode/main.cpp:86-90 | the result never holds exclude, and is the input itself when exclude is absent |
| Devnode.WithoutCounts | userspace/devnode/main.cpp:86-90 | every other string keeps its number of occurrences: only the copies of exclude are dropped |
| Devnode.SplitAfterJoin | userspace/devnode/main.cpp:365-374 | splitting what make_multi_sz builds from proper entries gives back the same list, and the walk stays inside the buffer |
| Devnode.MakeHwid | userspace/devnode/main.cpp:100-105 | the hardware id followed by one NUL ending the string and one ending the list; MakeHwidIsSingleton states what that buffer means |
| Devnode.MakeHwidIsSingleton | userspace/devnode/main.cpp:100-105 | make_hwid(h) is the REG_MULTI_SZ of the one-entry list [h] and splits back to [h] |
| Devnode.FilterValueName | userspace/devnode/main.cpp:358 | "upper" selects UpperFilters and anything else LowerFilters |
| Devnode.UpdatedFilters | userspace/devnode/main.cpp:364-368 | the list without the driver, with the driver appended on add; UpdatedFiltersShape states its shape |
| Devnode.WritesBack | userspace/devnode/main.cpp:364-372 | the value is written on every add, and on remove only when the driver was listed |
| Devnode.ClassFilter | userspace/devnode/main.cpp:345-383 | a failed class key or read fails with no write; otherwise the value is written exactly when adding or when the driver was listed, holding the old list without the driver (plus the driver last, on add); the result is the write's success |
| Devnode.UpdatedFiltersShape | userspace/devnode/main.cpp:364-368 | on add the driver is last and occurs once, the other entries kept in order; on remove no copy is left; removing an absent driver changes nothing |
| Devnode.AddTwiceWritesSameList | userspace/devnode/main.cpp:345-383 | a second add reads back the list the first wrote and writes the identical list, with the driver in it once |
| Devnode.RemoveTwiceWritesNothing | userspace/devnode/main.cpp:345-383 | a second remove finds no copy of the driver and writes nothing |
| Devnode.Visit | userspace/devnode/main.cpp:159-174 | the walk shows every item unless the visitor stops it, and stops only after showing at least one |
| Devnode.VisitStopsForGood | userspace/devnode/main.cpp:163-166 | once the visitor asks to stop, later items change nothing |
| Devnode.EnumDeviceInfo | userspace/devnode/main.cpp:159-174 | the loop ends with the visitor's state after the walk; it returns success when the visitor stopped or the list ran out with ERROR_NO_MORE_ITEMS, and otherwise the enumeration error |
| Devnode.Matches | userspace/devnode/main.cpp:280-286 | a device matches when its hardware id property was read, is not empty and equals the whole make_hwid buffer |
| Devnode.UninstallDevice | userspace/devnode/main.cpp:274-302 | the visitor never stops the walk; a device that does not match changes nothing; a dry run uninstalls nothing and leaves the reboot flag alone |
| Devnode.RebootAfter | userspace/devnode/main.cpp:295-299 | one more uninstalled device asks for a reboot exactly when it needs one itself or an earlier one did |
| Devnode.RemoveWalk | userspace/devnode/main.cpp:274-302 | over a whole device list: a dry run prints the matching devices' instance ids and uninstalls none; otherwise exactly the matching devices are uninstalled, in order, and the reboot flag is set exactly when one of them needs it |
| Devnode.RemoveDevnode | userspace/devnode/main.cpp:314-338 | fails only when the device list cannot be opened; otherwise its log is that of RemoveWalk over the devices for make_hwid(hwid) |

## Left out

- Handlers defined in other files of the driver are not part of this model: start, remove, device relations, interface, capabilities, resources, resource requirements, filter resource requirements and query id. Their effect is an input: the node's two slots, the whole status block they leave (status and result) and how they resolve the request.
- `is_fdo`, `CompleteRequest`, `CompleteRequestAsIs` and `irp_pass_down` are not part of this model. The model assumes these effects:
  - `CompleteRequest(irp, st)` sets only the status to `st`, leaving the result alone; without a status it completes with success.
  - `CompleteRequestAsIs` and `irp_pass_down` leave the status block as it was.
  - Passing down is recorded as an outcome, without modelling the lower driver.
- Pnp.Restore and Pnp.Vdev.RestorePrevious: `set_previous_pnp_state` is not part of this model. They assume it sets the current state to the saved one and leaves the saved slot unchanged.
- `vhub_unplug_vpdo` is not part of this model. Pnp.Handle and Pnp.Vdev.Eject record its call as `Effect.unplugged` and assume it changes neither lifecycle slot of the ejected node. `Pnp.EjectUnplugsOnlyVpdo`'s `e.node == n` and `Pnp.ShownHandlersNeverRemove` rest on that assumption.
- Pnp.AsFlags: a result reference (`Text` or `Bus`) in `IoStatus.Information` is read as 0. The source reinterprets the reference's bits as a mask, and the model does not represent addresses.
- Concurrency and IRQL are not modelled: the router is modelled one request at a time. This covers re-entrant invocation and the check-then-act races between the Removed check and a concurrent transition.
- The interface reference count is not modelled; only the answer of the zero-timeout wait is an input.
- Pool allocation, `libdrv_strdup`, `GetDeviceProperty` and `get_product` are inputs (success or failure and the string). The freeing of the returned memory by the caller is not modelled.
- Tracing (`TraceMsg`, `Trace`, `TraceDbg`), `errmsg` and `wprintf` output are left out. A dry run's printed instance ids are recorded as a log.
- `driver/vhci_ude/vhci_urbr_fetch_bulk.c` is not part of this model.
- `make_multi_sz` is not part of this model's sources. It is modelled as the standard REG_MULTI_SZ layout: each string followed by a NUL, then a closing NUL.
- `read_multi_z`, `get_class_guid` and `SetupDiOpenClassRegKeyEx` are inputs of `ClassFilter`: whether the class key opened, and whether the value was found, missing or unreadable. The buffer-resizing retry loop of `read_multi_z` is not modelled.
- Devnode.ClassFilter: requires a found value to be empty or to reach an empty string inside the buffer. `RegGetValue` with `RRF_RT_REG_MULTI_SZ` guarantees this for the buffer it fills.
- Devnode.EnumDeviceInfo: the setup API's answers are a finite list, so the 32-bit index `i` never wraps.
- `get_device_property` and its `ERROR_INSUFFICIENT_BUFFER` retry loop are not modelled. A device's hardware id list and instance id are inputs (`None` when the property cannot be read).
- `install_devnode_and_driver`, `prompt_reboot`, `get_version`, the command-line set-up (`add_*_cmds`, `pack`) and `wmain` are left out. They are straight-line calls into the setup API and the command-line parser, with nothing to state beyond the calls themselves.
- Characters are Dafny `char`s rather than 16-bit `WCHAR`s. The byte lengths passed to the registry are not modelled.
