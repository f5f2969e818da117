# Wifx gateway embedded controller: register-protocol model

This project models the host-side drivers of the embedded controller (EC) on
Wifx LoRa gateways. The EC is a small microcontroller on I2C/SMBus. The
modelled parts are:

- the EC device core, which polls long-running commands, reads memory
  slots, decodes firmware and hardware information, fills the
  device-information cache and clears the boot state;
- the USB-C interrupt handler with its cached data and power modes;
- the USB-C LED trigger;
- the raw-command character device;
- the EC-driven LED writer.

The EC is abstract (module `Transport`). It is a script of replies,
consumed one per bus transaction, plus a log of every transaction issued.
The six register primitives return a non-negative count or a negative
errno, as include/linux/mfd/wgw-ec/core.h states.

Each driver's state is a Dafny class whose methods update its fields and
the EC. Each method is proved equal to a pure function of the old state
and the EC's replies. The lemmas state what the driver promises in terms of
those functions:

- outcomes per reply script;
- what is cached and what is published;
- round trips;
- lock balance.

The protocol revision modelled is the one wgw_ec_dev.c implements
(protocol 2):

- every enum value is its position in its name table;
- the string size of a memory slot is a parameter;
- the firmware version block is three little-endian u16 values.

Modules, in dependency order:

- `Transport`: the abstract EC.
- `Decimal`: decimal text.
- `EcTables`: lookup tables and version strings.
- `Ltr`: the wait-ready poll.
- `MemSlot`: memory slots.
- `EcInfo`: the information cache and boot state.
- `Usbc`: the USB-C handler.
- `LedTrigger`: the USB-C LED trigger.
- `Chardev`: the raw-command device.
- `Leds`: the LED writer.

## Model

| member | source | states |
|---|---|---|
| Transport.Ec.ReadByte | drivers/mfd/wgw_ec_i2c.c:28-37 | one byte read is issued and logged; returns 1 with the byte, or the transport error |
| Transport.Ec.ReadWord | drivers/mfd/wgw_ec_i2c.c:39-48 | one word read; returns 1 with the little-endian word, or the error |
| Transport.Ec.ReadBlock | drivers/mfd/wgw_ec_i2c.c:50-54 | one block read; returns the number of bytes received (at most 32) with those bytes, or the error |
| Transport.Ec.WriteByte | drivers/mfd/wgw_ec_i2c.c:57-65 | one byte write of exactly that byte; returns 1 or the error |
| Transport.Ec.WriteWord | drivers/mfd/wgw_ec_i2c.c:67-75 | one word write, low byte first; returns 2 or the error |
| Transport.Ec.WriteBlock | drivers/mfd/wgw_ec_i2c.c:77-82 | one block write of exactly the given bytes; a non-negative count or the error |
| Transport.CString | drivers/mfd/wgw_ec_dev.c:362-364 | the text of a NUL-terminated buffer: its bytes before the first zero, none of them zero |
| EcTables.MainboardRefIndex | drivers/mfd/wgw_ec_dev.c:86-97 | the value itself when it names a mainboard, else -1 |
| EcTables.MainboardRefStr | drivers/mfd/wgw_ec_dev.c:98-105 | the table entry of a defined value; "unknown" exactly when the index is -1 |
| EcTables.MainboardVariantIndex | drivers/mfd/wgw_ec_dev.c:108-117 | the value itself when it is 8XX or 9XX, else -1 |
| EcTables.MainboardVariantStr | drivers/mfd/wgw_ec_dev.c:118-125 | the table entry, or "unknown" exactly for an undefined value |
| EcTables.ModelIndex | drivers/mfd/wgw_ec_dev.c:131-142 | the value itself for the four product models, else -1 |
| EcTables.ModelStr | drivers/mfd/wgw_ec_dev.c:144-151 | the model's name, or "unknown" exactly for an undefined model |
| EcTables.ModelPrettyStr | drivers/mfd/wgw_ec_dev.c:153-160 | the model's display name, or "unknown" exactly for an undefined model |
| EcTables.ModelVariantIndex | drivers/mfd/wgw_ec_dev.c:162-181 | the variant when the model's table has it: at most 1 for a Wifx L1, at most 2 for a Wifx L1 4G, never for other models; else -1 |
| EcTables.ModelVariantStr | drivers/mfd/wgw_ec_dev.c:183-202 | that model's variant name, or "unknown" exactly when the index is -1 |
| EcTables.FrequencyIndex | drivers/mfd/wgw_ec_dev.c:205-214 | the value itself for the two frequency plans, else -1 |
| EcTables.FrequencyStr | drivers/mfd/wgw_ec_dev.c:215-222 | the plan's name, or "unknown" exactly for an undefined value |
| EcTables.LookupNamesDistinct | drivers/mfd/wgw_ec_dev.c:83-222 | within each table a name other than "unknown" determines the value |
| EcTables.DecodeEncodeVersion | drivers/mfd/wgw_ec_dev.c:69-77 | the 6-byte version block decodes back to the version that was encoded |
| EcTables.FwVersionStrRoundTrip | drivers/mfd/wgw_ec_dev.c:237-242 | "major.minor.revision" parses back to the same version, for every version |
| EcTables.HwVersionStrRoundTrip | drivers/mfd/wgw_ec_dev.c:224-235 | "major.minor" for revision 0, else with the letter 'A'+revision; parses back while the letter is A..Z |
| EcTables.HwVersionStr | drivers/mfd/wgw_ec_dev.c:224-235 | at most 12 characters, none of them NUL: the text the C buffer holds up to its terminator |
| EcTables.HwVersionStrNulLetter | drivers/mfd/wgw_ec_dev.c:224-235 | a revision whose letter is NUL (191 modulo 256) prints as revision 0, since the C string ends at that byte |
| EcTables.FwVersionStr | drivers/mfd/wgw_ec_dev.c:237-242 | at most 17 characters, none of them NUL, so it fits the 32-byte buffer with its terminator |
| EcTables.HwVersionStrCollides | drivers/mfd/wgw_ec_dev.c:224-235 | from revision 26 on the appended character is not a letter: 1.2 revision 239 prints as "1.20" |
| Ltr.GetLtrStatus | drivers/mfd/wgw_ec_dev.c:252-263 | one read of the status register; the status byte, or the transport error |
| Ltr.WaitReady | drivers/mfd/wgw_ec_dev.c:266-286 | the polling loop computes exactly WaitReadySpec of the EC's replies |
| Ltr.WaitReadySkipsBusy | drivers/mfd/wgw_ec_dev.c:266-286 | each Busy answer only consumes one attempt and one status read |
| Ltr.WaitReadyFirstNonBusy | drivers/mfd/wgw_ec_dev.c:266-286 | after k < 10 Busy answers the next answer decides: Success gives 0, an error is passed on, any other status gives -EIO; exactly k+1 reads |
| Ltr.WaitReadyAllBusy | drivers/mfd/wgw_ec_dev.c:266-286 | ten Busy answers give -EBUSY after exactly ten reads |
| Ltr.WaitReadyBounded | drivers/mfd/wgw_ec_dev.c:266-286 | whatever the EC answers, between one and ten status reads and nothing else |
| Ltr.WaitReadyAfterThreeBusy | drivers/mfd/wgw_ec_dev.c:266-286 | Busy, Busy, Busy, Success: returns 0 after four polls |
| MemSlot.MemSlotGet | drivers/mfd/wgw_ec_dev.c:289-332 | fills the caller's slot in place exactly as SlotGet says, the corrected read of the first Findings row (-EIO on a length mismatch) |
| MemSlot.SlotGetSound | drivers/mfd/wgw_ec_dev.c:289-332 | index > 3 gives -EINVAL before any read; the flags are ctrl[0] & 3; a failed control or data read passes its errno through; an unset slot gives 0 with length 0 after the control read only; a set slot whose data count equals the declared length gives that length and exactly the data register's bytes, any other count gives -EIO; a failure copies nothing |
| MemSlot.OtpOnlySlotReadsAsSet | drivers/mfd/wgw_ec_dev.c:370-393 | a slot whose flags are OTP without SET reads as success with state OTP, which is above SET, and value 0; so the product-model step at line 605 takes it as a written model 0 |
| MemSlot.SlotGetAsWrittenMismatch | drivers/mfd/wgw_ec_dev.c:323-327 | as written, a length mismatch returns the received count (>= 0) and copies nothing; corrected, it is -EIO |
| MemSlot.SlotGetAsWrittenOverrun | drivers/mfd/wgw_ec_dev.c:323-327 | declared 40 bytes, received 4: as written returns 4 with a slot length above the 32-byte buffer |
| MemSlot.MemSlotGetStr | drivers/mfd/wgw_ec_dev.c:334-368 | computes exactly SlotGetStr, which is built on the corrected read |
| MemSlot.SlotGetStrStates | drivers/mfd/wgw_ec_dev.c:334-368 | a read error gives state ERROR and "error"; more than STR_SIZE bytes gives -EIO; unset gives "undefined" with SET clear; set gives the data as text with SET; the OTP bit mirrors the OTP flag |
| MemSlot.MemSlotGetU8 | drivers/mfd/wgw_ec_dev.c:370-393 | computes exactly SlotGetU8, which is built on the corrected read |
| MemSlot.SlotGetU8States | drivers/mfd/wgw_ec_dev.c:370-393 | more than one byte gives -EIO with the caller's struct untouched; otherwise the state is the slot's flags and the value its byte |
| EcInfo.FwInfoGet | drivers/mfd/wgw_ec_dev.c:433-489 | computes exactly FwInfoGetSpec |
| EcInfo.FwInfoGetSound | drivers/mfd/wgw_ec_dev.c:433-489 | succeeds exactly when the version block has 6 bytes, the hash fewer than 16 and the date fewer than 32; it then holds the decoded version, its string and both texts |
| EcInfo.MainboardInfoGet | drivers/mfd/wgw_ec_dev.c:491-541 | computes exactly MainboardInfoGetSpec |
| EcInfo.MainboardInfoGetSound | drivers/mfd/wgw_ec_dev.c:491-541 | a hardware block other than 10 bytes, or a board other than L02_BASE_L1 or L02_BASE_L1_4G, gives -EIO; on success the base model is always L02_BASE_L1; conversely a 10-byte block naming a supported board returns exactly what the following fw_info_get returns |
| EcInfo.BootStateGet | drivers/mfd/wgw_ec_dev.c:543-553 | computes exactly BootStateGetSpec |
| EcInfo.BootStateGetNeverFails | drivers/mfd/wgw_ec_dev.c:543-553 | always returns 0; an unreadable register reads 0xFF |
| EcInfo.BootStateClrUpdate | drivers/mfd/wgw_ec_dev.c:556-566 | computes exactly BootStateClrUpdateSpec |
| EcInfo.BootStateClrUpdateWritesFirst | drivers/mfd/wgw_ec_dev.c:556-566 | writes 0xFF first; a failed write is returned with the old value kept, otherwise the register is read back |
| EcInfo.EcDev.FetchCacheInfo | drivers/mfd/wgw_ec_dev.c:569-680 | updates the cache fields exactly as FetchCacheInfoSpec says, over the corrected slot read, and releases the cache lock on every exit |
| EcInfo.EcDev.FetchProduct | drivers/mfd/wgw_ec_dev.c:603-644 | computes exactly FetchProductSpec, over the corrected slot read |
| EcInfo.EcDev.FetchVersionSerial | drivers/mfd/wgw_ec_dev.c:646-675 | computes exactly FetchVersionSerialSpec, over the corrected slot read |
| EcInfo.FetchRejectsProtocol | drivers/mfd/wgw_ec_dev.c:582-594 | a protocol other than 2 gives -EPROTO after the version is stored in the cache; nothing else is read |
| EcInfo.FetchModelFallbackUnreachable | drivers/mfd/wgw_ec_dev.c:604-614 | the Wifx L1 fallback needs an L01 mainboard, which mainboard_info_get already refused; so a failed model read, or a model slot whose state is below SET, always ends in -EIO |
| EcInfo.FetchSuccessConsistent | drivers/mfd/wgw_ec_dev.c:569-680 | a successful fetch leaves protocol 2, a supported mainboard, a model whose variant is in its table and named by it, and a serial that was read |
| EcInfo.FetchSucceeds | drivers/mfd/wgw_ec_dev.c:569-680 | protocol 2 with a mainboard read and a product step that both succeed gives ret 0 |
| EcInfo.FetchProductSucceeds | drivers/mfd/wgw_ec_dev.c:603-675 | set model and variant slots naming a variant in that model's table, with readable version and serial slots, give ret 0 |
| EcInfo.FetchProductConsistent | drivers/mfd/wgw_ec_dev.c:603-675 | the product step keeps the protocol and mainboard; on success the model and variant are consistent |
| EcInfo.FetchProductUsesSlots | drivers/mfd/wgw_ec_dev.c:615-617 | a readable, set model slot is taken as it is, with its name |
| EcInfo.EcDev.DisplayCacheInfo | drivers/mfd/wgw_ec_dev.c:682-754 | the corrected display: boot-state handling as written, with the cache lock released on every exit |
| EcInfo.DisplayCacheInfoBootState | drivers/mfd/wgw_ec_dev.c:730-749 | boot states 0 and 1 are kept with no transaction; any other is cleared with 0xFF, then read back |
| EcInfo.DisplayCacheInfoRefuses | drivers/mfd/wgw_ec_dev.c:690-705 | an unsupported product, or a mainboard variant below 0, gives -ENODEV before any transaction |
| EcInfo.DisplayCacheInfoAsWrittenKeepsLock | drivers/mfd/wgw_ec_dev.c:742-744 | as written, a failed clear returns -EIO with the cache lock still held |
| EcInfo.DisplayCacheInfoReleasesLock | drivers/mfd/wgw_ec_dev.c:682-754 | corrected, no exit holds the lock; otherwise it agrees with the code as written, which holds the lock exactly on a failed clear |
| Usbc.PowerModeToStr | drivers/mfd/wgw_ec_usbc.c:35-43 | a valid power mode (detached, source, sink) gives its own table entry; any other value gives "error" |
| Usbc.DataModeToStr | drivers/mfd/wgw_ec_usbc.c:45-52 | a valid data mode (device, host) gives its own table entry; any other value gives "error" |
| Usbc.ModeStrsDistinct | drivers/mfd/wgw_ec_usbc.c:35-52 | each valid mode has its own name, never "error" |
| Usbc.PowerModeGet | drivers/mfd/wgw_ec_usbc.c:54-74 | computes exactly PowerModeGetSpec |
| Usbc.PowerModeGetSound | drivers/mfd/wgw_ec_usbc.c:54-74 | only Detached, Source and Sink are accepted; a transport error is passed on; any other value gives -EIO |
| Usbc.DataModeGet | drivers/mfd/wgw_ec_usbc.c:76-95 | computes exactly DataModeGetSpec |
| Usbc.DataModeGetSound | drivers/mfd/wgw_ec_usbc.c:76-95 | only Device and Host are accepted; any failure, a transport error included, gives -EIO |
| Usbc.DataModeSet | drivers/mfd/wgw_ec_usbc.c:97-111 | computes exactly DataModeSetSpec |
| Usbc.DataModeSetSound | drivers/mfd/wgw_ec_usbc.c:97-111 | only Device and Host are written; any other mode gives -EINVAL with no transaction |
| Usbc.UsbcDev.Connect | drivers/mfd/wgw_ec_usbc.c:113-133 | updates the power mode, partner and Type-C record exactly as ConnectSpec says |
| Usbc.UsbcDev.Disconnect | drivers/mfd/wgw_ec_usbc.c:135-147 | updates them exactly as DisconnectSpec says |
| Usbc.ConnectDisconnectSound | drivers/mfd/wgw_ec_usbc.c:113-147 | connect is a no-op when a partner exists or the mode is Detached; disconnect is a no-op unless the mode is Detached, and then leaves no partner, the Detached mode and the sink role |
| Usbc.UsbcDev.DrSet | drivers/mfd/wgw_ec_usbc.c:149-163 | computes exactly DrSetSpec |
| Usbc.DrSetSound | drivers/mfd/wgw_ec_usbc.c:149-163 | the Type-C data role changes only after a successful register write |
| Usbc.UsbcDev.TrigNotify | drivers/mfd/wgw_ec_usbc.c:165-250 | updates the cached modes, partner, published events and EC exactly as TrigNotifySpec says |
| Usbc.TrigNotifyReadFails | drivers/mfd/wgw_ec_usbc.c:178-182 | a failed status read gives NOTIFY_DONE with no state change and no write-back |
| Usbc.DataBranchDedup | drivers/mfd/wgw_ec_usbc.c:184-203 | the data mode is cached, and one DATA_MODE_CHANGE published, exactly when it differs from the cache |
| Usbc.PowerBranchTransitions | drivers/mfd/wgw_ec_usbc.c:205-234 | one POWER_MODE_CHANGE exactly when the mode differs; the cache and partner follow only an attach from Detached with no partner, or a detach |
| Usbc.SourceToSinkNotCached | drivers/mfd/wgw_ec_usbc.c:205-234 | Source to Sink publishes an event, but the cached mode stays Source |
| Usbc.TrigNotifyWritesBack | drivers/mfd/wgw_ec_usbc.c:236-249 | the last write is the status byte that was read on success, or 0x07 when a mode read failed; the state is what the branches before the failure left |
| Usbc.TrigNotifyNullPayloads | drivers/mfd/wgw_ec_usbc.c:197-199 | every event the handler publishes carries a NULL payload |
| Usbc.StatusBit1ReadsDataMode | drivers/mfd/wgw_ec_usbc.c:184-185 | status 0x02 also enters the data branch, because the mask is the event code 3 |
| Usbc.AttachThenDetach | drivers/mfd/wgw_ec_usbc.c:205-234 | attaching as Source then detaching registers and drops the partner, ends Detached, and publishes two events |
| Usbc.UsbcDev.GetDataMode | drivers/mfd/wgw_ec_usbc.c:252-259 | returns the cached data mode |
| Usbc.UsbcDev.GetPowerMode | drivers/mfd/wgw_ec_usbc.c:262-269 | returns the cached power mode |
| LedTrigger.TrigData.EnableStore | drivers/leds/trigger/ledtrig-wgw-usbc.c:55-82 | updates `enabled` and the pending update exactly as EnableStoreSpec says |
| LedTrigger.EnableStoreAcceptsDecimal | drivers/leds/trigger/ledtrig-wgw-usbc.c:62-81 | any int at most 1 followed by "\n" is accepted, negatives included, and is stored as its low byte |
| LedTrigger.EnableShow | drivers/leds/trigger/ledtrig-wgw-usbc.c:42-53 | the decimal digits of `enabled` followed by a newline, 2 to 4 characters, whose digits read back as `enabled` |
| LedTrigger.EnableShowStoreRoundTrip | drivers/leds/trigger/ledtrig-wgw-usbc.c:42-82 | storing what the attribute shows for 0 or 1 gives back the same state |
| LedTrigger.EnableStoreRejects | drivers/leds/trigger/ledtrig-wgw-usbc.c:62-72 | -EINVAL exactly for anything but one int directly followed by "\n", or an int above 1; the state is then unchanged |
| LedTrigger.EnableStoreRejectsExamples | drivers/leds/trigger/ledtrig-wgw-usbc.c:62-72 | "2\n", "1" and "1 \n" are refused |
| LedTrigger.TrigData.Notify | drivers/leds/trigger/ledtrig-wgw-usbc.c:89-125 | updates `led_on` exactly as NotifySpec says; it needs a payload |
| LedTrigger.NotifySound | drivers/leds/trigger/ledtrig-wgw-usbc.c:101-124 | another device's event is ignored; DATA_MODE_CHANGE, DEVICE_PROBE and NOTIFIER_UPDATE set `led_on` exactly when the mode is Device; other events change nothing |
| LedTrigger.PublishedEventsLackPayload | drivers/leds/trigger/ledtrig-wgw-usbc.c:89-118 | every event the USB-C handler's notify step publishes (Usbc.TrigNotifySpec) has no payload, so none meets Notify's precondition that a payload is present; an attach publishes one such event |
| LedTrigger.TrigData.Work | drivers/leds/trigger/ledtrig-wgw-usbc.c:127-141 | sets the brightness exactly as WorkSpec says |
| LedTrigger.WorkSound | drivers/leds/trigger/ledtrig-wgw-usbc.c:136-140 | LED_FULL exactly when `led_on` and `enabled` are both set, LED_OFF otherwise |
| LedTrigger.TrigData.constructor | drivers/leds/trigger/ledtrig-wgw-usbc.c:214-216 | `led_on` and `enabled` both start at 0 |
| LedTrigger.LitOnlyWhenBothSet | drivers/leds/trigger/ledtrig-wgw-usbc.c:214-216 | after activation a Device event alone leaves the LED off; storing "1\n" then lights it |
| LedTrigger.Activate | drivers/leds/trigger/ledtrig-wgw-usbc.c:143-240 | the corrected activation: its return code and trigger data are ActivateSpec's |
| LedTrigger.ActivateAsWrittenSilentSuccess | drivers/leds/trigger/ledtrig-wgw-usbc.c:199-212 | as written, an incompatible source returns 0 with no trigger data attached |
| LedTrigger.ActivateSucceedsOnlyAttached | drivers/leds/trigger/ledtrig-wgw-usbc.c:143-240 | corrected, 0 exactly when the data is attached and the notifier is registered, and the data starts with both flags clear; it differs from the code as written only where that returns 0 without data |
| Chardev.Transfer | drivers/mfd/wgw_ec_chardev.c:79-111 | runs the size switch on the driver's copy exactly as TransferSpec says |
| Chardev.PktCmd | drivers/mfd/wgw_ec_chardev.c:39-128 | changes the caller's buffer and the EC exactly as PktCmdSpec says |
| Chardev.DataSize | drivers/mfd/wgw_ec_chardev.c:67-72 | the copied size is between 1 and the union size |
| Chardev.PktCmdRejects | drivers/mfd/wgw_ec_chardev.c:52-65 | a size other than BYTE, WORD or BLOCK data, or a direction other than READ or WRITE, gives -EINVAL before any transfer |
| Chardev.PktCmdOneTransaction | drivers/mfd/wgw_ec_chardev.c:79-121 | a valid request issues exactly one transaction; 0 exactly when the EC acknowledged it, else the transport error |
| Chardev.PktCmdErrorCopiesNothing | drivers/mfd/wgw_ec_chardev.c:118-127 | a failed transfer, and any write, leaves the caller's buffer unchanged |
| Chardev.PktCmdCopiesDataSize | drivers/mfd/wgw_ec_chardev.c:67-72 | a read copies back only the first 1, 2 or 34 bytes |
| Chardev.ByteReadResult | drivers/mfd/wgw_ec_chardev.c:80-83 | a byte read puts the byte first in the caller's buffer |
| Chardev.WordReadResult | drivers/mfd/wgw_ec_chardev.c:88-91 | a word read puts the low byte first, then the high byte |
| Chardev.SmallWritesSendDataSize | drivers/mfd/wgw_ec_chardev.c:74-94 | byte and word writes send exactly the first one or two bytes of the caller's buffer |
| Chardev.BlockWriteLength | drivers/mfd/wgw_ec_chardev.c:104-106 | the length byte, capped at 32 |
| Chardev.BlockWriteClamps | drivers/mfd/wgw_ec_chardev.c:103-109 | a block write sends min(block[0], 32) bytes taken from block[1..] |
| Chardev.BlockReadResult | drivers/mfd/wgw_ec_chardev.c:97-102 | a block read stores the received count in block[0], the bytes after it and zeros after them; an empty block leaves block[0] at 0 |
| Chardev.PktCmdLtr | drivers/mfd/wgw_ec_chardev.c:130-150 | computes exactly PktCmdLtrSpec and releases the LTR lock on both paths |
| Chardev.PktCmdLtrWaitsOnlyAfterSuccess | drivers/mfd/wgw_ec_chardev.c:139-149 | wait-ready runs only after the command succeeded, and its result is returned |
| Chardev.PktCmdLtrPolls | drivers/mfd/wgw_ec_chardev.c:139-149 | a successful command is followed by one to ten status polls and nothing else |
| Chardev.Ioctl | drivers/mfd/wgw_ec_chardev.c:155-195 | computes exactly IoctlSpec and leaves the LTR lock free |
| Chardev.IoctlDispatch | drivers/mfd/wgw_ec_chardev.c:164-194 | a type byte other than 0xEC gives -ENOTTY; an unknown number of type 0xEC gives 0; neither touches the EC |
| Chardev.IoctlNumbers | include/linux/mfd/wgw-ec/chardev.h:22-26 | the two commands are _IOW(0xEC, 1 or 2, 12 bytes) and carry type 0xEC |
| Leds.LedPriv.SetWork | drivers/leds/leds-wgw-ec.c:63-75 | issues exactly SetWorkSpec's word write |
| Leds.LedRegOffset | drivers/leds/leds-wgw-ec.c:73-74 | LED id is written at register 0x60 + id |
| Leds.LevelInverts | drivers/leds/leds-wgw-ec.c:69-74 | active-high writes b; active-low writes max - b; the two levels add up to max |
| Leds.LevelWrapsAboveMax | drivers/leds/leds-wgw-ec.c:69-72 | an active-low brightness above max wraps modulo 2^16 |
| Leds.LedPriv.Set | drivers/leds/leds-wgw-ec.c:77-85 | records the new brightness of that LED only and schedules that LED's work item |
| Leds.SetThenWork | drivers/leds/leds-wgw-ec.c:63-85 | after set, the work writes the new level to that LED's register, low byte first |
| Leds.NewLed | drivers/leds/leds-wgw-ec.c:95-109 | id = reg when reg >= 0, else the LED count (as a byte); initial brightness LED_OFF, or max when active-low |
| Leds.NewLedIsDark | drivers/leds/leds-wgw-ec.c:106-109 | a new LED writes level 0 whatever its polarity and whatever its u32 max-brightness |
| Leds.LedPriv.Add | drivers/leds/leds-wgw-ec.c:87-125 | fills slot num_leds and the counter exactly as AddSpec says |
| Leds.AddKeepsRegistered | drivers/leds/leds-wgw-ec.c:90-121 | num_leds grows only when registration succeeds; registered records are never touched; after a failure the next add reuses the same slot |
| Leds.HighRegTakesNextId | drivers/leds/leds-wgw-ec.c:95-99 | a reg of 2^31 or more reads as negative and takes the LED count as id |
| Leds.ConfigOf | drivers/leds/leds-wgw-ec.c:157-161 | a missing max-brightness defaults to LED_FULL |
| Leds.LedPriv.ProbeDt | drivers/leds/leds-wgw-ec.c:127-175 | the child loop computes exactly ProbeDtSpec |
| Leds.ProbeDtStopsAtFirstError | drivers/leds/leds-wgw-ec.c:137-168 | children are registered in order up to the first one missing a label, reg or default trigger, or failing to register; its error is returned |
| Leds.ProbeDtFillsSlots | drivers/leds/leds-wgw-ec.c:137-168 | when every child is complete and accepted, child i fills slot num_leds + i with its own configuration |
| Leds.LedPriv.Remove | drivers/leds/leds-wgw-ec.c:233-258 | the loop issues exactly RemoveSpec's writes and returns 0 |
| Leds.RemoveSwitchesOff | drivers/leds/leds-wgw-ec.c:241-255 | one write per registered LED and no more: 0 when active-high, max mod 2^16 when active-low, i.e. the level for LED_OFF, for any u32 max-brightness |

## Left out

- I2C and SMBus are not modelled: the EC is a script of replies. A write
  consumes a reply like a read does. The driver only tests the sign of
  write_block's return; the model returns the count sent, as core.h's
  comment says.
- Locks are modelled as ghost flags: `lock_ltr` and `cache_lock` are
  ghost fields used only to check that every exit releases them.
  Concurrency is not modelled: spin locks, delayed and scheduled work,
  `cancel_*_sync` and `msleep` between polls are left out. Scheduling work
  is recorded, not run: a `pending` flag in the trigger and a log of
  scheduled LEDs (`scheduled`) in the LED driver; running the work is a
  separate call (`Work`, `SetWork`).
- User copies cannot fault: copy_from_user and copy_to_user are plain
  in/out values, so their -EFAULT returns are not modelled.
- Allocations are not modelled: kzalloc and devm_kzalloc succeed, except
  the trigger's allocation, whose failure is a parameter.
- Kernel services are recorded effects or parameters. This covers the
  Type-C calls, led_set_brightness, led_classdev_register_ext,
  notifier registration and the device-tree lookups.
- Probe and remove of the EC device and the USB-C device are not
  modelled, nor init and exit, sysfs glue, or the IRQ dispatch in
  drivers/mfd/wgw_ec.c. The serial-number write path and notifier
  subscriber catch-up have no code in these files.
- Memory the C code leaves uninitialised reads as zero in the model. This
  covers a short block read and the slot structs inside
  mem_slot_get_str/_u8.
- MemSlot.MemSlotGet: models the corrected slot read, not the code as
  written. A block whose length differs from the declared one gives -EIO
  here; the source returns the received count, and mem_slot_get_str,
  mem_slot_get_u8 and fetch_cache_info take that as success. Every member
  built on it (MemSlotGetStr, MemSlotGetU8, FetchCacheInfo and its steps)
  diverges from the code as written on that input. The first Findings row
  and SlotGetAsWrittenMismatch record the written behaviour.
- snprintf truncation is not modelled; EcTables.HwVersionStr and
  EcTables.FwVersionStr prove every formatted version shorter than the
  32-byte buffers.
- Tuple ids are unbounded ints. The u8 variant slot value reaches
  model_variant_index as a byte.
- The ioctl numbers assume a 32-bit address size: struct i2c_smbus_ioctl_data is
  12 bytes, as on the 32-bit ARM boards. The union layout also assumes a
  little-endian host: a word read lands in the caller's buffer low byte
  first (Chardev.Transfer, Chardev.WordReadResult).
- Usbc.UsbcDev.TrigNotify: events carry no payload (`None`), as the code
  publishes them. Feeding them to the trigger's Notify is excluded by its
  precondition rather than modelled as a fault.
- LedTrigger.Activate: the trigger data allocated before an early failure
  is leaked in the source. The model does not track that memory.
- LedTrigger.EnableStore: the parsed int is modelled with the kernel's
  vsscanf rules as understood here: leading white space is skipped, only
  '-' is a sign, and the value wraps to 32 bits. Base prefixes and field
  widths are not modelled.
- Leds.LedPriv.ProbeDt: node reference counting is not modelled
  (of_node_get and of_node_put).

## Findings

| source | as written | input that shows it | evidently intended | confidence | as-written member | corrected member |
|---|---|---|---|---|---|---|
| drivers/mfd/wgw_ec_dev.c:323-327 | a data block whose length differs from the control register's returns the received count, which callers take as success with the declared length | control replies [1, 40], data reply of 4 bytes: returns 4 while the slot length is 40, more than its 32-byte buffer | -EIO, as the error message says | high (not executed) | MemSlot.SlotGetAsWrittenOverrun | MemSlot.SlotGetSound |
| drivers/mfd/wgw_ec_dev.c:742-744 | a failed boot-state clear returns without releasing `cache_lock` | a supported product with boot state 0x05 whose 0xFF write fails: -EIO with the lock held | release the lock on every exit | high (not executed) | EcInfo.DisplayCacheInfoAsWrittenKeepsLock | EcInfo.DisplayCacheInfoReleasesLock |
| drivers/leds/trigger/ledtrig-wgw-usbc.c:199-212 | an incompatible trigger source, or one with no device, exits with `ret` still 0 from the phandle parse | a single trigger source that is not "wifx,wgw-ec-usbc": returns 0 with no trigger data attached | an error (-ENODEV, the function's initial `ret`) | high (not executed) | LedTrigger.ActivateAsWrittenSilentSuccess | LedTrigger.ActivateSucceedsOnlyAttached |
