# Pow: a model of the NES and SNES emulator core

Pow is a JavaScript emulator for the Nintendo Entertainment System and the
Super Nintendo. This project models its core in Dafny and proves properties
of the model:

- ROM loading: detecting the system, iNES headers (both the ES-module and the
  CommonJS parser), SNES header scoring and copier headers, and normalising
  system names;
- the NES side: mappers 0 (NROM), 2 (UxROM) and 3 (CNROM), the cartridge, the
  controller, the APU register file, the PPU registers, timing and memories,
  and the CPU bus with RAM mirroring and OAM DMA;
- the SNES side: the cartridge's LoROM/HiROM/SRAM address resolution, the
  serial controller, and the system bus: its address decoding with work RAM
  and the WRAM port, the multiplier and divider, general DMA, HDMA, the H/V
  timer IRQ and the auto-joypad poll, as functions on a value of the bus
  (module `SnesBus`) and the class `SNESBus` proved against them (module
  `SnesSystemBus`);
- the 6502 processor: the instruction semantics as functions (module
  `Mos6502`) and the interpreter class that follows them (module `Cpu6502`)
  over the processor's view of the bus (module `CpuBus`);
- the 65816 processor of the SNES: its registers, widths invariant,
  addressing modes, binary and decimal arithmetic, stack, interrupts, block
  moves and snapshots as functions (module `Wdc65816`), and the interpreter
  class `CPU65816` that follows them over the same bus view (module
  `Cpu65816`);
- the SNES PPU (module `SnesPpu`): its register ports with VRAM address
  remapping, CGRAM and OAM, the timing of vblank and NMI, scanline latches,
  snapshots, and the window, colour math, tile and palette functions the
  renderer composes its pixels from;
- the NES and SNES kernels: the frame loop with its iteration guard (module
  `Kernel`), and the classes `NESKernel` (module `NesKernel`) and
  `SNESKernel` (module `SnesKernel`), which load a ROM, reset, run frames,
  route button presses, and save and restore the machine. A kernel's machine
  is a value it reaches only through the calls it makes on it (`Machine`: boot,
  step, clock, the PPU's frame counter and buffer, the controllers, each
  part's saveState and loadState);
- the ring-buffer audio queue of the web front end.

The source's objects become classes. Their typed arrays are `array<byte>`
fields, and their methods carry `modifies` clauses and spell out the new
state. The NES PPU keeps its sixteen number and flag fields together in one
record field, `regs`, so each of its methods states the new register file as
one record update. Pure helpers become functions whose contracts state what their results
mean. Bit operations on JavaScript numbers are written out:

- `x & 0xff` is `x % 0x100`;
- a shift by `k` is a division by `2^k`;
- an operation between two variables goes through `Bits.And`, `Bits.Or` and
  `Bits.Xor`, which are proved bit by bit.

Reading a typed array out of range gives `undefined`, which the source then
masks. The model gives 0 in that case. Thrown exceptions become `Result`
values or an `Outcome` carrying a `RangeError` or a plain `Error` with the
source's message.

## Model

| member | source | states |
|---|---|---|
| Checksum.ToUint32 | src/shared/nintendo/checksum.mjs:4-6 | `(sum + value) >>> 0` keeps every partial sum in [0, 2^32) |
| Checksum.Checksum32 | src/shared/nintendo/checksum.mjs:1-9 | the loop computes the wrapped sum of all values; it is below 2^32 and 0 for no values |
| Checksum.ChecksumAppend | src/shared/nintendo/checksum.mjs:3-7 | appending a value adds it, wrapped to 32 bits, to the previous checksum |
| Checksum.TotalRemove | src/shared/nintendo/checksum.mjs:3-7 | removing one element takes exactly its contribution out of the total |
| Checksum.TotalPermutation | src/shared/nintendo/checksum.mjs:3-7 | two sequences with the same multiset of values have the same total |
| Checksum.ChecksumPermutation | src/shared/nintendo/checksum.mjs:1-9 | the checksum does not depend on the order of the values |
| RomBuffer.ReadAscii | src/shared/nintendo/rom-buffer.mjs:23-37 | the loop stops at the first NUL or at the end of the bytes and returns the characters read so far |
| RomBuffer.AsciiFieldShape | src/shared/nintendo/rom-buffer.mjs:23-37 | the field holds no NUL, is at most `length` long, and each character is the byte at its offset |
| RomBuffer.AsciiFieldWithinArray | src/shared/nintendo/rom-buffer.mjs:26-34 | a non-empty field lies inside the byte array |
| Systems.NormalizeNintendoSystem | src/shared/nintendo/systems.mjs:6-21 | the result is a system exactly when the trimmed, lower-cased text of the argument is one of the system names, and that system's name is that text; otherwise it is the RangeError `Unsupported system "<argument>". Use: nes or snes.`, with `undefined` and `null` spelt out for those arguments |
| Systems.UndefinedRefused | src/shared/nintendo/systems.mjs:6-21 | an undefined argument is refused with the message naming `undefined` |
| Systems.NullRefused | src/shared/nintendo/systems.mjs:6-21 | a null argument is refused with the message naming `null` |
| Systems.AcceptsPaddedName | src/shared/nintendo/systems.mjs:6-21 | a system name in any letter case, padded with whitespace, normalises to that system |
| Systems.RejectsOtherNames | src/shared/nintendo/systems.mjs:16-20 | a text that is no system's name after trimming and lower-casing is refused with a RangeError |
| Systems.NormalizeIdempotent | src/shared/nintendo/systems.mjs:6-21 | feeding a normalised name back in gives the same system |
| SystemDetect.HasINESMagic | src/core/system-detect.mjs:7-19 | the loop answers yes exactly when the ROM starts with `NES\x1A` |
| SystemDetect.DetectNintendoSystem | src/core/system-detect.mjs:21-36 | an iNES image is NES; otherwise SNES exactly when an SNES header parses; any other image fails with the source's message |
| SystemDetect.ShortNonINESUnsupported | src/core/system-detect.mjs:21-36 | an image shorter than 32 KiB without the iNES magic is refused |
| INes.MapperNumber | src/core/ines.mjs:42 | the mapper id's high nibble is flags 7's and its low nibble is flags 6's high nibble |
| INes.MirroringCases | src/core/ines.mjs:62-66 | four-screen when bit 3 of flags 6 is set, otherwise vertical exactly when bit 0 is set |
| INes.ParseINESHeader | src/core/ines.mjs:20-78 | the too-small and bad-magic errors with their messages; on success the format comes from flags 7, mirroring, trainer and battery from flags 6, the mapper from both, the bank counts from bytes 4 and 5, the PRG RAM banks are max(byte 8, 1), and the image is large enough |
| INes.ParseAccepts | src/core/ines.mjs:20-78 | the parser succeeds exactly when the image has 16 bytes, the magic, and the trainer, PRG and CHR sizes it announces |
| INes.SplitINESRom | src/core/ines.mjs:80-93 | errors pass through; on success the PRG and CHR slices are the consecutive bytes from the ROM data offset on, with the header's sizes |
| INes.ZeroHeaderHasNoMagic | src/core/ines.mjs:27-31 | sixteen zero bytes fail with "Invalid iNES header magic." |
| INesCjs.ParseINESHeader | src/core/ines.js:21-80 | the CommonJS parser's own error messages and the header it returns |
| INesCjs.AgreesWithModuleParser | src/core/ines.js:21-80 | the CommonJS parser accepts exactly the images the module parser accepts, and both report the same sizes, mapper and mirroring |
| Smc.ScoreCandidate | src/core/snes/smc.mjs:42-81 | the loop over the title computes the heuristic score of a header candidate |
| Smc.ScoreBounds | src/core/snes/smc.mjs:42-81 | a score lies in 0..19; the checksum earns 8 exactly when checksum and complement are inverses; the title earns 4 exactly when at least 16 of its 21 characters are printable |
| Smc.ParseCandidate | src/core/snes/smc.mjs:83-128 | the metadata keeps the offset and layout, reports a copier header when there is one, and decodes the ROM and SRAM size codes as powers of two |
| Smc.ParseSNESHeader | src/core/snes/smc.mjs:130-175 | the method computes the header the specification function chooses |
| Smc.CollectCandidates | src/core/snes/smc.mjs:141-161 | the loop keeps exactly the candidates whose window fits the image |
| Smc.FirstBest | src/core/snes/smc.mjs:167-172 | the loop finds the first candidate of highest score |
| Smc.Best | src/core/snes/smc.mjs:167-172 | the chosen candidate is one of those offered and none scores higher |
| Smc.SNESHeader | src/core/snes/smc.mjs:130-175 | too short an image fails with a RangeError; a header is chosen only when its window fits and it scores at least 7 |
| Smc.SplitSMCRom | src/core/snes/smc.mjs:177-186 | errors pass through; on success the ROM is the image without its copier header |
| Smc.CopierOfParsed | src/core/snes/smc.mjs:34-36 | a parsed header records a copier header of 512 bytes exactly when the image length is 0x200 past a 1 KiB boundary |
| Smc.ChosenCandidateIsBest | src/core/snes/smc.mjs:141-172 | the chosen header scores at least as high as each candidate whose window fits |
| Smc.TieKeepsLoROM | src/core/snes/smc.mjs:167-172 | when both candidates fit and score the same, the LoROM one is kept |
| Smc.LowScoresRefused | src/core/snes/smc.mjs:167-172 | when every fitting candidate scores below 7 the image is refused with the heuristics message |
| Smc.SmallestImageHasNoHeader | src/core/snes/smc.mjs:141-165 | a 32 KiB image without a copier header has no candidate window that fits, so it is refused |
| NesController.ButtonBit | src/core/controller.js:1-17 | a name maps to its index in the button order exactly when its upper-cased form is a button |
| NesController.Controller.SetButton | src/core/controller.js:24-43 | an unknown button is a RangeError; a known one sets or clears its bit and reloads the shift register while strobing |
| NesController.Controller.Write | src/core/controller.js:45-51 | the strobe becomes bit 0 of the value, and strobing reloads the shift register |
| NesController.Controller.Read | src/core/controller.js:53-61 | while strobing the A button is reported and nothing shifts; otherwise bit 0 is reported and a 1 is shifted in at the top; every value has bit 6 set |
| NesController.Controller.SaveState | src/core/controller.js:63-69 | the snapshot is the three registers |
| NesController.Controller.LoadState | src/core/controller.js:71-75 | the registers are the snapshot's, masked to their widths |
| NesController.WithButtonBits | src/core/controller.js:32-40 | pressing or releasing changes only the button's own bit |
| NesController.ShiftedBits | src/core/controller.js:57-59 | after n reads bit j holds old bit j+n, or 1 past the end |
| NesController.ReadSerial | src/core/controller.js:53-61 | n reads report the eight latched buttons in order, then 1 forever |
| NesController.Poll | src/core/controller.js:45-61 | writing 1 then 0 and reading n times reports the current buttons in order, then 1 |
| NesController.PressedButtonIsReported | src/core/controller.js:24-61 | a pressed button is reported as 1 at its position |
| NesController.UnknownNameRefused | src/core/controller.js:24-33 | any capital-letter name that is not a button, with any white space around it, is refused |
| NesController.TurboRefused | src/core/controller.js:24-33 | `TURBO` is refused |
| NesController.SaveLoadRoundTrip | src/core/controller.js:63-75 | loading a saved state leaves the controller unchanged |
| SnesController.ButtonIndex | src/core/snes/controller.mjs:1-24 | a trimmed, upper-cased name maps to its index in the button order, and only button names do |
| SnesController.SerialBitAt | src/core/snes/controller.mjs:120-128 | a serial bit is 0 or 1 |
| SnesController.AutoJoypadWordBits | src/core/snes/controller.mjs:26-36 | bit 15-i of the auto-joypad word is button bit i, and the low four bits are clear |
| SnesController.ToAutoJoypadWord | src/core/snes/controller.mjs:26-36 | the loop builds the auto-joypad word, so bit 15-i is button bit i and the low four bits are clear |
| SnesController.SNESController.SetButton | src/core/snes/controller.mjs:46-64 | an unknown button is refused; a known one sets or clears its bit in the current mask |
| SnesController.SNESController.GetLatchedState | src/core/snes/controller.mjs:66-68 | the auto-joypad word of the latched mask |
| SnesController.SNESController.Latch | src/core/snes/controller.mjs:70-73 | the current mask is latched and the shift index restarts |
| SnesController.SNESController.SetStrobe | src/core/snes/controller.mjs:75-85 | raising the strobe, or holding it, latches the current mask |
| SnesController.SNESController.ReadSerialBit | src/core/snes/controller.mjs:87-102 | while strobing the B button is reported; otherwise the next latched bit, and 1 once all 16 are read |
| SnesController.SNESController.SaveState | src/core/snes/controller.mjs:104-111 | the snapshot is the four fields |
| SnesController.SNESController.LoadState | src/core/snes/controller.mjs:113-118 | missing latched mask and shift index default to the current mask and 0 |
| SnesController.WithButtonBits | src/core/snes/controller.mjs:58-62 | a button change touches only its own bit |
| SnesController.ReadSerial | src/core/snes/controller.mjs:87-102 | n reads report the latched stream from the current index on |
| SnesController.LatchAndRead | src/core/snes/controller.mjs:70-102 | after a latch the reads report the 12 buttons, then four 0s, then 1 |
| SnesController.LatchedWordExample | src/core/snes/controller.mjs:26-36 | a controller with B, START, A and R held latches the word with bits 15, 12, 7 and 4 set |
| SnesController.SerialExample | test/snes-controller.test.mjs:1-62 | the serial stream of that controller, its live bit while strobing and the 1 after the stream |
| SnesController.SaveLoadRoundTrip | src/core/snes/controller.mjs:104-118 | loading a saved state leaves the controller unchanged |
| AudioQueue.AudioQueue.Clear | web/app.mjs:53-57 | the queue holds no samples |
| AudioQueue.AudioQueue.Push | web/app.mjs:59-67 | a sample is appended; on a full queue the new sample is dropped and nothing changes |
| AudioQueue.AudioQueue.Pull | web/app.mjs:69-78 | the oldest sample is removed and returned; an empty queue gives 0 |
| AudioQueue.FifoOrder | web/app.mjs:53-78 | samples come out in the order they were pushed |
| MapperBase.PrgRamWrite | src/core/mappers/mapper-000-nrom.js:20-24 | a PRG RAM write changes exactly the addressed byte, to the value masked to 8 bits |
| MapperBase.MapperBase.CpuRead | src/core/mappers/mapper-base.mjs:6-8 | the base mapper reads 0 everywhere |
| MapperBase.MapperBase.PpuRead | src/core/mappers/mapper-base.mjs:14-16 | the base mapper reads 0 everywhere |
| MapperBase.MapperBase.SaveState | src/core/mappers/mapper-base.mjs:22-24 | the base mapper saves no bank registers |
| MapperNrom.MapperNROM.CpuRead | src/core/mappers/mapper-000-nrom.js:4-18 | PRG RAM at 0x6000-0x7FFF, 16 KiB PRG mirrored or 32 KiB PRG at 0x8000, otherwise 0 |
| MapperNrom.MapperNROM.CpuWrite | src/core/mappers/mapper-000-nrom.js:20-24 | only PRG RAM changes |
| MapperNrom.MapperNROM.PpuRead | src/core/mappers/mapper-000-nrom.js:26-32 | CHR below 0x2000, otherwise 0 |
| MapperNrom.MapperNROM.PpuWrite | src/core/mappers/mapper-000-nrom.js:34-38 | CHR changes only when it is RAM and the address is below 0x2000 |
| MapperNrom.SixteenKiBMirrored | src/core/mappers/mapper-000-nrom.js:12-15 | 16 KiB of PRG is mirrored at 0xC000 |
| MapperNrom.WriteThenRead | src/core/mappers/mapper-000-nrom.js:4-24 | a PRG RAM write reads back |
| MapperUxrom.MapperUxROM.CpuRead | src/core/mappers/mapper-002-uxrom.mjs:6-26 | the selected bank at 0x8000, the last bank at 0xC000, PRG RAM below, 0 when there is no whole bank |
| MapperUxrom.MapperUxROM.CpuWrite | src/core/mappers/mapper-002-uxrom.mjs:28-37 | PRG RAM writes store; writes from 0x8000 select bank `value & 0x0f` |
| MapperUxrom.MapperUxROM.PpuRead | src/core/mappers/mapper-002-uxrom.mjs:39-45 | CHR below 0x2000, otherwise 0 |
| MapperUxrom.MapperUxROM.PpuWrite | src/core/mappers/mapper-002-uxrom.mjs:47-51 | CHR RAM writes below 0x2000 only |
| MapperUxrom.MapperUxROM.SaveState | src/core/mappers/mapper-002-uxrom.mjs:53-57 | the snapshot holds the bank select |
| MapperUxrom.MapperUxROM.LoadState | src/core/mappers/mapper-002-uxrom.mjs:59-61 | a missing bank select becomes 0; the value is masked to 8 bits |
| MapperUxrom.FixedBankIgnoresSelect | src/core/mappers/mapper-002-uxrom.mjs:19-24 | 0xC000-0xFFFF always reads the last bank |
| MapperUxrom.WindowsInsideImage | src/core/mappers/mapper-002-uxrom.mjs:13-24 | both windows stay inside the PRG image |
| MapperUxrom.SelectThenRead | src/core/mappers/mapper-002-uxrom.mjs:6-37 | after selecting a bank, 0x8000-0xBFFF reads that bank modulo the bank count |
| MapperUxrom.SaveLoadRoundTrip | src/core/mappers/mapper-002-uxrom.mjs:53-61 | loading a saved state keeps the bank select |
| MapperCnrom.MapperCNROM.CpuRead | src/core/mappers/mapper-003-cnrom.mjs:6-20 | PRG RAM, PRG ROM mirrored when 16 KiB, otherwise 0 |
| MapperCnrom.MapperCNROM.CpuWrite | src/core/mappers/mapper-003-cnrom.mjs:22-31 | writes from 0x8000 select CHR bank `value & 0x03` |
| MapperCnrom.MapperCNROM.PpuRead | src/core/mappers/mapper-003-cnrom.mjs:33-40 | the selected 8 KiB CHR bank, 0 past the CHR data |
| MapperCnrom.MapperCNROM.PpuWrite | src/core/mappers/mapper-003-cnrom.mjs:42-47 | CHR RAM writes go into the selected bank |
| MapperCnrom.MapperCNROM.SaveState | src/core/mappers/mapper-003-cnrom.mjs:49-53 | the snapshot holds the CHR bank |
| MapperCnrom.MapperCNROM.LoadState | src/core/mappers/mapper-003-cnrom.mjs:55-57 | a missing CHR bank becomes 0 |
| MapperCnrom.OtherBankWritesDropped | src/core/mappers/mapper-003-cnrom.mjs:42-47 | with CHR RAM and a bank other than 0 selected, a CHR write past the 8 KiB array changes nothing |
| MapperCnrom.SelectThenRead | src/core/mappers/mapper-003-cnrom.mjs:22-40 | after selecting a bank the PPU reads from that bank |
| MapperCnrom.SaveLoadRoundTrip | src/core/mappers/mapper-003-cnrom.mjs:49-57 | loading a saved state keeps the CHR bank |
| NesCartridge.MapperFor | src/core/cartridge.mjs:9-13 | only mappers 0, 2 and 3 are supported, each by its own class |
| NesCartridge.Cartridge.CpuWrite | src/core/cartridge.mjs:43-45 | the 16-bit address goes to the mapper: PRG RAM or the bank register changes as that mapper says |
| NesCartridge.Cartridge.PpuWrite | src/core/cartridge.mjs:51-53 | the 14-bit address goes to the mapper; only CHR RAM can change |
| NesCartridge.Cartridge.SaveState | src/core/cartridge.mjs:55-61 | the snapshot is PRG RAM, CHR when it is RAM, and the mapper's registers |
| NesCartridge.Cartridge.LoadState | src/core/cartridge.mjs:63-71 | too large a PRG RAM snapshot is a RangeError; CHR is restored only for CHR RAM; the mapper registers are reloaded |
| NesCartridge.NewCartridge | src/core/cartridge.mjs:16-37 | parse errors and unsupported mappers are errors; on success the memories are the split image, CHR RAM of 8 KiB when the image has no CHR ROM, and zeroed PRG RAM of max(the header's PRG RAM bytes, 8 KiB) |
| NesCartridge.NewMemory | src/core/cartridge.mjs:19-26 | CHR is the CHR ROM, or 8 KiB of zeroed CHR RAM when there is none, and PRG RAM is at least 8 KiB of zeros |
| NesCartridge.NewMapper | src/core/cartridge.mjs:28-36 | a fresh mapper of the header's kind over this cartridge, its bank register 0 |
| NesCartridge.CpuAddressWraps | src/core/cartridge.mjs:39-41 | CPU addresses are taken modulo 0x10000 |
| NesCartridge.PpuAddressWraps | src/core/cartridge.mjs:47-49 | PPU addresses are taken modulo 0x4000 |
| NesCartridge.SaveLoadRoundTrip | src/core/cartridge.mjs:55-71 | loading a saved state leaves memories and mapper registers unchanged |
| SnesCartridge.NormalizeOffset | src/core/snes/cartridge.mjs:3-9 | 0 for an empty memory, otherwise the offset wrapped into it |
| SnesCartridge.LoROMOffset | src/core/snes/cartridge.mjs:62-72 | mapped exactly in the upper half or in bank class 0x40-0x7D, 32 KiB per bank |
| SnesCartridge.HiROMOffset | src/core/snes/cartridge.mjs:75-84 | 64 KiB per bank, unmapped only past the ROM end below 0x8000 in banks 0x00-0x3F |
| SnesCartridge.SRAMOffset | src/core/snes/cartridge.mjs:86-122 | where battery RAM maps for each layout, always inside it |
| SnesCartridge.CartridgeByte | src/core/snes/cartridge.mjs:19-35 | SRAM first, then ROM, then the unmapped value 0xFF |
| SnesCartridge.SramAfterWrite | src/core/snes/cartridge.mjs:38-48 | only the SRAM byte the address maps to changes; elsewhere the write is dropped |
| SnesCartridge.SNESCartridge.Write | src/core/snes/cartridge.mjs:38-48 | the battery RAM becomes `SramAfterWrite` of the old one |
| SnesCartridge.SNESCartridge.LoadState | src/core/snes/cartridge.mjs:124-136 | a missing SRAM snapshot, or one of another length, is ignored |
| SnesCartridge.NewSNESCartridge | src/core/snes/cartridge.mjs:11-17 | the image without its copier header, and zeroed SRAM of the header's size |
| SnesCartridge.LoROMBanksMirror | src/core/snes/cartridge.mjs:62-72 | LoROM banks b and b+0x80 resolve alike |
| SnesCartridge.LoROMUpperHalfMirror | src/core/snes/cartridge.mjs:19-35 | LoROM banks b and b+0x80 read the same byte in their upper half |
| SnesCartridge.HiROMBanksMirror | src/core/snes/cartridge.mjs:75-84 | HiROM banks b and b+0x80 resolve alike |
| SnesCartridge.WriteThenRead | src/core/snes/cartridge.mjs:19-48 | an SRAM write reads back |
| SnesCartridge.SaveLoadRoundTrip | src/core/snes/cartridge.mjs:124-136 | saved SRAM loads back unchanged |
| TypedArray.SetContents | src/core/apu.mjs:30-33 | `set` copies the source, masked to bytes, over the front and keeps the rest |
| TypedArray.Set | src/core/apu.mjs:30-33 | a source longer than the array is a RangeError that changes nothing |
| Apu.APU.ReadStatus | src/core/apu.mjs:11-13 | the status is register 0x15 |
| Apu.APU.WriteRegister | src/core/apu.mjs:15-21 | a write inside 0x4000-0x4017 stores the low byte; others are ignored |
| Apu.APU.LoadState | src/core/apu.mjs:30-33 | too many registers is a RangeError; otherwise the registers are copied in and the cycle is wrapped to 32 bits |
| Apu.StatusReadsBackLastWrite | src/core/apu.mjs:11-21 | writing 0x4015 is what the status read reports |
| Apu.SaveLoadRoundTrip | src/core/apu.mjs:23-33 | a save loads back unchanged while the cycle is below 2^32 |
| NesPpu.VramIncrement | src/core/ppu.mjs:390-392 | 32 when bit 2 of PPUCTRL is set, else 1 |
| NesPpu.TableSlot | src/core/ppu.mjs:398-407 | four-screen keeps the table, vertical mirroring keeps its low bit and horizontal mirroring its high bit |
| NesPpu.NameTableIndex | src/core/ppu.mjs:394-408 | every name-table address lands inside the 4 KiB of VRAM |
| NesPpu.NameTableAt | src/core/ppu.mjs:394-408 | an address 0x2000 + offset lands at the mirrored table's slot plus the offset within its 1 KiB table |
| NesPpu.PaletteIndex | src/core/ppu.mjs:410-424 | palette addresses repeat every 32 bytes, and 0x10, 0x14, 0x18 and 0x1C alias the entries 16 below |
| NesPpu.TempAfterCtrl | src/core/ppu.mjs:318-319 | a PPUCTRL write puts its name-table bits into bits 10-11 of the temporary address |
| NesPpu.TempAfterScrollX | src/core/ppu.mjs:348-352 | the first PPUSCROLL write sets coarse X |
| NesPpu.TempAfterScrollY | src/core/ppu.mjs:353-359 | the second PPUSCROLL write sets coarse and fine Y |
| NesPpu.TempAfterAddressHigh | src/core/ppu.mjs:365-369 | the first PPUADDR write sets the high six bits |
| NesPpu.TempAfterAddressLow | src/core/ppu.mjs:370-374 | the second PPUADDR write sets the low byte |
| NesPpu.StatusAfterSprite0 | src/core/ppu.mjs:124-140 | the sprite-0 hit flag is set once and stays |
| NesPpu.TickAdvancesOneDot | src/core/ppu.mjs:77-122 | each tick advances one dot, wrapping lines at 341 dots and frames at 262 lines |
| NesPpu.TickFlags | src/core/ppu.mjs:91-103 | vertical blank starts at line 241, dot 1 and the status clears at line 261, dot 1 |
| NesPpu.PPU.Tick | src/core/ppu.mjs:77-122 | the registers after one dot, and an NMI exactly at the start of vertical blank when enabled |
| NesPpu.PPU.Clock | src/core/ppu.mjs:71-75 | the dot position advances by the cycle count modulo the frame, and an NMI is raised exactly when a vertical-blank start is passed with NMI enabled |
| NesPpu.PPU.ReadRegister | src/core/ppu.mjs:272-308 | PPUSTATUS clears vertical blank and the write toggle; OAMDATA reads OAM; PPUDATA returns the buffer and advances the address; others give the open bus |
| NesPpu.PPU.WriteRegister | src/core/ppu.mjs:310-383 | the registers follow RegistersAfterWrite; enabling NMI inside vertical blank raises one; OAMDATA and PPUDATA store where they point |
| NesPpu.PPU.WriteVram | src/core/ppu.mjs:441-457 | a write reaches CHR RAM, a mirrored name table or the palette, and nothing else |
| NesPpu.PPU.WriteOamDma | src/core/ppu.mjs:385-388 | the byte goes to OAM at OAMADDR, which then advances |
| NesPpu.PPU.SaveState | src/core/ppu.mjs:463-489 | the snapshot holds the registers and copies of every memory |
| NesPpu.PPU.LoadState | src/core/ppu.mjs:491-521 | the load succeeds exactly when every saved memory fits; then every register and memory is restored; a failed load has already restored every register but the dot position, frame counter and frame flag |
| NesPpu.WriteToggleAlternates | src/core/ppu.mjs:347-376 | PPUSCROLL and PPUADDR writes flip the write toggle; PPUSTATUS reads reset it |
| NesPpu.AddressWritePair | src/core/ppu.mjs:364-376 | two PPUADDR writes set the VRAM address to high six bits and low byte |
| NesPpu.ScrollWritePair | src/core/ppu.mjs:347-362 | two PPUSCROLL writes set fine X, coarse X and Y |
| NesPpu.DotIndexAtVblankStart | src/core/ppu.mjs:91-97 | the dot index lands on the vertical-blank start exactly at line 241, dot 1 |
| NesPpu.PassesVblankStartIff | src/core/ppu.mjs:71-75 | passing the vertical-blank start means some dot in the interval is that dot of a frame |
| NesPpu.FramePassesVblankStart | src/core/ppu.mjs:71-75 | a whole frame of dots always passes the vertical-blank start |
| NesPpu.VerticalMirroring | src/core/ppu.mjs:403-405 | vertical mirroring maps 0x2000 and 0x2800 together |
| NesPpu.HorizontalMirroring | src/core/ppu.mjs:407 | horizontal mirroring maps 0x2000 and 0x2400 together |
| NesPpu.FourScreenAndUpperMirror | src/core/ppu.mjs:394-408 | four-screen keeps all four tables apart, and 0x3000 mirrors 0x2000 in every mode |
| NesPpu.PaletteMirrors | src/core/ppu.mjs:410-424 | the palette repeats every 32 bytes and sprite colour 0 entries alias background ones |
| NesPpu.WriteAddressTwice | src/core/ppu.mjs:364-376 | writing PPUADDR twice sets the VRAM address and resets the toggle |
| NesPpu.StatusReadResetsToggle | src/core/ppu.mjs:275-281 | a status read resets the toggle and keeps the temporary address's low byte |
| NesPpu.BufferedRead | src/core/ppu.mjs:289-305 | PPUDATA reads lag one byte behind through the read buffer |
| NesBus.ReadTargetOf | src/core/bus.js:19-47 | RAM below 0x2000 mirrored every 2 KiB, PPU ports to 0x3FFF mirrored every 8, APU status, joypads, and the cartridge from 0x4020 |
| NesBus.WriteTargetOf | src/core/bus.js:49-87 | RAM, PPU ports, APU registers, OAM DMA at 0x4014, the joypad strobe at 0x4016 and the cartridge from 0x4020 |
| NesBus.DmaSlot | src/core/bus.js:89-98 | OAM DMA fills slots from OAMADDR on, wrapping at 256 |
| NesBus.Bus.Read | src/core/bus.js:19-47 | the value the read target gives; only PPU ports and joypads change state |
| NesBus.Bus.Write | src/core/bus.js:49-87 | each target changes only its own device: RAM, PPU, APU, OAM DMA with its stall, the controllers' strobe or the cartridge |
| NesBus.Bus.DoOamDma | src/core/bus.js:89-98 | 256 bytes of the page go to OAM from OAMADDR on, OAMADDR ends where it began, and the CPU stalls 513 cycles plus one on odd cycles |
| NesBus.Bus.Clock | src/core/bus.js:100-104 | the CPU and APU count cycles, the PPU runs three dots per cycle, and an NMI becomes pending when a vertical-blank start is passed with NMI enabled |
| NesBus.Bus.ConsumeStallCycles | src/core/bus.js:106-110 | the stall count is returned and cleared |
| NesBus.Bus.StorePpu | src/core/bus.js:58-61 | a PPU port write updates the PPU registers and raises the NMI latch exactly when it enables NMI during vertical blank |
| NesBus.Bus.StorePort | src/core/bus.js:63-82 | APU writes change one APU register, DMA and joypad writes leave the APU alone, and only DMA touches OAM |
| NesBus.Bus.DmaStep | src/core/bus.js:92-95 | one DMA transfer copies the next byte to OAM and moves OAMADDR on by one, modulo 256 |
| NesBus.Bus.LoadRest | src/core/bus.js:155-162 | the load succeeds exactly when the APU and PPU snapshots fit; then every device, latch and counter is restored |
| NesBus.Bus.LoadDevices | src/core/bus.js:155-157 | the controllers are restored and the APU load succeeds exactly when its registers fit |
| NesBus.Bus.RequestNMI | src/core/bus.js:112-114 | an NMI becomes pending |
| NesBus.Bus.RequestIRQ | src/core/bus.js:116-118 | an IRQ becomes pending |
| NesBus.Bus.PollNMI | src/core/bus.js:120-127 | a pending NMI is reported once and cleared |
| NesBus.Bus.PollIRQ | src/core/bus.js:129-136 | a pending IRQ is reported once and cleared |
| NesBus.Bus.SaveState | src/core/bus.js:138-151 | the snapshot holds RAM, both controllers, APU, PPU, the interrupt latches and the cycle counters |
| NesBus.Bus.LoadState | src/core/bus.js:153-163 | the load succeeds exactly when RAM, APU and PPU snapshots fit; the latches and counters are restored |
| NesBus.SaveLoadRoundTrip | src/core/bus.js:138-163 | loading a saved bus state leaves every device unchanged |
| NesBus.RamMirrors | src/core/bus.js:22-24 | RAM repeats every 2 KiB below 0x2000 |
| NesBus.PpuPortsMirror | src/core/bus.js:26-28 | the PPU ports repeat every 8 bytes up to 0x3FFF |
| NesBus.AddressWraps | src/core/bus.js:19-21 | addresses are taken modulo 0x10000 |
| NesBus.RamWriteThenRead | src/core/bus.js:22-56 | a RAM write reads back |
| NesBus.PollOnce | src/core/bus.js:120-127 | a second poll after an NMI reports nothing |
| NesBus.FrameRaisesNmi | src/core/bus.js:100-104 | with NMI enabled, clocking a frame's worth of CPU cycles leaves an NMI pending |
| JsMap.GetAfterSet | src/core/cpu6502.js:700-701 | after `set`, `get` of that key is the new value and every other key reads as before |
| JsMap.SetKeyAt | src/core/cpu6502.js:701 | `set` keeps every entry's key in its place and appends only a key that was absent |
| JsMap.SetKeepsDistinct | src/core/cpu6502.js:701 | `set` keeps the keys distinct |
| JsMap.FromEntriesDistinct | src/core/cpu6502.js:726 | `new Map(entries)` has distinct keys whatever the list |
| JsMap.FromDistinctEntries | src/core/cpu6502.js:714-726 | a `Map` rebuilt from its own entry list is that list, in the same order |
| JsMap.AppendNewKey | src/core/cpu6502.js:701 | `set` of an absent key appends the entry at the end |
| JsString.HexRoundTrip | src/core/cpu6502.js:695-696 | `toString(16)` is non-empty and reads back as the number |
| CpuBus.Bus.Read | src/core/cpu6502.js:502-504 | a read returns the byte at the address |
| CpuBus.Bus.Write | src/core/cpu6502.js:506-508 | a write changes that byte and no other |
| CpuBus.Bus.PollNmi | src/core/bus.js:120-127 | a pending NMI is reported once and cleared; the IRQ latch is kept |
| CpuBus.Bus.PollIrq | src/core/bus.js:129-136 | a pending IRQ is reported once and cleared; the NMI latch is kept |
| Mos6502.UnpackPack | src/core/cpu6502.js:1-8 | the eight flags read back unchanged from the packed P byte |
| Mos6502.PackUnpack | src/core/cpu6502.js:594-604 | every P byte is the packing of its own eight flags |
| Mos6502.ZeroPageIndexWraps | src/core/cpu6502.js:537-543 | zp,X and zp,Y addresses wrap within page 0 |
| Mos6502.PointerWraps | src/core/cpu6502.js:569-586 | the pointers of (zp,X) and (zp),Y take their high byte from 0x00 after 0xFF |
| Mos6502.OverflowOfSigns | src/core/cpu6502.js:606-619 | V is set exactly when both operands have one sign and the result the other |
| Mos6502.AdcBinary | src/core/cpu6502.js:606-619 | A becomes (A + M + C) mod 256, C is the carry out, V is signed overflow, Z and N follow A, other flags and registers are kept; D is ignored |
| Mos6502.SbcBinary | src/core/cpu6502.js:621-623 | A becomes (A - M - (1 - C)) mod 256, C is set exactly when no borrow occurs, V is signed overflow |
| Mos6502.CompareFlags | src/core/cpu6502.js:625-630 | C is register >= M, Z is register == M, N is bit 7 of the difference; no other flag changes |
| Mos6502.RotateRoundTrip | src/core/cpu6502.js:474-490 | ROR undoes ROL on the nine bits of carry and value |
| Mos6502.PushInPageOne | src/core/cpu6502.js:661-664 | a push writes inside page 1 and SP wraps from 0x00 to 0xFF |
| Mos6502.PopAfterPush | src/core/cpu6502.js:661-669 | a pop after a push returns the pushed byte and restores SP |
| Mos6502.Pop16AfterPush16 | src/core/cpu6502.js:671-680 | a 16-bit value pushed high byte first pops back unchanged, with SP restored |
| Mos6502.SlotsWrap | src/core/cpu6502.js:661-669 | SP moves modulo 256, so each push is undone by a pop even across 0x00 |
| Mos6502.PhpPushesBreakAndUnused | src/core/cpu6502.js:80-82 | PHP pushes P with B and U set and only moves SP |
| Mos6502.PlpClearsBreakSetsUnused | src/core/cpu6502.js:83-85 | PLP loads the pulled flags with B clear and U set |
| Mos6502.PhpThenPlp | src/core/cpu6502.js:80-85 | PHP then PLP restores every flag but B, which ends clear, and U, which ends set |
| Mos6502.InterruptFrame | src/core/cpu6502.js:682-689 | an interrupt pushes PC high, PC low and P with B from `isBreak` and U set, sets I, loads PC from the vector and adds 7 cycles |
| Mos6502.InterruptPushesFlags | src/core/cpu6502.js:684 | the pushed byte reads back as P with B from `isBreak` and U set |
| Mos6502.RtiPulls | src/core/cpu6502.js:73-76 | RTI pulls P (B clear, U set) and then PC, low byte first |
| Mos6502.RtiAfterInterrupt | src/core/cpu6502.js:73-76 | RTI after an interrupt restores PC, SP and the flags, with B clear and U set |
| Mos6502.FrameSlots | src/core/cpu6502.js:682-689 | the three frame slots lie just above the SP an interrupt leaves, modulo 256 |
| Mos6502.RtsAfterJsr | src/core/cpu6502.js:67-79 | RTS after JSR resumes after the three-byte JSR with SP restored |
| Mos6502.JmpIndirectPageWrap | src/core/cpu6502.js:133-135 | JMP (ind) reads its target like `read16` except at a page end, where the high byte comes from the start of the same page |
| Mos6502.Group1IndirectYPageCross | src/core/cpu6502.js:280-351 | reads through (zp),Y cost 5 cycles, plus one exactly when the effective address leaves the pointer's page |
| Mos6502.Group1AbsolutePageCross | src/core/cpu6502.js:280-351 | reads through abs,X and abs,Y cost 4 cycles, plus one exactly when the page changes |
| Mos6502.Group1StoreCycles | src/core/cpu6502.js:280-351 | stores cost their fixed cycle count and write A to the effective address |
| Mos6502.IndexedStoreCycles | src/core/cpu6502.js:284-285 | STA abs,X and abs,Y cost 5 and STA (zp),Y 6, whether or not the page changes |
| Mos6502.BranchCycles | src/core/cpu6502.js:639-659 | a branch not taken costs 2; taken, it adds the signed offset in [-128, 127] and costs 3, or 4 on a page change; nothing else changes |
| Mos6502.StoreImmediateLength | src/core/cpu6502.js:242-248 | STA #imm as written advances PC by 2; the corrected decoder advances by 1, exactly as the switch's own case for 0x89 |
| Mos6502.Group2Declines | src/core/cpu6502.js:353-446 | group 2 returns `null` exactly for the operation and mode fields it does not decode |
| Mos6502.UnsupportedStrict | src/core/cpu6502.js:691-698 | in strict mode an unsupported opcode throws with its message and changes nothing |
| Mos6502.UnsupportedTallied | src/core/cpu6502.js:699-702 | otherwise its count goes up by one, other counts stay, and it costs 2 cycles |
| Mos6502.IllegalKeepsTallyDistinct | src/core/cpu6502.js:700-701 | counting keeps the tally's keys distinct |
| Mos6502.IllegalMessageExample | src/core/cpu6502.js:693-697 | the message names the opcode and PC - 1 in lower-case hexadecimal without padding |
| Mos6502.StepServicesNmiFirst | src/core/cpu6502.js:29-31 | a pending NMI is serviced first, through 0xFFFA, and the IRQ latch is untouched |
| Mos6502.StepServicesIrq | src/core/cpu6502.js:33-35 | with I clear a pending IRQ is serviced through 0xFFFE |
| Mos6502.StepDropsMaskedIrq | src/core/cpu6502.js:33-35 | with I set the IRQ latch is consumed and the step runs an instruction as if none were pending |
| Mos6502.Group2KeepsTotalCycles | src/core/cpu6502.js:353-446 | group 2 instructions leave `totalCycles` alone |
| Mos6502.SwitchKeepsTotalCycles | src/core/cpu6502.js:59-277 | the switch's instructions leave `totalCycles` alone |
| Mos6502.ExecuteKeepsTotalCycles | src/core/cpu6502.js:44-58 | no instruction changes `totalCycles` |
| Mos6502.StepCountsCycles | src/core/cpu6502.js:28-42 | `totalCycles` grows by exactly the cycles a step returns |
| Mos6502.SaveLoadRoundTrip | src/core/cpu6502.js:705-727 | loading a saved state restores every register, while U is set and the cycle count fits 32 bits |
| Mos6502.SaveLoadTally | src/core/cpu6502.js:714-726 | the opcode tally survives the round trip in order |
| Mos6502.LoadForcesUnused | src/core/cpu6502.js:723 | after a load U is set and the other flags are the low byte of the saved P |
| Cpu6502.CPU6502.constructor | src/core/cpu6502.js:11-16 | a new processor has an empty tally and the reset registers |
| Cpu6502.CPU6502.Reset | src/core/cpu6502.js:18-26 | A = X = Y = 0, SP = 0xFD, P = U and I, PC from 0xFFFC, 7 cycles; the tally is kept |
| Cpu6502.CPU6502.Step | src/core/cpu6502.js:28-42 | the new registers, memory, tally and latches are those of `Mos6502.Step` |
| Cpu6502.CPU6502.Run | src/core/cpu6502.js:37-41 | fetch, execute and count one instruction, as `Mos6502.Ran` |
| Cpu6502.CPU6502.Execute | src/core/cpu6502.js:44-58 | the outcome of `Mos6502.Execute` |
| Cpu6502.CPU6502.ExecuteSwitch | src/core/cpu6502.js:59-277 | the outcome of `Mos6502.Switch`, an unsupported opcode included |
| Cpu6502.CPU6502.ExecuteGroup1 | src/core/cpu6502.js:280-351 | the state and cycles of `Mos6502.Group1` |
| Cpu6502.CPU6502.Operate | src/core/cpu6502.js:320-343 | the state of `Mos6502.Group1Operation` |
| Cpu6502.CPU6502.ExecuteGroup2 | src/core/cpu6502.js:353-446 | the state and cycles of `Mos6502.Group2`; nothing changes where it declines |
| Cpu6502.CPU6502.StoreX | src/core/cpu6502.js:361-378 | STX as `Mos6502.StoreX` |
| Cpu6502.CPU6502.LoadX | src/core/cpu6502.js:380-413 | LDX as `Mos6502.LoadX` |
| Cpu6502.CPU6502.IncDec | src/core/cpu6502.js:415-443 | INC and DEC as `Mos6502.IncDec` |
| Cpu6502.CPU6502.ExecuteShift | src/core/cpu6502.js:448-500 | ASL, ROL, LSR, ROR as `Mos6502.Shift` |
| Cpu6502.CPU6502.ExecuteControl | src/core/cpu6502.js:60-92 | BRK, JSR, RTI, RTS, PHP, PLP, PHA, PLA and both JMPs as `Mos6502.Control` |
| Cpu6502.CPU6502.Brk | src/core/cpu6502.js:60-66 | BRK as `Mos6502.Brk`, 7 cycles |
| Cpu6502.CPU6502.ExecuteFlag | src/core/cpu6502.js:109-129 | the seven flag instructions as `Mos6502.FlagOperation` |
| Cpu6502.CPU6502.ExecuteIndex | src/core/cpu6502.js:136-190 | BIT, STY, LDY, CPY, CPX as `Mos6502.IndexOperation` |
| Cpu6502.CPU6502.StoreY | src/core/cpu6502.js:142-150 | STY as `Mos6502.IndexOperation` |
| Cpu6502.CPU6502.LoadY | src/core/cpu6502.js:151-172 | LDY as `Mos6502.IndexOperation` |
| Cpu6502.CPU6502.CompareIndex | src/core/cpu6502.js:173-190 | CPY and CPX as `Mos6502.IndexOperation` |
| Cpu6502.CPU6502.ExecuteImplied | src/core/cpu6502.js:191-229 | transfers, INX, INY, DEX, DEY as `Mos6502.Implied` |
| Cpu6502.CPU6502.ExecuteNop | src/core/cpu6502.js:230-273 | the NOPs and SBC #imm as `Mos6502.Nop` |
| Cpu6502.CPU6502.Read16 | src/core/cpu6502.js:510-514 | little-endian word, the high byte at the next address modulo 2^16 |
| Cpu6502.CPU6502.Read16Bug | src/core/cpu6502.js:516-521 | the high byte from the same page as the low byte |
| Cpu6502.CPU6502.AddrImmediateAddress | src/core/cpu6502.js:523-527 | returns PC and moves it on by one |
| Cpu6502.CPU6502.ReadImmediate | src/core/cpu6502.js:529-531 | returns the byte at PC and moves PC on by one |
| Cpu6502.CPU6502.AddrZeroPage | src/core/cpu6502.js:533-535 | the zero-page address and the PC after it |
| Cpu6502.CPU6502.AddrZeroPageX | src/core/cpu6502.js:537-539 | zp,X wrapped in page 0 |
| Cpu6502.CPU6502.AddrZeroPageY | src/core/cpu6502.js:541-543 | zp,Y wrapped in page 0 |
| Cpu6502.CPU6502.AddrAbsolute | src/core/cpu6502.js:545-549 | the little-endian operand and PC past both bytes |
| Cpu6502.CPU6502.AddrAbsoluteX | src/core/cpu6502.js:551-558 | abs,X modulo 2^16 and whether the page changed |
| Cpu6502.CPU6502.AddrAbsoluteY | src/core/cpu6502.js:560-567 | abs,Y modulo 2^16 and whether the page changed |
| Cpu6502.CPU6502.AddrIndirectX | src/core/cpu6502.js:569-574 | the pointer at zp + X in page 0 |
| Cpu6502.CPU6502.AddrIndirectY | src/core/cpu6502.js:576-586 | the page-0 pointer plus Y and whether the page changed |
| Cpu6502.CPU6502.SetZN | src/core/cpu6502.js:588-592 | Z and N from the byte, nothing else |
| Cpu6502.CPU6502.Adc | src/core/cpu6502.js:606-619 | the registers of `Mos6502.Adc` |
| Cpu6502.CPU6502.Sbc | src/core/cpu6502.js:621-623 | the registers of `Mos6502.Sbc` |
| Cpu6502.CPU6502.Compare | src/core/cpu6502.js:625-630 | the flags of `Mos6502.Compare` |
| Cpu6502.CPU6502.Bit | src/core/cpu6502.js:632-637 | Z from A AND M, V and N from bits 6 and 7 of M |
| Cpu6502.CPU6502.Branch | src/core/cpu6502.js:639-659 | PC and cycles of `Mos6502.Branch` |
| Cpu6502.CPU6502.Push | src/core/cpu6502.js:661-664 | the state of `Mos6502.Push` |
| Cpu6502.CPU6502.Pop | src/core/cpu6502.js:666-669 | the state and byte of `Mos6502.Pop` |
| Cpu6502.CPU6502.Push16 | src/core/cpu6502.js:671-674 | high byte first, as `Mos6502.Push16` |
| Cpu6502.CPU6502.Pop16 | src/core/cpu6502.js:676-680 | low byte first, as `Mos6502.Pop16` |
| Cpu6502.CPU6502.Interrupt | src/core/cpu6502.js:682-689 | the state of `Mos6502.Interrupt`, returning 7 |
| Cpu6502.CPU6502.Illegal | src/core/cpu6502.js:691-703 | strict mode gives the error and changes nothing; otherwise the opcode is counted |
| Cpu6502.CPU6502.SaveState | src/core/cpu6502.js:705-716 | the registers, packed P and the tally's entries |
| Cpu6502.CPU6502.LoadState | src/core/cpu6502.js:718-727 | each register masked to its width, U forced, `totalCycles >>> 0`, the tally rebuilt |
| Cpu6502.CPU6502.SaveLoad | src/core/cpu6502.js:705-727 | saving then loading leaves the processor unchanged under the round-trip conditions |
| Wdc65816.PackUnpack | src/core/snes/cpu65816.mjs:1-8 | every status byte unpacks to flags that pack back to the same byte |
| Wdc65816.UnpackPack | src/core/snes/cpu65816.mjs:1-8 | the eight flags packed into P and unpacked again are the same flags |
| Wdc65816.Combine | src/core/snes/cpu65816.mjs:1155-1189 | ORA, AND and EOR stay within the operation's width |
| Wdc65816.NormalizeEstablishes | src/core/snes/cpu65816.mjs:1570-1582 | normalising leaves the widths invariant holding and changes only M, X, the index registers and SP, keeping their low bytes |
| Wdc65816.NormalizeFixes | src/core/snes/cpu65816.mjs:1570-1582 | normalising changes nothing exactly when the invariant already holds |
| Wdc65816.NormalizedIndex | src/core/snes/cpu65816.mjs:1707-1719 | under the invariant the width-masked index register is the register itself |
| Wdc65816.ResetNormalized | src/core/snes/cpu65816.mjs:22-34 | reset leaves an 8-bit accumulator and index registers, P = 0x34 and the widths invariant holding |
| Wdc65816.ReadAfterWrite | src/core/snes/cpu65816.mjs:1033-1079 | a sized write reads back as the value masked to the width, through the same kind of access |
| Wdc65816.WrappedStaysInBank | src/core/snes/cpu65816.mjs:1649-1655 | a bank-wrapped 16-bit write changes no byte outside the address's bank |
| Wdc65816.BankEdge | src/core/snes/cpu65816.mjs:1634-1647 | at a bank's last address the wrapped read takes its high byte from the bank's first address and the linear read from the next bank |
| Wdc65816.Push8InPageOne | src/core/snes/cpu65816.mjs:1668-1678 | in emulation mode a push writes the value at 0x100 plus the low byte of SP, changes no byte outside page 1 and keeps SP in page 1 |
| Wdc65816.Pop8InPageOne | src/core/snes/cpu65816.mjs:1685-1694 | in emulation mode a pop reads page 1 and leaves SP there |
| Wdc65816.PopAfterPush | src/core/snes/cpu65816.mjs:1668-1694 | a pop after a push returns the byte and gives back the registers, with SP in its page-1 form in emulation mode |
| Wdc65816.Pop16AfterPush16 | src/core/snes/cpu65816.mjs:1680-1700 | a 16-bit pop after a 16-bit push returns the whole word and gives back the registers |
| Wdc65816.PushFromBase | src/core/snes/cpu65816.mjs:1668-1678 | a push depends on SP only through its page-1 form in emulation mode |
| Wdc65816.RtiAfterFrameEmulation | src/core/snes/cpu65816.mjs:741-755 | RTI after an emulation-mode frame returns to the pushed address in bank 0 |
| Wdc65816.RtiAfterFrameNative | src/core/snes/cpu65816.mjs:741-755 | RTI after a native-mode frame returns to the pushed bank and address with the registers found |
| Wdc65816.RtiAfterInterruptEmulation | src/core/snes/cpu65816.mjs:706-755 | RTI undoes an emulation-mode interrupt except for PBR, which the interrupt zeroed |
| Wdc65816.RtiAfterInterruptNative | src/core/snes/cpu65816.mjs:706-755 | RTI undoes a native-mode interrupt completely |
| Wdc65816.RtiAfterBrkEmulation | src/core/snes/cpu65816.mjs:730-755 | RTI after an emulation-mode BRK resumes two bytes past the opcode, in bank 0 |
| Wdc65816.RtiAfterBrkNative | src/core/snes/cpu65816.mjs:730-755 | RTI after a native-mode BRK, as corrected, resumes two bytes past the opcode with the registers BRK found |
| Wdc65816.BrkAsWrittenUnbalanced | src/core/snes/cpu65816.mjs:730-755 | BRK as written, in native mode, pushes one byte fewer than RTI pops: RTI takes PBR from above the frame and leaves SP one higher |
| Wdc65816.Pop16OfPush16 | src/core/snes/cpu65816.mjs:1680-1700 | a 16-bit pop returns the word a 16-bit push left, whatever other registers changed in between, while memory and SP are as the push left them |
| Wdc65816.RtsAfterFrame | src/core/snes/cpu65816.mjs:318-320 | RTS after a frame holding `resume - 1` returns to `resume` with the other registers as before the push |
| Wdc65816.RtlAfterFrame | src/core/snes/cpu65816.mjs:360-363 | RTL after a frame holding a bank and `resume - 1` returns to `resume` in that bank |
| Wdc65816.RtsAfterJsr | src/core/snes/cpu65816.mjs:163-168 | RTS after JSR resumes after the JSR's operand with the registers JSR found |
| Wdc65816.RtlAfterJsl | src/core/snes/cpu65816.mjs:178-185 | RTL after JSL resumes after the JSL's operand in the bank JSL ran in |
| Wdc65816.AddOverflowOfSigns | src/core/snes/cpu65816.mjs:1191-1240 | ADC's overflow test holds exactly when both operands share a sign and the result has the other |
| Wdc65816.SubtractOverflowOfSigns | src/core/snes/cpu65816.mjs:1242-1291 | SBC's overflow test holds exactly when the operands differ in sign and the result's sign differs from the left operand's |
| Wdc65816.SignedSum | src/core/snes/cpu65816.mjs:1191-1240 | that sign rule is the signed sum leaving the signed range |
| Wdc65816.SignedDifference | src/core/snes/cpu65816.mjs:1242-1291 | that sign rule is the signed difference leaving the signed range |
| Wdc65816.AdcBinary | src/core/snes/cpu65816.mjs:1191-1240 | binary ADC: the sum modulo the width, C the carry out, V signed overflow, Z and N from the result, the high byte kept at 8 bits |
| Wdc65816.SbcBinary | src/core/snes/cpu65816.mjs:1242-1291 | binary SBC: the difference with borrow `1 - C`, C set exactly when no borrow occurs, V signed overflow |
| Wdc65816.AddSubtractFrame | src/core/snes/cpu65816.mjs:1191-1291 | ADC and SBC change only A and the N, V, Z and C flags |
| Wdc65816.DecimalAddValue | src/core/snes/cpu65816.mjs:1293-1317 | on decimal digits the digit loop of `adcBcd` yields the digits of the sum and a carry worth 10^digits |
| Wdc65816.DecimalSubtractValue | src/core/snes/cpu65816.mjs:1319-1345 | on decimal digits the digit loop of `sbcBcd` yields the digits of the difference and a borrow worth 10^digits |
| Wdc65816.DecimalSubtractDigits | src/core/snes/cpu65816.mjs:1319-1345 | the digit loop of `sbcBcd` writes only decimal digits and borrows at most one |
| Wdc65816.AdcBcdValue | src/core/snes/cpu65816.mjs:1293-1317 | `adcBcd` on BCD operands returns the BCD digits of the sum and whether it reached 10^digits |
| Wdc65816.SbcBcdValue | src/core/snes/cpu65816.mjs:1319-1345 | `sbcBcd` on BCD operands returns the BCD digits of the difference, C clear exactly when a borrow is left |
| Wdc65816.AdcDecimal | src/core/snes/cpu65816.mjs:1191-1240 | decimal ADC on BCD operands: A holds the decimal digits of A + M + C, C whether the sum reached 10^digits, V from the binary sum |
| Wdc65816.SbcDecimal | src/core/snes/cpu65816.mjs:1242-1291 | decimal SBC on BCD operands: A holds the decimal digits of A - M - (1 - C), C set exactly when no borrow is left |
| Wdc65816.CompareFlags | src/core/snes/cpu65816.mjs:1100-1106 | C exactly when left >= right, Z exactly when they are equal, N the sign of the difference; other flags kept |
| Wdc65816.DecimalCarryExample8 | src/core/snes/cpu65816.mjs:1293-1317 | 0x99 + 0x01 in decimal mode gives 0x00 and sets C |
| Wdc65816.DecimalCarryExample16 | src/core/snes/cpu65816.mjs:1293-1317 | 0x9999 + 0x0001 in decimal mode gives 0x0000 and sets C |
| Wdc65816.Push8Keeps | src/core/snes/cpu65816.mjs:1668-1678 | a push keeps the widths invariant and changes no register but SP |
| Wdc65816.Pop8Keeps | src/core/snes/cpu65816.mjs:1685-1694 | a pop keeps the widths invariant and changes no register but SP |
| Wdc65816.LoadKeeps | src/core/snes/cpu65816.mjs:779-810 | `loadA`, `loadX` and `loadY` keep the widths invariant |
| Wdc65816.OperateKeeps | src/core/snes/cpu65816.mjs:1085-1291 | the accumulator operations keep the widths invariant, the M and X flags, and every register but A and P |
| Wdc65816.ModifiedKeeps | src/core/snes/cpu65816.mjs:1125-1497 | the read-modify-write operations leave the M and X flags alone |
| Wdc65816.InterruptKeeps | src/core/snes/cpu65816.mjs:706-728 | an interrupt keeps the widths invariant |
| Wdc65816.PerformKeepsNormalized | src/core/snes/cpu65816.mjs:88-704 | every instruction but MVN and MVP keeps the widths invariant |
| Wdc65816.ExecuteKeepsNormalized | src/core/snes/cpu65816.mjs:88-704 | `execute` keeps the widths invariant for every opcode but MVN and MVP |
| Wdc65816.StepKeepsNormalized | src/core/snes/cpu65816.mjs:36-53 | a step keeps the widths invariant unless it runs MVN or MVP |
| Wdc65816.DecodeMoves | src/core/snes/cpu65816.mjs:425-531 | only 0x44 (MVP) and 0x54 (MVN) are block moves, and 0x54 is the incrementing one |
| Wdc65816.BlockMoveWidensIndex | src/core/snes/cpu65816.mjs:1535-1560 | MVN and MVP step X and Y modulo 2^16 whatever the index width: in native mode with X set, MVN from X = 0xFF leaves X = 0x100 and the widths invariant broken |
| Wdc65816.BlockMoveEffect | src/core/snes/cpu65816.mjs:1535-1560 | one byte copied from source bank:X to destination bank:Y, X and Y stepped, A counted down, DBR set, PC rewound until A wraps |
| Wdc65816.NarrowAccumulatorKeepsHigh | src/core/snes/cpu65816.mjs:779-1497 | with an 8-bit accumulator the ALU operations, the accumulator shifts and steps, transfers into A and PLA keep bits 8 to 15 of A |
| Wdc65816.OperateKeepsHigh | src/core/snes/cpu65816.mjs:779-1291 | with an 8-bit accumulator LDA and the ALU operations keep the high byte of A |
| Wdc65816.PerformFrame | src/core/snes/cpu65816.mjs:88-704 | no instruction changes `totalCycles` or the unknown-opcode tally |
| Wdc65816.UnsupportedTallied | src/core/snes/cpu65816.mjs:757-769 | an opcode without a case is tallied in either mode, other counts stay, nothing else changes; strict mode throws its message, otherwise 2 cycles |
| Wdc65816.IllegalKeepsTallyDistinct | src/core/snes/cpu65816.mjs:757-769 | counting keeps the tally's keys distinct |
| Wdc65816.IllegalMessageExample | src/core/snes/cpu65816.mjs:762-766 | opcode 0x02 fetched at 80:8000 throws "Unsupported opcode 0x02 at 80:8000." |
| Wdc65816.StepServicesNmiFirst | src/core/snes/cpu65816.mjs:37-41 | a pending NMI is serviced first, through 0xFFFA or 0xFFEA, and the IRQ latch is left alone |
| Wdc65816.StepServicesIrq | src/core/snes/cpu65816.mjs:43-47 | with I clear and no NMI a pending IRQ is polled and serviced through 0xFFFE or 0xFFEE |
| Wdc65816.StepHoldsMaskedIrq | src/core/snes/cpu65816.mjs:43-52 | with I set the IRQ line is not polled: the latch stays set and the step is the one taken with no IRQ pending |
| Wdc65816.ExecuteKeepsTotalCycles | src/core/snes/cpu65816.mjs:88-704 | `execute` leaves `totalCycles` alone |
| Wdc65816.StepCountsCycles | src/core/snes/cpu65816.mjs:36-53 | `totalCycles` grows by exactly the cycles a step returns; a throw leaves it as it was |
| Wdc65816.LoadNormalized | src/core/snes/cpu65816.mjs:72-86 | `loadState` establishes the invariant whatever the snapshot holds |
| Wdc65816.SaveLoadRoundTrip | src/core/snes/cpu65816.mjs:55-86 | loading a saved state gives back the registers while the invariant holds and the cycle count fits 32 bits |
| Wdc65816.SaveLoadTally | src/core/snes/cpu65816.mjs:55-86 | the tally survives the round trip through its entry list, order included |
| Cpu65816.AddLoop | src/core/snes/cpu65816.mjs:1293-1317 | the digit loop, run from the first digit, computes `adcBcd`'s digit sum and carry |
| Cpu65816.SubtractLoop | src/core/snes/cpu65816.mjs:1319-1345 | the digit loop, run from the first digit, computes `sbcBcd`'s digit difference and borrow |
| Cpu65816.CPU65816.constructor | src/core/snes/cpu65816.mjs:15-20 | a new processor has an empty tally and the reset registers |
| Cpu65816.CPU65816.Reset | src/core/snes/cpu65816.mjs:22-34 | the registers of `Wdc65816.Reset`, PC from the vector at 0xFFFC; the tally is kept |
| Cpu65816.CPU65816.Read8 | src/core/snes/cpu65816.mjs:1626-1628 | the byte at the address |
| Cpu65816.CPU65816.Write8 | src/core/snes/cpu65816.mjs:1630-1632 | that byte changes and no other |
| Cpu65816.CPU65816.Read16Bank0 | src/core/snes/cpu65816.mjs:1662-1666 | the little-endian word in bank 0, the high byte at the next address modulo 2^16 |
| Cpu65816.CPU65816.Read16Wrapped | src/core/snes/cpu65816.mjs:1634-1641 | the word with its high byte in the same bank |
| Cpu65816.CPU65816.Read16Linear | src/core/snes/cpu65816.mjs:1643-1647 | the word with its high byte at the next 24-bit address |
| Cpu65816.CPU65816.Write16Wrapped | src/core/snes/cpu65816.mjs:1649-1655 | the memory of `Wdc65816.Write16Wrapped` |
| Cpu65816.CPU65816.Write16Linear | src/core/snes/cpu65816.mjs:1657-1660 | the memory of `Wdc65816.Write16Linear` |
| Cpu65816.CPU65816.ReadByWidth | src/core/snes/cpu65816.mjs:1033-1051 | one byte, or a wrapped or linear word, as `ReadSized` |
| Cpu65816.CPU65816.WriteByWidth | src/core/snes/cpu65816.mjs:1053-1079 | the memory of `WriteSized` |
| Cpu65816.CPU65816.Fetch8 | src/core/snes/cpu65816.mjs:1605-1611 | the byte at PBR:PC, PC moved on by one inside the bank |
| Cpu65816.CPU65816.Fetch16 | src/core/snes/cpu65816.mjs:1613-1617 | the little-endian operand word, PC moved on by two |
| Cpu65816.CPU65816.Fetch24 | src/core/snes/cpu65816.mjs:1619-1624 | the three-byte operand, PC moved on by three |
| Cpu65816.CPU65816.Push8 | src/core/snes/cpu65816.mjs:1668-1678 | the state of `Wdc65816.Push8` |
| Cpu65816.CPU65816.Pop8 | src/core/snes/cpu65816.mjs:1685-1694 | the state and byte of `Wdc65816.Pop8` |
| Cpu65816.CPU65816.Push16 | src/core/snes/cpu65816.mjs:1680-1683 | high byte first, as `Wdc65816.Push16` |
| Cpu65816.CPU65816.Pop16 | src/core/snes/cpu65816.mjs:1696-1700 | low byte first, as `Wdc65816.Pop16` |
| Cpu65816.CPU65816.PushSized | src/core/snes/cpu65816.mjs:972-979 | one byte or two by the width, as `Wdc65816.PushSized` |
| Cpu65816.CPU65816.PopSized | src/core/snes/cpu65816.mjs:981-1013 | one byte or two by the width, as `Wdc65816.PopSized` |
| Cpu65816.CPU65816.PushBankAndAddress | src/core/snes/cpu65816.mjs:178-185 | a bank then a word, as two pushes |
| Cpu65816.CPU65816.AddrDirect | src/core/snes/cpu65816.mjs:1731-1735 | D plus the offset byte modulo 2^16, PC past one byte |
| Cpu65816.CPU65816.AddrDirectX | src/core/snes/cpu65816.mjs:1737-1741 | D plus offset plus the width-masked X, modulo 2^16 |
| Cpu65816.CPU65816.AddrDirectY | src/core/snes/cpu65816.mjs:1743-1747 | D plus offset plus the width-masked Y, modulo 2^16 |
| Cpu65816.CPU65816.AddrDirectIndirect | src/core/snes/cpu65816.mjs:1771-1779 | the bank-0 pointer's word in the data bank |
| Cpu65816.CPU65816.AddrDirectIndirectY | src/core/snes/cpu65816.mjs:1795-1806 | that address plus Y, modulo 2^24 |
| Cpu65816.CPU65816.AddrDirectIndirectLong | src/core/snes/cpu65816.mjs:1761-1769 | the three-byte bank-0 pointer |
| Cpu65816.CPU65816.AddrDirectIndirectLongY | src/core/snes/cpu65816.mjs:1749-1759 | the three-byte pointer plus Y, modulo 2^24 |
| Cpu65816.CPU65816.AddrAbsolute | src/core/snes/cpu65816.mjs:1702-1705 | the operand word in the data bank, PC past two bytes |
| Cpu65816.CPU65816.AddrAbsoluteX | src/core/snes/cpu65816.mjs:1707-1712 | that address plus X, modulo 2^24 |
| Cpu65816.CPU65816.AddrAbsoluteY | src/core/snes/cpu65816.mjs:1714-1719 | that address plus Y, modulo 2^24 |
| Cpu65816.CPU65816.AddrLong | src/core/snes/cpu65816.mjs:1721-1723 | the three-byte operand, PC past three bytes |
| Cpu65816.CPU65816.AddrLongX | src/core/snes/cpu65816.mjs:1725-1729 | the three-byte operand plus X, modulo 2^24 |
| Cpu65816.CPU65816.AddrStackRelativeIndirectY | src/core/snes/cpu65816.mjs:1781-1793 | the pointer at SP (page 1 in emulation mode) plus offset, in the data bank, plus Y |
| Cpu65816.CPU65816.Resolve | src/core/snes/cpu65816.mjs:1702-1806 | the address `Wdc65816.Address` gives for the mode, PC past its operand bytes |
| Cpu65816.CPU65816.ReadOperand | src/core/snes/cpu65816.mjs:771-777 | the operand `Wdc65816.Fetch` reads, immediate or at an address |
| Cpu65816.CPU65816.SetZN | src/core/snes/cpu65816.mjs:1596-1603 | only Z and N change, from the masked value |
| Cpu65816.CPU65816.SetFlag | src/core/snes/cpu65816.mjs:1588-1594 | only the named flag changes |
| Cpu65816.CPU65816.NormalizeFlagsAndRegisters | src/core/snes/cpu65816.mjs:1570-1582 | the registers of `Normalize`, which `Wdc65816.NormalizeEstablishes` characterises |
| Cpu65816.CPU65816.LoadA | src/core/snes/cpu65816.mjs:779-788 | the registers of `Wdc65816.LoadA` |
| Cpu65816.CPU65816.LoadIndex | src/core/snes/cpu65816.mjs:790-810 | the registers of `Wdc65816.LoadIndex` |
| Cpu65816.CPU65816.LoadRegister | src/core/snes/cpu65816.mjs:779-810 | the registers of `Wdc65816.Load` |
| Cpu65816.CPU65816.Logical | src/core/snes/cpu65816.mjs:1155-1189 | the registers of `Wdc65816.Logical` |
| Cpu65816.CPU65816.AddValues | src/core/snes/cpu65816.mjs:1191-1226 | the binary sum and carry, or `adcBcd`'s when D is set |
| Cpu65816.CPU65816.SubtractValues | src/core/snes/cpu65816.mjs:1242-1277 | the binary difference and carry, or `sbcBcd`'s when D is set |
| Cpu65816.CPU65816.AdcBcd | src/core/snes/cpu65816.mjs:1293-1317 | the loop computes `Wdc65816.AdcBcd`, whose decimal meaning `Wdc65816.AdcBcdValue` states |
| Cpu65816.CPU65816.SbcBcd | src/core/snes/cpu65816.mjs:1319-1345 | the loop computes `Wdc65816.SbcBcd`, whose decimal meaning `Wdc65816.SbcBcdValue` states |
| Cpu65816.CPU65816.Adc | src/core/snes/cpu65816.mjs:1191-1240 | the registers of `Wdc65816.Adc` |
| Cpu65816.CPU65816.Sbc | src/core/snes/cpu65816.mjs:1242-1291 | the registers of `Wdc65816.Sbc` |
| Cpu65816.CPU65816.Compare | src/core/snes/cpu65816.mjs:1085-1106 | only P changes, to `Wdc65816.Compare` |
| Cpu65816.CPU65816.BitMemory | src/core/snes/cpu65816.mjs:1108-1123 | only Z, N and V change, as `BitTest` |
| Cpu65816.CPU65816.Operate | src/core/snes/cpu65816.mjs:1085-1291 | the registers of `Wdc65816.Operate` |
| Cpu65816.CPU65816.OperateIndex | src/core/snes/cpu65816.mjs:790-810 | the registers of `Wdc65816.OperateIndex` |
| Cpu65816.CPU65816.TestBits | src/core/snes/cpu65816.mjs:1125-1153 | the flags and value of `Tested`; nothing else changes |
| Cpu65816.CPU65816.ShiftLeft | src/core/snes/cpu65816.mjs:1347-1423 | the flags and value of `Modified` for ASL and ROL |
| Cpu65816.CPU65816.ShiftRight | src/core/snes/cpu65816.mjs:1425-1497 | the flags and value of `Modified` for LSR and ROR |
| Cpu65816.CPU65816.IncDec | src/core/snes/cpu65816.mjs:922-970 | the flags and value of `Modified` for INC and DEC |
| Cpu65816.CPU65816.Modify | src/core/snes/cpu65816.mjs:922-1497 | the flags and value of `Modified`; only P changes |
| Cpu65816.CPU65816.ReadModifyWrite | src/core/snes/cpu65816.mjs:946-1497 | read at the width, modify, write back bank-wrapped; only P and that memory change |
| Cpu65816.CPU65816.Alu | src/core/snes/cpu65816.mjs:95-698 | the state and cycles of `Wdc65816.Alu` |
| Cpu65816.CPU65816.IndexAlu | src/core/snes/cpu65816.mjs:478-640 | the state and cycles of `Wdc65816.IndexAlu` |
| Cpu65816.CPU65816.Store | src/core/snes/cpu65816.mjs:406-475 | the state and cycles of `Wdc65816.Store` |
| Cpu65816.CPU65816.StoreIndex | src/core/snes/cpu65816.mjs:406-433 | the state and cycles of `Wdc65816.StoreIndex` |
| Cpu65816.CPU65816.ModifyMemory | src/core/snes/cpu65816.mjs:92-698 | the state and cycles of `Wdc65816.ModifyMemory` |
| Cpu65816.CPU65816.ModifyAccumulator | src/core/snes/cpu65816.mjs:110-664 | the state and cycles of `Wdc65816.ModifyAccumulator` |
| Cpu65816.CPU65816.Transfer | src/core/snes/cpu65816.mjs:444-556 | the state and cycles of `Wdc65816.Transfer` |
| Cpu65816.CPU65816.IncrementIndex | src/core/snes/cpu65816.mjs:415-655 | the state and cycles of `Wdc65816.IncrementIndex` |
| Cpu65816.CPU65816.Tcs | src/core/snes/cpu65816.mjs:160-162 | the state of `Wdc65816.Tcs` |
| Cpu65816.CPU65816.Tcd | src/core/snes/cpu65816.mjs:302-305 | the state of `Wdc65816.Tcd` |
| Cpu65816.CPU65816.Xba | src/core/snes/cpu65816.mjs:1506-1512 | the state of `Wdc65816.Xba` |
| Cpu65816.CPU65816.Xce | src/core/snes/cpu65816.mjs:1499-1504 | the state of `Wdc65816.Xce` |
| Cpu65816.CPU65816.Rep | src/core/snes/cpu65816.mjs:1514-1517 | the state of `Wdc65816.Rep` |
| Cpu65816.CPU65816.Sep | src/core/snes/cpu65816.mjs:1519-1522 | the state of `Wdc65816.Sep` |
| Cpu65816.CPU65816.Php | src/core/snes/cpu65816.mjs:104-106 | the state of `Wdc65816.Php` |
| Cpu65816.CPU65816.Phd | src/core/snes/cpu65816.mjs:113-115 | the state of `Wdc65816.Phd` |
| Cpu65816.CPU65816.Phk | src/core/snes/cpu65816.mjs:253-255 | the state of `Wdc65816.Phk` |
| Cpu65816.CPU65816.Phb | src/core/snes/cpu65816.mjs:421-423 | the state of `Wdc65816.Phb` |
| Cpu65816.CPU65816.PushRegister | src/core/snes/cpu65816.mjs:972-1031 | the state and cycles of `Wdc65816.PushRegister` |
| Cpu65816.CPU65816.PullRegister | src/core/snes/cpu65816.mjs:981-1013 | the state and cycles of `Wdc65816.PullRegister` |
| Cpu65816.CPU65816.Plp | src/core/snes/cpu65816.mjs:186-189 | the state of `Wdc65816.Plp` |
| Cpu65816.CPU65816.Plb | src/core/snes/cpu65816.mjs:505-508 | the state of `Wdc65816.Plb` |
| Cpu65816.CPU65816.Per | src/core/snes/cpu65816.mjs:321-329 | the state of `Wdc65816.Per` |
| Cpu65816.CPU65816.Branch | src/core/snes/cpu65816.mjs:1524-1533 | the state and cycles of `Wdc65816.Branch` |
| Cpu65816.CPU65816.Brl | src/core/snes/cpu65816.mjs:398-405 | the state of `Wdc65816.Brl` |
| Cpu65816.CPU65816.Jmp | src/core/snes/cpu65816.mjs:256-258 | the state of `Wdc65816.Jmp` |
| Cpu65816.CPU65816.Jml | src/core/snes/cpu65816.mjs:306-311 | the state of `Wdc65816.Jml` |
| Cpu65816.CPU65816.JmlIndirect | src/core/snes/cpu65816.mjs:624-633 | the state of `Wdc65816.JmlIndirect` |
| Cpu65816.CPU65816.Jsr | src/core/snes/cpu65816.mjs:163-168 | the state of `Wdc65816.Jsr` |
| Cpu65816.CPU65816.Jsl | src/core/snes/cpu65816.mjs:178-185 | the state of `Wdc65816.Jsl` |
| Cpu65816.CPU65816.Rts | src/core/snes/cpu65816.mjs:318-320 | the state of `Wdc65816.Rts` |
| Cpu65816.CPU65816.Rtl | src/core/snes/cpu65816.mjs:360-363 | the state of `Wdc65816.Rtl` |
| Cpu65816.CPU65816.Vector | src/core/snes/cpu65816.mjs:712-716 | the state of `Vectored`: I set, D cleared, PBR 0, PC from the bank-0 vector |
| Cpu65816.CPU65816.Interrupt | src/core/snes/cpu65816.mjs:706-728 | the state and cycles of `Wdc65816.Interrupt` |
| Cpu65816.CPU65816.Brk | src/core/snes/cpu65816.mjs:730-739 | the state and cycles of the corrected `Wdc65816.Brk` (see Findings) |
| Cpu65816.CPU65816.Rti | src/core/snes/cpu65816.mjs:741-755 | the state and cycles of `Wdc65816.Rti` |
| Cpu65816.CPU65816.CopyByte | src/core/snes/cpu65816.mjs:1535-1542 | the one byte of `MoveByte` changes |
| Cpu65816.CPU65816.BlockMove | src/core/snes/cpu65816.mjs:1535-1560 | the state and cycles of `Wdc65816.BlockMove` |
| Cpu65816.CPU65816.PerformData | src/core/snes/cpu65816.mjs:95-698 | the load, store and read-modify-write cases as `Wdc65816.PerformData` |
| Cpu65816.CPU65816.PerformRegister | src/core/snes/cpu65816.mjs:133-686 | the transfer, index step, exchange, NOP and flag cases as `Wdc65816.PerformRegister` |
| Cpu65816.CPU65816.PerformMode | src/core/snes/cpu65816.mjs:186-686 | XCE, REP, SEP and PLP as `Wdc65816.PerformMode` |
| Cpu65816.CPU65816.PerformStack | src/core/snes/cpu65816.mjs:104-689 | the pushes and pulls as `Wdc65816.PerformStack` |
| Cpu65816.CPU65816.PerformFlow | src/core/snes/cpu65816.mjs:125-672 | the branches and jumps as `Wdc65816.PerformFlow` |
| Cpu65816.CPU65816.PerformCall | src/core/snes/cpu65816.mjs:90-360 | calls, returns and BRK as `Wdc65816.PerformCall` |
| Cpu65816.CPU65816.Perform | src/core/snes/cpu65816.mjs:88-704 | the state and cycles of `Wdc65816.Perform` |
| Cpu65816.CPU65816.Execute | src/core/snes/cpu65816.mjs:88-704 | the outcome of `Wdc65816.Execute`, an unsupported opcode included |
| Cpu65816.CPU65816.Illegal | src/core/snes/cpu65816.mjs:757-769 | the tally and outcome of `Wdc65816.Illegal` |
| Cpu65816.CPU65816.Run | src/core/snes/cpu65816.mjs:49-52 | fetch, execute and count one instruction, as `Wdc65816.Ran` |
| Cpu65816.CPU65816.Step | src/core/snes/cpu65816.mjs:36-53 | the new registers, memory, tally and latches are those of `Wdc65816.Step` |
| Cpu65816.CPU65816.SaveState | src/core/snes/cpu65816.mjs:55-70 | the registers, packed P and the tally's entries |
| Cpu65816.CPU65816.LoadState | src/core/snes/cpu65816.mjs:72-86 | each register masked to its width, `totalCycles >>> 0`, the tally rebuilt, then normalised |
| Cpu65816.CPU65816.SaveLoad | src/core/snes/cpu65816.mjs:55-86 | saving then loading leaves the processor unchanged under the round-trip conditions |
| SnesPpu.JsRemainder | src/core/snes/ppu.mjs:192-193 | JavaScript `%` by a positive divisor: the result lies strictly between -n and n, equals the Euclidean remainder for a non-negative dividend and is never positive for a negative one |
| SnesPpu.RemapSpan | src/core/snes/ppu.mjs:396-425 | remap modes 1, 2 and 3 rotate the low 8, 9 and 10 bits of the word address |
| SnesPpu.RemapVramAddress | src/core/snes/ppu.mjs:396-425 | mode 0 leaves the 15-bit address as it is; other modes keep the bits above the rotated span and rotate the low 3 bits of the span to its bottom |
| SnesPpu.SplitAddress | src/core/snes/ppu.mjs:404-422 | an address splits into the part above the span, the bits below the rotated 3 and those 3 bits, each within its bound |
| SnesPpu.SwapLowPart | src/core/snes/ppu.mjs:404-422 | replacing the part below the span keeps the part above it and the 15-bit bound |
| SnesPpu.LowRotation | src/core/snes/ppu.mjs:404-422 | the rotated low part stays below the span |
| SnesPpu.RemapIsInvertible | src/core/snes/ppu.mjs:396-425 | undoing the rotation gives the original 15-bit word address back, in every mode |
| SnesPpu.UnmapPieces | src/core/snes/ppu.mjs:396-425 | undoing the rotation on a remapped address rebuilds the word from its high part and its two rotated fields |
| SnesPpu.RemapIsInjective | src/core/snes/ppu.mjs:396-425 | two different word addresses never remap to the same VRAM word |
| SnesPpu.VramByteOffset | src/core/snes/ppu.mjs:391-394 | the byte offset lies in VRAM, is even for a low access and odd for a high one, and halves to the remapped word address |
| SnesPpu.VmainIncrement | src/core/snes/ppu.mjs:375-380 | VMAIN's low two bits select a step of 1, 32 or 128 words |
| SnesPpu.Red | src/core/snes/ppu.mjs:658-663 | bits 0-4 of a colour, a value below 32 |
| SnesPpu.Green | src/core/snes/ppu.mjs:658-663 | bits 5-9 of a colour, a value below 32 |
| SnesPpu.Blue | src/core/snes/ppu.mjs:658-663 | bits 10-14 of a colour, a value below 32 |
| SnesPpu.Pack | src/core/snes/ppu.mjs:700-702 | packing three channels gives a 15-bit colour whose channels are exactly those three |
| SnesPpu.PackOfChannels | src/core/snes/ppu.mjs:658-702 | a 15-bit colour is its own channels packed again |
| SnesPpu.BlendBgr555 | src/core/snes/ppu.mjs:657-703 | every channel of the result is the added or subtracted, optionally halved and clamped, channel of the two colours |
| SnesPpu.BlendAddBlack | src/core/snes/ppu.mjs:657-703 | adding black without halving keeps the colour's low 15 bits |
| SnesPpu.BlendSubtractSelf | src/core/snes/ppu.mjs:657-703 | subtracting a colour from itself gives black, halved or not |
| SnesPpu.BlendHalfSelf | src/core/snes/ppu.mjs:657-703 | averaging a 15-bit colour with itself gives the colour |
| SnesPpu.BlendAddCommutes | src/core/snes/ppu.mjs:657-703 | colour addition gives the same result in either order |
| SnesPpu.PaletteColor | src/core/snes/ppu.mjs:1370-1375 | the colour's low byte is CGRAM byte `2 * (index & 0xff)` and its high byte the next one with bit 7 dropped |
| SnesPpu.WindowEdgesInside | src/core/snes/ppu.mjs:1310-1330 | a window with left <= right contains both of its edges |
| SnesPpu.WrappedWindowIsComplement | src/core/snes/ppu.mjs:1310-1330 | a window with left > right wraps: it holds exactly the pixels outside the gap strictly between right and left |
| SnesPpu.WindowMatch | src/core/snes/ppu.mjs:1310-1330 | a disabled window gives no answer; an enabled one gives whether x lies between its edges, inverted when asked |
| SnesPpu.WindowLogic | src/core/snes/ppu.mjs:1332-1368 | the layer's two-bit combination value comes from WBGLOG (layers 0-3) or WOBJLOG (4-5) |
| SnesPpu.CombineWindows | src/core/snes/ppu.mjs:1332-1368 | no window gives false, one window gives its own answer, and two combine by OR, AND, XOR or XNOR as the logic value selects |
| SnesPpu.CombineWindowsCommutes | src/core/snes/ppu.mjs:1332-1368 | swapping the two windows' answers never changes the combination |
| SnesPpu.ReadWindowSelection | src/core/snes/ppu.mjs:1282-1308 | the layer's nibble of W12SEL, W34SEL or WOBJSEL gives window 1 enable and invert, then window 2 enable and invert |
| SnesPpu.LayerWindowVisible | src/core/snes/ppu.mjs:1252-1280 | a layer not masked in TMW (or TSW for the sub screen) is visible everywhere |
| SnesPpu.MaskedByWindowOne | src/core/snes/ppu.mjs:1252-1280 | a masked layer with only window 1 enabled is hidden exactly inside window 1, or outside it when inverted |
| SnesPpu.ColorWindowIsLayerFive | src/core/snes/ppu.mjs:721-739 | the colour window reads the selection nibble and logic bits of layer 5 |
| SnesPpu.WindowRegionMatches | src/core/snes/ppu.mjs:705-719 | region mode 0 never matches, 1 matches outside the window, 2 inside it and 3 always |
| SnesPpu.ColorMathEnabled | src/core/snes/ppu.mjs:741-763 | BG1-BG4 use CGADSUB bits 0-3, the backdrop bit 5, and sprites bit 4 only when they are eligible |
| SnesPpu.FixedColorBgr | src/core/snes/ppu.mjs:765-775 | the fixed colour's channels are the line's latched red, green and blue |
| SnesPpu.ModePriorities | src/core/snes/ppu.mjs:777-813 | each BG's high priority is above its low one, sprite priorities rise with their level, mode 1 with bit 3 puts BG3 high above everything, and other modes put sprite level 0 above BG1 high |
| SnesPpu.SpriteDimension | src/core/snes/ppu.mjs:1176-1196 | sprite sizes are 8, 16, 32 or 64 pixels |
| SnesPpu.ObjSizeConfig | src/core/snes/ppu.mjs:1176-1196 | every OBSEL size pair has a small size narrower than the large one and no taller, and pairs 0-5 are square |
| SnesPpu.PlaneBit | src/core/snes/ppu.mjs:1212-1232 | one bit plane's bit for the pixel column is 0 or 1, read from the VRAM byte of the row address masked to 16 bits |
| SnesPpu.TilePixel4bpp | src/core/snes/ppu.mjs:1212-1222 | a 4bpp pixel is below 16 and is built from the planes at row bytes 0, 1, 16 and 17 |
| SnesPpu.NibbleDigits | src/core/snes/ppu.mjs:1212-1222 | four plane bits make a value below 16 whose binary digits are those bits |
| SnesPpu.TilePixel2bpp | src/core/snes/ppu.mjs:1224-1232 | a 2bpp pixel is below 4 and is built from the planes at row bytes 0 and 1 |
| SnesPpu.LowPlanesAre2bpp | src/core/snes/ppu.mjs:1212-1232 | the low two bits of a 4bpp pixel are the 2bpp pixel of the tile at twice the index |
| SnesPpu.TileMapAddress | src/core/snes/ppu.mjs:1198-1210 | a tile map entry's byte address lies in VRAM |
| SnesPpu.FirstScreenLayout | src/core/snes/ppu.mjs:1198-1210 | in the first 32x32 screen the entry for (x, y) is at base + 2 * (32y + x) |
| SnesPpu.RightScreenLayout | src/core/snes/ppu.mjs:1198-1210 | in a 64-tile-wide map, columns 32-63 come from the screen 0x800 bytes after the first |
| SnesPpu.TileMapEntry | src/core/snes/ppu.mjs:1198-1210 | the entry is the little-endian word of the two VRAM bytes at its address |
| SnesPpu.Int16 | src/core/snes/ppu.mjs:575-594 | storing into an Int16Array wraps a priority into -32768..32767 and keeps one already in range |
| SnesPpu.LayerPixelOrder | src/core/snes/ppu.mjs:1234-1250 | a write of lower priority leaves the pixel as it is; one of equal or higher priority replaces it |
| SnesPpu.LayerPixelPriorityGrows | src/core/snes/ppu.mjs:1234-1250 | a pixel's priority never decreases through an in-range write |
| SnesPpu.WithScroll | src/core/snes/ppu.mjs:483-520 | setting one BG offset changes that offset and leaves the other seven as they were |
| SnesPpu.Cleared | src/core/snes/ppu.mjs:539-543 | every latched line becomes empty and the number of lines is kept |
| SnesPpu.ClockKeepsPosition | src/core/snes/ppu.mjs:82-113 | after a clock the line and dot are the master cycle's line and offset in that line, and the master cycle is below one frame |
| SnesPpu.ClockPreservesInFrame | src/core/snes/ppu.mjs:82-113 | a clock keeps the line, dot and master cycle counters in step |
| SnesPpu.ClockCountsFrames | src/core/snes/ppu.mjs:82-113 | the frame counter rises by one exactly when the step reaches the end of the frame, even for steps longer than two frames |
| SnesPpu.ClockEntersVblank | src/core/snes/ppu.mjs:82-113 | crossing into line 225 without reaching the frame end sets vblank and the NMI flag and makes an NMI pending when NMIs are enabled |
| SnesPpu.ClockInsideFrame | src/core/snes/ppu.mjs:82-113 | a step that neither reaches line 225 nor the frame end keeps vblank, the NMI latches and the frame counter |
| SnesPpu.ClockLeavesVblank | src/core/snes/ppu.mjs:82-113 | reaching the frame end clears vblank |
| SnesPpu.EntersVblankByScanline | src/core/snes/ppu.mjs:99-104 | vblank is entered exactly when the step leaves a line before 225 for line 225 or a later one |
| SnesPpu.NmiStatus | src/core/snes/ppu.mjs:128-132 | RDNMI bit 7 is the NMI flag and nothing else is set |
| SnesPpu.HvbjoyStatus | src/core/snes/ppu.mjs:134-139 | HVBJOY bit 7 is vblank, bit 6 is set from dot 1096 on, and the low six bits are 0 |
| SnesPpu.HblankFromMasterCycle | src/core/snes/ppu.mjs:134-139 | with the counters in step, the hblank bit follows the master cycle's offset in its line |
| SnesPpu.Incremented | src/core/snes/ppu.mjs:387-389 | the VRAM word address steps by the VMAIN increment and stays within 15 bits, nothing else changes |
| SnesPpu.VramOffset | src/core/snes/ppu.mjs:391-394 | the data ports reach the even or odd byte of the remapped current word address |
| SnesPpu.AfterVmain | src/core/snes/ppu.mjs:375-380 | VMAIN sets increment-on-low from bit 7 being clear, the remap mode from bits 2-3 and the step from bits 0-1 |
| SnesPpu.CgramOffset | src/core/snes/ppu.mjs:160-162 | the CGRAM port reaches byte `2 * address`, plus 1 when the latch selects the high byte |
| SnesPpu.CgramAdvanced | src/core/snes/ppu.mjs:427-436 | each access toggles the latch, and the address moves on (mod 256) after the high byte |
| SnesPpu.AfterFixedColor | src/core/snes/ppu.mjs:446-461 | COLDATA sets the channels whose bits 5-7 are set to its low five bits and keeps the others |
| SnesPpu.OamWordOf | src/core/snes/ppu.mjs:192-194 | the OAM word address is half the byte address, with a negative byte address read as unsigned 32-bit |
| SnesPpu.AfterOamAddress | src/core/snes/ppu.mjs:182-189 | the byte address is twice the word address modulo the OAM size |
| SnesPpu.ScrollRegister | src/core/snes/ppu.mjs:232-255 | registers 0x0d-0x14 are the eight BG scroll registers |
| SnesPpu.ScrollLayer | src/core/snes/ppu.mjs:232-255 | each pair of scroll registers belongs to BG1, BG2, BG3 and BG4 in turn |
| SnesPpu.VmainSelects | src/core/snes/ppu.mjs:197-199 | a VMAIN write changes only the increment, increment-on-low and remap mode |
| SnesPpu.VramWordWrite | src/core/snes/ppu.mjs:206-221 | with the increment on the high byte, a low then a high data write store both bytes of the remapped word while the port is open and step the address once, open or not |
| SnesPpu.VramLowAdvances | src/core/snes/ppu.mjs:206-221 | with the increment on the low byte, a low data write steps the address and a high one does not |
| SnesPpu.CgramWordWrite | src/core/snes/ppu.mjs:226-228 | two CGRAM writes from a reset latch store the low then the high byte of the entry, advance the address, and the palette reads the pair back as one colour |
| SnesPpu.CgramWordRead | src/core/snes/ppu.mjs:160-171 | two CGRAM reads from a reset latch reach the entry's two bytes and advance to the next entry |
| SnesPpu.CgramAddressResetsLatch | src/core/snes/ppu.mjs:222-225 | a CGADD write selects the entry and resets the latch to the low byte |
| SnesPpu.ScrollWrittenTwice | src/core/snes/ppu.mjs:463-520 | a scroll register written twice holds `(high << 8 \| low) & 0x3ff` |
| SnesPpu.ScrollWriteKeepsOthers | src/core/snes/ppu.mjs:463-520 | a scroll write changes no other layer's or direction's offset |
| SnesPpu.OamAddressPair | src/core/snes/ppu.mjs:182-189 | OAMADDL then OAMADDH select word `(high & 1) << 8 \| low` and byte address twice that modulo 544 |
| SnesPpu.OamDataAdvances | src/core/snes/ppu.mjs:190-196 | an open OAM data write stores the byte at the byte address and moves the byte address on by one modulo 544 |
| SnesPpu.OamDataDroppedWhenClosed | src/core/snes/ppu.mjs:190-196 | while the port is closed an OAM data write changes neither OAM nor the addresses |
| SnesPpu.FixedColorChannels | src/core/snes/ppu.mjs:446-461 | a COLDATA write with all three channel bits sets red, green and blue to the same value |
| SnesPpu.StoredLine | src/core/snes/ppu.mjs:339-373 | storing line y keeps the other lines, grows the array with empty lines up to y when needed, and puts the state at y |
| SnesPpu.LoadSavedFields | src/core/snes/ppu.mjs:261-337 | loading a saved snapshot restores every field and the latched lines when no counter has passed 2^32 |
| SnesPpu.SavedSnapshotFits | src/core/snes/ppu.mjs:261-337 | a saved snapshot's buffers fit back into the PPU's memories and loading them restores their contents |
| SnesPpu.ScreenTarget.constructor | src/core/snes/ppu.mjs:575-594 | every pixel starts as the backdrop colour at priority -32768 from the backdrop layer, eligible for sprite colour math |
| SnesPpu.SNESPPU.constructor | src/core/snes/ppu.mjs:37-80 | zeroed registers, VRAM, CGRAM and OAM, the initial fields with a VRAM step of 1, and 224 empty latched lines |
| SnesPpu.SNESPPU.Clock | src/core/snes/ppu.mjs:82-113 | the fields and latched lines become those of one step of `masterCycles >>> 0` cycles |
| SnesPpu.SNESPPU.Advance | src/core/snes/ppu.mjs:85-111 | one step of the loop: the fields and latched lines become those of `ClockedFields` and `ClockedLines` |
| SnesPpu.SNESPPU.EnterVblank | src/core/snes/ppu.mjs:522-529 | vblank and the NMI flag are set, and an NMI becomes pending when NMIs are enabled |
| SnesPpu.SNESPPU.ExitVblank | src/core/snes/ppu.mjs:531-533 | vblank is cleared and nothing else changes |
| SnesPpu.SNESPPU.RenderFrame | src/core/snes/ppu.mjs:545-573 | under forced blank the latched lines are kept; otherwise they are cleared |
| SnesPpu.SNESPPU.ClearScanlineState | src/core/snes/ppu.mjs:539-543 | every latched line becomes empty |
| SnesPpu.SNESPPU.PollNmi | src/core/snes/ppu.mjs:115-122 | returns whether an NMI was pending and clears it |
| SnesPpu.SNESPPU.SetNmiEnabled | src/core/snes/ppu.mjs:124-126 | sets the NMI enable and nothing else |
| SnesPpu.SNESPPU.ReadNmiStatus | src/core/snes/ppu.mjs:128-132 | returns RDNMI and clears the NMI flag |
| SnesPpu.SNESPPU.ReadHvbjoyStatus | src/core/snes/ppu.mjs:134-139 | returns HVBJOY and changes nothing |
| SnesPpu.SNESPPU.ReadRegister | src/core/snes/ppu.mjs:141-173 | the VRAM and CGRAM read ports return the addressed byte and advance as the write ports do; other registers return the last byte written |
| SnesPpu.SNESPPU.IncrementVramAddress | src/core/snes/ppu.mjs:387-389 | steps the VRAM word address |
| SnesPpu.SNESPPU.WriteRegister | src/core/snes/ppu.mjs:175-259 | the register file takes the byte, and fields, VRAM, CGRAM and OAM take the register's side effect, with VRAM and OAM data stored only in vblank or forced blank |
| SnesPpu.SNESPPU.WriteFields | src/core/snes/ppu.mjs:182-258 | the OAM address, VMAIN, VRAM address, CGADD, COLDATA and scroll cases change the fields as the register's function says |
| SnesPpu.SNESPPU.WriteOamData | src/core/snes/ppu.mjs:190-196 | OAMDATA stores and advances only while the port is open |
| SnesPpu.SNESPPU.WriteVramData | src/core/snes/ppu.mjs:206-221 | VMDATAL/VMDATAH store only while the port is open and advance on the selected byte either way |
| SnesPpu.SNESPPU.WriteCgram | src/core/snes/ppu.mjs:427-436 | CGDATA stores the byte at the latched offset and advances the latch |
| SnesPpu.SNESPPU.LatchScanlineState | src/core/snes/ppu.mjs:339-373 | a visible line records the live window, colour math, mode and scroll values; lines outside 0-223 are ignored |
| SnesPpu.SNESPPU.SaveState | src/core/snes/ppu.mjs:261-298 | the snapshot holds every field, the four memories and the latched lines |
| SnesPpu.SNESPPU.LoadState | src/core/snes/ppu.mjs:300-337 | fails with a RangeError exactly when a buffer is too long; otherwise restores the memories, the masked fields and the lines, then renders |
| SnesPpu.SNESPPU.LoadMemories | src/core/snes/ppu.mjs:300-305 | VRAM, CGRAM and OAM (missing OAM as empty) are restored by `set`, failing with a RangeError on an over-long buffer |
| SnesPpu.SNESPPU.WriteLayerPixel | src/core/snes/ppu.mjs:1234-1250 | the pixel becomes the layer write of the palette colour, and no other pixel changes |
| SnesPpu.InitialInFrame | src/core/snes/ppu.mjs:37-80 | a fresh PPU's counters are in step and below 2^32 |
| SnesBus.Pattern | src/core/snes/bus.mjs:5-14 | each DMA mode's B-bus pattern has one to four offsets, each below 4 |
| SnesBus.WramOffset | src/core/snes/bus.mjs:297-310 | an address is work RAM exactly in banks 0x7E-0x7F or below 0x2000 of a system bank, and its offset lies inside the 128 KiB |
| SnesBus.ReadTargetOf | src/core/snes/bus.mjs:48-123 | a read always decodes to a device index inside that device's memory or register file |
| SnesBus.WriteTargetOf | src/core/snes/bus.mjs:125-208 | a write always decodes to a device index inside that device's memory or register file |
| SnesBus.WramBanksAreLinear | src/core/snes/bus.mjs:297-300 | banks 0x7E and 0x7F read and write the 128 KiB of work RAM as one linear block |
| SnesBus.LowRamMirrors | src/core/snes/bus.mjs:302-307 | offsets below 0x2000 of every system bank read and write the first 8 KiB of work RAM |
| SnesBus.HighSystemBanksMirror | src/core/snes/bus.mjs:48-53 | banks 0x80-0xBF reach the same non-cartridge targets as banks 0x00-0x3F |
| SnesBus.CartridgeBanks | src/core/snes/bus.mjs:122 | every access outside the system banks and 0x7E-0x7F goes to the cartridge with its bank and offset |
| SnesBus.WordOf | src/core/snes/bus.mjs:324 | a register pair's value has the low byte as its low byte and the high byte as its high byte |
| SnesBus.WithProduct | src/core/snes/bus.mjs:317-321 | RDMPYL/RDMPYH hold the product of WRMPYA and WRMPYB; no other register changes |
| SnesBus.Divide | src/core/snes/bus.mjs:323-342 | divisor 0 gives quotient 0xFFFF and the dividend as remainder; otherwise the Euclidean quotient and a remainder below the divisor |
| SnesBus.WithQuotient | src/core/snes/bus.mjs:323-342 | RDDIVL/H hold the quotient and RDMPYL/H the remainder of WRDIVL/H by WRDIVB; no other register changes |
| SnesBus.IoAfterWrite | src/core/snes/bus.mjs:170-192 | the written I/O register holds the byte afterwards |
| SnesBus.DivideByZero | src/core/snes/bus.mjs:327-333 | dividing by zero reads back 0xFFFF and the dividend's two bytes |
| SnesBus.WramPortValue | src/core/snes/bus.mjs:365-381 | WMDATA reads the work RAM byte at the port address |
| SnesBus.WramAddressAfterRead | src/core/snes/bus.mjs:365-381 | after a port read the port address stays below 128 KiB or is unchanged |
| SnesBus.WramAddressAfterWrite | src/core/snes/bus.mjs:383-407 | after a port write the port address is below 128 KiB |
| SnesBus.WramAfterPortWrite | src/core/snes/bus.mjs:383-407 | only WMDATA changes work RAM, and only at the port address |
| SnesBus.WramAddressFromPorts | src/core/snes/bus.mjs:390-406 | writing WMADDL, WMADDM and WMADDH sets the port address to bit 0 of WMADDH, then WMADDM, then WMADDL, whatever it was before |
| SnesBus.WramAddressReadsBack | src/core/snes/bus.mjs:372-380 | the three address ports read back the current port address |
| SnesBus.WramPortRoundTrip | src/core/snes/bus.mjs:365-388 | a byte written through WMDATA reads back through WMDATA at the same address |
| SnesBus.EventsIncrease | src/core/snes/bus.mjs:479-489 | the timer's events come in increasing order |
| SnesBus.IntervalHasEventExactly | src/core/snes/bus.mjs:479-489 | `#intervalHasEvent` holds exactly when some `offset + k * period` lies in (before, after] |
| SnesBus.HTimer | src/core/snes/bus.mjs:429 | HTIME is a nine-bit value |
| SnesBus.VTimer | src/core/snes/bus.mjs:430 | VTIME is a nine-bit value |
| SnesBus.IrqMode | src/core/snes/bus.mjs:410 | the IRQ mode is one of four values |
| SnesBus.HTimerFires | src/core/snes/bus.mjs:438-446 | in mode 1 with HTIME below 340 the IRQ fires exactly when the step passes dot 4 * HTIME of some line |
| SnesBus.VTimerFires | src/core/snes/bus.mjs:447-455 | in mode 2 with VTIME below 262 the IRQ fires exactly when the step passes the start of line VTIME of some frame |
| SnesBus.HvTimerFires | src/core/snes/bus.mjs:456-463 | in mode 3 with both timers in range the IRQ fires exactly when the step passes dot 4 * HTIME of line VTIME |
| SnesBus.IrqOffOrOutOfRange | src/core/snes/bus.mjs:410-463 | mode 0, or a timer out of range for its mode, never fires |
| SnesBus.DmaSize | src/core/snes/bus.mjs:690-694 | a channel moves 1 to 65536 bytes, and 65536 exactly when DAS is 0 |
| SnesBus.A1tAfter | src/core/snes/bus.mjs:717-723 | in fixed mode the A-bus address never moves |
| SnesBus.PlanCyclesPattern | src/core/snes/bus.mjs:704-727 | every B-bus address of a transfer lies in 0x2100-0x21FF, and the addresses repeat with the pattern's period |
| SnesBus.PlanSteps | src/core/snes/bus.mjs:717-722 | in increment mode each byte's A-bus address is one past the previous one within the same bank |
| SnesBus.SelectedChannels | src/core/snes/bus.mjs:673-679 | only channels whose MDMAEN bit is set are run, each once, in ascending order |
| SnesBus.SelectedChannelsComplete | src/core/snes/bus.mjs:673-679 | every channel whose MDMAEN bit is set is run |
| SnesBus.NoChannelSelected | src/core/snes/bus.mjs:670-682 | an empty mask runs no channel |
| SnesBus.ZeroHeaderEnds | src/core/snes/bus.mjs:579-584 | a zero line header deactivates the channel without a transfer |
| SnesBus.FullBlockHeader | src/core/snes/bus.mjs:586-588 | header 0x80 loads 128 lines with repeat off and transfers on its first line |
| SnesBus.HeaderLoadsCount | src/core/snes/bus.mjs:589-610 | any other header sets repeat from bit 7 and the count from bits 0-6, transfers on its first line, and sets the next line's flag from repeat or the exhausted count |
| SnesBus.CountingLine | src/core/snes/bus.mjs:553-566 | between reloads a line transfers iff its flag is set, counts down by one, and then sets the flag at 0 or from repeat |
| SnesBus.Walk | src/core/snes/bus.mjs:491-511 | the walk visits one line per line between the two PPU positions, each below 262 |
| SnesBus.WalkEndsOnTarget | src/core/snes/bus.mjs:497-510 | a non-empty walk ends on the PPU's new line |
| SnesBus.WalkWithinFrame | src/core/snes/bus.mjs:497-510 | within one frame the walk visits each following line once, in order |
| SnesBus.WalkStep | src/core/snes/bus.mjs:497-510 | each turn of the loop moves to the next line and leaves a shorter walk |
| SnesBus.SteppedMovesForward | src/core/snes/bus.mjs:497-510 | the loop's position never goes back before its start |
| SnesBus.LoadedLineNeverReached | src/core/snes/bus.mjs:491-511 | from a loaded line 10 with master cycle 0, one CPU cycle puts the PPU on line 0 of the same frame, which no turn of the loop reaches |
| SnesBus.CrossedWithinFrame | src/core/snes/bus.mjs:649-668 | within a frame, crossing a line means the walk visits it |
| SnesBus.ClockReachable | src/core/snes/bus.mjs:491-511 | a clock step from a consistent PPU position ends at or after it, so the walk ends |
| SnesBus.Fetched | src/core/snes/bus.mjs:55-120 | the branches of `read` change only the PPU, the controllers, the port address and the IRQ flags |
| SnesBus.ReadAt | src/core/snes/bus.mjs:48-123 | the byte read becomes the open-bus byte; memories and registers are unchanged |
| SnesBus.IoStored | src/core/snes/bus.mjs:170-192 | an I/O write updates the register file with the arithmetic results and leaves the memories |
| SnesBus.Stored | src/core/snes/bus.mjs:135-207 | a store keeps every memory's size, the clock and HDMA |
| SnesBus.StoreAt | src/core/snes/bus.mjs:125-208 | every write sets the open-bus byte to the written byte, and leaves the clock and HDMA |
| SnesBus.TransferByte | src/core/snes/bus.mjs:709-715 | one DMA byte leaves the clock and HDMA unchanged, since the model's DMA bytes start no nested DMA (see Left out) |
| SnesBus.TransferToMdmaenOnlyStores | src/core/snes/bus.mjs:194-201 | a B-to-A DMA byte whose A-bus address is MDMAEN is only stored in the I/O register file, where the source's `write` starts a nested DMA (see Left out) |
| SnesBus.Moved | src/core/snes/bus.mjs:704-728 | the transfers of a channel leave the clock and HDMA unchanged, since the model's DMA bytes start no nested DMA (see Left out) |
| SnesBus.MovedNext | src/core/snes/bus.mjs:704-728 | one more byte of the loop is one more transfer of the plan |
| SnesBus.ChannelRunBy | src/core/snes/bus.mjs:730-734 | after the bytes, A1T takes the address after the last byte and DAS takes 0 |
| SnesBus.ChannelRun | src/core/snes/bus.mjs:684-735 | a channel run leaves the clock and HDMA unchanged, since the model's DMA bytes start no nested DMA (see Left out) |
| SnesBus.ChannelRunRegisters | src/core/snes/bus.mjs:717-734 | after a channel DAS reads 0 and A1T has moved by +size or -size mod 2^16, or stayed in fixed mode |
| SnesBus.ChannelsRun | src/core/snes/bus.mjs:670-682 | a list of channels moves between 1 and 65536 bytes each; a DMA or HDMA byte stored to MDMAEN starts no nested DMA (see Left out) |
| SnesBus.DmaStarted | src/core/snes/bus.mjs:670-682 | `#startDMA` leaves the clock and HDMA unchanged, since the model's DMA bytes start no nested DMA (see Left out) |
| SnesBus.StartedUpToNext | src/core/snes/bus.mjs:673-679 | a channel of the loop runs and adds its size exactly when its MDMAEN bit is set |
| SnesBus.StartedUpToEnd | src/core/snes/bus.mjs:681 | after channel 7 the bus and count are those of `#startDMA` |
| SnesBus.DmaStartedMoves | src/core/snes/bus.mjs:670-682 | `#startDMA` moves no byte exactly when the mask is 0, and at most 64 KiB per channel |
| SnesBus.HdmaInitialized | src/core/snes/bus.mjs:513-537 | `#initializeHDMA` changes only the HDMA arrays |
| SnesBus.HdmaInitializedChannel | src/core/snes/bus.mjs:513-537 | an HDMAEN channel restarts active at A1T with DAS as indirect address and its flag set; any other goes idle and keeps its addresses |
| SnesBus.HdmaReloaded | src/core/snes/bus.mjs:570-610 | a reload keeps the sizes of the memories and the clock |
| SnesBus.AfterHeader | src/core/snes/bus.mjs:576-609 | after the header byte, the line is loaded from it, and a live indirect channel also takes the indirect address, which DAS holds too |
| SnesBus.HdmaReloadedLoads | src/core/snes/bus.mjs:570-610 | a reload loads the line from the header, and a live indirect channel also takes the indirect address, which DAS holds too |
| SnesBus.IndirectReloaded | src/core/snes/bus.mjs:598-607 | the indirect address read from the table is the one DAS holds afterwards |
| SnesBus.ReloadedDirect | src/core/snes/bus.mjs:570-597 | a zero header or a direct channel loads only the header |
| SnesBus.ReloadedIndirect | src/core/snes/bus.mjs:598-607 | a live indirect channel loads the header, then the indirect address |
| SnesBus.ReloadedAfter | src/core/snes/bus.mjs:570-577 | a reload reads the header byte at A1B:table first, and the rest of it starts from the bus that read left |
| SnesBus.AfterHeaderIndirect | src/core/snes/bus.mjs:598-607 | after a non-zero header, an indirect channel goes on to read its indirect address |
| SnesBus.IndirectReloadedBy | src/core/snes/bus.mjs:599-606 | the indirect address is the two bytes read, low first, and DAS takes them |
| SnesBus.ReloadAddresses | src/core/snes/bus.mjs:576-606 | a reload moves the table address past the header, and past the indirect address too in indirect mode; no other channel changes |
| SnesBus.HdmaUnit | src/core/snes/bus.mjs:623-646 | each unit moves the indirect or the table address on by one; a DMA or HDMA byte stored to MDMAEN starts no nested DMA (see Left out) |
| SnesBus.UnitTransfer | src/core/snes/bus.mjs:624-645 | each unit's B-bus address lies in 0x2100-0x21FF and its direction is DMAP bit 7 |
| SnesBus.HdmaUnits | src/core/snes/bus.mjs:623-646 | after `n` units the source address has moved on by `n`; a DMA or HDMA byte stored to MDMAEN starts no nested DMA (see Left out) |
| SnesBus.HdmaUnitsNext | src/core/snes/bus.mjs:623-646 | one more turn of the loop is one more unit |
| SnesBus.HdmaTransferred | src/core/snes/bus.mjs:612-647 | a transfer moves the source address on by the pattern's length; a DMA or HDMA byte stored to MDMAEN starts no nested DMA (see Left out) |
| SnesBus.HdmaChannelLine | src/core/snes/bus.mjs:540-567 | one channel's share of a scanline keeps the clock; a DMA or HDMA byte stored to MDMAEN starts no nested DMA (see Left out) |
| SnesBus.HdmaChannelLineStep | src/core/snes/bus.mjs:539-568 | an active channel's line follows the header rules; an idle one changes nothing; other channels' lines are untouched |
| SnesBus.HdmaChannels | src/core/snes/bus.mjs:539-568 | the channels of a scanline keep the clock; a DMA or HDMA byte stored to MDMAEN starts no nested DMA (see Left out) |
| SnesBus.HdmaChannelsNext | src/core/snes/bus.mjs:540-567 | one more turn of the loop is one more channel |
| SnesBus.HdmaVisit | src/core/snes/bus.mjs:498-509 | one line of the walk keeps the clock; a DMA or HDMA byte stored to MDMAEN starts no nested DMA (see Left out) |
| SnesBus.HdmaOver | src/core/snes/bus.mjs:491-511 | the walk keeps the clock; a DMA or HDMA byte stored to MDMAEN starts no nested DMA (see Left out) |
| SnesBus.HdmaOverAppend | src/core/snes/bus.mjs:497-510 | a walk one line longer visits that line last |
| SnesBus.IrqUpdated | src/core/snes/bus.mjs:409-469 | `#updateIRQ` changes only the IRQ flag and the pending IRQ |
| SnesBus.JoypadRegisters | src/core/snes/bus.mjs:355-362 | JOY1 and JOY2 take the two words and JOY3-JOY4 read 0; no other register changes |
| SnesBus.AutoJoypadPolled | src/core/snes/bus.mjs:344-363 | the poll changes only the I/O registers and the two controllers |
| SnesBus.AutoJoypadWords | src/core/snes/bus.mjs:344-363 | with NMITIMEN bit 0 clear nothing changes; set, both controllers latch and JOY1/JOY2 hold their words, bit by bit |
| SnesBus.CpuCharged | src/core/snes/bus.mjs:215 | only the CPU count changes, by the cycles given |
| SnesBus.PpuRan | src/core/snes/bus.mjs:218 | only the PPU changes, clocked by the master cycles |
| SnesBus.PolledAfter | src/core/snes/bus.mjs:225-231 | the poll of `clock` changes only the I/O registers and the controllers |
| SnesBus.Clocked | src/core/snes/bus.mjs:210-235 | `clock` keeps the PPU counters in step; a DMA or HDMA byte stored to MDMAEN starts no nested DMA (see Left out) |
| SnesBus.ClockedAdvances | src/core/snes/bus.mjs:210-235 | `clock` adds `cpuCycles >>> 0` to the CPU count, moves the PPU six master cycles per CPU cycle, and leaves the IRQ flagged and pending when the timer fired in the step |
| SnesBus.DmaCharged | src/core/snes/bus.mjs:737-753 | `#consumeDMACycles` keeps the PPU counters in step; a DMA or HDMA byte stored to MDMAEN starts no nested DMA (see Left out) |
| SnesBus.DmaChargedBy | src/core/snes/bus.mjs:744-752 | a non-zero count runs the PPU, the HDMA walk and the IRQ check, then charges a sixth of the master cycles |
| SnesBus.DmaChargedCycles | src/core/snes/bus.mjs:737-753 | `n` bytes cost `8 n + 8` master cycles; the PPU advances by them and the CPU count by a sixth of them |
| SnesBus.WriteAt | src/core/snes/bus.mjs:125-208 | a write keeps every memory's size and the PPU counters in step; a DMA or HDMA byte stored to MDMAEN starts no nested DMA (see Left out) |
| SnesBus.DmaWriteCharges | src/core/snes/bus.mjs:194-201 | a write to MDMAEN runs the selected channels and charges cycles exactly when the mask is non-zero |
| SnesBus.IrqPolled | src/core/snes/bus.mjs:241-248 | `pollIRQ` returns the pending IRQ and clears it; nothing else changes |
| SnesBus.NmiPolled | src/core/snes/bus.mjs:237-239 | `pollNMI` returns the PPU's pending NMI and clears it; nothing else changes |
| SnesBus.WorkRamRoundTrip | src/core/snes/bus.mjs:297-310 | a byte written to work RAM reads back at every address that maps to the same offset |
| SnesBus.JoypadReadBits | src/core/snes/bus.mjs:75-85 | JOYSER0 gives the controller's serial bit in bit 0 and the open-bus byte's other bits, and shifts only that controller |
| SnesBus.TimeUpAcknowledges | src/core/snes/bus.mjs:95-100 | TIMEUP reads 0x80 iff the IRQ flag is set, clears the flag and the pending IRQ, and a second read gives 0 |
| SnesBus.NmiStatusAcknowledges | src/core/snes/bus.mjs:87-89 | RDNMI reads 0x80 iff the PPU's NMI flag is set, and a second read gives 0 |
| SnesBus.MultiplierReadsProduct | src/core/snes/bus.mjs:184-187 | writing WRMPYB makes RDMPYL/RDMPYH read the product with WRMPYA |
| SnesBus.DividerReadsQuotient | src/core/snes/bus.mjs:189-192 | writing WRDIVB makes RDDIVL/H read the quotient and RDMPYL/H the remainder |
| SnesSystemBus.A1tStep | src/core/snes/bus.mjs:717-723 | the loop's A1T update is the planned address after one more byte |
| SnesSystemBus.DmaLoopStep | src/core/snes/bus.mjs:704-727 | the loop's A1T and pattern index give the next planned transfer and the ones after it |
| SnesSystemBus.SplicedAll | src/core/snes/bus.mjs:516-536 | once every channel is done the HDMA arrays are the initialised ones |
| SnesSystemBus.InitializedStep | src/core/snes/bus.mjs:516-536 | one more channel of `#initializeHDMA`'s loop is that channel restarted from the registers |
| SnesSystemBus.SNESBus.constructor | src/core/snes/bus.mjs:22-46 | zeroed memories and registers, a fresh PPU and two fresh controllers |
| SnesSystemBus.SNESBus.Read | src/core/snes/bus.mjs:48-123 | the byte and the new bus are those of the decoded read |
| SnesSystemBus.SNESBus.Fetch | src/core/snes/bus.mjs:55-120 | the branches of `read` before the open-bus byte is set |
| SnesSystemBus.SNESBus.ReadJoypad | src/core/snes/bus.mjs:75-85 | JOYSER0/1: the open-bus byte with the controller's serial bit |
| SnesSystemBus.SNESBus.ReadWramPort | src/core/snes/bus.mjs:365-381 | the port's byte, and the port address moved on after WMDATA |
| SnesSystemBus.SNESBus.StoreByte | src/core/snes/bus.mjs:133-207 | the open-bus byte, then the decoded store |
| SnesSystemBus.SNESBus.Store | src/core/snes/bus.mjs:135-207 | the store of the decoded target |
| SnesSystemBus.SNESBus.StoreWorkRam | src/core/snes/bus.mjs:137-140 | work RAM takes the byte at the offset |
| SnesSystemBus.SNESBus.StoreAudio | src/core/snes/bus.mjs:147-151 | the audio port takes the byte |
| SnesSystemBus.SNESBus.StoreDma | src/core/snes/bus.mjs:165-168 | the DMA register takes the byte |
| SnesSystemBus.SNESBus.StorePpu | src/core/snes/bus.mjs:142-145 | the PPU register write |
| SnesSystemBus.SNESBus.StoreJoypad | src/core/snes/bus.mjs:158-163 | bit 0 becomes both controllers' strobe |
| SnesSystemBus.SNESBus.StoreCartridge | src/core/snes/bus.mjs:207 | the cartridge write, which changes only its SRAM |
| SnesSystemBus.SNESBus.StoreWramPort | src/core/snes/bus.mjs:153-156 | the WRAM data port write |
| SnesSystemBus.SNESBus.WriteWramPort | src/core/snes/bus.mjs:383-407 | WMDATA stores and moves on; WMADDL/M/H replace one byte of the port address |
| SnesSystemBus.SNESBus.StoreIo | src/core/snes/bus.mjs:170-192 | the I/O write with NMITIMEN's and the arithmetic units' effects |
| SnesSystemBus.SNESBus.StoreNmitimen | src/core/snes/bus.mjs:173-182 | bit 7 sets the PPU's NMI enable; both timer bits clear drop the IRQ |
| SnesSystemBus.SNESBus.StoreArithmetic | src/core/snes/bus.mjs:184-192 | the register takes the byte and the multiplier or divider recomputes |
| SnesSystemBus.SNESBus.UpdateMultiplication | src/core/snes/bus.mjs:317-321 | the product registers take the product |
| SnesSystemBus.SNESBus.UpdateDivision | src/core/snes/bus.mjs:323-342 | the quotient and remainder registers take the division's results |
| SnesSystemBus.SNESBus.StoreIoWord | src/core/snes/bus.mjs:328-341 | a 16-bit result is stored low byte first in two I/O registers; nothing else changes |
| SnesSystemBus.SNESBus.Write | src/core/snes/bus.mjs:125-208 | the new bus is that of the decoded write, with the DMA and its cycles after an MDMAEN write; a DMA or HDMA byte stored to MDMAEN starts no nested DMA (see Left out) |
| SnesSystemBus.SNESBus.TransferDma | src/core/snes/bus.mjs:709-715 | one byte read on one bus and written on the other; a DMA or HDMA byte stored to MDMAEN starts no nested DMA (see Left out) |
| SnesSystemBus.SNESBus.RunDmaChannel | src/core/snes/bus.mjs:684-735 | the new bus is the channel's run, and the count is its size; a DMA or HDMA byte stored to MDMAEN starts no nested DMA (see Left out) |
| SnesSystemBus.SNESBus.TransferDmaBytes | src/core/snes/bus.mjs:704-728 | the loop makes all `size` transfers of the plan and returns the A1T after them; a DMA or HDMA byte stored to MDMAEN starts no nested DMA (see Left out) |
| SnesSystemBus.SNESBus.CloseDmaChannel | src/core/snes/bus.mjs:730-734 | the written-back A1T and DAS complete the run |
| SnesSystemBus.SNESBus.TransferDmaByte | src/core/snes/bus.mjs:705-727 | one turn of the loop: the next transfer of the plan, A1T and pattern index moved on; a DMA or HDMA byte stored to MDMAEN starts no nested DMA (see Left out) |
| SnesSystemBus.SNESBus.TransferPlanned | src/core/snes/bus.mjs:709-715 | transfer `n` of the plan; a DMA or HDMA byte stored to MDMAEN starts no nested DMA (see Left out) |
| SnesSystemBus.SNESBus.FinishDmaChannel | src/core/snes/bus.mjs:730-733 | A1T takes the final address and DAS 0 |
| SnesSystemBus.SNESBus.StartDma | src/core/snes/bus.mjs:670-682 | the new bus and the returned count are those of `#startDMA`; a DMA or HDMA byte stored to MDMAEN starts no nested DMA (see Left out) |
| SnesSystemBus.SNESBus.StartDmaChannel | src/core/snes/bus.mjs:674-678 | one turn of the loop keeps the bus and the count those of the channels so far; a DMA or HDMA byte stored to MDMAEN starts no nested DMA (see Left out) |
| SnesSystemBus.SNESBus.ConsumeDmaCycles | src/core/snes/bus.mjs:737-753 | the new bus is that of `#consumeDMACycles`; a DMA or HDMA byte stored to MDMAEN starts no nested DMA (see Left out) |
| SnesSystemBus.SNESBus.ChargeDmaCycles | src/core/snes/bus.mjs:744-752 | the non-zero case of `#consumeDMACycles`; a DMA or HDMA byte stored to MDMAEN starts no nested DMA (see Left out) |
| SnesSystemBus.SNESBus.ChargeCpu | src/core/snes/bus.mjs:215 | the CPU count grows by the cycles |
| SnesSystemBus.SNESBus.ClockPpu | src/core/snes/bus.mjs:218 | the PPU is clocked by the master cycles |
| SnesSystemBus.SNESBus.ClockHdma | src/core/snes/bus.mjs:491-511 | the new bus is HDMA run over the walk from the old position to the PPU's; a DMA or HDMA byte stored to MDMAEN starts no nested DMA (see Left out) |
| SnesSystemBus.SNESBus.VisitHdmaLine | src/core/snes/bus.mjs:498-509 | one line of the walk; a DMA or HDMA byte stored to MDMAEN starts no nested DMA (see Left out) |
| SnesSystemBus.SNESBus.LatchLine | src/core/snes/bus.mjs:507 | the PPU latches the line; nothing else in the bus changes |
| SnesSystemBus.SNESBus.InitializeHdma | src/core/snes/bus.mjs:513-537 | the HDMA arrays are restarted from HDMAEN |
| SnesSystemBus.SNESBus.RestartChannels | src/core/snes/bus.mjs:516-536 | the channel loop gives the initialised arrays |
| SnesSystemBus.SNESBus.RestartChannel | src/core/snes/bus.mjs:517-535 | one turn of the channel loop |
| SnesSystemBus.SNESBus.InitializeHdmaChannel | src/core/snes/bus.mjs:517-535 | an enabled channel restarts at its table and indirect address; a disabled one is cleared |
| SnesSystemBus.SNESBus.RunHdmaScanline | src/core/snes/bus.mjs:539-568 | every channel of the scanline, in order; a DMA or HDMA byte stored to MDMAEN starts no nested DMA (see Left out) |
| SnesSystemBus.SNESBus.RunHdmaChannel | src/core/snes/bus.mjs:540-567 | one channel's reload, transfer and count-down; a DMA or HDMA byte stored to MDMAEN starts no nested DMA (see Left out) |
| SnesSystemBus.SNESBus.ReloadIfDue | src/core/snes/bus.mjs:545-547 | a zero counter reloads; otherwise nothing changes |
| SnesSystemBus.SNESBus.TransferIfDue | src/core/snes/bus.mjs:553-555 | a set flag transfers; otherwise nothing changes; a DMA or HDMA byte stored to MDMAEN starts no nested DMA (see Left out) |
| SnesSystemBus.SNESBus.CountDownLine | src/core/snes/bus.mjs:557-566 | the counter counts down and the next line's flag is set; nothing else changes |
| SnesSystemBus.SNESBus.CountDownHdmaLine | src/core/snes/bus.mjs:557-566 | the counter counts down and the next line's flag is set |
| SnesSystemBus.SNESBus.ReloadHdmaChannel | src/core/snes/bus.mjs:570-610 | the new bus is the channel's reload |
| SnesSystemBus.SNESBus.LoadHdmaHeader | src/core/snes/bus.mjs:572-597 | the table moves past the header and the line is loaded from it |
| SnesSystemBus.SNESBus.LoadHdmaLine | src/core/snes/bus.mjs:579-596 | a zero header ends the channel; 0x80 repeats 128 lines; otherwise bit 7 is the repeat flag and the low seven bits the count, 0 meaning 128 |
| SnesSystemBus.SNESBus.ReadIndirectAddress | src/core/snes/bus.mjs:598-607 | the two table bytes become the indirect address and DAS |
| SnesSystemBus.SNESBus.StoreIndirectAddress | src/core/snes/bus.mjs:603-606 | DAS and the indirect address take the bytes and the table moves past them |
| SnesSystemBus.SNESBus.TransferHdmaChannel | src/core/snes/bus.mjs:612-647 | the new bus is the channel's transfer; a DMA or HDMA byte stored to MDMAEN starts no nested DMA (see Left out) |
| SnesSystemBus.SNESBus.TransferHdmaStep | src/core/snes/bus.mjs:623-646 | one turn of the unit loop; a DMA or HDMA byte stored to MDMAEN starts no nested DMA (see Left out) |
| SnesSystemBus.SNESBus.TransferHdmaUnits | src/core/snes/bus.mjs:623-646 | the `for` loop over the pattern: all the units of the setup, each as `HdmaUnits` says; a DMA or HDMA byte stored to MDMAEN starts no nested DMA (see Left out) |
| SnesSystemBus.SNESBus.TransferHdmaFrom | src/core/snes/bus.mjs:623-646 | the units from `index` to the end of the pattern, each as `HdmaUnits` says; a DMA or HDMA byte stored to MDMAEN starts no nested DMA (see Left out) |
| SnesSystemBus.SNESBus.TransferHdmaUnit | src/core/snes/bus.mjs:624-645 | one unit: the source address moves on and the byte is moved; a DMA or HDMA byte stored to MDMAEN starts no nested DMA (see Left out) |
| SnesSystemBus.SNESBus.UpdateIrq | src/core/snes/bus.mjs:409-469 | the new bus is that of `#updateIRQ` |
| SnesSystemBus.SNESBus.AutoJoypadPoll | src/core/snes/bus.mjs:344-363 | the new bus is that of `#autoJoypadPoll` |
| SnesSystemBus.SNESBus.StoreJoypadWords | src/core/snes/bus.mjs:355-362 | JOY1-JOY4 take the two words and zeros |
| SnesSystemBus.SNESBus.Clock | src/core/snes/bus.mjs:210-235 | the new bus is that of `clock`; a DMA or HDMA byte stored to MDMAEN starts no nested DMA (see Left out) |
| SnesSystemBus.SNESBus.PollAfter | src/core/snes/bus.mjs:225-231 | the joypads are polled when the step reached line 225 |
| SnesSystemBus.SNESBus.PollNmi | src/core/snes/bus.mjs:237-239 | the PPU's pending NMI is reported and cleared |
| SnesSystemBus.SNESBus.PollIrq | src/core/snes/bus.mjs:241-248 | the pending IRQ is reported and cleared |
| Kernel.PlayerIndex | src/core/nes-kernel.mjs:214-227 | a player that passes the check, 1 or 2, selects controller `player - 1`, which is 0 or 1 |
| Kernel.Uint32Copy | src/core/nes-kernel.mjs:91 | `Uint32Array.from` keeps the buffer's length and stores every pixel as `v >>> 0` |
| Kernel.IterateShift | src/core/nes-kernel.mjs:72-88 | one turn followed by `k` turns is `k + 1` turns |
| Kernel.FrameLoopIterates | src/core/nes-kernel.mjs:72-88 | the loop throws exactly when none of the first `guard - 1` turns reaches the target frame, and then it has made `guard` turns; otherwise it stops after the first turn that reaches the target |
| Kernel.GuardIgnoresLastTurn | src/core/nes-kernel.mjs:83-87 | the guard throws on its last turn even when that turn completed the frame |
| Kernel.AfterFrameGuard | src/core/nes-kernel.mjs:83-87 | a guard that runs out throws the loop's message and leaves the frame count, buffer and checksum as they were |
| Kernel.AfterFrameFinished | src/core/nes-kernel.mjs:90-92 | a completed loop sets the frame count to the PPU's frame, copies the frame buffer and keeps the copy's checksum |
| Kernel.AfterFrameAdvances | src/core/nes-kernel.mjs:67-99 | a completed frame leaves the PPU on a later frame, which is the new frame count, with the checksum of the copied buffer; a failed one throws the guard's message and keeps the counters |
| Kernel.FramesRunCompose | src/core/nes-kernel.mjs:108-110 | running `a` frames and then `b` is running `a + b` |
| Kernel.FramesRunAdvances | src/core/nes-kernel.mjs:108-110 | `n` frames that all complete move the PPU on by at least `n` frames and leave the frame count at the PPU's frame, with the checksum of the last copy |
| Kernel.ReplayAgrees | test/nes-kernel.smoke.test.mjs:41-57 | two frame states on the same machine run `n` frames to the same machine, outcome, frame count, buffer and checksum |
| Kernel.PartsLoaded | src/core/nes-kernel.mjs:134-141 | a cartridge load that throws ends the load with its result, and so does a bus load that throws after the cartridge loaded |
| Kernel.PartsRoundTrip | src/core/nes-kernel.mjs:123-141 | loading a machine's own three snapshots, in order, gives the machine back |
| NesKernel.NesLoop | src/core/nes-kernel.mjs:70-88 | the NES loop's guard is 2,000,000 turns with the message "Frame execution guard exceeded.", over the PPU's frame counter and buffer |
| NesKernel.TakeSnapshot | src/core/nes-kernel.mjs:123-132 | the snapshot holds the frame count, the checksum and the cartridge, bus and CPU snapshots |
| NesKernel.SnapshotRoundTrip | src/core/nes-kernel.mjs:123-141 | loading a machine's own snapshot gives it back when each part restores from its own snapshot |
| NesKernel.CapitalsNormal | src/core/nes-kernel.mjs:218 | a word of capital letters is unchanged by `trim().toUpperCase()` |
| NesKernel.ButtonNamesNormal | src/core/nes-kernel.mjs:218-220 | every button name is already trimmed and upper case |
| NesKernel.NormalizedButtonKept | src/core/nes-kernel.mjs:218-227 | the controller picks the same button from the normalized name as from the name given, and the name is a button |
| NesKernel.NESKernel.constructor | src/core/nes-kernel.mjs:30-51 | no ROM, no machine, no status, and the counters cleared |
| NesKernel.NESKernel.LoadRomBuffer | src/core/nes-kernel.mjs:53-60 | the image is kept; a bad header throws before the metadata changes, a cartridge that cannot be built throws after it; otherwise the new machine has cleared counters and the status "ROM loaded" |
| NesKernel.NESKernel.Reset | src/core/nes-kernel.mjs:62-65 | without a machine it throws "No ROM loaded"; otherwise the machine is built again from the image with the counters cleared |
| NesKernel.NESKernel.RunFrame | src/core/nes-kernel.mjs:67-99 | without a machine it throws "No ROM loaded"; otherwise the new frame state is `AfterFrame` of the NES loop |
| NesKernel.NESKernel.RunFrames | src/core/nes-kernel.mjs:101-113 | "No ROM loaded", then a `RangeError` for anything but a positive integer before any frame runs; otherwise exactly `FramesRun` of that many frames |
| NesKernel.NESKernel.SetButton | src/core/nes-kernel.mjs:211-228 | no machine, a bad player and a name that is not a button throw, in that order, before anything changes; otherwise the player's controller gets the normalized name |
| NesKernel.NESKernel.PressButton | src/core/nes-kernel.mjs:115-117 | `SetButton` with the button held |
| NesKernel.NESKernel.ReleaseButton | src/core/nes-kernel.mjs:119-121 | `SetButton` with the button let go |
| NesKernel.NESKernel.SaveState | src/core/nes-kernel.mjs:123-132 | "No ROM loaded" without a machine; otherwise the snapshot of the machine with the counters |
| NesKernel.NESKernel.LoadState | src/core/nes-kernel.mjs:134-141 | the parts load in order; when all load the frame count and checksum are taken as saved, and when one throws they stay; the frame buffer is kept |
| SnesKernel.SnesLoop | src/core/snes/snes-kernel.mjs:53-64 | the SNES loop's guard is 8,000,000 turns with the message "SNES frame execution guard exceeded.", over the PPU's frame counter and buffer |
| SnesKernel.TakeSnapshot | src/core/snes/snes-kernel.mjs:99-110 | the snapshot holds the frame count, the audio sample count, the checksum and the cartridge, bus and CPU snapshots |
| SnesKernel.Loaded | src/core/snes/snes-kernel.mjs:117-120 | a completed load takes the frame count through `>>> 0`, the checksum as saved and a copy of the loaded PPU's frame buffer |
| SnesKernel.ReplayFromSnapshot | test/snes-kernel.smoke.test.mjs:41-57 | after save, run, load, the kernel is back on the frame state it saved, and `n` more frames run to the same checksum as the first time |
| SnesKernel.SNESKernel.constructor | src/core/snes/snes-kernel.mjs:10-36 | no ROM, no machine, no status, and the counters cleared |
| SnesKernel.SNESKernel.LoadRomBuffer | src/core/snes/snes-kernel.mjs:38-43 | the image is kept; a cartridge that cannot be built throws with nothing else changed; otherwise the new machine has cleared counters and the status "ROM loaded" |
| SnesKernel.SNESKernel.Reset | src/core/snes/snes-kernel.mjs:45-48 | without a machine it throws "No ROM loaded"; otherwise the machine is built again from the image with the counters cleared |
| SnesKernel.SNESKernel.RunFrame | src/core/snes/snes-kernel.mjs:50-75 | without a machine it throws "No ROM loaded"; otherwise the new frame state is `AfterFrame` of the SNES loop |
| SnesKernel.SNESKernel.RunFrames | src/core/snes/snes-kernel.mjs:77-89 | "No ROM loaded", then a `RangeError` for anything but a positive integer before any frame runs; otherwise exactly `FramesRun` of that many frames |
| SnesKernel.SNESKernel.SetButton | src/core/snes/snes-kernel.mjs:187-195 | no machine and a bad player throw before anything changes; otherwise the player's controller takes the name as given and decides the outcome |
| SnesKernel.SNESKernel.PressButton | src/core/snes/snes-kernel.mjs:91-93 | `SetButton` with the button held |
| SnesKernel.SNESKernel.ReleaseButton | src/core/snes/snes-kernel.mjs:95-97 | `SetButton` with the button let go |
| SnesKernel.SNESKernel.SaveState | src/core/snes/snes-kernel.mjs:99-110 | "No ROM loaded" without a machine; otherwise the snapshot of the machine with the counters |
| SnesKernel.SNESKernel.LoadState | src/core/snes/snes-kernel.mjs:112-121 | the parts load in order; when all load the frame state is `Loaded` and the audio count goes through `>>> 0`, and when one throws the counters stay |

## Left out

- The ROM byte conversions (`toByteArray`, `toBuffer`) are left out: the model takes ROM images as byte sequences.
- Audio samples are `real` numbers; the Float32 rounding of the audio queue is not modelled.
- The NES PPU's background and sprite rendering and its frame buffer are not modelled; sprite 0 hit reads OAM bytes 0 and 3 only.
- The PPU calls `bus.requestNMI()`. The model returns that call as a flag, which the bus turns into its pending NMI.
- NesBus.Bus.DoOamDma: OAM contents are stated only for pages that read RAM or the cartridge, not for pages over the PPU or I/O ports.
- Smc.SmallestImageHasNoHeader records a quirk of the source. The 0x50-byte header window at 0x7FC0 ends at 0x8010, so an image of exactly 32 KiB has no candidate that fits.
- CpuBus.Bus.Read: the processor's bus is memory without side effects; the devices behind the NES and SNES buses are modelled by those buses, not through the processor.
- The 6502's status register is a record of eight flags; the byte form appears only where P is pushed, pulled, saved or loaded.
- Branches of the 6502 source that no opcode reaches are left out: group 1 always resolves an operand, and `executeShift` is only called with operations 0 to 3.
- Mos6502.Group1: STA #imm (0x89) consumes one operand byte, as the switch's case for 0x89 intends; the source's extra read is `Mos6502.StoreImmediateAsWritten` (see Findings).
- The decimal flag is stored and pushed but never consulted, as in the source.
- Cpu65816.CPU65816.Brk: native-mode BRK pushes PBR before PC and P, as `interrupt` does and RTI expects; the source's BRK, which never pushes PBR, is `Wdc65816.BrkAsWritten` (see Findings).
- The 65816 opcodes without a `case` go to `illegal`, as in the source; the model does not list the set of opcodes that have one.
- The 65816 bus is the flat 24-bit memory of `CpuBus`; read side effects of the SNES devices and open-bus values are modelled by the SNES bus, not through the processor.
- The 65816 snapshot's fields are integers and a boolean. JavaScript values of other types, such as fractions, strings or a missing `unknownOpcodes` (`?? []`), are outside the model, and `Boolean(state.E)` is taken as the boolean it yields.
- Wdc65816.StepKeepsNormalized: MVN and MVP step X and Y modulo 2^16 even with 8-bit index registers, as the source does, so the widths invariant is stated only for steps that run no block move (`Wdc65816.BlockMoveWidensIndex` shows it breaking).
- The 65816's `totalCycles` is an unbounded integer; the source's JavaScript number loses precision only past 2^53 cycles.
- The SNES PPU's rendering is modelled only for its effect on the model's state (the latched lines are cleared). The BG and sprite rendering loops, `_composeMainAndSub`, the frame buffer and the RGBA conversion are not modelled; the per-pixel pieces they use (window tests, colour math, blending, tile and palette reads, priorities, `_writeLayerPixel`) are.
- SnesPpu.SNESPPU.WriteLayerPixel requires an index inside the screen; the rendering loops that call it only pass such indices, and a typed-array write past the end would be dropped.
- SnesPpu.LoadedFields: snapshot fields are integers and booleans; `?? 0` defaults and JavaScript values of other types are outside the model, and `Boolean(x)` is taken as the boolean it yields.
- SnesPpu.LoadSavedFields: a frame count or other counter of 2^32 or more wraps through `>>> 0` on reload, so the round trip is stated for counters below 2^32.
- SnesSystemBus.SNESBus.Clock requires the PPU's counters to be in step (`InFrame`: the line and dot are the master cycle's), and so do SnesSystemBus.SNESBus.ConsumeDmaCycles and SnesSystemBus.SNESBus.Write of MDMAEN. A snapshot can break this, since the PPU's `loadState` takes the line and the master cycle separately. From such a position `#clockHDMA`'s loop may never end: `SnesBus.LoadedLineNeverReached` exhibits one. A non-terminating loop has no result to model.
- SnesBus.TransferByte: a DMA or HDMA byte is stored with `StoreAt`, the store half of `write`, so a B-to-A byte whose A-bus address is MDMAEN (00:420B) only sets that I/O register. The source's `#runDMAChannel` (bus.mjs:709-715) and `#transferHDMAChannel` (bus.mjs:639-645) call `this.write`, which for 0x420B runs `#startDMA` and `#consumeDMACycles` (bus.mjs:194-201): a nested DMA that moves bytes, clocks the PPU, HDMA and the IRQ check and charges CPU cycles. When the mask selects the running channel, the nested run starts from the same A1T and DAS (they are written back only after the loop, bus.mjs:730-733) and recurses until the stack overflows, a run with no result to model; the other masks are left out with it, so the model's contracts on a DMA or HDMA run, including "leaves the clock and HDMA", hold of the source only for runs that store no byte to MDMAEN. `SnesBus.TransferToMdmaenOnlyStores` states what the model does there.
- SnesBus.Moved: its DMA or HDMA bytes go through `SnesBus.TransferByte` or `StoreAt`, so a byte stored to MDMAEN starts no nested DMA and charges no cycles, as the `SnesBus.TransferByte` line says.
- SnesBus.ChannelRun: its DMA or HDMA bytes go through `SnesBus.TransferByte` or `StoreAt`, so a byte stored to MDMAEN starts no nested DMA and charges no cycles, as the `SnesBus.TransferByte` line says.
- SnesBus.ChannelsRun: its DMA or HDMA bytes go through `SnesBus.TransferByte` or `StoreAt`, so a byte stored to MDMAEN starts no nested DMA and charges no cycles, as the `SnesBus.TransferByte` line says.
- SnesBus.DmaStarted: its DMA or HDMA bytes go through `SnesBus.TransferByte` or `StoreAt`, so a byte stored to MDMAEN starts no nested DMA and charges no cycles, as the `SnesBus.TransferByte` line says.
- SnesBus.HdmaUnit: its DMA or HDMA bytes go through `SnesBus.TransferByte` or `StoreAt`, so a byte stored to MDMAEN starts no nested DMA and charges no cycles, as the `SnesBus.TransferByte` line says.
- SnesBus.HdmaUnits: its DMA or HDMA bytes go through `SnesBus.TransferByte` or `StoreAt`, so a byte stored to MDMAEN starts no nested DMA and charges no cycles, as the `SnesBus.TransferByte` line says.
- SnesBus.HdmaTransferred: its DMA or HDMA bytes go through `SnesBus.TransferByte` or `StoreAt`, so a byte stored to MDMAEN starts no nested DMA and charges no cycles, as the `SnesBus.TransferByte` line says.
- SnesBus.HdmaChannelLine: its DMA or HDMA bytes go through `SnesBus.TransferByte` or `StoreAt`, so a byte stored to MDMAEN starts no nested DMA and charges no cycles, as the `SnesBus.TransferByte` line says.
- SnesBus.HdmaChannels: its DMA or HDMA bytes go through `SnesBus.TransferByte` or `StoreAt`, so a byte stored to MDMAEN starts no nested DMA and charges no cycles, as the `SnesBus.TransferByte` line says.
- SnesBus.HdmaVisit: its DMA or HDMA bytes go through `SnesBus.TransferByte` or `StoreAt`, so a byte stored to MDMAEN starts no nested DMA and charges no cycles, as the `SnesBus.TransferByte` line says.
- SnesBus.HdmaOver: its DMA or HDMA bytes go through `SnesBus.TransferByte` or `StoreAt`, so a byte stored to MDMAEN starts no nested DMA and charges no cycles, as the `SnesBus.TransferByte` line says.
- SnesBus.Clocked: its DMA or HDMA bytes go through `SnesBus.TransferByte` or `StoreAt`, so a byte stored to MDMAEN starts no nested DMA and charges no cycles, as the `SnesBus.TransferByte` line says.
- SnesBus.DmaCharged: its DMA or HDMA bytes go through `SnesBus.TransferByte` or `StoreAt`, so a byte stored to MDMAEN starts no nested DMA and charges no cycles, as the `SnesBus.TransferByte` line says.
- SnesBus.WriteAt: its DMA or HDMA bytes go through `SnesBus.TransferByte` or `StoreAt`, so a byte stored to MDMAEN starts no nested DMA and charges no cycles, as the `SnesBus.TransferByte` line says.
- SnesSystemBus.SNESBus.Write: proved equal to the value model, so a DMA or HDMA byte stored to MDMAEN starts no nested DMA and charges no cycles, as the `SnesBus.TransferByte` line says.
- SnesSystemBus.SNESBus.TransferDma: proved equal to the value model, so a DMA or HDMA byte stored to MDMAEN starts no nested DMA and charges no cycles, as the `SnesBus.TransferByte` line says.
- SnesSystemBus.SNESBus.RunDmaChannel: proved equal to the value model, so a DMA or HDMA byte stored to MDMAEN starts no nested DMA and charges no cycles, as the `SnesBus.TransferByte` line says.
- SnesSystemBus.SNESBus.TransferDmaBytes: proved equal to the value model, so a DMA or HDMA byte stored to MDMAEN starts no nested DMA and charges no cycles, as the `SnesBus.TransferByte` line says.
- SnesSystemBus.SNESBus.TransferDmaByte: proved equal to the value model, so a DMA or HDMA byte stored to MDMAEN starts no nested DMA and charges no cycles, as the `SnesBus.TransferByte` line says.
- SnesSystemBus.SNESBus.TransferPlanned: proved equal to the value model, so a DMA or HDMA byte stored to MDMAEN starts no nested DMA and charges no cycles, as the `SnesBus.TransferByte` line says.
- SnesSystemBus.SNESBus.StartDma: proved equal to the value model, so a DMA or HDMA byte stored to MDMAEN starts no nested DMA and charges no cycles, as the `SnesBus.TransferByte` line says.
- SnesSystemBus.SNESBus.StartDmaChannel: proved equal to the value model, so a DMA or HDMA byte stored to MDMAEN starts no nested DMA and charges no cycles, as the `SnesBus.TransferByte` line says.
- SnesSystemBus.SNESBus.ConsumeDmaCycles: proved equal to the value model, so a DMA or HDMA byte stored to MDMAEN starts no nested DMA and charges no cycles, as the `SnesBus.TransferByte` line says.
- SnesSystemBus.SNESBus.ChargeDmaCycles: proved equal to the value model, so a DMA or HDMA byte stored to MDMAEN starts no nested DMA and charges no cycles, as the `SnesBus.TransferByte` line says.
- SnesSystemBus.SNESBus.ClockHdma: proved equal to the value model, so a DMA or HDMA byte stored to MDMAEN starts no nested DMA and charges no cycles, as the `SnesBus.TransferByte` line says.
- SnesSystemBus.SNESBus.VisitHdmaLine: proved equal to the value model, so a DMA or HDMA byte stored to MDMAEN starts no nested DMA and charges no cycles, as the `SnesBus.TransferByte` line says.
- SnesSystemBus.SNESBus.RunHdmaScanline: proved equal to the value model, so a DMA or HDMA byte stored to MDMAEN starts no nested DMA and charges no cycles, as the `SnesBus.TransferByte` line says.
- SnesSystemBus.SNESBus.RunHdmaChannel: proved equal to the value model, so a DMA or HDMA byte stored to MDMAEN starts no nested DMA and charges no cycles, as the `SnesBus.TransferByte` line says.
- SnesSystemBus.SNESBus.TransferIfDue: proved equal to the value model, so a DMA or HDMA byte stored to MDMAEN starts no nested DMA and charges no cycles, as the `SnesBus.TransferByte` line says.
- SnesSystemBus.SNESBus.TransferHdmaChannel: proved equal to the value model, so a DMA or HDMA byte stored to MDMAEN starts no nested DMA and charges no cycles, as the `SnesBus.TransferByte` line says.
- SnesSystemBus.SNESBus.TransferHdmaStep: proved equal to the value model, so a DMA or HDMA byte stored to MDMAEN starts no nested DMA and charges no cycles, as the `SnesBus.TransferByte` line says.
- SnesSystemBus.SNESBus.TransferHdmaUnits: proved equal to the value model, so a DMA or HDMA byte stored to MDMAEN starts no nested DMA and charges no cycles, as the `SnesBus.TransferByte` line says.
- SnesSystemBus.SNESBus.TransferHdmaFrom: proved equal to the value model, so a DMA or HDMA byte stored to MDMAEN starts no nested DMA and charges no cycles, as the `SnesBus.TransferByte` line says.
- SnesSystemBus.SNESBus.TransferHdmaUnit: proved equal to the value model, so a DMA or HDMA byte stored to MDMAEN starts no nested DMA and charges no cycles, as the `SnesBus.TransferByte` line says.
- SnesSystemBus.SNESBus.Clock: proved equal to the value model, so a DMA or HDMA byte stored to MDMAEN starts no nested DMA and charges no cycles, as the `SnesBus.TransferByte` line says.
- The SNES audio unit (`SNESSimpleAudio`) is not part of this model: `clock` and `endFrame` on it are left out, its four output ports are bytes the CPU writes, and its four input ports are bytes the CPU reads.
- The SNES bus's own `saveState` and `loadState` are not modelled; the kernel model treats the saved machine as one value.
- The SNES PPU's `saveState` hands out its own `scanlineState` array, so later latches also change the snapshot; the model's snapshot is a value and does not share it.
- The kernels' machine is abstract: the kernel model states what the kernels do with the results of `cpu.step()`, `bus.clock`, `consumeStallCycles`, the controllers and the parts' snapshots, and the bus, PPU and processors are modelled on their own above. A `cpu.step()` that throws (`strictOpcodes`) is not modelled.
- `getExecutionState` and `getROMMetadata` only report fields; they are left out, and so is `romPath`. The SNES `loadROMBuffer` returns its outcome instead of the metadata.
- The `onFrame`, `onStatusUpdate` and `onAudioSample` callbacks are left out: they hand values to the host and change nothing in the kernel.
- JavaScript numbers passed as a frame count or a player are `real`s; NaN and the infinities are outside the model. Button names are strings, so `String(buttonName)` is the name itself. Snapshot counters are integers.
- SnesSystemBus.SNESBus.TransferHdmaChannel: the `for` loop over the pattern's units is written as a recursion over the units (`TransferHdmaFrom`), which runs the same steps in the same order.

## Findings

| source | as written | input that shows it | evidently intended | confidence | as-written member | corrected member |
|---|---|---|---|---|---|---|
| src/core/cpu6502.js:313-316 | group 1 resolves the immediate address for STA #imm (0x89), which moves PC past the operand, and then reads a second immediate byte | opcode 0x89 at any PC: PC ends 2 bytes past the operand's start, so the next opcode is skipped | 0x89 behaves as a two-byte NOP, as the switch's case for 0x89 (lines 242-248) does | not executed | Mos6502.StoreImmediateAsWritten | Mos6502.Group1 |
| src/core/snes/cpu65816.mjs:730-739 | `brk` pushes PC + 1 and P in native mode as well as in emulation mode, but never PBR, while `rti` (lines 741-755) pops P, PC and then PBR in native mode | BRK with E = 0 followed by RTI: RTI takes PBR from the byte above the BRK frame, and SP ends one higher than before the BRK | native-mode BRK pushes PBR first, as `interrupt` (lines 720-727) does | not executed | Wdc65816.BrkAsWritten | Wdc65816.Brk |
