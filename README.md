# ryzen-stabilizator: a Dafny model of the C6, boosting and ASLR controllers

ryzen-stabilizator switches power-management features of AMD Ryzen processors on and off.
This project models its three controllers and proves what they promise.

- **C6 idle state** (`c6/c6.go`). Two model-specific registers (MSRs) control C6:
  - bit 32 of `0xC0010292` (package C6);
  - bits 22, 14 and 6 (`0x404040`) of `0xC0010296` (core C6).

  Enabling writes each feature's mask to every logical CPU, feature by feature and CPU by CPU in
  ascending order. Disabling writes the complement of the mask the same way. The update stops at
  the first failing write and undoes nothing. The query reads CPU by CPU, both features on each CPU.
  It answers true at the first register that has all of its feature's bits set, and passes on the
  first read error it meets before that.
- **Processor boosting** (`boosting/boosting.go`) and **ASLR** (`aslr/aslr.go`). Each is one
  kernel control file.
  - Enabling writes `"1"` (boosting) or `"2"` (full randomization).
  - Disabling writes `"0"`.
  - The feature reads as off exactly when the content, with leading and trailing newlines
    removed, is `"0"`.

Modules:

- `Outcome`: errors and Go's `(bool, error)` pairs.
- `LittleEndian`: the 8-byte register encoding.
- `MsrDevice`:
  - `class Device` stands for the `/dev/cpu/<n>/msr` files. It has a register bank
    `map<Addr, bv64>`, a fixed set of addresses where access fails, and a log of the writes
    received.
  - `Perform` is the specification of "perform writes in order until one fails".
- `C6`: the table, `ReadMSR`/`WriteMSR`, and the imperative `ChangeC6` and `C6Enabled`. Each is
  proved against a specification function: `Change`, and `Scan` over `ScanOrder`.
- `C6Properties`: the lemmas about those functions.
- `ControlFile`: a value model of the control files, whole-file reads and writes that can fail,
  and `strings.Trim(s, "\n")`.
- `Boosting` and `Aslr`: the two toggles.

An access to a register fails exactly when the address is not an implemented register of the
bank, or when it is one of the device's failing addresses. The number of logical CPUs is a
parameter.

Two details of the code that the model keeps:

- The core C6 mask is `(1<<22)|(1<<14)|(1<<6)` = `0x404040` (c6/c6.go:39).
- `strings.Trim(s, "\n")` removes newlines at both ends of a control file's content
  (boosting/boosting.go:55, aslr/aslr.go:51), so `"\n0\n"` also reads as off.

## Model

| member | source | states |
|---|---|---|
| LittleEndian.Encode | c6/c6.go:71 | the 8 bytes `PutUint64` produces decode back to the value, so by Decode's contract byte i is bits 8i .. 8i+7 of the value |
| LittleEndian.Decode | c6/c6.go:57 | bits 8i .. 8i+7 of the value `Uint64` returns are byte i of the buffer, for each of the 8 bytes |
| LittleEndian.EncodeDecode | c6/c6.go:53-57 | encoding the value `Uint64` decodes gives the 8 bytes back, so the encoding is a bijection |
| LittleEndian.PutUint64 | c6/c6.go:70-71 | the 8-byte buffer is filled in place with the little-endian bytes of the value |
| MsrDevice.Device.WriteAt | c6/c6.go:62-73 | writing 8 bytes to an accessible register stores their little-endian value and logs the write; otherwise the access error is returned and nothing changes |
| MsrDevice.Device.ReadInto | c6/c6.go:45-56 | reading an accessible register fills the buffer with its 8 little-endian bytes; otherwise the access error is returned and the buffer is unchanged |
| MsrDevice.PerformSpec | c6/c6.go:85-88 | performing writes until one fails performs a prefix of them on accessible registers, keeps the set of registers, and either performs all of them with no error or stops right before a write whose register is not accessible and returns that write's error |
| MsrDevice.PerformConcat | c6/c6.go:80-91 | performing `p + q` is performing `p` and then, only if all of `p` succeeded, `q` |
| MsrDevice.PerformKeysOnly | c6/c6.go:85-88 | which writes are performed, and which error is returned, depends only on which registers exist, not on their contents |
| MsrDevice.ApplyTwice | c6/c6.go:81-86 | absolute register writes are idempotent: performing the same writes again changes nothing |
| C6.ReadMSR | c6/c6.go:44-58 | readMSR returns the register's value and no error when the register is accessible, and 0 with that CPU and offset's error otherwise |
| C6.WriteMSR | c6/c6.go:61-74 | writeMSR stores exactly `value` in the register and logs one write when it is accessible, and otherwise returns the error and changes nothing |
| C6.WriteAllCpus | c6/c6.go:85-89 | the inner loop of changeC6 writes CPUs 0 .. cpus-1 in ascending order and stops at the first failure; its result, bank and log are those of `Perform` on those writes |
| C6.ChangeC6 | c6/c6.go:78-92 | the error, the new bank and the appended log are those of `Change`: the plan performed up to its first failing write |
| C6.C6Enabled | c6/c6.go:96-110 | the answer and error are `Scan` of the CPU-major scan order over the bank |
| C6.ScanDecided | c6/c6.go:98-107 | the first check that does not pass decides the query: true if its register is readable (so its feature is set), otherwise false with its read error |
| C6.Enable | c6/c6.go:113-116 | Enable has exactly the effect of changeC6(true) |
| C6.Disable | c6/c6.go:119-122 | Disable has exactly the effect of changeC6(false) |
| C6.Enabled | c6/c6.go:125-127 | Enabled answers what c6Enabled answers |
| C6.Disabled | c6/c6.go:130-136 | Disabled returns c6Enabled's error, and is true exactly when c6Enabled succeeds with false |
| C6.Target | c6/c6.go:81-84 | the enable value has exactly the mask bits set; the disable value has every mask bit clear and every other bit set |
| C6.Holds | c6/c6.go:104 | register contents show a feature enabled exactly when setting its mask would not change them |
| C6Properties.MsrTable | c6/c6.go:35-40 | the table is package C6 `(0xC0010292, 0x100000000)` then core C6 `(0xC0010296, 0x404040)` |
| C6Properties.TargetHolds | c6/c6.go:81-84 | the value written for a feature has its mask fully set exactly when enabling; the disable value clears every mask bit and sets every other bit |
| C6Properties.PlanShape | c6/c6.go:80-89 | changeC6 attempts 2 * cpus writes: package C6 on CPUs 0 .. cpus-1, then core C6 on CPUs 0 .. cpus-1, each with the feature's target value |
| C6Properties.DisableOnFourCpus | c6/c6.go:78-92 | disabling on 4 CPUs plans exactly 8 writes in order: package C6 on CPUs 0-3 with `0xFFFFFFFEFFFFFFFF`, then core C6 on CPUs 0-3 with `0xFFFFFFFFFFBFBFBF` |
| C6Properties.PlanDistinct | c6/c6.go:80-89 | no register is written twice by one update |
| C6Properties.ChangeNoCpus | c6/c6.go:85 | with no CPUs nothing is written and no error is returned |
| C6Properties.ChangeSucceeds | c6/c6.go:78-92 | changeC6 succeeds exactly when both registers are accessible on every CPU, and then it has performed every planned write |
| C6Properties.ChangeOutcome | c6/c6.go:85-88 | fail-fast with no rollback: a prefix of the plan is performed; the error is that of the write right after it; no register is added or removed |
| C6Properties.ChangeWritten | c6/c6.go:85-88 | every write performed before a failure still holds its value afterwards |
| C6Properties.ChangeUntouched | c6/c6.go:80-89 | a register that no performed write addresses keeps its contents, in particular every register at another offset or of a CPU at or beyond `cpus` |
| C6Properties.ChangeIdempotent | c6/c6.go:78-92 | repeating an update on its own outcome gives the same bank, the same performed writes and the same error |
| C6Properties.ScanOrderShape | c6/c6.go:98-99 | c6Enabled checks package C6 then core C6 on CPU 0, then both on CPU 1, and so on, 2 * cpus checks in all |
| C6Properties.ScanNoErrors | c6/c6.go:98-109 | when every read succeeds the query returns no error, and true exactly when some checked register has its feature's mask fully set |
| C6Properties.EnabledIffAny | c6/c6.go:96-110 | when both registers of every CPU can be read, c6Enabled returns no error, and true exactly when some CPU has package C6 or core C6 fully set |
| C6Properties.EnableThenEnabled | c6/c6.go:113-127 | after a successful Enable on at least one CPU, Enabled returns true with no error |
| C6Properties.DisableThenDisabled | c6/c6.go:119-136 | after a successful Disable, Enabled returns false with no error, so Disabled returns true |
| ControlFile.ReadFile | boosting/boosting.go:49-52 | a read succeeds exactly when the file exists and is readable, and returns its whole content; otherwise it returns the file's error |
| ControlFile.WriteFile | boosting/boosting.go:33 | a write succeeds exactly when the file exists and is writable, and replaces its whole content; no other file changes, and a failed write changes nothing |
| ControlFile.TrimLeft | boosting/boosting.go:55 | `strings.Trim`'s left half leaves a text no longer than the input that does not start with a newline |
| ControlFile.TrimRight | boosting/boosting.go:55 | `strings.Trim`'s right half leaves a text no longer than the input that does not end with a newline |
| ControlFile.Trim | aslr/aslr.go:51 | `strings.Trim(s, "\n")` leaves a text no longer than `s` that neither starts nor ends with a newline |
| ControlFile.ReadsOn | boosting/boosting.go:54-57 | content reads as off exactly when it is `"0"` with any newlines added before and after it |
| ControlFile.TrimPadded | boosting/boosting.go:55 | `strings.Trim(s, "\n")` removes exactly the newlines added around a text that neither starts nor ends with one |
| ControlFile.TrimIff | aslr/aslr.go:51 | the trimmed content is `t` exactly when the content is `t` with newlines added before and after it |
| ControlFile.Enabled | boosting/boosting.go:48-59 | Enabled of a toggle returns the read error with false, and otherwise whether the content reads as on |
| ControlFile.Disabled | boosting/boosting.go:63-69 | Disabled returns Enabled's error, and is true exactly when Enabled succeeds with false |
| ControlFile.EnabledIff | boosting/boosting.go:54-58 | a toggle reads as off with no error exactly when its file is readable and holds `"0"` with any newlines before and after it |
| Boosting.Value | boosting/boosting.go:29-32 | the value written is one byte, and reads back as on exactly when enabling |
| Boosting.ChangeProcessorBoosting | boosting/boosting.go:28-34 | the control file's whole content becomes `"1"` or `"0"` if it is writable; otherwise the error is returned and nothing changes |
| Boosting.Enabled | boosting/boosting.go:48-59 | a read error gives false with the error; otherwise boosting is off exactly when the file holds `"0"` padded with newlines, so `""` and `"2"` read as on |
| Boosting.Disabled | boosting/boosting.go:63-69 | Disabled returns Enabled's error, and is true exactly when Enabled succeeds with false |
| Boosting.Enable | boosting/boosting.go:72-75 | Enable is changeProcessorBoosting(true); once it succeeds on a readable file, Enabled returns true |
| Boosting.Disable | boosting/boosting.go:78-81 | Disable is changeProcessorBoosting(false); once it succeeds on a readable file, Disabled returns true |
| Boosting.ValueRoundTrip | boosting/boosting.go:29-57 | the written value decodes to the requested state, also with newlines added before or after it |
| Aslr.Value | aslr/aslr.go:36-39 | the value written is one byte, and reads back as on exactly when enabling |
| Aslr.ChangeAslr | aslr/aslr.go:27-41 | the control file's whole content becomes `"2"` or `"0"` if it is writable; otherwise the error is returned and nothing changes |
| Aslr.Enabled | aslr/aslr.go:44-55 | a read error gives false with the error; otherwise ASLR is off exactly when the file holds `"0"` padded with newlines |
| Aslr.Disabled | aslr/aslr.go:58-64 | Disabled returns Enabled's error, and is true exactly when Enabled succeeds with false |
| Aslr.Enable | aslr/aslr.go:67-70 | Enable is changeASLR(true); once it succeeds on a readable file, Enabled returns true |
| Aslr.Disable | aslr/aslr.go:73-76 | Disable is changeASLR(false); once it succeeds on a readable file, Disabled returns true |
| Aslr.ValueRoundTrip | aslr/aslr.go:36-53 | the written value decodes to the requested state, also with newlines added before or after it |
| Aslr.ConservativeReadsEnabled | aslr/aslr.go:29-54 | the conservative mode `"1"`, which the toggle never writes, reads as enabled |

## Left out

- `main.go` is not modelled: flag parsing, TOML profiles, the CPU vendor and root checks, and
  printing. Its dispatch tries `disable` before `enable`, so when both flags are given the
  feature is disabled (main.go:323-328).
- `c6.Available`, `c6.PackageEnable`, `c6.PackageDisable` and `c6.PackageEnabled`, which
  `main.go` calls, are not in `c6/c6.go` and are not part of this model.
- `runtime.NumCPU()` is not modelled. The CPU count is a parameter.
- The file steps of `readMSR`/`writeMSR` are not modelled one by one: formatting the path, open,
  `Seek` and close. A register access either succeeds whole or fails, as the device's bank and
  failing addresses decide.
  - The source ignores the `Seek` error.
  - The source does not check the byte count of the read, so a short read would decode a
    partly zero buffer. The model's device always transfers all 8 bytes.
- `MsrDevice.Accessible`: reads and writes share one failure rule: the address is an
  implemented register and not among the device's failing addresses. The source opens the msr
  file read-only to read (c6/c6.go:46) and write-only to write (c6/c6.go:63), so a register that
  reads but refuses writes, or the reverse, is not modelled. `C6Properties.EnableThenEnabled`
  relies on this: a successful write implies that the same register can be read.
- Go's error values are abstracted to `MsrAccess(cpu, offset)` and `FileAccess(path)`.
- The hardware's reaction to a write is not modelled: the device keeps the whole 64-bit value
  written, including the bits a disable write sets outside the mask.
- `boosting.Available` (`os.Stat`) is not modelled, and neither are the permissions
  `ioutil.WriteFile` would give a new file. Control files are never created: writing a missing
  one fails.
- Newlines the kernel may put around a control file's content are not part of `ReadFile`. The
  `ValueRoundTrip` lemmas cover them instead: they state the decoding for any padding.
