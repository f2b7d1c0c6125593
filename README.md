# Lock-screen authentication and telemetry sampler, in Dafny

This project models two pieces of a desktop shell and proves properties about them.

**The lock-screen PAM helper** (`modules/lockscreen/auth.c`) is in module `LockscreenAuth` (`auth.dfy`).
- The helper reads a password from stdin. It runs the "login" PAM stack for the user named in its single argument and reports the outcome as an exit code.
- The decision ladder of `main` is a total function, `Decide`, over:
  - the argument count;
  - the result of `poll`;
  - the line `fgets` returned;
  - the return codes of `pam_start`, `pam_authenticate` and `pam_acct_mgmt`, which are inputs.
- `Decide` returns the exit code together with the sequence of PAM calls made, including the status handed to `pam_end`.
- `RunAuth` is the imperative `main`. It works on a 512-character password array and on the static message buffer (class `PamMessageBuffer` over a 1024-character array).
  - RunAuth is proved to agree with `Decide`.
  - It is proved to zero the password on every path after the argument check.
  - The conversations the PAM stack holds with `conv_func` during `pam_authenticate` and `pam_acct_mgmt` are inputs: one batch of messages per call of `conv_func`. RunAuth is proved to leave in the message buffer exactly what those conversations log, the authentication's text before the account check's.
  - RunAuth returns the replies `conv_func` hands back in those conversations. Every prompt is proved to be answered with the line read, cut at its newline.
- `append_pam_msg` and `conv_func` are methods over those arrays, proved against the specification functions `Appended` and `Answers`.
- `secure_bzero` is a method whose contract says outright that the first `n` characters become zero and the rest stay.

**The telemetry sampler** (`scripts/system_monitor.py`) is in module `SystemMonitorScript` (`monitor.dfy`). It builds on `PyText` (`pytext.dfy`), which models the parts of Python's `str`, `int()`, `float()` and `sorted()` that the script relies on.
- Class `SystemMonitor` keeps the previous CPU counters and the detected GPU.
  - `GetCpu` is the stateful delta step.
  - `DetectGpu` sets the vendor fields.
  - `GetGpuStats` dispatches on the vendor.
- `get_mem`, `get_disk_usage` and `get_cpu_temp` do not use the object's state. They are module-level methods, each proved equal to a specification function of its inputs: `Meminfo`, `DiskPercent` for every mount, and `CpuTemp`.
- File contents, directory listings, `statvfs` results and command outputs are inputs. Listing order is the order of the given sequence.

Points where the code's behaviour is worth knowing:
- `get_cpu_temp` returns -1 without trying the thermal zones when `/sys/class/hwmon` does not exist. The thermal zones are consulted only when that directory exists and nothing in it matched. `CpuTemp` models this, and `CpuTempRange` states it.
- An exception while reading a hwmon `name` file, or while listing a CPU monitor's directory, ends `get_cpu_temp` with -1. It does not fall back to the thermal zones.
- An empty `/proc/stat`, or a first line that is not the aggregate `cpu ` line, gives 0.0 and leaves the stored counters unchanged. The same holds when a field is not an integer or when there are fewer than five fields.
- `pam_msg_buffer` is filled but never read by `main`. The model keeps its contents so that its bounds and order can be stated.

## Model

| member | source | states |
|---|---|---|
| LockscreenAuth.Decide | modules/lockscreen/auth.c:69-182 | the exit code is one of the fourteen codes `main` returns; no PAM call is made exactly for 100, 101, 103 and 104; the first PAM call is always `pam_start` |
| LockscreenAuth.PamVerdict | modules/lockscreen/auth.c:103-181 | once the password is read, the exit code is never one of the argument or stdin codes, and `pam_start` is called first |
| LockscreenAuth.DecideMatchesTable | modules/lockscreen/auth.c:112-181 | after a successful `pam_start`, the exit code equals an independent table over the authentication and account results |
| LockscreenAuth.WrongArgCount | modules/lockscreen/auth.c:71-73 | a wrong argument count exits 100 with no PAM call, whatever the other inputs |
| LockscreenAuth.StdinFailures | modules/lockscreen/auth.c:87-96 | a poll timeout exits 103, a poll error 104 and a failed read 101, all with no PAM call |
| LockscreenAuth.StartFailure | modules/lockscreen/auth.c:103-107 | a failed `pam_start` exits 102 and makes no further PAM call |
| LockscreenAuth.AuthFailuresSkipAccount | modules/lockscreen/auth.c:112-129 | an unknown user exits 10; any authentication result other than success or a wrong password exits 12; neither calls account management |
| LockscreenAuth.PermissionOutcomes | modules/lockscreen/auth.c:136-156 | right password with a denied account exits 30 (faillock); a wrong password exits 11, or 22 when the account is denied too |
| LockscreenAuth.AccountOutcomes | modules/lockscreen/auth.c:158-176 | with the right password, an expired account exits 20, a required password change 21, other account failures 23 |
| LockscreenAuth.ExitZeroIff | modules/lockscreen/auth.c:159-181 | exit 0 if and only if the argument count is right, stdin yields a line and all three PAM calls succeed |
| LockscreenAuth.PamEndOnce | modules/lockscreen/auth.c:112-181 | after `pam_start` succeeds, `pam_end` is the last call and is made exactly once; account management runs exactly when authentication succeeded or rejected the password |
| LockscreenAuth.Fgets | modules/lockscreen/auth.c:95-96 | the line read is a non-empty prefix of stdin whose only newline can be the last character; its length is that of stdin up to and including the first newline, or all of stdin when there is none, capped at 511; it is absent exactly on a read error or empty input |
| LockscreenAuth.CLen | modules/lockscreen/auth.c:32 | `strlen`: no NUL comes before the length, and a NUL sits at it unless the buffer ends there |
| LockscreenAuth.CString | modules/lockscreen/auth.c:50 | the C string a buffer holds, the text `strdup` copies: a prefix of the buffer with no NUL in it |
| LockscreenAuth.NewlineOrNul | modules/lockscreen/auth.c:98 | `strcspn(s, "\n")`: no newline (and, when asked, no NUL) before the index, and one at it unless the string ends there |
| LockscreenAuth.PasswordShape | modules/lockscreen/auth.c:95-98 | the password is a prefix of the line read; it holds no newline and no NUL and is at most 511 characters; when the line holds no NUL, the password is the whole line or the line minus its final newline |
| LockscreenAuth.StripNewline | modules/lockscreen/auth.c:98 | definition: the line read cut at its first newline or NUL; its properties are stated by `PasswordShape` and `CutAtNewline` |
| LockscreenAuth.SecureBzero | modules/lockscreen/auth.c:17-20 | the first `n` characters become zero and the rest are unchanged |
| LockscreenAuth.StoreLine | modules/lockscreen/auth.c:95 | the zeroed password buffer ends up holding the line followed by zeros |
| LockscreenAuth.CutAtNewline | modules/lockscreen/auth.c:98 | the buffer's C string becomes the line cut at its first newline, terminated by NUL; the characters after that NUL are unchanged |
| LockscreenAuth.Appended | modules/lockscreen/auth.c:30-36 | a NULL message changes nothing; the old text stays a prefix; the length never exceeds 1023 and is exactly min(old + message, 1023); what follows the old text is the first characters of the message, all of it when it fits |
| LockscreenAuth.PamMessageBuffer.Append | modules/lockscreen/auth.c:30-36 | the buffer's C string becomes `Appended(old contents, msg)` and stays within 1023 characters |
| LockscreenAuth.Strncat | modules/lockscreen/auth.c:32-35 | copying after the terminator writes the first min(length of the message's C string, room left) characters of the message, terminates the result, and leaves the text before the old terminator and everything after the new one unchanged |
| LockscreenAuth.PamMessageBuffer.Clear | modules/lockscreen/auth.c:79 | the buffer is emptied |
| LockscreenAuth.PamMessageBuffer.constructor | modules/lockscreen/auth.c:28 | static storage starts empty |
| LockscreenAuth.LoggedGrows | modules/lockscreen/auth.c:53-57 | the captured text only grows, keeps its old text as a prefix and stays within 1023 characters |
| LockscreenAuth.LoggedInOrder | modules/lockscreen/auth.c:53-57 | when everything fits, the captured text is the old text followed by the error and info messages in message order |
| LockscreenAuth.Notices | modules/lockscreen/auth.c:53-57 | definition: the C strings of the error and info messages, in order; used by `LoggedInOrder` |
| LockscreenAuth.Answer | modules/lockscreen/auth.c:46-62 | a prompt gets a copy of the password; an error or info message gets no reply and is appended to the buffer |
| LockscreenAuth.ReplyTo | modules/lockscreen/auth.c:46-57 | definition: a copy of the password for a prompt, NULL otherwise; used by `Answer`, `Conv` and `Answers` |
| LockscreenAuth.Logged | modules/lockscreen/auth.c:53-57 | definition: the captured text after the error and info messages were appended; its bounds and order are stated by `LoggedGrows` and `LoggedInOrder` |
| LockscreenAuth.Conv | modules/lockscreen/auth.c:38-67 | success exactly when no message has an unknown style, with one reply per message; otherwise `PAM_CONV_ERR` and no reply; the reply array is `Answers` of the messages; the buffer holds the messages logged before the first unknown one, which are not rolled back |
| LockscreenAuth.KnownPrefix | modules/lockscreen/auth.c:45-62 | the messages `conv_func` handles before the `default:` branch returns `PAM_CONV_ERR`: all of known style, and the next one, if any, of unknown style |
| LockscreenAuth.RunAuth | modules/lockscreen/auth.c:69-182 | the exit code and PAM calls are those of `Decide`; exit 100 touches nothing; every other exit leaves all 512 password characters zero, and the message buffer empty when no PAM call was made or else holding `Captured` of the conversations held during authentication and account management; with no PAM call there are no replies, otherwise the replies are `AuthReplies` and `AcctReplies` of the line read cut at its newline, so every prompt is answered with that password |
| LockscreenAuth.RunPam | modules/lockscreen/auth.c:103-181 | the exit code and PAM calls are those of `PamVerdict`; each conversation runs `conv_func` on its batches after the call that holds it; the buffer ends as `Captured` of the old contents; the replies are `AuthReplies` and `AcctReplies` of the C string the password buffer held on entry; the password is all zeros on return |
| LockscreenAuth.ReadAndRun | modules/lockscreen/auth.c:95-181 | a failed read exits 101 with no PAM call, no reply and nothing logged; otherwise the exit code and calls are those of `PamVerdict`, the replies are `AuthReplies` and `AcctReplies` of the line cut at its newline, and the buffer holds `Captured` of the conversations |
| LockscreenAuth.AccountPhase | modules/lockscreen/auth.c:133-181 | after authentication succeeded or rejected the password, the exit code and calls are those of `PamVerdict`, the account conversation is appended to the buffer, its replies are `ConvReplies` of the password's C string on entry, and the password is zeroed |
| LockscreenAuth.AccountExit | modules/lockscreen/auth.c:136-181 | the ladder after `pam_acct_mgmt` gives the exit code and `pam_end` status of `PamVerdict` |
| LockscreenAuth.Converse | modules/lockscreen/auth.c:38-67 | running `conv_func` on each batch in turn leaves the buffer holding `ConvLog` of the batches, each batch logging its messages before its first one of unknown style; the replies are `Answers` of each batch, in order |
| LockscreenAuth.Answers | modules/lockscreen/auth.c:42-66 | a call of `conv_func` hands back replies exactly when every message has a known style; then there is one reply per message, a copy of the password's C string for a prompt and NULL for an error or info message |
| LockscreenAuth.AnswersArePassword | modules/lockscreen/auth.c:46-57 | when the password holds no NUL, as `PasswordShape` shows of the line cut at its newline, every prompt's reply is the password itself and every error or info message's reply is NULL |
| LockscreenAuth.ConvReplies | modules/lockscreen/auth.c:38-67 | definition: one reply array (or none) per call of `conv_func`, each `Answers` of its batch; used by `Converse` |
| LockscreenAuth.AuthReplies | modules/lockscreen/auth.c:103-112 | definition: the replies of the `pam_authenticate` conversations, none unless `pam_start` succeeded; used by `RunPam` |
| LockscreenAuth.AcctReplies | modules/lockscreen/auth.c:112-134 | definition: the replies of the `pam_acct_mgmt` conversations, none unless `pam_start` succeeded and authentication succeeded or rejected the password; used by `RunPam` |
| LockscreenAuth.Handed | modules/lockscreen/auth.c:95-181 | definition: no replies when no password was read, else `AuthReplies` and `AcctReplies` of it; used by `RunAuth` and `ReadAndRun` |
| LockscreenAuth.ConvLogGrows | modules/lockscreen/auth.c:53-57 | however many conversations run, the captured text keeps its old text as a prefix, only grows and stays within 1023 characters |
| LockscreenAuth.ConvLog | modules/lockscreen/auth.c:38-67 | definition: the captured text after `conv_func` ran on each batch in turn, each logging its messages before its first one of unknown style; bounds in `ConvLogGrows` |
| LockscreenAuth.Captured | modules/lockscreen/auth.c:103-181 | definition: the text captured from `pam_start` on, the authentication conversations and then, when `pam_acct_mgmt` is called, the account ones; bounds and order in `CapturedInOrder` |
| LockscreenAuth.CapturedInOrder | modules/lockscreen/auth.c:53-57 | what the helper captures stays within 1023 characters, and the authentication's text is a prefix of it |
| SystemMonitorScript.SystemMonitor.constructor | scripts/system_monitor.py:11-17 | zero counters, no disks, and the GPU fields that `detect_gpu` sets |
| SystemMonitorScript.SystemMonitor.DetectGpu | scripts/system_monitor.py:19-71 | the GPU fields become `Detect` of the probe and the old fields |
| SystemMonitorScript.Detect | scripts/system_monitor.py:19-71 | definition of the GPU fields after `detect_gpu`; `AmdDetection` states the AMD case |
| SystemMonitorScript.NvidiaCount | scripts/system_monitor.py:27-33 | definition: `int(out.strip())`, 0 when the query or the parse fails |
| SystemMonitorScript.CollectAmdCards | scripts/system_monitor.py:40-45 | the loop collects exactly `AmdKept` of the DRM listing, in listing order |
| SystemMonitorScript.AmdKept | scripts/system_monitor.py:40-46 | at most one name per entry; which names, is stated by `AmdKeptExactly` |
| SystemMonitorScript.AmdCandidates | scripts/system_monitor.py:40-46 | definition: no cards when `/sys/class/drm` does not exist, else `AmdKept` of its listing |
| SystemMonitorScript.IsAmdCard | scripts/system_monitor.py:43-45 | definition: the name starts with `card` and the entry has `device/gpu_busy_percent` |
| SystemMonitorScript.AmdKeptExactly | scripts/system_monitor.py:40-45 | a name is kept if and only if some entry has it, starts with `card` and has `gpu_busy_percent` |
| SystemMonitorScript.AmdDetection | scripts/system_monitor.py:46-50 | with no NVIDIA tool and some AMD card, the vendor is AMD, the count is the number of cards, and `amd_cards` is sorted and a permutation of the cards found |
| SystemMonitorScript.SystemMonitor.GetCpu | scripts/system_monitor.py:73-100 | the result is in [0, 100]; on a parse failure it is 0.0 and the counters stay; otherwise the counters become the sample and the result is `CpuUsage` of the old and new counters |
| SystemMonitorScript.ReadCpuSample | scripts/system_monitor.py:74-86 | the sample read equals `StatSample` of the file's contents |
| SystemMonitorScript.StatSample | scripts/system_monitor.py:74-86 | definition: the sample `get_cpu` reads, `ParseCpuLine` of the first line, none when the file cannot be opened; its values for kernel text are stated by `StatSampleOfKernelLine` |
| SystemMonitorScript.ParseCpuSample | scripts/system_monitor.py:77-86 | the sample parsed equals `ParseCpuLine` of the first line |
| SystemMonitorScript.ParseCpuLine | scripts/system_monitor.py:77-86 | a sample is produced only for a line that starts with `cpu ` |
| SystemMonitorScript.CpuCounters | scripts/system_monitor.py:83-86 | a sample exists exactly when every field is an integer and there are at least five fields |
| SystemMonitorScript.SampleOf | scripts/system_monitor.py:85-86 | a sample exists exactly when there are at least five counters |
| SystemMonitorScript.StatSampleOfKernelLine | scripts/system_monitor.py:76-86 | for a first line as the kernel prints it, total is the sum of all counters and idle is idle plus iowait, whatever follows |
| SystemMonitorScript.ParseInts | scripts/system_monitor.py:83 | a successful parse has one value per field |
| SystemMonitorScript.ParseShowAll | scripts/system_monitor.py:83 | parsing the decimal fields of counters gives back the counters |
| SystemMonitorScript.SplitCpuFields | scripts/system_monitor.py:80 | splitting space-separated decimal fields gives exactly those fields |
| SystemMonitorScript.SystemMonitor.CpuStep | scripts/system_monitor.py:88-98 | the counters become the new sample even when no ticks passed, and the result is `CpuUsage` of the deltas |
| SystemMonitorScript.CpuUsage | scripts/system_monitor.py:94-98 | the result is in [0, 100], and 0.0 when the total did not change |
| SystemMonitorScript.CpuUsageExact | scripts/system_monitor.py:94-98 | for growing counters whose idle grows no faster than the total, the result is exactly (Δtotal − Δidle)·100/Δtotal |
| SystemMonitorScript.CpuUsageSaturates | scripts/system_monitor.py:94-98 | when the counters move inconsistently the clamp decides: with the total growing, idle going back gives 100 and more idle than total ticks gives 0; with the total going back, idle not going back gives 100 and idle going back by at least as much gives 0 |
| SystemMonitorScript.CpuUsageBothBack | scripts/system_monitor.py:94-98 | when both counters go back and idle goes back by less than the total, the result is exactly (Δtotal − Δidle)·100/Δtotal, strictly between 0 and 100 |
| SystemMonitorScript.Clamp | scripts/system_monitor.py:98 | the result is in [0, 100]: the input when it lies inside, 100 above the range and 0 below it |
| SystemMonitorScript.GetCpuTemp | scripts/system_monitor.py:102-165 | the result equals `CpuTemp` of the sources |
| SystemMonitorScript.ScanHwmon | scripts/system_monitor.py:111-138 | the device loop returns `HwmonScan`: the first reading, or a failure on an unreadable name or an unlistable CPU monitor |
| SystemMonitorScript.ScanSensors | scripts/system_monitor.py:129-138 | the sensor loop returns the first sane `temp*_input` reading |
| SystemMonitorScript.ScanZones | scripts/system_monitor.py:141-161 | the thermal-zone loop returns the first sane reading of a CPU-type zone |
| SystemMonitorScript.Reading | scripts/system_monitor.py:133-136 | a reading is accepted exactly when the file exists and its stripped text is an integer strictly between lo and 120000; the result is that integer `// 1000`, a whole degree in lo/1000..119 |
| SystemMonitorScript.SensorScan | scripts/system_monitor.py:129-138 | a hwmon reading is a whole degree in 10..119; which reading it is, is stated by `SensorScanFirst` |
| SystemMonitorScript.ZoneScan | scripts/system_monitor.py:141-161 | a thermal-zone reading is a whole degree in 1..119; which reading it is, is stated by `ZoneScanFirst` |
| SystemMonitorScript.SensorReading | scripts/system_monitor.py:130-136 | definition: a `temp*_input` file gives `Reading` of its contents, any other file nothing; used by `SensorScanFirst` |
| SystemMonitorScript.IsTempInput | scripts/system_monitor.py:130 | definition: the name ends with `_input` and starts with `temp` |
| SystemMonitorScript.FirstReadingIsFirst | scripts/system_monitor.py:129-161 | a loop that returns at the first sane reading returns one exactly when some entry has one, and then returns that of the first entry that has one |
| SystemMonitorScript.SensorScanFirst | scripts/system_monitor.py:129-138 | a CPU monitor yields a reading exactly when one of its files is a `temp*_input` with a sane reading, and the reading is that of the first such file in listing order |
| SystemMonitorScript.ZoneScanFirst | scripts/system_monitor.py:141-161 | the thermal zones yield a reading exactly when one of them is a CPU zone with a sane reading, and the reading is that of the first such zone in listing order |
| SystemMonitorScript.HwmonScanFirst | scripts/system_monitor.py:111-138 | the hwmon scan finds nothing exactly when every device is passed over, and otherwise ends with the outcome (a reading or a failure) of the first device not passed over |
| SystemMonitorScript.HwmonScan | scripts/system_monitor.py:111-138 | a hwmon reading is a whole degree in 10..119; which outcome it is, is stated by `HwmonScanFirst` |
| SystemMonitorScript.DeviceScan | scripts/system_monitor.py:112-138 | definition: a device without a `name` file or with another name is passed over; an unreadable name or an unlistable CPU monitor fails; otherwise the first sane sensor reading, if any; used by `HwmonScanFirst` |
| SystemMonitorScript.ZoneReading | scripts/system_monitor.py:143-159 | definition: a `thermal_zone*` entry whose stripped type is a CPU type gives `Reading` of its `temp` file; used by `ZoneScanFirst` |
| SystemMonitorScript.CpuTemp | scripts/system_monitor.py:102-165 | definition of the value `get_cpu_temp` returns; its bounds and the missing-hwmon case are stated by `CpuTempRange` |
| SystemMonitorScript.CpuTempRange | scripts/system_monitor.py:102-165 | the result is -1 or a whole degree in 1..119; in 10..119 when hwmon matched; -1 when hwmon is missing |
| SystemMonitorScript.GetMem | scripts/system_monitor.py:167-187 | the result equals `Meminfo` of the file's contents |
| SystemMonitorScript.Meminfo | scripts/system_monitor.py:167-187 | definition of the value `get_mem` returns; what it reports for kernel text is stated by `MeminfoOfKernelText` |
| SystemMonitorScript.ScanMeminfo | scripts/system_monitor.py:172-178 | definition of the line loop; `ScanStopsEarly`, `ScanSkipsOtherLines` and `KernelMemScan` state how it behaves |
| SystemMonitorScript.MemStep | scripts/system_monitor.py:173-176 | definition of one loop step; `MemLine` states it |
| SystemMonitorScript.SecondField | scripts/system_monitor.py:174-176 | definition: `int(line.split()[1])`, none when there are fewer than two fields or the field is not an integer; `MeminfoLineRead` states its value on kernel lines |
| SystemMonitorScript.MemLine | scripts/system_monitor.py:172-176 | one loop step is `MemStep`: it fails exactly when a `MemTotal:` or `MemAvailable:` line has no integer second field, leaves the total alone on any other line, and changes nothing on a line with neither key |
| SystemMonitorScript.MemReport | scripts/system_monitor.py:180-185 | all zeros when the scan failed or the total is 0; otherwise the total and available are the scanned ones, used = total − available and usage·total = used·100; usage in [0, 100] when available is between 0 and the total |
| SystemMonitorScript.ScanStopsEarly | scripts/system_monitor.py:177-178 | once both totals are positive, the lines that follow, malformed or not, change nothing |
| SystemMonitorScript.ScanSkipsOtherLines | scripts/system_monitor.py:172-177 | lines that are neither `MemTotal:` nor `MemAvailable:` lines are skipped |
| SystemMonitorScript.MeminfoOfKernelText | scripts/system_monitor.py:167-187 | for /proc/meminfo as the kernel starts it (`MemTotal:`, `MemFree:` and `MemAvailable:` lines, then anything), `get_mem` reports that total and available count and their difference as used |
| SystemMonitorScript.KernelMemScan | scripts/system_monitor.py:172-178 | three lines that set the total, change nothing and set the available count stop the scan with those two values, whatever follows |
| SystemMonitorScript.MeminfoLineRead | scripts/system_monitor.py:172-176 | a line `<key> <value> kB` is one line of the file, starts with its key and has `value` as its integer second field |
| SystemMonitorScript.KernelTotalStep | scripts/system_monitor.py:173-174 | a kernel `MemTotal:` line sets the total to its value |
| SystemMonitorScript.KernelFreeStep | scripts/system_monitor.py:172-176 | a kernel `MemFree:` line changes neither count |
| SystemMonitorScript.KernelAvailableStep | scripts/system_monitor.py:175-176 | a kernel `MemAvailable:` line sets the available count to its value |
| SystemMonitorScript.GetDiskUsage | scripts/system_monitor.py:189-207 | the keys are exactly the requested mounts, and each value is `DiskPercent` of that mount's stat |
| SystemMonitorScript.DiskPercent | scripts/system_monitor.py:192-206 | definition of one mount's percentage, 0.0 when `statvfs` raises or the total is 0; `DiskPercentOfBlocks` states its value and range |
| SystemMonitorScript.StatOf | scripts/system_monitor.py:193 | definition: the `statvfs` result of a mount, none when it raises |
| SystemMonitorScript.DiskPercentOfBlocks | scripts/system_monitor.py:194-201 | the block size cancels: the percentage is (blocks − bavail)/blocks·100, and it lies in [0, 100] when bavail ≤ blocks |
| SystemMonitorScript.SystemMonitor.GetGpuStats | scripts/system_monitor.py:209-269 | the statistics equal `GpuStatsOf` of the GPU fields and inputs, whose NVIDIA branch is the CSV parsed as written |
| SystemMonitorScript.GpuStatsShape | scripts/system_monitor.py:209-269 | there are as many usages as temperatures, plus one per load-only NVIDIA line (usage parses, temperature does not); a failed NVIDIA query gives `gpu_count` entries of (0.0, −1); AMD gives one entry per detected card; Intel always gives ([0.0], [−1]) |
| SystemMonitorScript.GpuStatsOf | scripts/system_monitor.py:209-269 | definition of the value `get_gpu_stats` returns; its shape is stated by `GpuStatsShape` |
| SystemMonitorScript.NvidiaStats | scripts/system_monitor.py:213-235 | definition of the NVIDIA branch: `NvidiaRowsAsWritten` of the output's lines, or `gpu_count` entries of (0.0, −1) when the query fails |
| SystemMonitorScript.CsvLines | scripts/system_monitor.py:223 | definition: `out.strip().split("\n")` |
| SystemMonitorScript.Unknown | scripts/system_monitor.py:234-235 | definition: `[0.0] * n` and `[-1] * n`; `GpuStatsShape` states their lengths |
| SystemMonitorScript.NvidiaRowAsWritten | scripts/system_monitor.py:225-232 | definition of one CSV line's effect as written; `NvidiaRowAsWrittenShape` states its shape |
| SystemMonitorScript.NvidiaRowsAsWritten | scripts/system_monitor.py:224-232 | definition of the CSV loop as written; `NvidiaRowsAsWrittenShape` states its shape |
| SystemMonitorScript.ParseNvidiaCsv | scripts/system_monitor.py:223-232 | the CSV loop produces `NvidiaRowsAsWritten` of the output's stripped lines: the code as written, with the usage appended before the temperature is parsed |
| SystemMonitorScript.NvidiaCsvLine | scripts/system_monitor.py:225-232 | one line's `try`/`except` appends what `NvidiaRowAsWritten` gives: nothing without a comma, (0.0, −1) when the usage fails, the pair when both parse, and usages [u, 0.0] with temperature −1 when only the temperature fails |
| SystemMonitorScript.NvidiaRowsAsWrittenShape | scripts/system_monitor.py:224-232 | as written, there is one temperature per line with a comma, and one usage more than temperatures per load-only line |
| SystemMonitorScript.NvidiaRowAsWrittenShape | scripts/system_monitor.py:225-232 | one line adds a temperature exactly when it has a comma, and a second usage exactly when it is load-only |
| SystemMonitorScript.NvidiaAsWrittenWithoutLoadOnly | scripts/system_monitor.py:224-232 | when no line is load-only, the code as written gives the one-pair-per-line statistics of `NvidiaRows` |
| SystemMonitorScript.NvidiaRow | scripts/system_monitor.py:225-232 | a line adds a pair exactly when it has a comma (at least two fields) |
| SystemMonitorScript.NvidiaRows | scripts/system_monitor.py:224-232 | definition of the corrected loop: one (usage, temperature) pair per line with a comma; `NvidiaRowsAligned` states its shape |
| SystemMonitorScript.NvidiaRowsAligned | scripts/system_monitor.py:224-232 | with the one-pair-per-line rule the code evidently intends, usages and temperatures have one entry per line that has two fields |
| SystemMonitorScript.NvidiaAsWrittenMisaligned | scripts/system_monitor.py:227-232 | as written, a line whose usage parses and whose temperature does not appends two usages and one temperature |
| SystemMonitorScript.LoadOnlyLine | scripts/system_monitor.py:225-229 | `45, [N/A]` has two fields, a usage of 45.0 and an integer error on the temperature |
| SystemMonitorScript.NvidiaAsWrittenAgreesOtherwise | scripts/system_monitor.py:227-232 | on every other line the code as written and the one-pair rule append the same values |
| SystemMonitorScript.ReadAmdStats | scripts/system_monitor.py:238-263 | the AMD loop produces `AmdStats` of the card list |
| SystemMonitorScript.AmdStats | scripts/system_monitor.py:238-263 | one usage and one temperature per card |
| SystemMonitorScript.AmdStatsAt | scripts/system_monitor.py:238-263 | the i-th usage and temperature come from the i-th card's files |
| SystemMonitorScript.AmdUsage | scripts/system_monitor.py:240-246 | definition: the stripped `gpu_busy_percent` as a float, 0.0 when absent or unparsable; used by `AmdStatsAt` |
| SystemMonitorScript.AmdTemp | scripts/system_monitor.py:248-262 | definition: the first hwmon directory's `temp1_input` `// 1000`, -1 when absent or unparsable; used by `AmdStatsAt` |
| PyText.SplitWhitespace | scripts/system_monitor.py:80 | `str.split()` parts are non-empty and contain no whitespace |
| PyText.SplitSpacedToken | scripts/system_monitor.py:80 | a space, a token and then whitespace or nothing split with that token first |
| PyText.SplitTwoTokens | scripts/system_monitor.py:174 | two tokens separated by a space, then whitespace or nothing, split into those two tokens first |
| PyText.SplitOn | scripts/system_monitor.py:223-225 | `split(sep)` gives at least one part, no part contains the separator, and there are two or more parts exactly when the separator occurs |
| PyText.SplitOnPair | scripts/system_monitor.py:225 | two separator-free fields joined by the separator split back into the two |
| PyText.JoinSplitOn | scripts/system_monitor.py:223 | joining the parts of `split(sep)` with `sep` gives back the string |
| PyText.ReadLine | scripts/system_monitor.py:76 | `readline()` returns a prefix with a newline at most at its end that ends with a newline unless it reaches the end |
| PyText.LinesConcat | scripts/system_monitor.py:172 | the lines of a file put together are the file, and the first is what `readline()` returns |
| PyText.Lines | scripts/system_monitor.py:172 | `for line in f`: every line is non-empty; `LinesConcat` states that they join to the file |
| PyText.Strip | scripts/system_monitor.py:118 | `strip()` leaves no whitespace at either end |
| PyText.LStrip | scripts/system_monitor.py:118 | `lstrip()`: the result is a suffix that is empty or starts with non-whitespace, and everything removed is whitespace |
| PyText.RStrip | scripts/system_monitor.py:118 | `rstrip()`: the result is a prefix that is empty or ends with non-whitespace, and everything removed is whitespace |
| PyText.IsSpace | scripts/system_monitor.py:118 | definition: `str.isspace()` on ASCII: space, 0x09-0x0D and 0x1C-0x1F |
| PyText.StartsWith | scripts/system_monitor.py:173 | definition: `s.startswith(prefix)` |
| PyText.ParseInt | scripts/system_monitor.py:83 | `int()` succeeds only on text that is not blank |
| PyText.ParseIntShowInt | scripts/system_monitor.py:83 | `int(str(n)) == n` for every integer |
| PyText.ShowInt | scripts/system_monitor.py:83 | definition: `str(n)` for an integer, the partner of `int()` in `ParseIntShowInt` |
| PyText.ParseFloatShowInt | scripts/system_monitor.py:228 | `float(str(n)) == n` for every integer |
| PyText.ParseFloat | scripts/system_monitor.py:228 | `float()` succeeds only on text that is not blank; `ParseFloatShowInt` states its value on integers |
| PyText.ShowNatValue | scripts/system_monitor.py:83 | the decimal digits printed for a number are a digit group whose value is that number |
| PyText.LexLeTotal | scripts/system_monitor.py:50 | string order is total |
| PyText.LexLe | scripts/system_monitor.py:50 | definition: the code-point order `sorted()` uses on strings; `LexLeTotal`, `LexLeTrans` and `LexLeAntisymmetric` state it is a total order |
| PyText.LexLeTrans | scripts/system_monitor.py:50 | string order is transitive |
| PyText.LexLeAntisymmetric | scripts/system_monitor.py:50 | string order is antisymmetric |
| PyText.SortStrings | scripts/system_monitor.py:50 | `sorted()` returns a permutation of its argument |
| PyText.SortStringsSorted | scripts/system_monitor.py:50 | `sorted()` returns its argument's strings in ascending order, each as often as given |

## Left out

- The Linux-PAM library (`pam_start`, `pam_authenticate`, `pam_acct_mgmt`, `pam_end`): their results are inputs, and the PAM modules' behaviour is not modelled.
- `poll` with its 15-second timeout and `fgets` on stdin: the poll result and stdin's contents are inputs. On a read error the model treats the password buffer as still zero, while C leaves it indeterminate.
- `calloc`, `strdup` and `free` in `conv_func`: allocation failure (and its `PAM_CONV_ERR`) is not modelled, and the reply is a fresh array.
- Whether `explicit_bzero` or the volatile fallback is used: only the effect, an all-zero buffer, is modelled.
- LockscreenAuth.Fgets: bytes after a NUL read from stdin are kept in the line, as `fgets` does; the C string handed to PAM ends at that NUL, which `StripNewline` states.
- Filesystem access (`open`, `os.listdir`, `os.path.exists`, `os.statvfs`): contents, listings and stat results are inputs. An unreadable file and an absent file are distinguished only where the code treats them differently, except for the exceptions `detect_gpu` lets escape (see the `Detect` line below).
- The subprocess calls (`nvidia-smi`, `intel_gpu_top`): whether the tool exists and the output of each query, or its failure, are inputs. A failing UTF-8 decode counts as a failed query.
- SystemMonitorScript.Detect and SystemMonitor.DetectGpu: `detect_gpu`'s uncaught exceptions are not modelled: `os.listdir("/sys/class/drm")` on a directory that exists but cannot be listed, and `nvidia-smi` or `intel_gpu_top` existing but not runnable (`PermissionError`, where only `FileNotFoundError` is caught), all raise out of the constructor; the probe only says whether each tool and the DRM listing are there.
- SystemMonitorScript.NvidiaCount: the count output is bytes, whose `strip()` and `int()` treat only space and `\t\n\v\f\r` as whitespace; the model strips it as text, so 0x1C-0x1F around the number are also removed (no `nvidia-smi` output contains them).
- IEEE floating point: percentages are exact `real` arithmetic, so no bit-exact float result is claimed.
- PyText.ParseFloat: exponents, `inf`, `nan` and non-ASCII digits and spaces are rejected, where Python's `float()` accepts them.
- PyText.ParseInt: non-ASCII digits and Unicode whitespace are rejected, where Python's `int()` accepts them.
- PyText.SplitWhitespace: only ASCII whitespace separates fields; Python's `str.split()` also splits on Unicode spaces.
- PyText.Strip: only ASCII whitespace and the separators 0x1C-0x1F are stripped; Python's `str.strip()` also removes U+0085, U+00A0 and the other Unicode spaces.
- Universal-newline translation of `\r\n` when Python reads a text file: lines end at `\n` only.
- `SystemMonitor.amd_cards` exists in Python only once AMD is detected; the model starts it as an empty list, which no path reads before AMD is detected.
- The `__main__` loop, `time.sleep`, `json.dumps`, `print` and `KeyboardInterrupt` handling: this is I/O plumbing with no logic to state.
- `update_disks_from_stdin` is an empty stub, and `disks` is only initialised.
- SystemMonitorScript.GetMem: the final percentage is computed by the specification function `MemReport`, not by separate statements.
- The conversations held during `pam_start` and `pam_end` are not modelled. What the PAM stack does with the replies it is handed is not modelled, because the stack is an input.
- The conversation batches are fixed inputs. A real PAM stack chooses its messages, and how many times it calls `conv_func`, as it goes.

## Findings

| source | as written | input that shows it | evidently intended | confidence | as-written member | corrected member |
|---|---|---|---|---|---|---|
| scripts/system_monitor.py:227-232 | `usages.append(float(...))` runs before `int(...)` is tried; when the temperature then fails, the handler appends another usage, `0.0`, and one temperature, `-1` | the `nvidia-smi` line `45, [N/A]` (a GPU that reports its load but no temperature) gives usages `[45.0, 0.0]` and temps `[-1]`, shifting every later GPU's usage by one | one (usage, temperature) pair per line, `(0.0, -1)` when either field fails, as the handler's two appends suggest | high, not executed | SystemMonitorScript.NvidiaAsWrittenMisaligned | SystemMonitorScript.NvidiaRowsAligned |

`get_gpu_stats` is modelled as written: `ParseNvidiaCsv`, `GetGpuStats` and `GpuStatsShape` use `NvidiaRowsAsWritten`, and `NvidiaRowsAsWrittenShape` counts the extra usages. `NvidiaRows` is the one-pair-per-line rule. `NvidiaRowsAligned` proves it keeps the two lists aligned, and `NvidiaAsWrittenWithoutLoadOnly` proves the code agrees with it when no line is load-only.
