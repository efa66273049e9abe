# Windows send-file fast path, modelled in Dafny

This project models the zero-copy "send file" path of a Go networking stack on Windows. It covers two layers.

- **`sendFile`** (`src/net/sendfile_windows.go`, module `Net`). It looks at the reader a copy to a TCP connection reads from. A capped stream (`*io.LimitedReader`) is unwrapped once. What is left must be a bounded file view (`*io.SectionReader` over an `*os.File`) or a plain `*os.File`. From that it derives the start position and the byte count (0 means "until end of file"). It then calls the transfer primitive. Afterwards it charges the cap, and moves the view's offset or the file's seek position, by exactly the bytes sent. It answers `(written, err, handled)`.
- **`SendFile`** (`src/internal/poll/sendfile_windows.go`, module `Poll`). It refuses pipe destinations. It takes the descriptor's write lock and fills the write-side operation `wop`: the count truncated to 32 bits, the source handle, and the 64-bit offset split into low and high halves. It submits TransmitFile through the completion machinery, releases the lock, and returns what the completion reported.

The readers are classes, because `sendFile` updates them in place. `Net.SourceOf` gives their value (`Capped | View | Seekable | Opaque`), and the pure specification functions work on that value. `Net.Classify` is the decision of lines 24-58 as written. `Net.Plan` is the same decision with the one correction described under Findings. `Net.Consume` is the bookkeeping of lines 65-72. The method `Net.SendFile` is proved against `Plan`, `Poll.Reply` and `Consume`.

The poll descriptor `Poll.FD` keeps a ghost history of its write-lock events and of the TransmitFile calls submitted on it. `FD.Valid()` says that this history replays, lock by lock, to the current lock state. That makes the lock discipline exact: one lock, one transfer made while the lock is held, one unlock, or nothing at all.

Answers from the operating system are parameters (`Net.OsReplies`, `Poll.Completion`). These are the result of the current-position seek, the TransmitFile completion, and the result of the repositioning seek. Go's fixed-width arithmetic is explicit in module `Ints`: `uint32(x)` keeps the low 32 bits, `>> 32` rounds toward minus infinity, and int64 sums wrap.

The comment at `src/net/sendfile_windows.go:22` says files over 2GB are not supported. The code enforces no bound: it truncates the count with `uint32`, and the model follows the code.

## Model

| member | source | states |
|---|---|---|
| Ints.Uint32 | src/internal/poll/sendfile_windows.go:22 | Go's `uint32(x)`: agrees with `x` when `x` fits in 32 bits, and otherwise differs from it by a multiple of 2^32 |
| Ints.Int64 | src/net/sendfile_windows.go:66 | Go's int64 arithmetic: exact when the result fits, and otherwise wrapped by a multiple of 2^64 |
| Ints.Shr32 | src/internal/poll/sendfile_windows.go:26 | `curpos >> 32` is the quotient rounded toward minus infinity: `r*2^32 <= x < r*2^32 + 2^32` |
| Poll.LockRunConcat | src/internal/poll/sendfile_windows.go:16-19 | replaying a write-side history in two parts equals replaying it whole, which lets each lock, transfer and unlock step keep the descriptor's history well bracketed |
| Poll.SplitJoin | src/internal/poll/sendfile_windows.go:25-26 | the low and high halves put in `Offset`/`OffsetHigh` join back to `curpos`; for `curpos >= 0`, `OffsetHigh*2^32 + Offset == curpos` |
| Poll.JoinSplit | src/internal/poll/sendfile_windows.go:25-26 | every pair of 32-bit halves is the split of exactly the offset they join to, so the split is a bijection |
| Poll.QtyTruncation | src/internal/poll/sendfile_windows.go:22 | `qty == n` exactly when `0 <= n < 2^32`; counts of 2^32 or more, and negative counts, are changed by the truncation |
| Poll.FD.WriteLock | src/internal/poll/sendfile_windows.go:16-18 | fails with the closing error, taking nothing, when the descriptor is being closed; otherwise takes the write side and logs it |
| Poll.FD.WriteUnlock | src/internal/poll/sendfile_windows.go:19 | releases the write side and logs it |
| Poll.ExecIO | src/internal/poll/sendfile_windows.go:28-30 | submits exactly one TransmitFile call with the socket, `wop.handle`, `wop.qty`, the offset halves and TF_WRITE_BEHIND, while the lock is held; the completion stores the count sent in `wop.qty`, and that count and the completion's error are returned |
| Poll.SendFile | src/internal/poll/sendfile_windows.go:10-32 | a pipe gives `(0, ESPIPE)` with no lock and `wop` untouched; a failed lock gives `(0, err)` with no transfer; otherwise `handle == src` and the offset halves are set, the history grows by lock, a transfer of `uint32(n)` bytes with those arguments, and unlock, `wop.qty` ends holding the count sent, and the completion's result is returned; the lock is free on every exit |
| Net.Classify | src/net/sendfile_windows.go:24-58 | an exhausted cap (`N <= 0`) is trivially handled, and nothing else is; a view over a non-file or any other reader is ineligible; a failed position seek is reported with handled false; a view starts at `base+off` and sends the rest of the window, or the cap when that is positive and smaller; a file starts at its position and sends the cap (0: to end of file) |
| Net.Plan | src/net/sendfile_windows.go:41-46 | agrees with Classify except that an empty view request becomes trivially handled; every view request is non-empty and lies inside `[base, base+size)` |
| Net.ExhaustedViewLeavesWindow | src/net/sendfile_windows.go:44-46 | as written, a 3000-byte view at offset 1000 that is used up asks TransmitFile for 0 bytes from 4000, which sends bytes past the window of a 5000-byte file |
| Net.PlanStaysInWindow | src/net/sendfile_windows.go:41-46 | with the correction, the byte range TransmitFile sends for a view request lies inside the window, for every file size, when the count fits in 32 bits |
| Net.CallStaysInWindow | src/net/sendfile_windows.go:41-60 | the TransmitFile call submitted for a view request names the view's file, and its joined offset and count read only bytes inside the window |
| Net.Consume | src/net/sendfile_windows.go:65-72 | after a transfer of `done` bytes, the cap shrinks by exactly `done` and the position advances by exactly `done` (barring int64 overflow); a failed file seek leaves the position alone; shape, window and handles are kept |
| Net.ReplayAccounts | src/net/sendfile_windows.go:65-72 | over any number of successful calls, the position advances, and the cap shrinks, by the total sent |
| Net.CallsStayInWindow | src/net/sendfile_windows.go:41-72 | over any run of calls that each send no more than they ask, a view keeps its window, its offset never passes the window's end, and its cap is never overdrawn |
| Net.File.SeekCurrent | src/net/sendfile_windows.go:54-57 | the current-position query returns the position, or `(0, err)` when the OS reports an error |
| Net.File.SeekStart | src/net/sendfile_windows.go:71 | repositioning moves to the given offset, or leaves the position and reports the error |
| Net.SectionReader.Seek | src/net/sendfile_windows.go:69 | moves the view's offset by `delta` unless the result would fall before the base or overflow, in which case it reports the offset error and moves nothing |
| Net.Settle | src/net/sendfile_windows.go:65-72 | the readers end up as `Consume` of their old value; the error is the repositioning error for a file and none for a view |
| Net.SendFile | src/net/sendfile_windows.go:23-74 | with no transfer, nothing changes and the result is `(0, nil, true)`, `(0, nil, false)` or `(0, seekErr, false)`; a plain file's start position comes from `File.SeekCurrent`, whose error is returned unhandled; a transfer goes to the primitive with the plan's handle, position and count; if it fails, the result is `(0, wrapped err, false)` and no budget or position changes; on success the result is `(done, err, true)` with the readers consumed by exactly `done` |

## Findings

| source | as written | input that shows it | evidently intended | confidence | as-written member | corrected member |
|---|---|---|---|---|---|---|
| src/net/sendfile_windows.go:44-46 | A view's count is clamped to the rest of its window, `Size - off`, which is 0 when the view is used up and negative when its offset lies past the end. The count is still passed to TransmitFile. There a count of 0 means "the rest of the file" (the source's own comment at line 24), and a negative count becomes a large `uint32`. | A view with base 1000 and size 3000 at offset 3000, over a 5000-byte file, with no cap: TransmitFile is asked for 0 bytes from offset 4000 and sends bytes 4000-4999, outside the window. | A view with nothing left in its window sends nothing and answers `(0, nil, true)`, as an exhausted cap does at line 31. | not executed; high | Net.ExhaustedViewLeavesWindow | Net.Plan |

`Net.Classify` models the code as written. `Net.Plan` is the corrected decision that `Net.SendFile` uses. `Net.PlanStaysInWindow`, `Net.CallStaysInWindow` and `Net.CallsStayInWindow` prove the intended window property about it.

## Left out

- The TransmitFile system call, the meaning of TF_WRITE_BEHIND and the I/O completion port machinery. `Poll.ExecIO` records the call and returns the completion supplied as a parameter. A failure inside ExecIO before submission is treated as a completion error.
- Mutual exclusion between concurrent writers. The write lock is a held flag and a fallible acquire. It fails exactly when the descriptor is being closed. Waiting for another writer is not modelled, so `Poll.SendFile` requires that the caller does not hold the lock.
- How `os.File.Seek`, `f.Fd()` and `io.SectionReader` are implemented. A file is a handle and a seek position, and its seeks take the OS's answer as a parameter. The section's `Seek(0, io.SeekCurrent)` at line 41 never fails, so it is modelled as a read of its offset.
- Section readers built with a negative base or size. The validity predicate excludes them.
- The text of the errors. `wrapSyscallError` is a tagging constructor that, like the code, tags only raw `syscall.Errno` values.
- The caller's fallback to the generic copy loop when `handled` is false. That code is not part of this model.
- Net.PlanStaysInWindow: proved only for counts below 2^32. A count of 2^32 or more is truncated by `uint32`, and a multiple of 2^32 becomes 0 ("the rest of the file"). Counts from 2^31 to 2^32-1 pass the truncation unchanged; the model does not capture why the comment at line 22 calls files over 2GB unsupported, since that limit belongs to TransmitFile itself.
- Net.CallStaysInWindow: proved only for counts below 2^32, for the same reason.
- Net.SendFile: follows the corrected decision `Net.Plan`. For a used-up view it answers `(0, nil, true)` without calling the primitive. The code instead submits a zero-count transfer; that case is shown by `Net.ExhaustedViewLeavesWindow`.
- Net.Consume: the exact advance is stated only where the new position fits in int64. When it does not, Go's wrapped section seek fails and the offset stays put, and the file position wraps; both are modelled, not stated as an advance.
