/**
 * The handles and errors that cross the boundary between the send-file code
 * and the operating system.
 */
module Syscall {
  /** An OS handle (`syscall.Handle`, a pointer-sized unsigned integer). */
  type Handle = h: int | 0 <= h < 0x1_0000_0000_0000_0000

  /** The `syscall.Errno` values the model names; any other is kept by its code. */
  datatype Errno = ESPIPE | Win32(code: nat)

  /** The errors the model distinguishes. */
  datatype Error =
    | Errno(errno: Errno)                       // a raw `syscall.Errno`
    | ErrNetClosing                             // poll: use of a closed network connection
    | ErrFileClosing                            // poll: use of a closed file
    | ErrOffset                                 // io: SectionReader.Seek to an invalid offset
    | SyscallError(syscall: string, err: Error) // `*os.SyscallError`: an Errno tagged with its call
}
