/** Job states and sub-states of utils/include/print_constant.h, and the width they are stored in. */
module PrintConstants {
  const UINT32_MAX := 0xFFFF_FFFF
  const INT32_MAX := 0x7FFF_FFFF
  const INT32_MIN := -0x8000_0000

  type UInt32 = x: int | 0 <= x <= UINT32_MAX
  type Int32 = x: int | INT32_MIN <= x <= INT32_MAX

  const PRINT_JOB_QUEUED: UInt32 := 1
  const PRINT_JOB_RUNNING: UInt32 := 2
  const PRINT_JOB_BLOCKED: UInt32 := 3
  const PRINT_JOB_COMPLETED: UInt32 := 4

  const PRINT_JOB_COMPLETED_SUCCESS: UInt32 := 0
  const PRINT_JOB_COMPLETED_FAILED: UInt32 := 1
  const PRINT_JOB_COMPLETED_CANCELLED: UInt32 := 2
  const PRINT_JOB_BLOCKED_OFFLINE: UInt32 := 4
  const PRINT_JOB_BLOCKED_OUT_OF_PAPER: UInt32 := 7
  const PRINT_JOB_BLOCKED_OUT_OF_INK: UInt32 := 8
  const PRINT_JOB_BLOCKED_OUT_OF_TONER: UInt32 := 9
  const PRINT_JOB_BLOCKED_JAMMED: UInt32 := 10
  const PRINT_JOB_BLOCKED_DOOR_OPEN: UInt32 := 11
  const PRINT_JOB_BLOCKED_LOW_ON_TONER: UInt32 := 14
  const PRINT_JOB_BLOCKED_LARGE_FILE_ERROR: UInt32 := 23
  const PRINT_JOB_BLOCKED_FILE_PARSING_ERROR: UInt32 := 24
  const PRINT_JOB_RUNNING_UPLOADING_FILES: UInt32 := 26
  const PRINT_JOB_RUNNING_CONVERTING_FILES: UInt32 := 27
  const PRINT_JOB_BLOCKED_INTERRUPT: UInt32 := 35
  const PRINT_JOB_BLOCKED_AUTHENTICATION: UInt32 := 36
  const PRINT_JOB_BLOCKED_SMB_PRINTER: UInt32 := 38
  const PRINT_JOB_BLOCKED_INPUT_TRAY_MISSING: UInt32 := 39
  const PRINT_JOB_RUNNING_SLOW_FILE_CONVERSION: UInt32 := 42
  const PRINT_JOB_BLOCKED_PORT_ERROR: UInt32 := 43
  const PRINT_JOB_BLOCKED_PRINTER_UNAVAILABLE: UInt32 := 98
  const PRINT_JOB_BLOCKED_UNKNOWN: UInt32 := 99
}
