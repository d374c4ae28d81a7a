/** The trace2 event and field names shared by the recorder and the
    performance-table encoder (internal/log/trace2.go, lines 36-69). */
module Tr2Names {

  const EvStart: string := "start"
  const EvCmdName: string := "cmd_name"
  const EvRegionEnter: string := "region_enter"
  const EvRegionLeave: string := "region_leave"
  const EvChildStart: string := "child_start"
  const EvChildReady: string := "child_ready"
  const EvChildExit: string := "child_exit"
  const EvError: string := "error"
  const EvExit: string := "exit"
  const EvAtExit: string := "atexit"

  const FSid: string := "sid"
  const FTAbs: string := "t_abs"
  const FTRel: string := "t_rel"
  const FNesting: string := "nesting"
  const FThread: string := "thread"
  const FFile: string := "file"
  const FLine: string := "line"
  const FName: string := "name"
  const FArgv: string := "argv"
  const FCode: string := "code"
  const FCategory: string := "category"
  const FLabel: string := "label"
  const FChildId: string := "child_id"
  const FChildClass: string := "child_class"
  const FUseShell: string := "use_shell"
  const FReady: string := "ready"
  const FPid: string := "pid"
  const FMsg: string := "msg"
  const FFmt: string := "fmt"
}
