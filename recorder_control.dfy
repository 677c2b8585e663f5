/**
 * The record button (components/RecorderControl.tsx): one button whose
 * click, label and icon are all decided by whether the recorder is recording.
 */
module RecorderControl {
  import opened Recorder

  datatype Action = Start | Stop
  datatype Icon = MicrophoneIcon | StopIcon

  predicate IsRecording(status: RecordingStatus) {
    status == Recording
  }

  /** `handleClick`: exactly one of `onStop` / `onStart`, stop precisely while recording. */
  function ClickAction(status: RecordingStatus): (a: Action)
    ensures a == Stop <==> status == Recording
    ensures a == Start <==> status in {Idle, Stopped, Denied}
  {
    if IsRecording(status) then Stop else Start
  }

  /** The button's `aria-label`. */
  function AriaLabel(status: RecordingStatus): (s: string)
    ensures s == "Stop recording" || s == "Start recording"
  {
    if IsRecording(status) then "Stop recording" else "Start recording"
  }

  /** The icon inside the button. */
  function ButtonIcon(status: RecordingStatus): Icon {
    if IsRecording(status) then StopIcon else MicrophoneIcon
  }

  /** Label, icon and click always agree: the button says and shows "stop" exactly when a click stops. */
  lemma ControlAgrees(status: RecordingStatus)
    ensures AriaLabel(status) == "Stop recording" <==> ClickAction(status) == Stop
    ensures ButtonIcon(status) == StopIcon <==> ClickAction(status) == Stop
    ensures AriaLabel(status) == "Start recording" <==> ButtonIcon(status) == MicrophoneIcon
  {
  }
}
