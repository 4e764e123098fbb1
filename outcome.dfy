/** Error values and Go-style (value, error) replies shared by every controller. */
module Outcome {

  datatype Option<+T> = None | Some(value: T)

  /** The errors the controllers pass on unchanged to their caller. */
  datatype Error =
    | MsrAccess(cpu: nat, offset: int)   // opening, reading or writing /dev/cpu/<cpu>/msr at offset failed
    | FileAccess(path: string)           // reading or writing a control file failed

  /** A Go `(bool, error)` pair: on failure the controllers return `false` with the error. */
  datatype Reply = Reply(value: bool, err: Option<Error>)
}
