/**
 * The part of the Zellij plugin API both plugins use: the host's record of a
 * pane, and the calls a plugin makes into the host, which the models record
 * as effects instead of performing.
 */
module Zellij {

  /** Rust's `u32`. */
  type U32 = x: int | 0 <= x < 0x1_0000_0000

  /** A pane as the host reports it in a pane manifest. */
  datatype HostPane = HostPane(id: U32, title: string, isFocused: bool, isPlugin: bool)

  /** A call into the host. */
  datatype Effect =
    | RunCommand(argv: seq<string>, context: map<string, string>)
    | FocusTerminalPane(paneId: U32, shouldFloatIfHidden: bool)
    | CloseSelf
    | PostMessageToPlugin(name: string, payload: string)
}
