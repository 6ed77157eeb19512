/**
 * The decisions of the App composable: which of the three screens to show for
 * the store's open/opening status, whether the confirm button opens the
 * store, and what the start/stop button does.
 */
module Screens {
  import opened Wrappers

  datatype Screen = PasswordDialog | OpeningDialog | MainUi

  /** The screen for the store status observed from the service binder. */
  function SelectScreen(isOpen: bool, isOpening: bool): (screen: Screen)
    ensures screen == PasswordDialog <==> !isOpen && !isOpening
    ensures screen == OpeningDialog <==> isOpening
    ensures screen == MainUi <==> isOpen && !isOpening
  {
    if !isOpen && !isOpening then PasswordDialog
    else if isOpening then OpeningDialog
    else MainUi
  }

  /** The password the confirm button hands to openDatabase, if any: an empty password is never handed on. */
  function SubmitPassword(password: string): (handed: Option<string>)
    ensures handed.Some? <==> |password| > 0
    ensures handed.Some? ==> handed.value == password
  {
    if |password| > 0 then Some(password) else None
  }

  datatype ServiceCommand = StartService | StopService

  /** The start/stop button: stop when the service reports it is started, start otherwise. */
  function StartStopCommand(started: bool): (command: ServiceCommand)
    ensures command == StopService <==> started
    ensures command == StartService <==> !started
  {
    if started then StopService else StartService
  }
}
