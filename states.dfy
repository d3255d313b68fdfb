/**
 * The scanner's four display states and the `Status` value that carries one of
 * them into a transition (Sources/DataStructures/State.swift).
 */
module States {
  import opened Wrappers

  /** The barcode scanner's state. */
  datatype State = Scanning | Processing | Unauthorized | NotFound

  /**
   * The default message of a state. The source looks each key up with
   * `localizedString`; that bundle lookup is not modelled, so the message is the
   * key itself (which is also what the lookup returns when the bundle is missing).
   */
  function Text(s: State): string
  {
    match s
    case Scanning => "INFO_DESCRIPTION_TEXT"
    case Processing => "INFO_LOADING_TITLE"
    case Unauthorized => "ASK_FOR_PERMISSION_TEXT"
    case NotFound => "NO_PRODUCT_ERROR_TITLE"
  }

  /** Tells the four states apart by their default messages. */
  lemma TextIsInjective(s: State, t: State)
    ensures Text(s) == Text(t) <==> s == t
  {
  }

  /** A state with an animation flag and the message to show. Never changed in place. */
  datatype Status = Status(state: State, animated: bool, text: string)

  /** `Status.init(state:animated:text:)`: an override text replaces the state's default message. */
  function NewStatus(state: State, animated: bool := true, text: Option<string> := None): Status
  {
    Status(state, animated, text.GetOr(Text(state)))
  }

  lemma NewStatusKeepsArguments(state: State, animated: bool, text: Option<string>)
    ensures NewStatus(state, animated, text).state == state
    ensures NewStatus(state, animated, text).animated == animated
  {
  }

  lemma NewStatusIsAnimatedByDefault(state: State, text: Option<string>)
    ensures NewStatus(state, text := text).animated
    ensures NewStatus(state) == NewStatus(state, true, None)
  {
  }

  lemma OverrideTextWins(state: State, animated: bool, message: string)
    ensures NewStatus(state, animated, Some(message)).text == message
  {
  }

  /**
   * Without an override, the message is the state's default key, and that key
   * identifies the state. (The bundle's texts for distinct keys need not differ.)
   */
  lemma DefaultTextIsStateText(state: State, animated: bool)
    ensures NewStatus(state, animated, None).text == Text(state)
    ensures forall other: State :: NewStatus(other, animated, None).text == NewStatus(state, animated, None).text ==> other == state
  {
  }
}
