/**
 * The older state table (Sources/State.swift): the same four states, their
 * messages taken from the configurable `Info` strings, and a style table that
 * chooses which `Info` font and tint each state uses and how it is aligned.
 */
module LegacyStates {
  import opened Wrappers

  datatype State = Scanning | Processing | Unauthorized | NotFound

  /** The configurable `Info` messages (public static strings in the source). */
  datatype InfoTexts = InfoTexts(text: string, loadingText: string, notFoundText: string, settingsText: string)

  /** `State.text`: the `Info` message a state shows by default. */
  function Text(s: State, info: InfoTexts): string
  {
    match s
    case Scanning => info.text
    case Processing => info.loadingText
    case Unauthorized => info.settingsText
    case NotFound => info.notFoundText
  }

  lemma TextTable(info: InfoTexts)
    ensures Text(State.Scanning, info) == info.text
    ensures Text(State.Processing, info) == info.loadingText
    ensures Text(State.Unauthorized, info) == info.settingsText
    ensures Text(State.NotFound, info) == info.notFoundText
  {
  }

  datatype Status = Status(state: State, animated: bool, text: string)

  /** `Status.init(_:animated:text:)`: an override text replaces the state's `Info` message. */
  function NewStatus(state: State, info: InfoTexts, animated: bool := true, text: Option<string> := None): Status
  {
    Status(state, animated, text.GetOr(Text(state, info)))
  }

  lemma NewStatusContract(state: State, info: InfoTexts, animated: bool, text: Option<string>)
    ensures NewStatus(state, info, animated, text).state == state
    ensures NewStatus(state, info, animated, text).animated == animated
    ensures NewStatus(state, info, text := text).animated
    ensures NewStatus(state, info, animated, text).text == if text.Some? then text.value else Text(state, info)
  {
  }

  /** The `Info` font a state's message uses. */
  datatype FontKey = InfoFont | LoadingFont
  /** The `Info` tint a state's message uses. */
  datatype TintKey = InfoTint | LoadingTint | NotFoundTint
  datatype Alignment = Left | Center

  /** `State.Styles`: which tint and font are read, and the text alignment. */
  datatype Styles = Styles(tint: TintKey, font: FontKey, alignment: Alignment)

  /** `State.styles`. */
  function StylesOf(s: State): Styles
  {
    match s
    case Scanning => Styles(InfoTint, InfoFont, Left)
    case Processing => Styles(LoadingTint, LoadingFont, Center)
    case Unauthorized => Styles(InfoTint, InfoFont, Left)
    case NotFound => Styles(NotFoundTint, LoadingFont, Center)
  }

  /** The two "busy" states are centred and use the loading font; the other two are left-aligned in the regular font. */
  lemma StylesAlignmentAndFont(s: State)
    ensures StylesOf(s).alignment == Center <==> s == State.Processing || s == State.NotFound
    ensures StylesOf(s).alignment == Left <==> s == State.Scanning || s == State.Unauthorized
    ensures StylesOf(s).font == LoadingFont <==> s == State.Processing || s == State.NotFound
  {
  }

  lemma StylesTint(s: State)
    ensures StylesOf(s).tint == NotFoundTint <==> s == State.NotFound
    ensures StylesOf(s).tint == LoadingTint <==> s == State.Processing
    ensures StylesOf(s).tint == InfoTint <==> s == State.Scanning || s == State.Unauthorized
  {
  }
}
