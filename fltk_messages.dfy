/** The FLTK front end's messages and the conversion of the core's front-end messages into them. */
module FltkMessages {
  import opened Wrappers
  import opened Frontend

  /** `Message`: what the FLTK user interface acts on. */
  datatype Message =
    | Query | Confirm
    | CursorUp | CursorDown | CursorPageUp | CursorPageDown | CursorTop | CursorBottom
    | ShowWindow | HideWindow | ShowOrHideWindow
    | ShowWithQuery(query: string)
    | Cancel | Exit

  /** The messages that only the user interface itself produces. */
  predicate InterfaceOnly(m: Message)
  {
    m.Query? || m.Confirm? || m.CursorUp? || m.CursorDown? || m.CursorPageUp? || m.CursorPageDown?
    || m.CursorTop? || m.CursorBottom? || m.Cancel?
  }

  /** `From<FrontendMessage> for Message`. */
  function FromFrontend(message: FrontendMessage): (m: Message)
    ensures !InterfaceOnly(m)
  {
    match message
    case ShowOrHide => ShowOrHideWindow
    case Show => ShowWindow
    case Hide => HideWindow
    case ShowWithQuery(query) => Message.ShowWithQuery(query)
    case Exit => Message.Exit
  }

  /** The message a converted message came from. */
  function ToFrontend(m: Message): (r: Option<FrontendMessage>)
  {
    match m
    case ShowOrHideWindow => Some(ShowOrHide)
    case ShowWindow => Some(Show)
    case HideWindow => Some(Hide)
    case ShowWithQuery(query) => Some(FrontendMessage.ShowWithQuery(query))
    case Exit => Some(FrontendMessage.Exit)
    case _ => None
  }

  /** Converting back recovers the message, so the conversion is injective and keeps the query. */
  lemma FromFrontendInverse(message: FrontendMessage, other: FrontendMessage)
    ensures ToFrontend(FromFrontend(message)) == Some(message)
    ensures FromFrontend(message) == FromFrontend(other) ==> message == other
    ensures message.ShowWithQuery? ==> FromFrontend(message).query == message.query
  {
    assert ToFrontend(FromFrontend(other)) == Some(other);
  }

  /** Exactly the messages the user interface does not produce itself are conversions. */
  lemma ConversionsAreTheRest(m: Message)
    ensures !InterfaceOnly(m) <==> exists message :: FromFrontend(message) == m
  {
    if !InterfaceOnly(m) {
      assert FromFrontend(ToFrontend(m).value) == m;
    }
  }
}
