/** WebSocket frames and errors, as far as the chat inspects them. */
module Messages {
  import opened Wrappers

  /** A WebSocket frame. Only text frames carry content the chat reads; binary, ping,
      pong and close frames are told apart only by an opaque tag. */
  datatype Message = Text(text: string) | Other(tag: nat)

  /** The WebSocket library's error type. `AlreadyClosed` is the one the core produces
      itself; every other error is opaque. */
  datatype WsError = AlreadyClosed | StreamError(code: nat)

  /** tungstenite's `Result<T>`. */
  type WsResult<T> = Result<T, WsError>

  /** True of a stream item that is `Ok(Message::Text(_))`. */
  predicate IsText(item: WsResult<Message>) {
    item.Ok? && item.value.Text?
  }
}
