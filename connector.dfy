/** The records a quote-of-the-day fetch decodes into. Only their shape is
    modelled: the request and the JSON decoding are outside the model, and a
    fetch result reaches the card as a plain `Option<Payload>`. */
module Connector {

  /** A signed 32-bit integer, as Rust's `i32`. */
  newtype i32 = x: int | -0x8000_0000 <= x < 0x8000_0000

  datatype Quote = Quote(
    id: i32,
    dialogue: bool,
    isPrivate: bool,
    tags: seq<string>,
    favoritesCount: i32,
    upvotesCount: i32,
    downvotesCount: i32,
    author: string,
    authorPermalink: string,
    body: string)

  /** The unit one successful fetch returns. */
  datatype Payload = Payload(qotdDate: string, quote: Quote)
}
