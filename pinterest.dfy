/**
 * Provider data as the client code sees it, and the answers of the
 * application's own `/api/getPins` endpoint.
 */
module Pinterest {
  import opened Wrappers

  /** A pin: its id and the optional fields the views read; `image600` is
      `media.images["600x"].url`. */
  datatype Pin = Pin(
    id: string,
    title: Option<string>,
    description: Option<string>,
    image600: Option<string>,
    link: Option<string>)

  /** A board, as listed by the provider. */
  datatype Board = Board(id: string, name: string)

  /** What a `fetch` of the pins endpoint gives: the request throws, or a
      response arrives; `pins` is the body's `pins` field, if present. */
  datatype PinsReply =
    | NetworkError
    | Reply(ok: bool, status: nat, pins: Option<seq<Pin>>)

  /** The pins a successful reply carries: `data.pins || []`. */
  function PinsOf(reply: PinsReply): (r: seq<Pin>)
    requires reply.Reply?
    ensures reply.pins.None? ==> r == []
    ensures reply.pins.Some? ==> r == reply.pins.value
  {
    reply.pins.GetOr([])
  }
}
