/** The page cursor text (encodeCursor and decodeCursor in src/modules/payments/payments.repository.ts). */
module Cursors {
  import opened Wrappers
  import opened Bytes

  /**
   * The runtime calls: Date to and from its ISO text, and JSON.parse of the UTF-8 text of a buffer, giving the
   * fields `t` and `id` (missing ones empty) or None where it throws.
   */
  datatype Runtime = Runtime(iso: int -> string, date: string -> Option<int>, read: seq<Byte> -> Option<(string, string)>)

  /** Printable ASCII that JSON does not escape. */
  predicate Plain(s: string) {
    forall i | 0 <= i < |s| :: ' ' <= s[i] <= '~' && s[i] != '"' && s[i] != '\\'
  }

  predicate Ascii(s: string) {
    forall i | 0 <= i < |s| :: s[i] as int < 128
  }

  /** The UTF-8 bytes of ASCII text. */
  function Encoded(s: string): seq<Byte>
    requires Ascii(s)
  {
    seq(|s|, i requires 0 <= i < |s| => s[i] as int)
  }

  /** `JSON.stringify({ t, id })` for plain strings. */
  function Json(t: string, id: string): (s: string)
    requires Plain(t) && Plain(id)
    ensures Ascii(s)
  {
    "{\"t\":\"" + t + "\",\"id\":\"" + id + "\"}"
  }

  /** The instants a Date can hold, in milliseconds. */
  predicate IsTime(t: int) {
    -8_640_000_000_000_000 <= t <= 8_640_000_000_000_000
  }

  ghost predicate Lawful(js: Runtime) {
    && (forall t: int | IsTime(t) :: js.iso(t) != "" && Plain(js.iso(t)) && js.date(js.iso(t)) == Some(t))
    && (forall t: string, id: string | Plain(t) && Plain(id) :: js.read(Encoded(Json(t, id))) == Some((t, id)))
  }

  function EncodeCursor(js: Runtime, createdAt: int, id: string): string
    requires Plain(js.iso(createdAt)) && Plain(id)
  {
    ToBase64Url(Encoded(Json(js.iso(createdAt), id)))
  }

  /** The date is None where `new Date` gives Invalid Date. */
  function DecodeCursor(js: Runtime, cursor: string): Option<(Option<int>, string)> {
    match js.read(FromBase64Url(cursor))
    case None => None
    case Some((t, id)) => if t == "" || id == "" then None else Some((js.date(t), id))
  }

  /** A cursor made from a row decodes to that row's two sort columns, unless the id is empty. */
  lemma DecodeUndoesEncode(js: Runtime, createdAt: int, id: string)
    requires Lawful(js) && IsTime(createdAt) && Plain(id)
    ensures Plain(js.iso(createdAt))
    ensures DecodeCursor(js, EncodeCursor(js, createdAt, id)) == if id == "" then None else Some((Some(createdAt), id))
  {
    Base64RoundTrip(Encoded(Json(js.iso(createdAt), id)));
  }

  /** Different rows get different cursors. */
  lemma CursorsAreDistinct(js: Runtime, t: int, id: string, t': int, id': string)
    requires Lawful(js) && IsTime(t) && IsTime(t') && Plain(id) && Plain(id') && id != "" && id' != ""
    requires EncodeCursor(js, t, id) == EncodeCursor(js, t', id')
    ensures t == t' && id == id'
  {
    DecodeUndoesEncode(js, t, id);
    DecodeUndoesEncode(js, t', id');
  }
}
