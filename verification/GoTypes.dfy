/** The few Go types the model needs, as values. */
module GoTypes {

  newtype byte = x: int | 0 <= x < 256

  // A Go string is a sequence of bytes; nothing here assumes valid UTF-8.
  type GoString = seq<byte>

  // The bytes of an ASCII string, read as characters.
  function Text(s: GoString): string { seq(|s|, i requires 0 <= i < |s| => s[i] as char) }

  datatype Option<+T> = None | Some(value: T)

  // A UUID, identified by its canonical text.
  datatype Uuid = Uuid(text: GoString)
}
