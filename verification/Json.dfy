/** JSON bodies as the store keeps them and the API hands them out. */
module Json {
  import opened Common

  /** A value of a JSON body; an identifier in it is its text. */
  datatype Datum =
    | Null
    | Text(text: string)
    | Number(number: int)
    | Flag(on: bool)
    | Ref(id: Id)
    | Object(fields: map<string, Datum>)

  type Data = map<string, Datum>

  function OptionalText(text: Option<string>): Datum {
    if text.Some? then Text(text.value) else Null
  }

  /** Python's `text or fallback`: an empty text counts as missing. */
  function TextOr(text: Option<string>, fallback: string): Datum {
    Text(if text.Some? && text.value != "" then text.value else fallback)
  }

  function NumberOrZero(number: Option<int>): Datum {
    Number(if number.Some? then number.value else 0)
  }
}
