/** The argument values a tool call carries (`arguments: dict[str, Any]`)
    and the two ways `src/server.py` reads them. */
module Arguments {

  /** A decoded JSON argument value. `Str` is a Python `str`; `Other` is
      every other value (a number, a boolean, `None`, a list, an object),
      kept only as Python's type name for it and its `str()` rendering. */
  datatype Value = Str(s: string) | Other(typeName: string, text: string)

  /** Python's `None`: what `arguments.get(key)` yields for a missing key. */
  const PyNone: Value := Other("NoneType", "None")

  type Arguments = map<string, Value>

  /** `arguments.get(key, default)`: a present key's value, whatever its type,
      otherwise the default. */
  function Get(args: Arguments, key: string, default: Value): (v: Value)
    ensures key in args ==> v == args[key]
    ensures key !in args ==> v == default
  {
    if key in args then args[key] else default
  }

  /** `str(v)`, as an f-string renders a value. */
  function Render(v: Value): string
  {
    match v
    case Str(s) => s
    case Other(_, text) => text
  }
}
