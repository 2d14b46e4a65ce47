/** Python values as the mail service receives them from callers and from configuration. */
module Values {

  /** A keyword-argument or configuration value (a YAML scalar). */
  datatype Value = Null | Bool(b: bool) | Int(i: int) | Str(s: string)

  /** Python truthiness, which `x or False` and `x and f()` test. */
  predicate Truthy(v: Value) {
    match v
    case Null => false
    case Bool(b) => b
    case Int(i) => i != 0
    case Str(s) => s != ""
  }

  /** The Python exceptions the option handling can raise. */
  datatype PyError =
    | TypeError        // a required keyword argument is missing
    | AttributeError   // a method called on `None`

  /** A keyword-argument dictionary such as `connect_options`. */
  type Options = map<string, Value>

  /** An address argument: `None`, a single value, or a list of items. */
  datatype Arg<T> = Absent | One(value: string) | Many(items: seq<T>)

  /** What looking up an alias's `connect_options` in the configuration gives. */
  datatype Lookup =
    | Missing                 // no such key: `get` returns its default, `{}`
    | NullEntry               // the key is present with value None (an empty YAML entry)
    | Entry(options: Options)

  /** The configuration store, seen through the lookup of `<SMTP_CONFIG_KEY>.<alias>.connect_options`. */
  datatype Configure = Configure(connectOptions: string -> Lookup)

  /** `','.join(xs)`. */
  function Join(xs: seq<string>): (r: string)
    ensures xs == [] ==> r == ""
    ensures |xs| == 1 ==> r == xs[0]
  {
    if xs == [] then ""
    else if |xs| == 1 then xs[0]
    else xs[0] + "," + Join(xs[1..])
  }
}
