/**
 * The JavaScript values that the application state holds, seen as immutable
 * trees: plain objects are `Node`s over their own properties, and the only
 * other shapes the state container meets are strings, booleans, the page
 * component, the alert array, `undefined` and `null`.
 */
module Values {

  /** The page components the router can select; only `Home` is reached. */
  datatype Page = Home

  datatype Option<T> = None | Some(value: T)

  datatype Value =
    | Undefined
    | Null
    | Bool(b: bool)
    | Str(s: string)
    | Component(page: Page)           // a page component (a function in JavaScript)
    | List(items: seq<Value>)         // an array
    | Node(fields: map<string, Value>) // a plain object and its own properties

  /** What a JavaScript property access can throw, plus the writes this model declines. */
  datatype Error =
    | TypeError        // reading a property of undefined/null, or writing one on a non-object
    | UnmodelledWrite  // `set` aimed at the typed fields `alerts` or `currentPage`

  datatype Result<T> = Ok(value: T) | Err(error: Error)

  /** `undefined` or `null`: the values whose properties cannot be read. */
  predicate Nullish(v: Value) {
    v.Undefined? || v.Null?
  }

  /** JavaScript truthiness over the values modelled here. */
  predicate Truthy(v: Value) {
    match v
    case Undefined | Null => false
    case Bool(b) => b
    case Str(s) => s != ""
    case _ => true
  }

  /**
   * The property read `v[key]`: it throws on undefined/null, yields the own
   * property of an object (or undefined when it is absent), and yields
   * undefined on every other value.
   */
  function Get(v: Value, key: string): Result<Value> {
    match v
    case Undefined | Null => Err(TypeError)
    case Node(fields) => Ok(if key in fields then fields[key] else Undefined)
    case _ => Ok(Undefined)
  }
}
