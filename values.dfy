/** PHP values as the managers handle them, and the PHP truthiness rules the managers rely on. */
module Values {

  datatype Option<+T> = None | Some(value: T)

  /** A PHP value handed to, or produced by, a manager method. `Null` is PHP's `null`:
      the only value the fetch algorithms treat as "no result" (`Bool(false)` is a result). */
  datatype Value =
    | Null
    | Bool(b: bool)
    | Int(i: int)
    | Str(s: string)
    | List(items: seq<Value>)
    | RepositoryHandle(entityNamespace: string)  // the repository the ORM manager injects

  /** A method of the concrete manager, found by `method_exists` and run as `$this->$method(...$params)`. */
  type Operation = seq<Value> -> Value

  /** PHP's conversion of a string to bool: "" and "0" are false, every other string is true. */
  predicate Truthy(s: string) {
    s != "" && s != "0"
  }

  /** The negation of `!$cacheKey` for a nullable string: null, "" and "0" all mean "no key". */
  predicate KeyGiven(cacheKey: Option<string>) {
    cacheKey.Some? && Truthy(cacheKey.value)
  }
}
