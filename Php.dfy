/**
 * The PHP values the SDK inspects: decoded JSON payloads, configuration
 * entries and the arguments of the facade's request methods, together with
 * the PHP notions the SDK's decisions rest on (`isset`, truthiness as used by
 * `!` and `?:`, and `instanceof`).
 */
module Php {

  /** The interfaces a configured handler object may implement. */
  datatype Interface = HttpClientInterface | PersistentDataInterface | UrlDetectionInterface

  /**
   * A PHP value. Arrays are string-keyed; `AccessToken` is an instance of the
   * SDK's access-token entity; `Object` is any other object, identified by
   * `id` and described by the interfaces it implements.
   */
  datatype Value =
    | Null
    | Bool(b: bool)
    | Int(i: int)
    | Str(s: string)
    | Arr(entries: map<string, Value>)
    | AccessToken(token: string)
    | Object(id: nat, implements: set<Interface>)

  /** A decoded JSON object or a configuration array. */
  type Dict = map<string, Value>

  /** PHP's conversion to boolean, as used by `!` and by `?:`. */
  predicate Truthy(v: Value) {
    match v
    case Null => false
    case Bool(b) => b
    case Int(i) => i != 0
    case Str(s) => s != "" && s != "0"
    case Arr(m) => |m| != 0
    case AccessToken(_) => true
    case Object(_, _) => true
  }

  /** `isset($d[$key])`: the key is present and its value is not null. */
  predicate IsSet(d: Dict, key: string) {
    key in d && !d[key].Null?
  }

  /** `$v instanceof I` for one of the handler interfaces. */
  predicate InstanceOf(v: Value, i: Interface) {
    v.Object? && i in v.implements
  }
}
