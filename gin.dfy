/**
 * The slice of a Gin request context that the middleware uses: the request
 * it carries and the per-request key/value store behind Set and Get.
 */
module Gin {
  import opened Http

  /**
   * A value held in the store (Go's `any`): nil, a *url.URL, or anything else.
   */
  datatype Value = NilValue | URLValue(url: URL) | OtherValue

  class Context {
    var request: Request
    var keys: map<string, Value>

    /** A context for `r` with an empty store. */
    constructor (r: Request)
      ensures request == r && keys == map[]
    {
      request := r;
      keys := map[];
    }

    /** Stores `value` under `key`; every other key and the request are kept. */
    method Set(key: string, value: Value)
      modifies this
      ensures keys == old(keys)[key := value]
      ensures request == old(request)
    {
      keys := keys[key := value];
    }

    /** Looks `key` up: the stored value and true, or nil and false. */
    method Get(key: string) returns (value: Value, ok: bool)
      ensures ok <==> key in keys
      ensures ok ==> value == keys[key]
      ensures !ok ==> value == NilValue
    {
      ok := key in keys;
      value := if ok then keys[key] else NilValue;
    }
  }
}
