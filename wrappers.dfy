/** Optional values: TypeScript's `T | null` and optional record fields (`phone?`). */
module Wrappers {

  datatype Option<+T> = None | Some(value: T)

}
