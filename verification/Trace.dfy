/** The part of a raw kernel event the deriver reads: named arguments with
    dynamically typed values, and the mount namespace carried beside them;
    plus the typed argument accessors. */
module Trace {
  import opened Wrappers
  import opened SharedObjs

  /** An argument value, tagged with the Go type it was stored as. */
  datatype ArgValue =
    | U64(u64: uint64)
    | U32(u32: uint32)
    | Int(i: int)
    | Str(s: string)

  datatype Event = Event(args: map<string, ArgValue>, mountNS: int)

  /** The event carries an argument `name` holding a `uint64`. */
  predicate HasU64(e: Event, name: string)
  {
    name in e.args && e.args[name].U64?
  }

  /** The event carries an argument `name` holding a `uint32`. */
  predicate HasU32(e: Event, name: string)
  {
    name in e.args && e.args[name].U32?
  }

  /** The event carries an argument `name` holding a `string`. */
  predicate HasStr(e: Event, name: string)
  {
    name in e.args && e.args[name].Str?
  }

  /** The error an accessor reports for `name` when the argument is missing or of another type. */
  function ArgError(e: Event, name: string): Error
  {
    if name in e.args then ArgWrongType(name) else ArgNotFound(name)
  }

  /** `parse.ArgUint64Val`. */
  function ArgUint64Val(e: Event, name: string): Result<uint64, Error>
  {
    if HasU64(e, name) then Success(e.args[name].u64) else Failure(ArgError(e, name))
  }

  /** `parse.ArgUint32Val`. */
  function ArgUint32Val(e: Event, name: string): Result<uint32, Error>
  {
    if HasU32(e, name) then Success(e.args[name].u32) else Failure(ArgError(e, name))
  }

  /** `parse.ArgStringVal`. */
  function ArgStringVal(e: Event, name: string): Result<string, Error>
  {
    if HasStr(e, name) then Success(e.args[name].s) else Failure(ArgError(e, name))
  }
}
