/** The identity and load-time view of a shared object, the errors the
    deriver can report, and the shape of the symbol loader it consults. */
module SharedObjs {
  import opened Wrappers

  type uint32 = x: int | 0 <= x < 0x1_0000_0000
  type uint64 = x: int | 0 <= x < 0x1_0000_0000_0000_0000

  /** Names one on-disk instance of an object: a rewritten file gets a new
      change time and so a new identity. */
  datatype ObjId = ObjId(inode: uint64, device: uint32, ctime: uint64)

  /** One observed load: the identity, the path as seen by the loading
      process, and that process's mount namespace. */
  datatype ObjInfo = ObjInfo(id: ObjId, path: string, mountNS: int)

  /** Why a derivation failed. The first two are the argument-accessor
      errors, each naming the argument; the third is whatever the symbol
      loader reported, carried verbatim. */
  datatype Error =
    | ArgNotFound(arg: string)
    | ArgWrongType(arg: string)
    | LoadFailed(reason: string)

  /** `GetExportedSymbols`: the exported symbol names of an object, or the
      loader's error. */
  type Loader = ObjInfo -> Result<set<string>, Error>
}
