/** Declared signatures of PFA library functions, as plain data.

    The patterns a library function declares for its parameters and its return
    value, the signature that groups them, and the function's registry entry
    (name, signature, error-code base). Matching these patterns against call-site
    types is done by a resolver that is not part of this model; the function
    bodies receive the resolved types directly. */
module Signatures {

  datatype Option<+T> = None | Some(value: T)

  /** Parameter and return patterns (the `P` constructors). */
  datatype Pattern =
    | Int
    | Double
    | String
    | Bytes
    | Array(items: Pattern)
    /** Any type; binds `typeVar`. */
    | Wildcard(typeVar: string)
    /** Any enum type; binds `typeVar`. */
    | WildEnum(typeVar: string)
    /** Any fixed type; binds `typeVar`. */
    | WildFixed(typeVar: string)
    /** Any record having at least the listed fields; binds `typeVar` to the whole record. */
    | WildRecord(typeVar: string, fields: seq<Field>)
    /** A function value with these parameter and return patterns. */
    | Fcn(params: seq<Pattern>, ret: Pattern)

  datatype Field = Field(name: string, pattern: Pattern)

  datatype Param = Param(name: string, pattern: Pattern)

  datatype Sig = Sig(params: seq<Param>, ret: Pattern)

  /** A registered library function: its full name, its one signature and the
      first error code of the block reserved to it. */
  datatype LibFcn = LibFcn(name: string, sig: Sig, errcodeBase: int)

  /** The function takes exactly one parameter, matched by an enum-only wildcard. */
  predicate TakesOneEnum(f: LibFcn)
  {
    |f.sig.params| == 1 && f.sig.params[0].pattern.WildEnum?
  }
}
