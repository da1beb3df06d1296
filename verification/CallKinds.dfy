/** Which calls of one key may be under way at the same time. */
module CallKinds {
  datatype Kind = AHead | AGet | APut | ADelete

  /** Heads may overlap anything, Gets Gets, and Deletes Deletes; the rest is to be said. */
  datatype Overlaps = Overlaps(getPut: bool, getDelete: bool, putPut: bool, putDelete: bool) {
    predicate Meet(a: Kind, b: Kind) {
      match (a, b)
      case (AHead, _) => true
      case (_, AHead) => true
      case (AGet, AGet) => true
      case (ADelete, ADelete) => true
      case (APut, APut) => putPut
      case (AGet, APut) => getPut
      case (APut, AGet) => getPut
      case (AGet, ADelete) => getDelete
      case (ADelete, AGet) => getDelete
      case (APut, ADelete) => putDelete
      case (ADelete, APut) => putDelete
    }
  }

  const NONE := Overlaps(false, false, false, false)
}
