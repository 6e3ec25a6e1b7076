/** RuntimeObjectType.swift: a class or a protocol, known by its name. */
module RuntimeObjectTypes {

  /**
   * The Swift enum; its synthesized `Hashable` equality and `id` (the value
   * itself) are Dafny's structural equality on this datatype.
   */
  datatype RuntimeObjectType = Class(named: string) | Protocol(named: string) {

    /** The payload string, whichever the case. */
    function Name(): (r: string)
      ensures this == Class(r) || this == Protocol(r)
    {
      match this
      case Class(n) => n
      case Protocol(n) => n
    }

    /** The SF Symbol shown beside the object. */
    function SystemImageName(): (r: string)
      ensures Class? <==> r == "c.square.fill"
      ensures Protocol? <==> r == "p.square.fill"
    {
      match this
      case Class(_) => "c.square.fill"
      case Protocol(_) => "p.square.fill"
    }
  }

  /** Equality needs the same case and the same name: a class never equals a protocol. */
  lemma EqualityByCaseAndName(a: RuntimeObjectType, b: RuntimeObjectType)
    ensures a == b <==> (a.Class? == b.Class? && a.Name() == b.Name())
  {
  }
}
