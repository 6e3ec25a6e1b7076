/** RuntimeTypeSearchScope.swift: which kinds of runtime object a search lists. */
module SearchScopes {

  datatype SearchScope = All | Classes | Protocols {

    function IncludesClasses(): (r: bool)
      ensures r <==> this != Protocols
    {
      match this
      case All => true
      case Classes => true
      case Protocols => false
    }

    function IncludesProtocols(): (r: bool)
      ensures r <==> this != Classes
    {
      match this
      case All => true
      case Classes => false
      case Protocols => true
    }
  }

  /** Every scope lists at least one kind; only `All` lists both. */
  lemma ScopeIncludesSomething(s: SearchScope)
    ensures s.IncludesClasses() || s.IncludesProtocols()
    ensures s.IncludesClasses() && s.IncludesProtocols() <==> s == All
  {
  }
}
