/**
 * RuntimeObjectsViewModel.swift: the searchable list of every class and
 * protocol the runtime knows. `runtimeObjectsFor` lists the classes, then the
 * protocols, as far as the search scope includes them, and keeps those whose
 * name contains the search text. ImageRuntimeObjectsViewModel.swift declares
 * the same function over one image's names; the model defines it once here.
 */
module RuntimeObjectLists {
  import opened Seqs
  import opened Strings
  import opened RuntimeObjectTypes
  import opened SearchScopes

  /** `classNames.map { .class(named: $0) }`. */
  function ClassesOf(names: seq<string>): (r: seq<RuntimeObjectType>)
    ensures |r| == |names|
    ensures forall i :: 0 <= i < |r| ==> r[i] == Class(names[i])
    ensures forall x :: x in r ==> x.Class? && x.named in names
    ensures forall n :: n in names ==> Class(n) in r
  {
    var r := seq(|names|, i requires 0 <= i < |names| => Class(names[i]));
    assert forall n :: n in names ==> exists i :: 0 <= i < |names| && names[i] == n && r[i] == Class(n);
    r
  }

  /** `protocolNames.map { .protocol(named: $0) }`. */
  function ProtocolsOf(names: seq<string>): (r: seq<RuntimeObjectType>)
    ensures |r| == |names|
    ensures forall i :: 0 <= i < |r| ==> r[i] == Protocol(names[i])
    ensures forall x :: x in r ==> x.Protocol? && x.named in names
    ensures forall n :: n in names ==> Protocol(n) in r
  {
    var r := seq(|names|, i requires 0 <= i < |names| => Protocol(names[i]));
    assert forall n :: n in names ==> exists i :: 0 <= i < |names| && names[i] == n && r[i] == Protocol(n);
    r
  }

  /**
   * The list before the search filter: the classes when the scope includes
   * them, followed by the protocols when it includes them.
   */
  function Listed(classNames: seq<string>, protocolNames: seq<string>, scope: SearchScope): (r: seq<RuntimeObjectType>)
    ensures forall n :: Class(n) in r <==> scope.IncludesClasses() && n in classNames
    ensures forall n :: Protocol(n) in r <==> scope.IncludesProtocols() && n in protocolNames
    ensures forall i, j :: 0 <= i < j < |r| && r[j].Class? ==> r[i].Class?
    ensures |r| == (if scope.IncludesClasses() then |classNames| else 0) +
                   (if scope.IncludesProtocols() then |protocolNames| else 0)
  {
    var classes := if scope.IncludesClasses() then ClassesOf(classNames) else [];
    var protocols := if scope.IncludesProtocols() then ProtocolsOf(protocolNames) else [];
    var r := classes + protocols;
    r
  }

  /**
   * `runtimeObjectsFor`: everything listed while the search text is empty;
   * otherwise the listed objects whose name contains it, in order.
   */
  function RuntimeObjectsFor(classNames: seq<string>, protocolNames: seq<string>, searchString: string,
                             scope: SearchScope): (r: seq<RuntimeObjectType>)
    ensures searchString == [] ==> r == Listed(classNames, protocolNames, scope)
    ensures IsSubsequence(r, Listed(classNames, protocolNames, scope))
    ensures searchString != [] ==> forall i :: 0 <= i < |r| ==> ContainsIgnoringCase(r[i].Name(), searchString)
    ensures forall x :: x in Listed(classNames, protocolNames, scope) && ContainsIgnoringCase(x.Name(), searchString) ==>
      x in r
    ensures searchString != [] ==>
      forall x :: multiset(r)[x] ==
        (if ContainsIgnoringCase(x.Name(), searchString) then multiset(Listed(classNames, protocolNames, scope))[x] else 0)
  {
    var ret := Listed(classNames, protocolNames, scope);
    if searchString == [] then
      SubsequenceOfItself(ret);
      ret
    else
      var matches := (x: RuntimeObjectType) => ContainsIgnoringCase(x.Name(), searchString);
      var r := Filter(ret, matches);
      FilterCounts(ret, matches);
      assert forall i :: 0 <= i < |r| ==> matches(r[i]);
      assert forall x :: x in ret ==> exists i :: 0 <= i < |ret| && ret[i] == x;
      r
  }

  /** With no search text, the scope alone decides: all, only the classes, or only the protocols. */
  lemma UnfilteredByScope(classNames: seq<string>, protocolNames: seq<string>)
    ensures RuntimeObjectsFor(classNames, protocolNames, "", All) == ClassesOf(classNames) + ProtocolsOf(protocolNames)
    ensures RuntimeObjectsFor(classNames, protocolNames, "", Classes) == ClassesOf(classNames)
    ensures RuntimeObjectsFor(classNames, protocolNames, "", Protocols) == ProtocolsOf(protocolNames)
  {
    assert ClassesOf(classNames) + [] == ClassesOf(classNames);
    assert [] + ProtocolsOf(protocolNames) == ProtocolsOf(protocolNames);
  }

  /** `RuntimeObjectsViewModel`: the search inputs and the list they select. */
  class RuntimeObjectsViewModel {
    var searchString: string
    var searchScope: SearchScope
    var runtimeObjects: seq<RuntimeObjectType>

    /** `init()`: empty search, scope `.all`, so every class and then every protocol. */
    constructor (classList: seq<string>, protocolList: seq<string>)
      ensures searchString == "" && searchScope == All
      ensures runtimeObjects == ClassesOf(classList) + ProtocolsOf(protocolList)
    {
      searchString := "";
      searchScope := All;
      runtimeObjects := RuntimeObjectsFor(classList, protocolList, "", All);
      UnfilteredByScope(classList, protocolList);
    }

    /**
     * The `combineLatest` pipeline once it has delivered: the list for the
     * current search, scope and runtime listings.
     */
    method Refresh(classList: seq<string>, protocolList: seq<string>)
      modifies this
      ensures searchString == old(searchString) && searchScope == old(searchScope)
      ensures runtimeObjects == RuntimeObjectsFor(classList, protocolList, searchString, searchScope)
    {
      runtimeObjects := RuntimeObjectsFor(classList, protocolList, searchString, searchScope);
    }
  }
}
