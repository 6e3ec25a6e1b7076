/**
 * `CDSemanticType`, the syntax role the external class-dump library attaches
 * to each piece of a generated declaration. `Other` stands for any case the
 * app does not name (the `default:` branches of its switches).
 */
module SemanticTypes {
  datatype SemanticType =
    | Standard
    | Comment
    | Keyword
    | Variable
    | RecordName
    | Class
    | Protocol
    | Numeric
    | Other(code: int)
}
