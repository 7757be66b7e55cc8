/** The reserved-word look-up of `scanIdentifier` (src/scanner/scanner.js) as written.

    `Scanner.reservedWords` is a plain object literal, and `scanIdentifier` indexes it
    with the lexeme and takes any truthy result as the token type. A plain object also
    answers for the names every object inherits, so a lexeme such as `constructor`
    finds a host function instead of nothing and is not scanned as an identifier.
    `Scanning.IdentifierKind` is the intended look-up, over the object's own entries
    only; this module states where the two part. */
module ReservedWordLookup {
  import opened Wrappers
  import opened Token
  import opened Scanning

  /** The names every plain object inherits, each bound to a truthy host value, that
      `scanIdentifier` can produce as a lexeme. */
  const InheritedNames: set<string> := {
    "constructor", "toString", "toLocaleString", "valueOf", "hasOwnProperty",
    "isPrototypeOf", "propertyIsEnumerable", "__proto__", "__defineGetter__",
    "__defineSetter__", "__lookupGetter__", "__lookupSetter__"
  }

  /** What indexing the object gives: one of its own entries, an inherited member, or
      `undefined`. */
  datatype Found = Own(kind: TokenType) | Inherited(name: string) | Missing

  function LookupAsWritten(lexeme: string): (r: Found)
    ensures r.Own? <==> lexeme in ReservedWords
    ensures r.Inherited? ==> r.name == lexeme && lexeme in InheritedNames
  {
    if lexeme in ReservedWords then Own(ReservedWords[lexeme])
    else if lexeme in InheritedNames then Inherited(lexeme)
    else Missing
  }

  /** The token type `scanIdentifier` as written gives: the entry's type, no token type at
      all for an inherited member, and `IDENTIFIER` when nothing was found. */
  function KindAsWritten(lexeme: string): (r: Option<TokenType>)
    ensures r.None? <==> lexeme in InheritedNames
    ensures r.Some? && r.value != TokenType.Identifier ==> lexeme in ReservedWords
  {
    InheritedNotReserved();
    match LookupAsWritten(lexeme)
    case Own(kind) => Some(kind)
    case Inherited(_) => None
    case Missing => Some(TokenType.Identifier)
  }

  /** Away from the inherited names the look-up as written is the intended one. */
  lemma AgreesAwayFromInherited(lexeme: string)
    ensures lexeme !in InheritedNames <==> KindAsWritten(lexeme) == Some(IdentifierKind(lexeme))
  {
    InheritedNotReserved();
  }

  /** No inherited name is a reserved word: each is longer than every reserved word. */
  lemma InheritedNotReserved()
    ensures forall w | w in InheritedNames :: w !in ReservedWords
  {
    forall w | w in InheritedNames ensures w !in ReservedWords {
      assert |w| > 6;
    }
  }

  /** `constructor` is made of letters only, so it is scanned as one lexeme; the intended
      look-up makes it an identifier, the look-up as written gives it no token type. */
  lemma ConstructorIsNotAnIdentifier()
    ensures forall k | 0 <= k < |"constructor"| :: IsLetter("constructor"[k])
    ensures IdentifierKind("constructor") == TokenType.Identifier
    ensures KindAsWritten("constructor") == None
  {
  }
}
