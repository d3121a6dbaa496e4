/** The checker's symbol types (the enum used by the symbol table, the function
    signatures and the type annotations of the calculus). */
module Types {
  datatype Type = Opaque | Integer | Bitstring | Real | Map | Expr
}
