/** SQL's three-valued logic: the values a CHECK constraint or a PL/pgSQL condition can take. */
module Sql {

  datatype Option<+T> = None | Some(value: T)

  /** A SQL truth value. */
  datatype Truth = True | False | Null

  function And(a: Truth, b: Truth): Truth {
    if a == False || b == False then False else if a == Null || b == Null then Null else True
  }

  function Or(a: Truth, b: Truth): Truth {
    if a == True || b == True then True else if a == Null || b == Null then Null else False
  }

  function Not(a: Truth): Truth {
    match a case True => False case False => True case Null => Null
  }

  function Of(b: bool): Truth { if b then True else False }

  /** `a = b` on nullable operands. */
  function Equal<T(==)>(a: Option<T>, b: Option<T>): Truth {
    if a.None? || b.None? then Null else Of(a.value == b.value)
  }

  /** `a != b` on nullable operands. */
  function NotEqual<T(==)>(a: Option<T>, b: Option<T>): Truth {
    Not(Equal(a, b))
  }

  /** `a < b` on nullable operands. */
  function Less(a: Option<int>, b: Option<int>): Truth {
    if a.None? || b.None? then Null else Of(a.value < b.value)
  }

  /** A CHECK constraint rejects a row only when it is FALSE; NULL passes. */
  predicate CheckPasses(t: Truth) { t != False }

  /** A PL/pgSQL IF takes its branch only when the condition is TRUE; NULL does not. */
  predicate Taken(t: Truth) { t == True }
}
