// Expressions as the parser recognises them, names not yet resolved.  Forms
// are grouped by how many subexpressions they evaluate in their own block.
module Syntax {
  import opened Bytes
  import opened Values
  import opened Machine

  type BinaryOp = op: byte | OP_EQ <= op <= OP_LE || OP_BOR <= op <= OP_PERCENT witness OP_EQ
  type UnaryOp = op: byte | op == OP_NOT || op == OP_NEG || op == OP_BNOT witness OP_NOT

  datatype Form1 =
    | Assign(x: Sym)          // x = a
    | Unary(op: UnaryOp)      // !a  -a  ~a
    | Define(x: Sym)          // define x = a
    | MethodRef(x: Sym)       // a:x
    | SlotGet(x: Sym)         // a.x
    | Return                  // return a

  datatype Form2 =
    | Binary(op: BinaryOp)    // a op b
    | And                     // a && b
    | Or                      // a || b
    | While                   // while (a) b
    | SlotSet(x: Sym)         // a.x = b
    | Index                   // a[b]
    | DefSlot(x: Sym)         // define (a) x = b

  datatype Form3 =
    | If                      // if (a) b; else c
    | IndexSet                // a[b] = c

  datatype FormN =
    | Block                   // { es }
    | VecLit                  // [ es ]
    | Call(x: Sym)            // x(es)

  datatype FormH =
    | Apply                           // a(es), a not a plain name
    | Send(x: Sym, asSelf: bool)      // a:x(es), as(a):x(es)

  datatype FormF =
    | Lambda(params: seq<Sym>)                          // function (params) b
    | BindCC(x: Sym)                                    // bind-cc (x) b
    | DefMethod(a: Expr, x: Sym, params: seq<Sym>)      // define method (a) x (params) b

  datatype Exprs = Nil | Cons(head: Expr, tail: Exprs)

  // A missing initialiser, a missing `else` and a bare `return` stand for the
  // literal UNDEFINED; `define function x` is a Define of a Lambda.
  datatype Expr =
    | Lit(v: Value)
    | This
    | Var(x: Sym)
    | One(k1: Form1, a: Expr)
    | Two(k2: Form2, a: Expr, b: Expr)
    | Three(k3: Form3, a: Expr, b: Expr, c: Expr)
    | Many(kn: FormN, es: Exprs)
    | Headed(kh: FormH, a: Expr, es: Exprs)
    | Fun(kf: FormF, b: Expr)

  function Count(es: Exprs): nat {
    match es
    case Nil => 0
    case Cons(_, tl) => 1 + Count(tl)
  }
}
