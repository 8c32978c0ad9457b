/** The token vocabulary shared by the lexer and the parser (src/token.rs, src/lex.rs):
    line breaks, the 36 reserved words, the payload-carrying tokens and the end marker. */
module Tokens {

  datatype Token =
    | LF
    | CR
    | Var | Let | Const | True | False | Undefined | Null | Await | Async | Function
    | With | Delete | If | Else | Switch | Case | Default | Break | Continue | For
    | In | Do | While | Return | Try | Catch | Finally | Throw | New | This
    | Instanceof | Typeof | Class | Void | Yield | Debugger
    | Variable(name: string)
    | Digit(digits: string)
    | String(text: string)
    | Control(op: string)
    | Comment(note: string)
    | TemplateStr(raw: string)
    | Regex(body: string, flags: string)
    | EOF

  /** `is_keyword`: true exactly for the reserved words. */
  predicate IsKeyword(t: Token)
  {
    match t
    case Var | Let | Const | True | False | Undefined | Null | Await | Async | Function
      | With | Delete | If | Else | Switch | Case | Default | Break | Continue | For
      | In | Do | While | Return | Try | Catch | Finally | Throw | New | This
      | Instanceof | Typeof | Class | Void | Yield | Debugger => true
    case _ => false
  }

  /** The `Display` text of a token, as used in error messages: a payload for
      control, identifier and number tokens, the lower-case spelling for a
      reserved word, a fixed word for the rest. */
  function Display(t: Token): (r: string)
  {
    match t
    case Control(s) => s
    case Variable(s) => s
    case Digit(s) => s
    case Comment(_) => "Comment"
    case String(_) => "String"
    case EOF => "EOF"
    case Var => "var"
    case Let => "let"
    case Const => "const"
    case Undefined => "undefined"
    case Null => "null"
    case Await => "await"
    case Async => "async"
    case Function => "function"
    case With => "with"
    case Delete => "delete"
    case If => "if"
    case Switch => "switch"
    case Case => "case"
    case Default => "default"
    case Break => "break"
    case Continue => "continue"
    case For => "for"
    case While => "while"
    case Return => "return"
    case True => "true"
    case False => "false"
    case Else => "else"
    case In => "in"
    case Do => "do"
    case Try => "try"
    case Catch => "catch"
    case Finally => "finally"
    case Throw => "throw"
    case New => "new"
    case This => "this"
    case Instanceof => "instanceof"
    case Typeof => "typeof"
    case Class => "class"
    case Void => "void"
    case Yield => "yield"
    case Debugger => "debugger"
    case _ => "token"
  }

  /** The `Display` text of the token type of src/lex.rs, which src/express.rs
      and most builders format into their error messages: payloads as they
      are, each reserved word as its capitalised variant name, `String` and
      `EOF` as fixed words, `token` for the rest. */
  function LexDisplay(t: Token): string
  {
    match t
    case Control(s) => s
    case Variable(s) => s
    case Digit(s) => s
    case String(_) => "String"
    case EOF => "EOF"
    case Var => "Var"
    case Let => "Let"
    case Const => "Const"
    case Undefined => "Undefined"
    case Null => "Null"
    case Await => "Await"
    case Async => "Async"
    case Function => "Function"
    case With => "With"
    case Delete => "Delete"
    case If => "If"
    case Switch => "Switch"
    case Case => "Case"
    case Default => "Default"
    case Break => "Break"
    case Continue => "Continue"
    case For => "For"
    case While => "While"
    case Return => "Return"
    case True => "True"
    case False => "False"
    case Else => "Else"
    case In => "In"
    case Do => "Do"
    case Try => "Try"
    case Catch => "Catch"
    case Finally => "Finally"
    case Throw => "Throw"
    case New => "New"
    case This => "This"
    case Instanceof => "Instanceof"
    case Typeof => "Typeof"
    case Class => "Class"
    case Void => "Void"
    case Yield => "Yield"
    case Debugger => "Debugger"
    case _ => "token"
  }

  /** The upper-case letter of a lower-case one; any other character unchanged. */
  function Capital(c: char): char
  {
    if 'a' <= c <= 'z' then (c as int - 32) as char else c
  }

  /** `b` is `a` with its first letter capitalised. */
  predicate Capitalised(a: string, b: string)
  {
    |a| > 0 && b == [Capital(a[0])] + a[1..]
  }

  lemma KeywordDisplays1(t: Token)
    requires t == Var || t == Let || t == Const || t == Undefined || t == Null || t == Await || t == Async || t == Function || t == With
    ensures Capitalised(Display(t), LexDisplay(t))
  {
  }

  lemma KeywordDisplays2(t: Token)
    requires t == Delete || t == If || t == Switch || t == Case || t == Default || t == Break || t == Continue || t == For || t == While
    ensures Capitalised(Display(t), LexDisplay(t))
  {
  }

  lemma KeywordDisplays3(t: Token)
    requires t == Return || t == True || t == False || t == Else || t == In || t == Do || t == Try || t == Catch || t == Finally
    ensures Capitalised(Display(t), LexDisplay(t))
  {
  }

  lemma KeywordDisplays4(t: Token)
    requires t == Throw || t == New || t == This || t == Instanceof || t == Typeof || t == Class || t == Void || t == Yield || t == Debugger
    ensures Capitalised(Display(t), LexDisplay(t))
  {
  }

  lemma OtherDisplays(t: Token)
    requires !IsKeyword(t) && !t.Comment?
    ensures LexDisplay(t) == Display(t)
  {
    match t
    case Control(_) =>
    case Variable(_) =>
    case Digit(_) =>
    case String(_) =>
    case EOF =>
    case LF =>
    case CR =>
    case TemplateStr(_) =>
    case Regex(_, _) =>
  }

  /** The two `Display` texts differ only in that src/lex.rs capitalises the
      reserved words and has no text of its own for a comment. */
  lemma DisplaysAgree(t: Token)
    ensures IsKeyword(t) ==> Capitalised(Display(t), LexDisplay(t))
    ensures !IsKeyword(t) && !t.Comment? ==> LexDisplay(t) == Display(t)
    ensures t.Comment? ==> LexDisplay(t) == "token" && Display(t) == "Comment"
  {
    match t
    case Var | Let | Const | Undefined | Null | Await | Async | Function | With =>
      KeywordDisplays1(t);
    case Delete | If | Switch | Case | Default | Break | Continue | For | While =>
      KeywordDisplays2(t);
    case Return | True | False | Else | In | Do | Try | Catch | Finally =>
      KeywordDisplays3(t);
    case Throw | New | This | Instanceof | Typeof | Class | Void | Yield | Debugger =>
      KeywordDisplays4(t);
    case Comment(_) =>
    case _ =>
      OtherDisplays(t);
  }
}
