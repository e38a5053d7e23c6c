/** The token model of the interpreter: the closed set of token kinds, the
    literal payload, the record factory and the keyword table. */
module Tokens {

  /** The kinds of token. The kinds EQ, NOT_EQ, STRING, COLON, LBRACKET and
      RBRACKET are used by the lexer but not declared by the enum; they are
      added here with the tags given by Tag. */
  datatype TokenType =
    | Illegal | Eof
    | Ident | Int | String
    | Assign | Plus | Minus | Bang | Asterisk | Slash
    | Lt | Gt | Eq | NotEq
    | Comma | Semicolon | Colon
    | LParen | RParen | LBrace | RBrace | LBracket | RBracket
    | Function | Let

  /** The string value each kind carries in the enum. Operators and
      delimiters carry the very text they denote. */
  function Tag(k: TokenType): string
  {
    match k
    case Illegal => "ILLEGAL"
    case Eof => "EOF"
    case Ident => "IDENT"
    case Int => "INT"
    case String => "STRING"
    case Assign => "="
    case Plus => "+"
    case Minus => "-"
    case Bang => "!"
    case Asterisk => "*"
    case Slash => "/"
    case Lt => "<"
    case Gt => ">"
    case Eq => "=="
    case NotEq => "!="
    case Comma => ","
    case Semicolon => ";"
    case Colon => ":"
    case LParen => "("
    case RParen => ")"
    case LBrace => "{"
    case RBrace => "}"
    case LBracket => "["
    case RBracket => "]"
    case Function => "FUNCTION"
    case Let => "LET"
  }

  /** The kind whose enum value is `s`, if any: the inverse of Tag. */
  function KindOfTag(s: string): Option<TokenType>
  {
    if s == "ILLEGAL" then Some(Illegal)
    else if s == "EOF" then Some(Eof)
    else if s == "IDENT" then Some(Ident)
    else if s == "INT" then Some(Int)
    else if s == "STRING" then Some(String)
    else if s == "=" then Some(Assign)
    else if s == "+" then Some(Plus)
    else if s == "-" then Some(Minus)
    else if s == "!" then Some(Bang)
    else if s == "*" then Some(Asterisk)
    else if s == "/" then Some(Slash)
    else if s == "<" then Some(Lt)
    else if s == ">" then Some(Gt)
    else if s == "==" then Some(Eq)
    else if s == "!=" then Some(NotEq)
    else if s == "," then Some(Comma)
    else if s == ";" then Some(Semicolon)
    else if s == ":" then Some(Colon)
    else if s == "(" then Some(LParen)
    else if s == ")" then Some(RParen)
    else if s == "{" then Some(LBrace)
    else if s == "}" then Some(RBrace)
    else if s == "[" then Some(LBracket)
    else if s == "]" then Some(RBracket)
    else if s == "FUNCTION" then Some(Function)
    else if s == "LET" then Some(Let)
    else None
  }

  datatype Option<T> = None | Some(value: T)

  /** Every kind's enum value leads back to that kind. */
  lemma TagRoundTrip(k: TokenType)
    ensures KindOfTag(Tag(k)) == Some(k)
  {
  }

  /** No two kinds share an enum value. */
  lemma TagInjective(a: TokenType, b: TokenType)
    ensures Tag(a) == Tag(b) ==> a == b
  {
    TagRoundTrip(a);
    TagRoundTrip(b);
  }

  /** The operators and delimiters the lexer recognises from one character. */
  const SingleCharKinds: set<TokenType> :=
    {Assign, Plus, Minus, Bang, Asterisk, Slash, Lt, Gt,
     Comma, Semicolon, Colon, LParen, RParen, LBrace, RBrace, LBracket, RBracket}

  /** The one-character kind the lexer's dispatch selects for `c`. */
  function SingleCharKind(c: char): Option<TokenType>
  {
    match c
    case '=' => Some(Assign)
    case '+' => Some(Plus)
    case '-' => Some(Minus)
    case '!' => Some(Bang)
    case '/' => Some(Slash)
    case '*' => Some(Asterisk)
    case '<' => Some(Lt)
    case '>' => Some(Gt)
    case ',' => Some(Comma)
    case ';' => Some(Semicolon)
    case '(' => Some(LParen)
    case ')' => Some(RParen)
    case '{' => Some(LBrace)
    case '}' => Some(RBrace)
    case '[' => Some(LBracket)
    case ']' => Some(RBracket)
    case ':' => Some(Colon)
    case _ => None
  }

  /** The dispatch compares the current character against the enum values:
      `c` selects `k` exactly when `k` is a one-character kind whose value
      is `c`. */
  lemma SingleCharKindIsTag(c: char, k: TokenType)
    ensures SingleCharKind(c) == Some(k) <==> k in SingleCharKinds && Tag(k) == [c]
  {
    if k in SingleCharKinds && Tag(k) == [c] {
      assert Tag(k)[0] == c;
    }
  }

  /** A literal is text or the numeric sentinel 0. */
  datatype Literal = Text(text: string) | Sentinel

  datatype Token = Token(kind: TokenType, literal: Literal)

  /** The record factory: a token holding exactly the given kind and literal. */
  function CreateToken(kind: TokenType, literal: Literal): (t: Token)
    ensures t.kind == kind && t.literal == literal
  {
    Token(kind, literal)
  }

  /** The keyword table (own keys only). */
  const Keywords: map<string, TokenType> := map["fn" := Function, "let" := Let]

  /** The kind of an identifier: an exact, case-sensitive lookup in the
      keyword table, with IDENT for every other word. */
  function LookupIdentifier(ident: string): (k: TokenType)
    ensures k == Ident || k == Function || k == Let
    ensures k == Function <==> ident == "fn"
    ensures k == Let <==> ident == "let"
  {
    if ident in Keywords then Keywords[ident] else Ident
  }

  /** Near misses and inherited property names are plain identifiers. */
  lemma LookupIsExact()
    ensures LookupIdentifier("fn") == Function && LookupIdentifier("let") == Let
    ensures LookupIdentifier("Let") == Ident && LookupIdentifier("lets") == Ident
    ensures LookupIdentifier("f") == Ident && LookupIdentifier("foobar") == Ident
    ensures LookupIdentifier("toString") == Ident && LookupIdentifier("constructor") == Ident
  {
  }
}
