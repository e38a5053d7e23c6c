/** The cursor-based scanner. `readChar` is the only primitive that moves
    the cursor; the sub-scanners and `nextToken` are proved to compute what
    the functions of module ScanSpec describe. */
module Lexing {
  import opened Tokens
  import opened Chars
  import opened ScanSpec

  class Lexer {
    const input: string
    /** Index of the current character. */
    var position: nat
    /** Index of the next character to read. */
    var readPosition: nat
    /** The current character, or the sentinel once input is exhausted. */
    var ch: Ch

    /** The cursor invariant: the read position is one past the position,
        and `ch` is the character there or the sentinel. */
    ghost predicate Valid()
      reads this
    {
      readPosition == position + 1 && ch == CharAt(input, position)
    }

    /** A fresh lexer has read the first character. */
    constructor (input: string)
      ensures this.input == input && position == 0 && readPosition == 1
      ensures ch == CharAt(input, 0) && Valid()
    {
      this.input := input;
      position := 0;
      readPosition := 0;
      ch := End;
      new;
      ReadChar();
    }

    /** Moves the cursor one character forward. */
    method ReadChar()
      modifies this
      ensures position == old(readPosition) && readPosition == old(readPosition) + 1
      ensures ch == CharAt(input, old(readPosition))
      ensures Valid()
    {
      if readPosition >= |input| {
        ch := End;
      } else {
        ch := Char(input[readPosition]);
      }
      position := readPosition;
      readPosition := readPosition + 1;
    }

    /** The character after the current one, without moving the cursor. */
    method PeekChar() returns (next: Ch)
      requires Valid()
      ensures next == CharAt(input, position + 1)
    {
      if readPosition >= |input| {
        next := End;
      } else {
        next := Char(input[readPosition]);
      }
    }

    /** Consumes the longest run of letters at the cursor and returns it. */
    method ReadIdentifier() returns (literal: string)
      requires Valid()
      modifies this
      ensures Valid()
      ensures position == RunEnd(input, old(position), Letters)
      ensures literal == Substring(input, old(position), position)
    {
      var start := position;
      while IsLetter(ch)
        invariant Valid() && start <= position
        invariant RunEnd(input, start, Letters) == RunEnd(input, position, Letters)
        decreases |input| - position
      {
        ReadChar();
      }
      literal := Substring(input, start, position);
    }

    /** Consumes the longest run of digits at the cursor and returns it. */
    method ReadNumber() returns (literal: string)
      requires Valid()
      modifies this
      ensures Valid()
      ensures position == RunEnd(input, old(position), Digits)
      ensures literal == Substring(input, old(position), position)
    {
      var start := position;
      while IsDigit(ch)
        invariant Valid() && start <= position
        invariant RunEnd(input, start, Digits) == RunEnd(input, position, Digits)
        decreases |input| - position
      {
        ReadChar();
      }
      literal := Substring(input, start, position);
    }

    /** Steps over the opening quote and consumes up to the next quote or
        the end of input, returning the text in between. */
    method ReadString() returns (literal: string)
      requires Valid()
      modifies this
      ensures Valid()
      ensures position == RunEnd(input, old(position) + 1, Unquoted)
      ensures literal == Substring(input, old(position) + 1, position)
    {
      var start := position + 1;
      ReadChar();
      while ch != Char('"')
        invariant Valid() && start <= position
        invariant RunEnd(input, start, Unquoted) == RunEnd(input, position, Unquoted)
        decreases |input| - position
      {
        if ch == End {
          break;
        }
        ReadChar();
      }
      literal := Substring(input, start, position);
    }

    /** Consumes the run of whitespace at the cursor. */
    method SkipWhitespace()
      requires Valid()
      modifies this
      ensures Valid()
      ensures position == TokenStart(input, old(position))
    {
      while IsWhitespace(ch)
        invariant Valid() && old(position) <= position
        invariant TokenStart(input, old(position)) == RunEnd(input, position, Spaces)
        decreases |input| - position
      {
        ReadChar();
      }
    }

    /** Skips whitespace and returns the next token. */
    method NextToken() returns (token: Token)
      requires Valid()
      modifies this
      ensures Valid()
      ensures (token, position) == Step(input, old(position))
      ensures old(position) < position
    {
      SkipWhitespace();
      token := ScanToken();
    }

    /** The dispatch on the current character that follows the whitespace
        skip. Fixed-width tokens end with one shared advance; identifiers and
        integers advance themselves and return before it. */
    method ScanToken() returns (token: Token)
      requires Valid()
      modifies this
      ensures Valid()
      ensures (token, position) == Scan(input, old(position))
    {
      match ch {
        case Char('=') =>
          var next := PeekChar();
          if next == Char('=') {
            var first := ch.c;
            ReadChar();
            token := CreateToken(Eq, Text([first, ch.c]));
          } else {
            token := CreateToken(Assign, Text([ch.c]));
          }
        case Char('+') => token := CreateToken(Plus, Text([ch.c]));
        case Char('-') => token := CreateToken(Minus, Text([ch.c]));
        case Char('!') =>
          var next := PeekChar();
          if next == Char('=') {
            var first := ch.c;
            ReadChar();
            token := CreateToken(NotEq, Text([first, ch.c]));
          } else {
            token := CreateToken(Bang, Text([ch.c]));
          }
        case Char('/') => token := CreateToken(Slash, Text([ch.c]));
        case Char('*') => token := CreateToken(Asterisk, Text([ch.c]));
        case Char('<') => token := CreateToken(Lt, Text([ch.c]));
        case Char('>') => token := CreateToken(Gt, Text([ch.c]));
        case Char(',') => token := CreateToken(Comma, Text([ch.c]));
        case Char(';') => token := CreateToken(Semicolon, Text([ch.c]));
        case Char('(') => token := CreateToken(LParen, Text([ch.c]));
        case Char(')') => token := CreateToken(RParen, Text([ch.c]));
        case Char('{') => token := CreateToken(LBrace, Text([ch.c]));
        case Char('}') => token := CreateToken(RBrace, Text([ch.c]));
        case Char('[') => token := CreateToken(LBracket, Text([ch.c]));
        case Char(']') => token := CreateToken(RBracket, Text([ch.c]));
        case Char('"') =>
          var literal := ReadString();
          token := CreateToken(String, Text(literal));
        case Char(':') => token := CreateToken(Colon, Text([ch.c]));
        case End => token := CreateToken(Eof, Text(""));
        case Char(c) =>
          if IsLetter(ch) {
            var literal := ReadIdentifier();
            token := CreateToken(LookupIdentifier(literal), Text(literal));
            return;
          } else if IsDigit(ch) {
            var literal := ReadNumber();
            token := CreateToken(Int, Text(literal));
            return;
          } else {
            token := CreateToken(Illegal, Text([c]));
          }
      }
      ReadChar();
    }

    /** The iterator: calls `nextToken` while the read position is inside
        the input, whatever the kind of the token returned. */
    method Iterate() returns (tokens: seq<Token>)
      requires Valid()
      modifies this
      ensures Valid() && |input| <= readPosition
      ensures tokens == Yielded(input, old(position))
      ensures position == YieldEnd(input, old(position))
    {
      tokens := [];
      while readPosition < |input|
        invariant Valid()
        invariant tokens + Yielded(input, position) == Yielded(input, old(position))
        invariant YieldEnd(input, position) == YieldEnd(input, old(position))
        decreases |input| - readPosition
      {
        YieldedUnfold(input, position);
        var token := NextToken();
        assert (tokens + [token]) + Yielded(input, position) == tokens + ([token] + Yielded(input, position));
        tokens := tokens + [token];
      }
    }

    /** An iterator that stops on the EOF token instead: every token before
        EOF, and the lexer left just past EOF. */
    method TokensBeforeEof() returns (tokens: seq<Token>)
      requires Valid()
      modifies this
      ensures Valid() && |input| < position
      ensures tokens == UntilEof(input, old(position))
    {
      tokens := [];
      ghost var before := position;
      var token := NextToken();
      while token.kind != Eof
        invariant Valid()
        invariant (token, position) == Step(input, before)
        invariant tokens + UntilEof(input, before) == UntilEof(input, old(position))
        decreases |input| - before
      {
        tokens := tokens + [token];
        StepEof(input, before);
        before := position;
        token := NextToken();
      }
    }
  }
}
